# Application Controller: a verified model

The Application Controller turns one `Application` object into a set of Kubernetes objects (service account, role
bindings, cluster role bindings, services, pod monitor, ingress route, cron jobs, deployment) and keeps the deployed
image up to date by watching a registry. This project models its behaviour in Dafny and proves what the controller
is meant to guarantee.

## What is modelled

**The controller as a machine over the cluster.** `Cluster` holds Applications, child objects, the rules of the API
server (versions, finalizers, conflicts) and the history of all steps. Every API call of a pass first lets everyone
else act, as an oracle decides: users create, edit and delete Applications, anyone edits children, workers of other
Applications take steps, calls are rejected, or take effect and are reported as failed. `Reconcile` gives the pass as
functions, `Mutators` what each child should look like. `Reconciler` is the controller in its own imperative form and
is proved equal to those functions, call by call, for every oracle. About them:

- `Safety`: no orphaned cluster role binding in any state of any run, by assume/guarantee among the workers.
- `Frame`, `FrameRuns`, `FrameExact`: strangers' objects are left alone if and only if nobody puts one under a child's
  name while the pass runs, for one call and for whole runs. Who is a stranger is said in the fields of owner references
  and annotations, not through the controller's own check.
- `Updates`: no user's edit of an Application is lost.
- `Convergence`, `Passes`: what an error-free pass leaves behind, exactly; the misplaced role; fail-fast.
- `Workloads`: the same in terms of the spec alone: which children exist, what runs, which ports are exposed.
- `Traces`, `Retained`: what of an earlier spec an error-free pass leaves in place, exactly.
- `Feasibility`: when an undisturbed pass succeeds, exactly; children of two Applications under one name.
- `Quiescence`: the next pass writes nothing, and so for good; a rank falls with every clean pass.

**The image watcher.** `Cache`, `CronScheduler` and `CronWatcher` hold the objects and their specifications;
`WatcherRuns` interleaves the steps of concurrent calls (`FetchRuns`) and of event senders (`EventRuns`).

**The algorithms.** `IngressRoute` (auth policy to rule table, with an independent reading of the table), `Semver` and
`ImageFinder` (selection by precedence), `PortMerge` (both port mergers, one scheme), `Names`, `ImageRefs`,
`NamespacedNameFlag` (encodings).

`dafny verify dfyconfig.toml` checks everything.

## Where the code does not do what one would expect

Each of these is kept as the code has it, shown to happen, and delimited exactly.

- A cluster-scoped role that is not a ClusterRole is logged as an error, but the error returned is nil
  (`internal/controller/application_controller.go:356-359`): the stage succeeds, later roles are skipped and nothing is
  pruned. The stage makes the bindings exact if and only if no role is misplaced (`Passes.PrunesExactlyWhenPlaced`).
- Ownership is checked on one read, create-or-patch and delete work after it (`application_controller.go:575-636`), so a
  foreign object that appears in between is taken over, patched or deleted (`Frame.TakenOver`,
  `Frame.ReplacedBeforePatch`, `Frame.ReplacedBeforeDelete`). A call respects ownership exactly when no such object may be
  put under the child's name (`Frame.FramedIffNoThreat`), and all runs do exactly when none may be put under a name the
  pass can reach (`FrameExact.RunsFramedIffHarmless`).
- A failed reschedule leaves a handle whose job is gone, and asking again for the recorded schedule reports success
  (`internal/images/cronwatcher.go:272-286`; `CronScheduler.FailedRescheduleBreaksKey`, `BrokenKeyStaysDead`).
- A job fires with the Application copy of the upsert that set it up (`cronwatcher.go:283`;
  `CronScheduler.JobHoldsLatestCopy`), which later upserts with the same schedule do not refresh. After an edit of the
  image alone, the firing therefore leaves the current image entry in the cache (`EventRuns.EditedImageSurvives`); in every
  run the entry goes exactly when that upsert had the current image spec (`EventRuns.FiringClearsCurrentEntry`).
- A `FindImage` call in flight during an invalidation stores its old answer afterwards (`FetchRuns.StaleAnswerHappens`);
  invalidation is final exactly when no call for the spec holds an answer
  (`FetchRuns.InvalidationIsFinalIffNothingInFlight`).
- A retained service port keeps its number (`internal/controller/service.go:48-49`), and host network and security context
  are never cleared (`internal/controller/deployment.go:47-53`, `88-97`): an error-free pass can leave all three as an
  earlier spec had them (`Retained.EditedSpecIsNotFollowed`). A service has the spec's number exactly when the live ports of
  that name had it or there were none (`Retained.ServiceNumberFollowsIff`, `LBServiceNumberFollowsIff`), and a pod has the
  spec's host network and security context exactly when the spec sets them or they were off before
  (`Retained.PodFollowsIff`, `JobFollowsIff`).
- An exclusion inside the auth prefix whose rule is longer takes requests away from the auth service: what begins with the
  prefix goes there exactly when no exclusion that exempts it has a rule at least as long
  (`internal/controller/ingress_route.go:107-152`; `IngressRoute.CompiledTableGoesWhereWanted`).
- Two desired ports of one name make the service patch itself once more (`PortMerge.DuplicateNamesAreRewritten`); one merge
  is a fixpoint exactly for stable lists (`PortMerge.FixpointIffStable`), two are for every list
  (`PortMerge.TwoMergesSettle`).
- Two entries of a spec that name one child but ask for different contents overwrite each other on every pass, which
  then never comes to rest (`Quiescence.InconsistentPassWrites`). For every spec, all passes after two error-free ones write
  nothing exactly when there are no such entries (`Quiescence.QuietForGoodIffConsistent`).
- Names of cron jobs and cluster role bindings of different Applications can coincide
  (`Names.ChildNamesCollideAcrossApplications`). The Application that comes second then has its pass fail
  (`Feasibility.CollisionFailsSecond`; `CronJobsCollide` is a case); undisturbed, a pass succeeds exactly when the spec is
  feasible and nothing foreign is under its children's names (`Feasibility.PassSucceedsIff`).
- `README.md` of the repository says that not hammering the registry on errors is solved by caching image references,
  but errors are never cached (`CronWatcher.CacheRemembersSource`): only successful calls are limited. It also mentions
  a flag `--ingress-annotations`, which the code does not have.

## Model

| member | source | states |
|---|---|---|
| Safety.NoOrphansEver | internal/controller/application_controller.go:183-283 | In every recorded state of every run of passes for any Applications, with any edits, failures and other workers between any two calls, a cluster role binding annotated as owned by an Application has that Application, finalizer in place; and every worker's step is one the other workers may assume. |
| Safety.PassIsSafe | internal/controller/application_controller.go:183-283 | One pass, from any safe state and under any oracle, records safe states only, whichever branch it takes and wherever it fails. |
| Safety.CleanupIsSafe | internal/controller/application_controller.go:211-231 | The finalizer goes only when no binding of the Application is left, and none can come back between the listing and the update. |
| Safety.SweepIsSafe | internal/controller/application_controller.go:500-513 | Deletions in any order, with others acting in between, keep the finalizer and, once complete, leave none of the given bindings. |
| Safety.StagesAreSafe | internal/controller/application_controller.go:236-268 | The child stages keep the cluster free of orphans and never lose the finalizer. |
| Safety.ResourceIsSafe | internal/controller/application_controller.go:558-645 | Reconciling one child keeps safety; a deletion that reports success left no such object. |
| Safety.UpdateAppIsSafe | internal/controller/application_controller.go:202-231 | Writing the Application back is safe if the copy has the finalizer or no binding is left. |
| Safety.WorkerStepKeepsNoOrphans | internal/controller/application_controller.go:657-690 | Steps of the kind each worker guarantees keep the cluster free of orphans: one worker per Application is enough. |
| Safety.OtherWorkerIsReliable | internal/controller/application_controller.go:657-690 | Such a step of another worker leaves my finalizer and adds no binding of mine. |
| Safety.ActIsSafe | internal/controller/application_controller.go:202-234 | Whatever users and others do under the API server's finalizer rules keeps safety and what a worker relies on. |
| Frame.FramedIffNoThreat | internal/controller/application_controller.go:574-642 | Upserting or deleting a child of any kind leaves foreign objects and all owners alone, in every cluster and under every failure and timing, if and only if the puts others are allowed under its name are no threat: for a cluster role binding none without a claim, for a namespaced child none the Application does not own, for an upsert that edits nothing none without a controller; an upsert that cannot succeed is never threatened. |
| Frame.HarmlessCallIsFramed | internal/controller/application_controller.go:584-636 | The sufficient half, for any calls that fail and any other acts of others. |
| Frame.TakenOver | internal/controller/application_controller.go:584-608 | The converse, case one: an object without owner that appears between the two reads becomes the Application's. |
| Frame.ReplacedBeforePatch | internal/controller/application_controller.go:595-608 | Case two: a foreign object that replaces an owned one after the second read is patched. |
| Frame.ReplacedBeforeDelete | internal/controller/application_controller.go:584-636 | Case three: a foreign object that replaces an owned one after the check is deleted. |
| FrameExact.RunsFramedIffHarmless | internal/controller/application_controller.go:183-283 | Every pass of every run from every start respects ownership if and only if what others may do during it is harmless to its Application: anything but putting a foreign object under a name the pass can reach, that is a swept kind in its namespace, a cluster role binding, or one of its fixed names. |
| FrameExact.PassViolates | internal/controller/application_controller.go:183-283 | For each name in reach and each foreign object there is a cluster, and a moment in a pass over it, at which putting the object breaks the frame. |
| FrameRuns.FrameOverRuns | internal/controller/application_controller.go:183-283 | The sufficient half over runs of passes for any Applications with any failures, colliding child names and any acts between passes included: no own step changes or deletes a stranger (no controller, one of another group or name, another namespace; or annotations of another type or name), and none changes an owner. |
| Frame.StrangerIsRefused | internal/controller/application_controller.go:584-588 | A stranger under the name when a call reads is refused with NotOwned before anything is written, wanted or not. |
| Frame.LateStrangerIsRefused | internal/controller/application_controller.go:595-608 | One with a controller that appears between the two reads of an upsert is refused with AlreadyOwned. |
| Updates.NoUpdateIsLost | internal/controller/application_controller.go:202-234 | Whatever happens between the calls and whichever fail, no own step of a pass changes the spec, the deletion mark or other controllers' finalizers of any Application, creates one, or removes one that is not marked and free to go. |
| Reconcile.MergePatchLaws | internal/controller/application_controller.go:595-608 | An undisturbed patch reaches its goal; a patch without a goal, or of the owner alone, keeps what others made of the content meanwhile. |
| Frame.OwnerStays | internal/controller/application_controller.go:595-608 | Setting the owner of an owned object is refused or leaves the owner as it was. |
| FrameRuns.StageSweepIsNeverRefused | internal/controller/application_controller.go:290-380 | Under harmless interference a mark-and-sweep stage is refused for lack of ownership over an upsert only, never over a deletion of what the owner index returned. |
| FrameRuns.CleanupIsNeverRefused | internal/controller/application_controller.go:500-513 | Nor is the clean-up of a deleted Application. |
| Convergence.StagesConverge | internal/controller/application_controller.go:236-283 | Undisturbed, every completed stage's part of the goal holds at the end of the run, the earlier ones included; a failing stage ends it with its number. |
| Convergence.StageEstablishes | internal/controller/application_controller.go:285-498 | A stage that succeeds leaves each wanted child settled, unwanted ones gone, and the owned set exact. |
| Convergence.ManyEstablishes | internal/controller/application_controller.go:290-332 | Mark and sweep: after success the owner index lists exactly the named children, for every order of the sweep. |
| Convergence.StageStaysInRegion | internal/controller/application_controller.go:285-498 | Succeeding or failing, a stage changes no child outside its own kind or name, and no Application. |
| Convergence.RegionsAreDisjoint | internal/controller/names.go:34-101 | No two stages handle the same child, although most children share the Application's name. |
| Convergence.UpsertAllSettles | internal/controller/application_controller.go:308-320 | After a completed run of upserts each named child is as the last entry naming it wants, and the index lists it. |
| Convergence.UpsertSettles | internal/controller/application_controller.go:590-625 | A successful upsert leaves a child that passes the ownership check and that a further upsert would not change. |
| Convergence.SweepQuietly | internal/controller/application_controller.go:322-329 | A completed sweep removes exactly the given children. |
| Passes.OwnedSetIsExact | internal/controller/application_controller.go:290-380 | After an error-free pass the children controlled by the Application are exactly those named: a role binding for each role without scope or of scope Namespace, a cluster role binding for each of scope Cluster (all of them ClusterRoles), a cron job for each entry. |
| Passes.RoleBindingIsLast | internal/controller/application_controller.go:308-320 | A role binding has the role of the last entry of the spec naming it, and the Application's account as subject. |
| Passes.ClusterRoleBindingIsLast | internal/controller/application_controller.go:350-368 | Likewise a cluster role binding, for the entries before the first misplaced one. |
| Passes.CronJobIsLast | internal/controller/application_controller.go:460-498 | A cron job has the schedule and command of the last entry naming it, and runs the looked-up image under the Application's account. |
| Feasibility.PassSucceedsIff | internal/controller/application_controller.go:236-283 | Undisturbed and without failing calls, a pass of a steady Application succeeds if and only if an image is known, the load balancer's port names are the Application's, wanted metrics have a port, a wanted ingress has a valid host, a port and, when protected, a valid auth configuration, and nothing foreign is under the name of a child. |
| Feasibility.ObstructedPassFails | internal/controller/application_controller.go:584-588 | A foreign object under a child's name makes every undisturbed pass report an error. |
| Feasibility.CollisionFailsSecond | internal/controller/application_controller.go:584-588 | When two Applications write children of one name, an undisturbed pass of one after an error-free pass of the other reports an error. |
| Feasibility.CronJobsCollide | internal/controller/names.go:96-101 | A case: the job b-c of a and the job c of a-b. |
| Feasibility.StagesSucceed | internal/controller/application_controller.go:236-268 | In that case no stage fails. |
| Feasibility.GoodPassesExist | internal/controller/application_controller.go:183-283 | Every such spec has an error-free pass. |
| Workloads.ChildrenAreAsSpecified | internal/controller/application_controller.go:382-427 | After an error-free pass exactly the children the spec asks for exist, each with the Application as controller: no service without ports, no load balancer, monitor or route that is not wanted. |
| Workloads.DeploymentRunsImage | internal/controller/deployment.go:24-104 | The Deployment runs the image the lookup answered, under the Application's account, with the spec's fields, host network and security context when asked for, and exactly its port names. |
| Workloads.StatusTellsDeployment | internal/controller/application_controller.go:269-283 | The status has the looked-up image, a new time exactly if it changed, and as Ready the Deployment's availability where it has one; nothing else of the Application changes. |
| Workloads.SelectorsMatchPods | internal/controller/service.go:28 | The services and the monitor select exactly the labels of the Deployment's pods. |
| Workloads.ServiceExposesPorts | internal/controller/service.go:15-63 | The service exposes exactly the spec's port names, each towards a port of that name with its protocol, whatever was there before. |
| Workloads.LBServiceExposesPorts | internal/controller/lbservice.go:20-48 | The load balancer exposes exactly the asked names, all known to the Application, under the asked host. |
| Workloads.MonitorScrapes | internal/controller/podmonitor.go:20-51 | The monitor scrapes the asked port or the first called metrics or prometheus, on the asked path or /metrics. |
| Workloads.RouteServesPolicy | internal/controller/application_controller.go:410-427 | For every path the deployed route serves the host, with the auth middleware exactly where the policy wants it, and sends the request to the Application's service or the auth service as the policy wants; the DNS target is the configured one. |
| Passes.OnlyRolesBeforeMisplaced | internal/controller/application_controller.go:349-368 | Roles from the first one of scope Cluster that is no ClusterRole on are not looked at. |
| Passes.MisplacedRolePrunesNothing | internal/controller/application_controller.go:356-359 | With a misplaced role, every binding that the roles before it do not name stays as it is. |
| Passes.PrunesExactlyWhenPlaced | internal/controller/application_controller.go:334-380 | The stage makes the cluster role bindings exact from every cluster if and only if no role is misplaced. |
| Passes.FailFast | internal/controller/application_controller.go:236-283 | With any interference: when stage k is the first to fail, the worker wrote children of stages 0 to k only and no Application, and the status submitted has Ready False with the reason of stage k, from the written-out list; the pass returns the stage's error and the update's, or asks for another pass on a conflict. |
| Passes.FailedPassKeepsPrefix | internal/controller/application_controller.go:236-268 | Undisturbed, what the stages before the failing one are for holds when it fails. |
| Passes.StageOwnSteps | internal/controller/application_controller.go:285-498 | Every write of a stage is on a child of its region, whatever others do. |
| Passes.StagesOwnSteps | internal/controller/application_controller.go:236-268 | The writes of a run are on children of the stages up to the one that ended it. |
| Passes.GoodPassConverges | internal/controller/application_controller.go:236-283 | An error-free undisturbed pass reaches the goal of all nine stages. |
| Quiescence.SecondPassQuietIffConsistent | internal/controller/application_controller.go:590-642 | The pass after an error-free one, same spec and image answer, writes nothing (no create, patch, delete or status write) if and only if no two entries of the spec ask for different contents of one child. |
| Quiescence.QuietForGoodIffConsistent | internal/controller/application_controller.go:590-642 | For every spec, duplicate port names included: after two error-free passes no later pass writes anything if no two entries ask for different contents of one child, and otherwise the very next one does. |
| Quiescence.TwoPassesRest | internal/controller/application_controller.go:595-608 | Two error-free passes bring every single child to where create-or-patch leaves it alone, whatever ports are asked for. |
| Quiescence.RestsForGood | internal/controller/application_controller.go:236-283 | From rest no sequence of calm passes writes anything. |
| Quiescence.RestingIsLeftAlone | internal/controller/application_controller.go:590-625 | A child at rest is not written. |
| Quiescence.SecondPassWritesNothing | internal/controller/application_controller.go:447-455 | With consistent entries it also reports success and leaves image, image time and Ready as they are. |
| Quiescence.InconsistentPassWrites | internal/controller/application_controller.go:308-320 | With inconsistent entries a pass over a converged Application still writes. |
| Quiescence.ConvergedIsLeftAlone | internal/controller/application_controller.go:236-283 | Any pass over a converged, consistent Application whose status says what the Deployment says writes nothing. |
| Quiescence.StagesAreLeftAlone | internal/controller/application_controller.go:236-268 | On a converged cluster, with consistent entries, the stages only read, and succeed. |
| Quiescence.CleanPassLowersRank | internal/controller/application_controller.go:197-283 | Every error-free, conflict-free pass strictly lowers the rank until it is zero, keeps the spec, and keeps a live Application. |
| Quiescence.FirstPassesSetUp | internal/controller/application_controller.go:197-210 | The first clean pass sets Ready to Unknown, the next adds the finalizer, and neither does anything else. |
| Quiescence.LiveSettlesInThree | internal/controller/application_controller.go:197-283 | A live Application has conditions, finalizer and all children converged after three such passes. |
| Quiescence.DeletingIsCleanedInTwo | internal/controller/application_controller.go:211-234 | A deleting one has lost finalizer and all cluster role bindings after two. |
| Quiescence.RankMany | internal/controller/application_controller.go:197-283 | As many clean passes as the rank bring it to zero. |
| Reconciler.ApplicationReconciler.Reconcile | internal/controller/application_controller.go:183-283 | The imperative pass ends in exactly the modelled cluster and result for every oracle, and keeps safety. |
| Reconciler.ApplicationReconciler.ReconcileLive | internal/controller/application_controller.go:236-283 | The stages in order, the first failure put on Ready, the Deployment's availability otherwise. |
| Reconciler.ApplicationReconciler.ReconcileAccess | internal/controller/application_controller.go:236-246 | Service account and bindings, in order, up to the first error. |
| Reconciler.ApplicationReconciler.ReconcileWorkloads | internal/controller/application_controller.go:248-266 | Services, monitor, route and cron jobs, in order, up to the first error. |
| Reconciler.ApplicationReconciler.Cleanup | internal/controller/application_controller.go:211-231 | Bindings first, then the finalizer. |
| Reconciler.ApplicationReconciler.ReconcileResource | internal/controller/application_controller.go:558-645 | Get, ownership check, create-or-patch or delete; same cluster, error and object as the function; a stranger that is found is refused and left alone. |
| Reconciler.ApplicationReconciler.CreateOrPatch | internal/controller/application_controller.go:595-608 | Second read, mutator and owner in memory, then create, patch or nothing; an object read before but gone by now is refused. |
| Reconciler.ApplicationReconciler.MutateAndOwn | internal/controller/application_controller.go:595-608 | The callback: the mutator's edits, then the owner reference or annotations. |
| Reconciler.ApplicationReconciler.EnsureResource | internal/controller/application_controller.go:527-537 | Reconciles a wanted child. |
| Reconciler.ApplicationReconciler.EnsureNoResource | internal/controller/application_controller.go:539-549 | Reconciles an unwanted child. |
| Reconciler.ApplicationReconciler.EnsureNoClusterRoleBindings | internal/controller/application_controller.go:500-513 | Lists the owned bindings and deletes them one by one, up to the first error. |
| Reconciler.ApplicationReconciler.ReconcileServiceAccount | internal/controller/application_controller.go:285-288 | Stage 0. |
| Reconciler.ApplicationReconciler.ReconcileRoleBindings | internal/controller/application_controller.go:290-332 | Stage 1: list, upsert and mark as seen, delete the unseen. |
| Reconciler.ApplicationReconciler.ReconcileClusterRoleBindings | internal/controller/application_controller.go:334-380 | Stage 2, ending early and without error at a misplaced role. |
| Reconciler.ApplicationReconciler.ReconcileService | internal/controller/application_controller.go:382-387 | Stage 3. |
| Reconciler.ApplicationReconciler.ReconcileLBService | internal/controller/application_controller.go:389-394 | Stage 4. |
| Reconciler.ApplicationReconciler.ReconcilePodMonitor | internal/controller/application_controller.go:396-408 | Stage 5, skipped without Prometheus. |
| Reconciler.ApplicationReconciler.ReconcileIngressRoute | internal/controller/application_controller.go:410-427 | Stage 6, skipped without Traefik. |
| Reconciler.ApplicationReconciler.ReconcileCronJobs | internal/controller/application_controller.go:460-498 | Stage 7: list, upsert and mark as seen, delete the unseen. |
| Reconciler.ApplicationReconciler.ReconcileDeployment | internal/controller/application_controller.go:429-458 | Stage 8: a changed image is noted with its time in the local status, and only on success. |
| Reconciler.ApplicationReconciler.UpdateStatus | internal/controller/application_controller.go:772-785 | A conflict asks for another pass and is no error; other errors are. |
| Reconciler.ApplicationReconciler.UpdateStatusWithError | internal/controller/application_controller.go:787-796 | Ready False with the reason is submitted, and both errors are returned. |
| Cluster.ListOwned | internal/controller/application_controller.go:709-755 | Whatever an owner index returns is of the kind, exists and is no stranger to the Application. |
| Passes.ListedIs | internal/controller/application_controller.go:709-755 | What it returns, in fields: the namespaced objects of the kind with exactly the Application's controller reference, and the bindings with exactly its annotations. |
| Mutators.WrittenObjectIsOwned | internal/controller/application_controller.go:599-606 | A written object has exactly the Application's controller reference, or its two annotations, and keeps the other; so it is no stranger. |
| Mutators.MutateIsIdempotent | internal/controller/deployment.go:24-104 | Every mutator, run on its own result, changes nothing, from any object and with merge-stable ports. |
| Mutators.DesiredIsIdempotent | internal/controller/application_controller.go:595-608 | One patch reaches what a patch aims for. |
| Mutators.DistinctPortsAreStable | internal/controller/service.go:15-31 | Distinct port names in the spec make all three port lists merge-stable. |
| Mutators.SucceedsIff | internal/controller/application_controller.go:595-598 | Whether a mutator succeeds is up to the spec and the image lookup, never to the object; the condition, for each. |
| Mutators.TwoMutationsSettle | internal/controller/service.go:33-63 | Mutating three times is mutating twice, from any object and with any ports. |
| Mutators.TwoPatchesSettle | internal/controller/application_controller.go:595-608 | Two patches reach what a patch aims for, whatever the ports. |
| Traces.PassMakes | internal/controller/application_controller.go:236-283 | After an error-free pass a wanted single child is what one create-or-patch makes of the child before the pass. |
| Retained.ServiceNumberFollowsIff | internal/controller/service.go:46-53 | After an error-free pass the service has the spec's number for a port if and only if every live port of that name already had it or, where none was live, every port of that name in the spec has it. |
| Retained.LBServiceNumberFollowsIff | internal/controller/lbservice.go:24-46 | Likewise the load-balancer service, for the last port of the asked name. |
| Retained.PodFollowsIff | internal/controller/deployment.go:47-97 | The Deployment has the spec's host network if and only if the spec asks for it or it was off before, and the spec's security context if and only if the spec has one or there was none; the DNS policy follows host network or stays. |
| Retained.JobFollowsIff | internal/controller/cronjob.go:73-83 | A cron job has the spec's security context if and only if the spec has one or it had none before. |
| Retained.EditedSpecIsNotFollowed | internal/controller/service.go:48-49 | A case of each: an error-free pass leaves port 80, host network and security context in place although the spec now says 8080 and neither. |
| Mutators.EditService | internal/controller/service.go:15-31 | The in-place edit equals the mutator function. |
| Mutators.EditLBService | internal/controller/lbservice.go:20-48 | Likewise; an unknown port name is found before anything is assigned. |
| Mutators.EditDeployment | internal/controller/deployment.go:24-104 | Likewise; a failed image check leaves the object alone. |
| Mutators.EditCronJob | internal/controller/cronjob.go:20-88 | Likewise. |
| Mutators.FindMetricsPort | internal/controller/podmonitor.go:20-34 | The explicit port, else the first port called metrics or prometheus, else none. |
| Mutators.MetricsPortIsFirst | internal/controller/podmonitor.go:22-30 | No earlier port has either name. |
| PortMerge.MergedNames | internal/controller/service.go:33-63 | Surviving live names in live order, then missing desired names in desired order; the name set is the desired one. |
| PortMerge.MergeIsFixpoint | internal/controller/service.go:33-63 | Merging again changes nothing, for merge-stable desired lists and any live list. |
| PortMerge.FixpointIffStable | internal/controller/deployment.go:106-136 | Merging is a fixpoint over all live lists if and only if the desired list is stable. |
| PortMerge.TwoMergesSettle | internal/controller/service.go:33-63 | Two merges reach a fixpoint from any live list, for every desired list, duplicate names included. |
| PortMerge.NumberedIff | internal/controller/service.go:46-60 | The merged ports of a wanted name have a number if and only if the live ports of that name have it or, with none live, the desired ones. |
| PortMerge.DistinctNamesAreStable | internal/controller/service.go:41-43 | Distinct names are enough. |
| PortMerge.DuplicateNamesAreRewritten | internal/controller/service.go:47-53 | With two desired ports of one name one merge is not enough. |
| PortMerge.EmptyShortcutAgrees | internal/controller/service.go:34-36 | The shortcut for no live ports agrees with the general loops. |
| PortMerge.RetainedServicePort | internal/controller/service.go:46-53 | A retained port keeps all but target and protocol, its number included. |
| PortMerge.RetainedContainerPort | internal/controller/deployment.go:119-126 | A retained container port keeps all but number and protocol. |
| PortMerge.ReconcileServicePorts | internal/controller/service.go:33-63 | The loops compute the merge. |
| PortMerge.ReconcileContainerPorts | internal/controller/deployment.go:106-136 | The loops compute the merge. |
| PortMerge.IndexByName | internal/controller/lbservice.go:24-27 | The by-name table holds the last port of each name. |
| PortMerge.WantedIsLast | internal/controller/service.go:41-43 | The wanted port of a name is the last desired one of it. |
| IngressRoute.CompiledTableMeansPolicy | internal/controller/ingress_route.go:88-179 | For every path on the host some route is selected under longest-rule priority, and every selected one carries the middlewares the policy asks for. |
| IngressRoute.AuthGuardsExactlyTheRest | internal/controller/ingress_route.go:102-160 | The auth middleware is added if and only if neither the auth prefix nor an exclusion matches the path. |
| IngressRoute.CompiledTableGoesWhereWanted | internal/controller/ingress_route.go:107-160 | Under longest-rule priority, every selected route goes to the Application's service on the resolved port, except that with authentication a path that begins with the auth prefix goes to the auth service, unless an exclusion that exempts it has a longer rule; with one just as long, routes to both are selected. |
| IngressRoute.HostnameIff | internal/controller/ingress_route.go:21-24 | The host expression accepts exactly non-empty strings of letters, digits, hyphens and dots with a letter or digit at both ends and beside every dot. |
| IngressRoute.ResolvesFirst | internal/controller/ingress_route.go:64-75 | The resolved port is the first called http or web. |
| IngressRoute.FallbackIsShortest | internal/controller/ingress_route.go:153-160 | The catch-all rule is strictly shorter than any rule with a path. |
| IngressRoute.RowsReadBack | internal/controller/ingress_route.go:107-160 | Each rule string reads back as the rule it was written for. |
| IngressRoute.ReadUndoesRender | internal/controller/ingress_route.go:135-141 | Reading undoes writing for literal paths and hosts. |
| IngressRoute.HostnameHasNoBacktick | internal/controller/ingress_route.go:21-24 | A host the expression accepts cannot end the quotation early. |
| IngressRoute.Mutate | internal/controller/ingress_route.go:56-182 | The in-place edit equals the compiler, error cases and the annotation written before a failing validation included. |
| IngressRoute.CopyMiddlewares | internal/controller/ingress_route.go:184-193 | Copies the list in order. |
| IngressRoute.FindPort | internal/controller/ingress_route.go:64-79 | The explicit port, else the first port called http or web, else none. |
| FetchRuns.EveryAnswerGenuine | internal/images/cronwatcher.go:114-133 | In every interleaving, what is cached or returned was the registry's answer for that spec at an instant not before the fetching call began. |
| FetchRuns.InvalidationIsFinalIffNothingInFlight | internal/images/cronwatcher.go:162-170 | After an invalidation some later call can return an answer fetched before it if and only if a call for the spec held an answer then. |
| FetchRuns.FreshForEver | internal/images/cronwatcher.go:114-133 | With none in flight, every later answer was fetched later, in every continuation. |
| FetchRuns.StaleContinuation | internal/images/cronwatcher.go:124-132 | With one in flight, its store and a next call return the old answer. |
| FetchRuns.StaleAnswerHappens | internal/images/cronwatcher.go:114-133 | A run from the start in which a call answers from before an invalidation. |
| EventRuns.EventsConserved | internal/images/cronwatcher.go:74-87 | Over any run, what was enqueued equals, as a multiset, what was forwarded, is in hand, or waits. |
| EventRuns.ClearedBeforeForwarded | internal/images/cronwatcher.go:162-170 | Every forwarded copy was preceded by its own sender's deletion of that copy's image entry. |
| EventRuns.SendersStarted | internal/images/cronwatcher.go:182-188 | A webhook starts senders for exactly the listed Applications of the repository, a firing one for the job's copy. |
| EventRuns.FiringClearsCurrentEntry | internal/images/cronwatcher.go:162-170 | In every run, whatever happens in between: when the sender of a firing clears, it removes the entry of the Application's current image spec if and only if the latest upsert that set up its job had that very image spec. |
| EventRuns.EditedImageSurvives | internal/images/cronwatcher.go:272-283 | A run: image A scheduled, edited to B on the same schedule, upserted, fired; the entry of B survives. |
| CronWatcher.CacheRemembersSource | internal/images/cronwatcher.go:114-133 | For every sequence of finds, invalidations and prunings the cache holds, per key, exactly the first successful answer since the key's last removal. |
| CronWatcher.FindAnswersFromSource | internal/images/cronwatcher.go:117-132 | A find answers with it if there is one, and otherwise passes on the finder's answer, errors included. |
| CronWatcher.OneSuccessfulCallBetweenRemovals | internal/images/cronwatcher.go:117-132 | Between two successful finder calls for a key the key was removed. |
| CronWatcher.Watcher.FindImage | internal/images/cronwatcher.go:114-133 | Reads through the cache; only successes are stored. |
| CronWatcher.Watcher.ReconcileSchedules | internal/images/cronwatcher.go:135-160 | Upserts every listed Application, failures notwithstanding, then prunes jobs and image entries; a failed listing changes nothing. |
| CronWatcher.Watcher.EnqueueReconciliation | internal/images/cronwatcher.go:162-170 | Deletes the copy's image entry, then queues the copy. |
| CronWatcher.Watcher.OnImageUpdated | internal/images/cronwatcher.go:172-189 | Queues exactly the listed Applications of the repository and clears exactly their entries. |
| CronWatcher.Watcher.Pump | internal/images/cronwatcher.go:83-84 | Moves one waiting copy, whichever, to the controller. |
| CronScheduler.NoJobLeaks | internal/images/cronwatcher.go:260-308 | After any sequence of upserts and prunings, failing ones included, every live job belongs to exactly one handle, and every handle's job is live except for keys whose latest reschedule failed. |
| CronScheduler.AtMostOneLiveJob | internal/images/cronwatcher.go:260-308 | An Application never has two live jobs. |
| CronScheduler.JobHoldsLatestCopy | internal/images/cronwatcher.go:272-283 | In every run a live job holds the copy given to the latest upsert that set up a job for its Application, not that of the latest upsert. |
| CronScheduler.BrokenKeyStaysDead | internal/images/cronwatcher.go:272-276 | Asking a broken key for its recorded schedule reports success, changes nothing, and no job of the Application is live. |
| CronScheduler.FailedRescheduleBreaksKey | internal/images/cronwatcher.go:278-286 | Keys do break: a refused reschedule after a removal. |
| CronScheduler.SchedulesAreExact | internal/images/cronwatcher.go:135-160 | After any run, a pass with all upserts accepted leaves handles of exactly the listed Applications, each on the schedule in its image spec or, without one, on the default the scheduler was created with; its live job is on the same schedule, and is live but for keys recorded as such and already dead; no other job is live. |
| CronScheduler.DistinctNamesHaveDistinctKeys | internal/images/cronwatcher.go:33-35 | Distinct Application names have distinct keys. |
| CronScheduler.Scheduler.UpsertJob | internal/images/cronwatcher.go:260-291 | The object's new state is the function's, in all four cases; on success the Application has a handle on its own schedule or the default. |
| CronScheduler.Scheduler.KeepJobs | internal/images/cronwatcher.go:293-308 | Unlisted handles are dropped and their jobs removed, one by one, in any order. |
| CronScheduler.Scheduler.RemoveByReference | internal/images/cronwatcher.go:278 | Removing an absent job does nothing. |
| Cache.KeptAndPrunedPartition | internal/images/cache.go:47-71 | Kept and pruned parts are disjoint, exhaustive and keep every value. |
| Cache.Cache.KeepOnly | internal/images/cache.go:47-71 | The loops leave the kept part and return the pruned part. |
| Cache.Cache.Get | internal/images/cache.go:23-31 | The stored value, or none. |
| Cache.Cache.Set | internal/images/cache.go:33-38 | Stores the value under the key and nothing else. |
| Cache.Cache.Delete | internal/images/cache.go:40-45 | Removes the key and nothing else. |
| Cache.Cache.Len | internal/images/cache.go:73-77 | The number of entries. |
| ImageFinder.FindImageBySemver | internal/images/imagefinder.go:101-153 | Not found if and only if no listed tag parses and matches; on success the tag is listed, matches, is older than no listed matching tag, and carries the registry's digest; each error in exactly its case, a failing digest lookup being that of the best tag, or of one of the best if they tie. |
| ImageFinder.FindImageByDigest | internal/images/imagefinder.go:85-99 | The asked tag with the registry's digest, or the error. |
| ImageFinder.FindImage | internal/images/imagefinder.go:74-83 | Dispatches on the strategy and carries the exact error cases of both; other strategies are refused. |
| ImageFinder.FirstMatch | internal/images/imagefinder.go:131-137 | In a descending list the first match is a best tag; the empty tag means no match. |
| ImageFinder.SortDescending | internal/images/imagefinder.go:129 | A descending permutation. |
| ImageFinder.ParseTags | internal/images/imagefinder.go:117-127 | Exactly the tags that parse, with their versions. |
| ImageFinder.BestTagsTie | internal/images/imagefinder.go:129-137 | Two best tags differ in build metadata only. |
| Semver.PrecedenceIsTotalPreorder | internal/images/imagefinder.go:129 | Precedence of section 11 of Semantic Versioning 2.0.0 is reflexive, total and transitive; ties are exactly differences in build metadata. |
| Semver.PrecedenceIff | internal/images/imagefinder.go:129 | The comparison without the comparison: the first differing of major, minor and patch decides, then pre-release against normal, then the first differing identifier (number below number, number below text, text by its first differing character or as proper prefix), then the shorter list. |
| ImageRefs.ReadUndoesString | internal/images/imageref.go:15-25 | For well-formed references with a tag, a digest or both, reading undoes printing. |
| ImageRefs.StringInjective | internal/images/imageref.go:15-25 | So equal printed forms mean equal references: the status comparison detects exactly changes. |
| ImageRefs.DigestlessIsAmbiguous | internal/images/imageref.go:20-24 | Without tag and digest the form is that of the tag latest. |
| NamespacedNameFlag.ParseUndoesString | internal/flag/namespacedname.go:15-36 | Set undoes String if and only if the namespace has no slash. |
| NamespacedNameFlag.StringUndoesParse | internal/flag/namespacedname.go:15-36 | String undoes Set if and only if the value has a slash; a bare name prints with a leading slash. |
| NamespacedNameFlag.Flag.Set | internal/flag/namespacedname.go:19-36 | Splits at the first slash; the empty value is refused and changes nothing. |
| Names.StringInjective | internal/controller/application_controller.go:826-828 | Printed names with slash-free namespaces identify the name, so comparing annotations compares owners. |
| Names.LowerIsLower | internal/controller/names.go:83-94 | Lowering leaves no ASCII capital, changes nothing else, keeps distances, and does so once and for all. |
| Names.BindingNamesInjective | internal/controller/names.go:83-94 | For one Application a binding name determines lowered kind and role name, for dash-free kinds. |
| Names.CronJobNamesInjective | internal/controller/names.go:96-101 | For one Application a cron job name determines the job. |
| Names.LBServiceNameDiffers | internal/controller/names.go:62-67 | The two services of an Application never share a name. |
| Names.ChildNamesCollideAcrossApplications | internal/controller/names.go:90-101 | Across Applications cron job and cluster role binding names do collide. |

## Left out

- Stale reads: lists and gets see the current cluster; an informer cache that lags behind is not part of the model.
- Other actors: nobody but this controller adds owner annotations to bindings or edits its finalizer, and each Application has one worker at a time; both are built into what others may do.
- FrameExact.RunsFramedIffHarmless: workers of other Applications act between passes only; the passes of all Applications are serialised there, as the default of one concurrent reconcile has it.
- Quiescence.QuietForGoodIffConsistent: says nothing about patches that server-side defaulting may provoke, which is not modelled.
- Updates.NoUpdateIsLost: one pass at a time, from a cluster whose versions are not ahead of the server's counter.
- IngressRoute.CompiledTableMeansPolicy: paths with backticks or braces are excluded, because Traefik reads them as quotes and templates; host names are compared as written, while Traefik ignores case.
- EventRuns.FiringClearsCurrentEntry: takes the JSON encoding of an image spec to be injective.
- FetchRuns.EveryAnswerGenuine: the tag listing and the digest lookup of one fetch are one answer at one instant, and the encoding of specs is taken to be injective.
- ImageFinder.FindImageBySemver: parsing of versions and the grammar of constraints are parameters; the parser is taken to refuse the empty string, as the library does. Sorting is specified, not copied.
- CronScheduler.SchedulesAreExact: whether gocron accepts a schedule is a parameter of each upsert; cron syntax, singleton mode and timing are left out, so a job may fire at any moment.
- Names.BindingNamesInjective: lower-casing covers ASCII letters only; strings are sequences of characters, not bytes.
- Registry HTTP client, pull secrets and metrics counters: the registry is a function that answers or fails.
- Kubernetes client, scheme, REST mapping, watches and manager wiring: only get, list, create, merge patch, delete, update and finalizers.
- Merge patches carry controller reference, owner annotations and content as three units, not single JSON fields.
- Owner references are compared by group, kind and name; UIDs and the garbage collection of namespaced children are left out.
- Fields copied verbatim into the pod template (command, environment, volumes, probes, resources, node selector) are one field; constant fields are dropped.
- The label maps that select pods are represented by the names they are built from.
- Deployment availability arrives with the object as an optional condition; conversion of conditions, messages and transition times are left out.
- Events, logging, the webhook's HTTP server and its decoding, discovery of Prometheus and Traefik.
- Cancellation of the watcher's context, and locking: each cache operation is one atomic step.
