/**
 The reconcile pass as a function of the cluster and the oracle: the API calls, the create-or-patch of one child,
 the nine child stages, and the pass around them with its finalizer protocol and status updates.
 */
module Reconcile {
  import opened Cluster
  import opened Mutators
  import opened Names
  import opened Wrappers

  datatype Outcome = Done(obj: Option<Obj>) | Failed(error: Error)

  // ---------- API calls ----------

  function FaultAt(w: World, o: Oracle): Fault {
    o.fault(w.calls)
  }

  /** A write that was lost on the way back is reported as failed although it took effect. */
  function Report(fault: Fault, obj: Option<Obj>): Outcome {
    if fault == Lost then Failed(Unavailable) else Done(obj)
  }

  function PutObj(w: World, app: NamespacedName, key: Key, obj: Obj): World {
    Commit(w, Some(app), Some(key), w.snap.(objs := w.snap.objs[key := obj]))
  }

  function Create(w: World, o: Oracle, app: NamespacedName, key: Key, obj: Obj): (World, Outcome) {
    var w1 := Arrive(w, o, app);
    if FaultAt(w, o) == Rejected then (w1, Failed(Unavailable))
    else if key in w1.snap.objs then (w1, Failed(AlreadyExists))
    else (PutObj(w1, app, key, obj), Report(FaultAt(w, o), Some(obj)))
  }

  /** A merge patch carries the fields that differ from `base`; the others keep their current values. */
  function MergePatch(current: Obj, base: Obj, obj: Obj): Obj {
    Obj(if obj.controller != base.controller then obj.controller else current.controller,
        if obj.primary != base.primary then obj.primary else current.primary,
        if obj.content != base.content then obj.content else current.content)
  }

  /** Undisturbed, a patch reaches its goal; without a goal it leaves all as others made it; and owner and content mix. */
  lemma MergePatchLaws(current: Obj, base: Obj, obj: Obj)
    ensures MergePatch(base, base, obj) == obj
    ensures MergePatch(current, base, base) == current
    ensures obj.content == base.content && current.controller == base.controller && current.primary == base.primary ==>
              MergePatch(current, base, obj) == obj.(content := current.content)
    ensures current.content == base.content && obj.controller == base.controller && obj.primary == base.primary ==>
              MergePatch(current, base, obj) == current.(content := obj.content)
  {
  }

  function Patch(w: World, o: Oracle, app: NamespacedName, key: Key, base: Obj, obj: Obj): (World, Outcome) {
    var w1 := Arrive(w, o, app);
    if FaultAt(w, o) == Rejected then (w1, Failed(Unavailable))
    else if key !in w1.snap.objs then (w1, Failed(Gone))
    else
      var merged := MergePatch(w1.snap.objs[key], base, obj);
      (PutObj(w1, app, key, merged), Report(FaultAt(w, o), Some(merged)))
  }

  function Delete(w: World, o: Oracle, app: NamespacedName, key: Key): (World, Outcome) {
    var w1 := Arrive(w, o, app);
    if FaultAt(w, o) == Rejected then (w1, Failed(Unavailable))
    else if key !in w1.snap.objs then (w1, Failed(Gone))
    else (Commit(w1, Some(app), Some(key), w1.snap.(objs := w1.snap.objs - {key})), Report(FaultAt(w, o), None))
  }

  /** Writes spec and metadata of an Application, provided the copy is of the current version. */
  function UpdateApp(w: World, o: Oracle, app: NamespacedName, copy: App): (World, Option<Error>) {
    var w1 := Arrive(w, o, app);
    if FaultAt(w, o) == Rejected then (w1, Some(Unavailable))
    else if app !in w1.snap.apps then (w1, Some(Gone))
    else if w1.snap.apps[app].version != copy.version then (w1, Some(Conflict))
    else
      var stored := copy.(version := w1.version + 1, status := w1.snap.apps[app].status);
      (Commit(w1.(version := w1.version + 1), Some(app), None, Stored(w1.snap, app, stored)),
       if FaultAt(w, o) == Lost then Some(Unavailable) else None)
  }

  /** Writes the status only; an unchanged status is not a write. */
  function UpdateStatus(w: World, o: Oracle, app: NamespacedName, copy: App): (World, Option<Error>) {
    var w1 := Arrive(w, o, app);
    if FaultAt(w, o) == Rejected then (w1, Some(Unavailable))
    else if app !in w1.snap.apps then (w1, Some(Gone))
    else if w1.snap.apps[app].version != copy.version then (w1, Some(Conflict))
    else
      var current := w1.snap.apps[app];
      var error := if FaultAt(w, o) == Lost then Some(Unavailable) else None;
      if current.status == copy.status then (w1, error)
      else
        var stored := current.(status := copy.status, version := w1.version + 1);
        (Commit(w1.(version := w1.version + 1), Some(app), None,
                w1.snap.(apps := w1.snap.apps[app := stored])), error)
  }

  // ---------- One child ----------

  /**
   Reads the object again, runs the mutator and sets the owner, then creates or patches. An object `read` by the
   caller but gone by now is mutated as it was and still carries its resource version, so creating it is refused.
   */
  function CreateOrPatch(w: World, o: Oracle, g: Goal, key: Key, m: Mutation, read: Option<Obj>): (World, Outcome) {
    var w1 := Arrive(w, o, g.app);
    var image := o.image(w.calls, g.spec.image);
    if FaultAt(w, o) != NoFault then (w1, Failed(Unavailable))
    else if key in w1.snap.objs then (
      var base := w1.snap.objs[key];
      match Desired(g, m, image, key, base)
      case Failure(e) => (w1, Failed(e))
      case Success(obj) => if obj == base then (w1, Done(Some(obj))) else Patch(w1, o, g.app, key, base, obj)
    )
    else (
      match Desired(g, m, image, key, if read.Some? then read.value else NEW_OBJ)
      case Failure(e) => (w1, Failed(e))
      case Success(obj) =>
        if read.Some? then (Arrive(w1, o, g.app), Failed(VersionGiven)) else Create(w1, o, g.app, key, obj)
    )
  }

  function ReconcileResource(w: World, o: Oracle, g: Goal, key: Key, m: Mutation, wanted: bool): (World, Outcome) {
    var w1 := Arrive(w, o, g.app);
    if FaultAt(w, o) != NoFault then (w1, Failed(Unavailable))
    else
      var read := if key in w1.snap.objs then Some(w1.snap.objs[key]) else None;
      if read.Some? && !IsObjectOwnedBy(key, read.value, g.app) then (w1, Failed(NotOwned))
      else if wanted then CreateOrPatch(w1, o, g, key, m, read)
      else if read.Some? then Delete(w1, o, g.app, key)
      else (w1, Done(None))
  }

  // ---------- Stages ----------

  datatype Item = Item(key: Key, m: Mutation)

  /** A stage handles one child, or upserts a list of them and then, unless cut short, deletes the owned rest. */
  datatype Stage =
    | Skip
    | One(key: Key, m: Mutation, wanted: bool)
    | Many(kind: Kind, items: seq<Item>, prune: bool)

  function RoleBindingItems(app: NamespacedName, roles: seq<ScopedRole>): seq<Item> {
    if roles == [] then []
    else (if roles[0].ScopeOrDefault() != "Namespace" then []
          else [Item(KeyOf(RoleBinding, RoleBindingName(app, roles[0].role)), MutateBinding(roles[0].role))])
         + RoleBindingItems(app, roles[1..])
  }

  predicate IsClusterRole(role: RoleRef) {
    role.apiGroup == RBAC_GROUP && role.kind == "ClusterRole"
  }

  /** A cluster-scoped role that is no ClusterRole: meeting one ends the stage, quietly. */
  predicate Misplaced(role: ScopedRole) {
    role.ScopeOrDefault() == "Cluster" && !IsClusterRole(role.role)
  }

  function ClusterRoleBindingItems(app: NamespacedName, roles: seq<ScopedRole>): seq<Item> {
    if roles == [] || Misplaced(roles[0]) then []
    else (if roles[0].ScopeOrDefault() != "Cluster" then []
          else [Item(KeyOf(ClusterRoleBinding, ClusterRoleBindingName(app, roles[0].role)), MutateBinding(roles[0].role))])
         + ClusterRoleBindingItems(app, roles[1..])
  }

  predicate AllPlaced(roles: seq<ScopedRole>) {
    forall i :: 0 <= i < |roles| ==> !Misplaced(roles[i])
  }

  function CronJobItems(app: NamespacedName, jobs: seq<CronJobSpec>): seq<Item> {
    if jobs == [] then []
    else [Item(KeyOf(CronJob, CronJobName(app, jobs[0].name)), MutateCronJob(jobs[0]))] + CronJobItems(app, jobs[1..])
  }

  const STAGES: nat := 9

  function StageAt(g: Goal, i: nat): Stage {
    match i
    case 0 => One(KeyOf(ServiceAccount, g.app), MutateNothing, true)
    case 1 => Many(RoleBinding, RoleBindingItems(g.app, g.spec.roles), true)
    case 2 => Many(ClusterRoleBinding, ClusterRoleBindingItems(g.app, g.spec.roles), AllPlaced(g.spec.roles))
    case 3 => One(KeyOf(Service, g.app), MutateService, |g.spec.ports| > 0)
    case 4 => One(KeyOf(Service, LBServiceName(g.app)), MutateLBService, g.spec.loadBalancer.Some?)
    case 5 =>
      if !g.cfg.supportsPrometheus then Skip
      else One(KeyOf(PodMonitor, g.app), MutatePodMonitor, g.spec.metrics.Some? && g.spec.metrics.value.enabled)
    case 6 =>
      if !g.cfg.supportsTraefik then Skip
      else One(KeyOf(IngressRoute, g.app), MutateIngressRoute, g.spec.ingress.Some?)
    case 7 => Many(CronJob, CronJobItems(g.app, g.spec.cronJobs), true)
    case 8 => One(KeyOf(Deployment, g.app), MutateDeployment, true)
    case _ => Skip
  }

  /** The reason put on the Ready condition when the stage fails. */
  function FailureReason(i: nat): string {
    match i
    case 0 => "ServiceAccountUpsertFailed"
    case 1 => "RoleBindingUpsertFailed"
    case 2 => "ClusterRoleBindingUpsertFailed"
    case 3 => "ServiceUpsertFailed"
    case 4 => "LoadBalancerServiceUpsertFailed"
    case 5 => "PodMonitorUpsertFailed"
    case 6 => "IngressRouteUpsertFailed"
    case 7 => "CronJobUpsertFailed"
    case _ => "DeploymentUpsertFailed"
  }

  function KeysOf(items: seq<Item>): (r: set<Key>)
    ensures forall key :: key in r <==> exists i :: 0 <= i < |items| && items[i].key == key
  {
    set i | 0 <= i < |items| :: items[i].key
  }

  function UpsertAll(w: World, o: Oracle, g: Goal, items: seq<Item>): (World, Outcome)
    decreases |items|
  {
    if items == [] then (w, Done(None))
    else
      var r := ReconcileResource(w, o, g, items[0].key, items[0].m, true);
      if r.1.Failed? then r else UpsertAll(r.0, o, g, items[1..])
  }

  /** Deletes what is left of a set, in the order the oracle picks. */
  ghost function Sweep(w: World, o: Oracle, g: Goal, keys: set<Key>): (World, Outcome)
    requires o.Picks()
    decreases |keys|
  {
    if keys == {} then (w, Done(None))
    else
      var key := o.pick(w.calls, keys);
      var r := ReconcileResource(w, o, g, key, MutateNothing, false);
      if r.1.Failed? then r else Sweep(r.0, o, g, keys - {key})
  }

  ghost function RunStage(w: World, o: Oracle, g: Goal, stage: Stage): (World, Outcome)
    requires o.Picks()
  {
    match stage
    case Skip => (w, Done(None))
    case One(key, m, wanted) => ReconcileResource(w, o, g, key, m, wanted)
    case Many(kind, items, prune) =>
      var w1 := Arrive(w, o, g.app);
      if FaultAt(w, o) != NoFault then (w1, Failed(Unavailable))
      else
        var listed := ListOwned(w1.snap.objs, kind, g.app);
        var r := UpsertAll(w1, o, g, items);
        if r.1.Failed? || !prune then r else Sweep(r.0, o, g, listed - KeysOf(items))
  }

  /** Stages i and up; the second component is the stage that failed, or STAGES. */
  ghost function RunStages(w: World, o: Oracle, g: Goal, i: nat): (World, nat, Outcome)
    requires o.Picks() && i < STAGES
    decreases STAGES - i
  {
    var r := RunStage(w, o, g, StageAt(g, i));
    if r.1.Failed? then (r.0, i, r.1)
    else if i + 1 == STAGES then (r.0, STAGES, r.1)
    else RunStages(r.0, o, g, i + 1)
  }

  /** Where `inv` holds before stage j, the run ends there as `end` says, or `inv` holds before the next stage. */
  ghost predicate Carries(
    o: Oracle, g: Goal, j: nat, v: World, inv: (nat, World) -> bool, end: (World, nat, Outcome) -> bool)
    requires o.Picks()
  {
    var r := RunStage(v, o, g, StageAt(g, j));
    if r.1.Failed? then end(r.0, j, r.1)
    else if j + 1 == STAGES then end(r.0, STAGES, r.1)
    else inv(j + 1, r.0)
  }

  /** Induction over the stages: what every stage carries on holds when the run has ended. */
  lemma {:induction false} StagesCarry(
    w: World, o: Oracle, g: Goal, i: nat, inv: (nat, World) -> bool, end: (World, nat, Outcome) -> bool)
    requires o.Picks() && i < STAGES && inv(i, w)
    requires forall j: nat, v {:trigger Carries(o, g, j, v, inv, end)} ::
               i <= j < STAGES && inv(j, v) ==> Carries(o, g, j, v, inv, end)
    ensures var t := RunStages(w, o, g, i); end(t.0, t.1, t.2)
    decreases STAGES - i
  {
    assert Carries(o, g, i, w, inv, end);
    var r := RunStage(w, o, g, StageAt(g, i));
    if r.1.Done? && i + 1 < STAGES {
      StagesCarry(r.0, o, g, i + 1, inv, end);
    }
  }

  // ---------- The pass ----------

  datatype PassResult = PassResult(requeue: bool, errors: seq<Error>)

  const OK := PassResult(false, [])

  /** A status conflict only asks for another pass; any other error is passed on, after the stage's own error. */
  function StatusResult(own: seq<Error>, error: Option<Error>): PassResult {
    match error
    case None => PassResult(false, own)
    case Some(Conflict) => PassResult(true, own)
    case Some(e) => PassResult(false, own + [e])
  }

  function ErrorResult(error: Option<Error>): PassResult {
    if error.Some? then PassResult(false, [error.value]) else OK
  }

  /** The copy's status after the stages: a changed image is noted with its time, and Ready follows the Deployment. */
  function Observed(copy: App, deployed: Obj, now: nat): App {
    var image := deployed.content.pod.image;
    var noted := if copy.status.image != image
                 then copy.status.(image := image, imageTime := now)
                 else copy.status;
    copy.(status := if deployed.content.available.Some? then noted.(ready := deployed.content.available) else noted)
  }

  function WithReady(copy: App, c: Condition): App {
    copy.(status := copy.status.(ready := Some(c)))
  }

  ghost function RunAll(w: World, o: Oracle, g: Goal, copy: App): (World, PassResult)
    requires o.Picks()
  {
    var (w1, stage, out) := RunStages(w, o, g, 0);
    match out
    case Failed(e) =>
      var r := UpdateStatus(w1, o, g.app, WithReady(copy, Condition(False, FailureReason(stage))));
      (r.0, StatusResult([e], r.1))
    case Done(obj) =>
      var deployed := if obj.Some? then obj.value else NEW_OBJ;
      var r := UpdateStatus(w1, o, g.app, Observed(copy, deployed, o.clock(w1.calls)));
      (r.0, StatusResult([], r.1))
  }

  /** Removes the owned cluster role bindings, then the finalizer. */
  ghost function Cleanup(w: World, o: Oracle, g: Goal, copy: App): (World, PassResult)
    requires o.Picks()
  {
    var w1 := Arrive(w, o, g.app);
    if FaultAt(w, o) != NoFault then (w1, PassResult(false, [Unavailable]))
    else (
      var swept := Sweep(w1, o, g, ListOwned(w1.snap.objs, ClusterRoleBinding, g.app));
      match swept.1
      case Failed(e) => (swept.0, PassResult(false, [e]))
      case Done(_) =>
        var r := UpdateApp(swept.0, o, g.app, copy.(finalizer := false));
        (r.0, ErrorResult(r.1))
    )
  }

  ghost function Pass(w: World, o: Oracle, cfg: Config, app: NamespacedName): (World, PassResult)
    requires o.Picks()
  {
    var start := w.(calls := 0);
    var w1 := Arrive(start, o, app);
    if FaultAt(start, o) != NoFault then (w1, PassResult(false, [Unavailable]))
    else if app !in w1.snap.apps then (w1, OK)
    else
      var copy := w1.snap.apps[app];
      var g := Goal(cfg, app, copy.spec);
      if copy.status.ready.None? then
        var r := UpdateStatus(w1, o, app, WithReady(copy, Condition(Unknown, "Reconciling")));
        (r.0, StatusResult([], r.1))
      else if !copy.deleting then
        if copy.finalizer then RunAll(w1, o, g, copy)
        else
          var r := UpdateApp(w1, o, app, copy.(finalizer := true));
          (r.0, ErrorResult(r.1))
      else if copy.finalizer then Cleanup(w1, o, g, copy)
      else (w1, OK)
  }

  /** A pass on some Application, with whatever happens before it, its oracle and configuration. */
  datatype PassInput = PassInput(between: seq<EnvAction>, app: NamespacedName, o: Oracle, cfg: Config)

  ghost function Runs(w: World, inputs: seq<PassInput>): World
    requires forall i :: 0 <= i < |inputs| ==> inputs[i].o.Picks()
  {
    if inputs == [] then w
    else
      var last := inputs[|inputs| - 1];
      Pass(ActAll(Runs(w, inputs[..|inputs| - 1]), last.app, last.between), last.o, last.cfg, last.app).0
  }
}
