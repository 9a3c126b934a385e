/**
 Whole passes: exact convergence of the owned children, the misplaced role, and fail-fast.
 */
module Passes {
  import opened Cluster
  import opened Convergence
  import opened Frame
  import opened Mutators
  import opened Names
  import opened Reconcile
  import opened Safety
  import opened Wrappers

  // ---------- What the item lists are, in terms of the spec ----------

  /** Without a scope a role is bound in the Application's namespace. */
  predicate InNamespace(role: ScopedRole) {
    role.scope == None || role.scope == Some("Namespace")
  }

  predicate NamesRoleBindingAt(app: NamespacedName, role: ScopedRole, key: Key) {
    && InNamespace(role)
    && key == Key(RoleBinding, app.namespace, app.name + "-" + Lower(role.role.kind) + "-" + role.role.name)
  }

  predicate NamesClusterRoleBindingAt(app: NamespacedName, role: ScopedRole, key: Key) {
    && role.scope == Some("Cluster")
    && key == Key(ClusterRoleBinding, "",
                  app.namespace + "-" + app.name + "-" + Lower(role.role.kind) + "-" + role.role.name)
  }

  predicate NamesCronJobAt(app: NamespacedName, job: CronJobSpec, key: Key) {
    key == Key(CronJob, app.namespace, app.name + "-" + job.name)
  }

  ghost predicate NamesRoleBinding(app: NamespacedName, roles: seq<ScopedRole>, key: Key) {
    exists i :: 0 <= i < |roles| && NamesRoleBindingAt(app, roles[i], key)
  }

  ghost predicate NamesClusterRoleBinding(app: NamespacedName, roles: seq<ScopedRole>, key: Key) {
    exists i :: 0 <= i < |roles| && NamesClusterRoleBindingAt(app, roles[i], key)
  }

  ghost predicate NamesCronJob(app: NamespacedName, jobs: seq<CronJobSpec>, key: Key) {
    exists i :: 0 <= i < |jobs| && NamesCronJobAt(app, jobs[i], key)
  }

  /** A role to be bound cluster-wide that is no ClusterRole. */
  predicate NotAClusterRole(role: ScopedRole) {
    && role.scope == Some("Cluster")
    && (role.role.apiGroup != "rbac.authorization.k8s.io" || role.role.kind != "ClusterRole")
  }

  predicate WellPlaced(roles: seq<ScopedRole>) {
    forall i :: 0 <= i < |roles| ==> !NotAClusterRole(roles[i])
  }

  lemma WellPlacedIff(roles: seq<ScopedRole>)
    ensures AllPlaced(roles) <==> WellPlaced(roles)
  {
    forall i | 0 <= i < |roles|
      ensures Misplaced(roles[i]) <==> NotAClusterRole(roles[i])
    {
    }
  }

  lemma {:induction false} RoleBindingKeys(app: NamespacedName, roles: seq<ScopedRole>, key: Key)
    ensures key in KeysOf(RoleBindingItems(app, roles)) <==> NamesRoleBinding(app, roles, key)
  {
    if roles != [] {
      var items, rest := RoleBindingItems(app, roles), RoleBindingItems(app, roles[1..]);
      RoleBindingKeys(app, roles[1..], key);
      if InNamespace(roles[0]) {
        assert items[1..] == rest;
        KeysOfCons(items);
        assert key == items[0].key ==> NamesRoleBindingAt(app, roles[0], key);
      } else {
        assert items == rest;
      }
      assert roles == [roles[0]] + roles[1..];
    }
  }

  lemma {:induction false} ClusterRoleBindingKeys(app: NamespacedName, roles: seq<ScopedRole>, key: Key)
    requires WellPlaced(roles)
    ensures key in KeysOf(ClusterRoleBindingItems(app, roles)) <==> NamesClusterRoleBinding(app, roles, key)
  {
    if roles != [] {
      assert !NotAClusterRole(roles[0]);
      var items, rest := ClusterRoleBindingItems(app, roles), ClusterRoleBindingItems(app, roles[1..]);
      ClusterRoleBindingKeys(app, roles[1..], key);
      if roles[0].scope == Some("Cluster") {
        assert items[1..] == rest;
        KeysOfCons(items);
        assert key == items[0].key ==> NamesClusterRoleBindingAt(app, roles[0], key);
      } else {
        assert items == rest;
      }
      assert roles == [roles[0]] + roles[1..];
    }
  }

  lemma {:induction false} CronJobKeys(app: NamespacedName, jobs: seq<CronJobSpec>, key: Key)
    ensures key in KeysOf(CronJobItems(app, jobs)) <==> NamesCronJob(app, jobs, key)
  {
    if jobs != [] {
      CronJobKeys(app, jobs[1..], key);
      assert CronJobItems(app, jobs)[1..] == CronJobItems(app, jobs[1..]);
      KeysOfCons(CronJobItems(app, jobs));
      assert key == CronJobItems(app, jobs)[0].key ==> NamesCronJobAt(app, jobs[0], key);
      assert jobs == [jobs[0]] + jobs[1..];
    }
  }

  /** Roles after a misplaced one are not looked at: the items are those of the roles before it. */
  lemma {:induction false} OnlyRolesBeforeMisplaced(app: NamespacedName, roles: seq<ScopedRole>, p: nat)
    requires p < |roles| && NotAClusterRole(roles[p]) && WellPlaced(roles[..p])
    ensures ClusterRoleBindingItems(app, roles) == ClusterRoleBindingItems(app, roles[..p])
  {
    if p > 0 {
      assert roles[..p][0] == roles[0];
      assert roles[1..][p - 1] == roles[p] && roles[1..][..p - 1] == roles[..p][1..];
      OnlyRolesBeforeMisplaced(app, roles[1..], p - 1);
    }
  }

  // ---------- Exact convergence ----------

  /** A pass that went through all its stages, on a live Application with finalizer and conditions in place. */
  ghost predicate Steady(w: World, app: NamespacedName) {
    && app in w.snap.apps && w.snap.apps[app].status.ready.Some?
    && !w.snap.apps[app].deleting && w.snap.apps[app].finalizer
  }

  function GoalOf(w: World, cfg: Config, app: NamespacedName): Goal
    requires app in w.snap.apps
  {
    Goal(cfg, app, w.snap.apps[app].spec)
  }

  lemma SteadyPassRunsAll(w: World, o: Oracle, cfg: Config, app: NamespacedName)
    requires Steady(w, app) && o.Picks() && Quiet(o)
    ensures o.fault(0) == NoFault ==>
              Pass(w, o, cfg, app) == RunAll(w.(calls := 1), o, GoalOf(w, cfg, app), w.snap.apps[app])
    ensures o.fault(0) != NoFault ==> Pass(w, o, cfg, app) == (w.(calls := 1), PassResult(false, [Unavailable]))
  {
    QuietCall(w.(calls := 0), o, app);
  }

  lemma QuietStatusUpdate(w: World, o: Oracle, app: NamespacedName, copy: App)
    requires Quiet(o) && app in w.snap.apps && w.snap.apps[app].version == copy.version
    requires UpdateStatus(w, o, app, copy).1.None?
    ensures var t := UpdateStatus(w, o, app, copy).0;
            && t.snap.objs == w.snap.objs && app in t.snap.apps && t.snap.apps - {app} == w.snap.apps - {app}
            && t.snap.apps[app] == w.snap.apps[app].(status := copy.status, version := t.snap.apps[app].version)
            && (copy.status == w.snap.apps[app].status ==> t.snap == w.snap && t.history == w.history)
  {
    QuietCall(w, o, app);
  }

  /** The whole result of a quiet, error-free run of all stages. */
  lemma RunAllConverges(w: World, o: Oracle, g: Goal, image: Option<string>)
    requires Calm(o, g, image) && ValidName(g.app) && g.app in w.snap.apps
    requires RunAll(w, o, g, w.snap.apps[g.app]).1 == OK
    ensures var t, copy := RunAll(w, o, g, w.snap.apps[g.app]).0, w.snap.apps[g.app];
            && Converged(t.snap.objs, g, image, STAGES)
            && g.app in t.snap.apps && t.snap.apps - {g.app} == w.snap.apps - {g.app}
            && KeyOf(Deployment, g.app) in t.snap.objs
            && t.snap.apps[g.app].(version := copy.version)
               == Observed(copy, t.snap.objs[KeyOf(Deployment, g.app)], o.clock(RunStages(w, o, g, 0).0.calls))
  {
    var copy := w.snap.apps[g.app];
    StagesConverge(w, o, g, 0, image);
    var (w2, k, out) := RunStages(w, o, g, 0);
    assert out.Done?;
    QuietStatusUpdate(w2, o, g.app, Observed(copy, out.obj.value, o.clock(w2.calls)));
  }

  /** A steady pass with a constant image answer and nobody interfering, which reported no error. */
  ghost predicate GoodPass(w: World, o: Oracle, cfg: Config, app: NamespacedName, image: Option<string>) {
    && ValidName(app) && Steady(w, app) && Calm(o, GoalOf(w, cfg, app), image)
    && Pass(w, o, cfg, app).1 == OK
  }

  lemma GoodPassConverges(w: World, o: Oracle, cfg: Config, app: NamespacedName, image: Option<string>)
    requires GoodPass(w, o, cfg, app, image)
    ensures Converged(Pass(w, o, cfg, app).0.snap.objs, GoalOf(w, cfg, app), image, STAGES)
  {
    SteadyPassRunsAll(w, o, cfg, app);
    RunAllConverges(w.(calls := 1), o, GoalOf(w, cfg, app), image);
  }

  ghost predicate Swept(objs: map<Key, Obj>, g: Goal, image: Option<string>, kind: Kind, items: seq<Item>, prune: bool) {
    StageHolds(objs, g, image, Many(kind, items, prune))
  }

  lemma SweptStagesHold(objs: map<Key, Obj>, g: Goal, image: Option<string>)
    requires Converged(objs, g, image, STAGES)
    ensures Swept(objs, g, image, RoleBinding, RoleBindingItems(g.app, g.spec.roles), true)
    ensures Swept(objs, g, image, ClusterRoleBinding, ClusterRoleBindingItems(g.app, g.spec.roles), AllPlaced(g.spec.roles))
    ensures Swept(objs, g, image, CronJob, CronJobItems(g.app, g.spec.cronJobs), true)
  {
    assert StageHolds(objs, g, image, StageAt(g, 1));
    assert StageHolds(objs, g, image, StageAt(g, 2));
    assert StageHolds(objs, g, image, StageAt(g, 7));
  }

  /** The child exists and is controlled by the Application. */
  predicate ControlledBy(objs: map<Key, Obj>, app: NamespacedName, key: Key) {
    key in objs && objs[key].controller == Some(OwnerRef("yarotsky.me", "Application", app.name))
  }

  /**
   After an error-free pass the owned children of the three swept kinds have exactly the names the spec gives them, in
   whatever order the sweep went: a role without a scope or of scope Namespace gives a role binding, one of scope Cluster a
   cluster role binding; the latter needs every role of scope Cluster to be a ClusterRole.
   */
  lemma OwnedSetIsExact(w: World, o: Oracle, cfg: Config, app: NamespacedName, image: Option<string>, key: Key)
    requires GoodPass(w, o, cfg, app, image)
    ensures var objs, spec := Pass(w, o, cfg, app).0.snap.objs, w.snap.apps[app].spec;
            && (key.kind == RoleBinding && key.namespace == app.namespace ==>
                  (ControlledBy(objs, app, key) <==> NamesRoleBinding(app, spec.roles, key)))
            && (key.kind == ClusterRoleBinding && WellPlaced(spec.roles) ==>
                  (key in objs && BindingOf(key, objs[key], app) <==> NamesClusterRoleBinding(app, spec.roles, key)))
            && (key.kind == CronJob && key.namespace == app.namespace ==>
                  (ControlledBy(objs, app, key) <==> NamesCronJob(app, spec.cronJobs, key)))
  {
    GoodPassConverges(w, o, cfg, app, image);
    var objs, spec := Pass(w, o, cfg, app).0.snap.objs, w.snap.apps[app].spec;
    SweptStagesHold(objs, GoalOf(w, cfg, app), image);
    RoleBindingKeys(app, spec.roles, key);
    CronJobKeys(app, spec.cronJobs, key);
    WellPlacedIff(spec.roles);
    if WellPlaced(spec.roles) {
      ClusterRoleBindingKeys(app, spec.roles, key);
    }
    ListedIs(objs, app, key);
  }

  /** What the owner index lists, in fields. */
  lemma ListedIs(objs: map<Key, Obj>, app: NamespacedName, key: Key)
    ensures key.kind != ClusterRoleBinding ==>
              (key in ListOwned(objs, key.kind, app) <==> key.namespace == app.namespace && ControlledBy(objs, app, key))
    ensures key in ListOwned(objs, ClusterRoleBinding, app) <==> key in objs && BindingOf(key, objs[key], app)
  {
  }

  /** What a binding or cron job made from an item looks like. */
  ghost predicate MadeFrom(objs: map<Key, Obj>, app: NamespacedName, image: Option<string>, item: Item) {
    item.key in objs &&
    var c := objs[item.key].content;
    match item.m
    case MutateBinding(role) => c.role == Some(role) && c.subject == Some(app)
    case MutateCronJob(job) =>
      && c.schedule == job.schedule && c.pod.fields == job.command && Some(c.pod.image) == image
      && c.pod.serviceAccount == app.name && c.pod.container == app.name && c.pod.labels == job.name
    case _ => false
  }

  lemma LastItemsMade(objs: map<Key, Obj>, g: Goal, image: Option<string>, items: seq<Item>)
    requires LastItemsSettled(objs, g, image, items)
    requires forall i :: 0 <= i < |items| ==> items[i].m.MutateBinding? || items[i].m.MutateCronJob?
    ensures forall i: nat :: IsLast(items, i) ==> MadeFrom(objs, g.app, image, items[i])
  {
    forall i: nat | IsLast(items, i)
      ensures MadeFrom(objs, g.app, image, items[i])
    {
      assert Settled(objs, g, image, items[i].key, items[i].m);
    }
  }

  lemma SweptContentIsLast(
    w: World, o: Oracle, cfg: Config, app: NamespacedName, image: Option<string>, items: seq<Item>, i: nat)
    requires GoodPass(w, o, cfg, app, image)
    requires var spec := w.snap.apps[app].spec;
             || items == RoleBindingItems(app, spec.roles) || items == ClusterRoleBindingItems(app, spec.roles)
             || items == CronJobItems(app, spec.cronJobs)
    requires IsLast(items, i)
    ensures MadeFrom(Pass(w, o, cfg, app).0.snap.objs, app, image, items[i])
  {
    GoodPassConverges(w, o, cfg, app, image);
    var objs, spec := Pass(w, o, cfg, app).0.snap.objs, w.snap.apps[app].spec;
    ItemKinds(app, spec.roles, spec.cronJobs);
    SweptStagesHold(objs, GoalOf(w, cfg, app), image);
    LastItemsMade(objs, GoalOf(w, cfg, app), image, items);
  }

  /** The entry makes the item of its key, and no entry of the list after it makes one of that key. */
  lemma ConsIsLast(item: Item, items: seq<Item>, rest: seq<Item>)
    requires items == [item] + rest && item.key !in KeysOf(rest)
    ensures IsLast(items, 0)
  {
    forall j | 0 < j < |items|
      ensures items[j].key != item.key
    {
      assert rest[j - 1] == items[j];
    }
  }

  lemma LastAfterCons(items: seq<Item>, rest: seq<Item>, l: nat)
    requires items != [] && items[1..] == rest && IsLast(rest, l)
    ensures IsLast(items, l + 1) && items[l + 1] == rest[l]
  {
    forall j | l + 1 < j < |items|
      ensures items[j].key != items[l + 1].key
    {
      assert rest[j - 1] == items[j];
    }
  }

  lemma {:induction false} RoleItemIsLast(app: NamespacedName, roles: seq<ScopedRole>, i: nat, key: Key) returns (l: nat)
    requires i < |roles| && NamesRoleBindingAt(app, roles[i], key)
    requires forall j :: i < j < |roles| ==> !NamesRoleBindingAt(app, roles[j], key)
    ensures var items := RoleBindingItems(app, roles);
            IsLast(items, l) && items[l] == Item(key, MutateBinding(roles[i].role))
  {
    var items, rest := RoleBindingItems(app, roles), RoleBindingItems(app, roles[1..]);
    if i == 0 {
      l := 0;
      RoleBindingKeys(app, roles[1..], key);
      ConsIsLast(items[0], items, rest);
    } else {
      l := RoleItemIsLast(app, roles[1..], i - 1, key);
      if InNamespace(roles[0]) {
        LastAfterCons(items, rest, l);
        l := l + 1;
      } else {
        assert items == rest;
      }
    }
  }

  lemma {:induction false} ClusterRoleItemIsLast(app: NamespacedName, roles: seq<ScopedRole>, i: nat, key: Key)
    returns (l: nat)
    requires i < |roles| && NamesClusterRoleBindingAt(app, roles[i], key) && WellPlaced(roles)
    requires forall j :: i < j < |roles| ==> !NamesClusterRoleBindingAt(app, roles[j], key)
    ensures var items := ClusterRoleBindingItems(app, roles);
            IsLast(items, l) && items[l] == Item(key, MutateBinding(roles[i].role))
  {
    var items, rest := ClusterRoleBindingItems(app, roles), ClusterRoleBindingItems(app, roles[1..]);
    assert !NotAClusterRole(roles[0]);
    if i == 0 {
      l := 0;
      ClusterRoleBindingKeys(app, roles[1..], key);
      ConsIsLast(items[0], items, rest);
    } else {
      l := ClusterRoleItemIsLast(app, roles[1..], i - 1, key);
      if roles[0].scope == Some("Cluster") {
        LastAfterCons(items, rest, l);
        l := l + 1;
      } else {
        assert items == rest;
      }
    }
  }

  lemma {:induction false} CronJobItemIsLast(app: NamespacedName, jobs: seq<CronJobSpec>, i: nat, key: Key)
    returns (l: nat)
    requires i < |jobs| && NamesCronJobAt(app, jobs[i], key)
    requires forall j :: i < j < |jobs| ==> !NamesCronJobAt(app, jobs[j], key)
    ensures var items := CronJobItems(app, jobs); IsLast(items, l) && items[l] == Item(key, MutateCronJob(jobs[i]))
  {
    var items, rest := CronJobItems(app, jobs), CronJobItems(app, jobs[1..]);
    if i == 0 {
      l := 0;
      CronJobKeys(app, jobs[1..], key);
      ConsIsLast(items[0], items, rest);
    } else {
      l := CronJobItemIsLast(app, jobs[1..], i - 1, key);
      LastAfterCons(items, rest, l);
      l := l + 1;
    }
  }

  /** A role binding has the role of the last entry of the spec that names it, and the Application's account as subject. */
  lemma RoleBindingIsLast(
    w: World, o: Oracle, cfg: Config, app: NamespacedName, image: Option<string>, i: nat, key: Key)
    requires GoodPass(w, o, cfg, app, image) && i < |w.snap.apps[app].spec.roles|
    requires var roles := w.snap.apps[app].spec.roles;
             && NamesRoleBindingAt(app, roles[i], key)
             && forall j :: i < j < |roles| ==> !NamesRoleBindingAt(app, roles[j], key)
    ensures var objs := Pass(w, o, cfg, app).0.snap.objs;
            && key in objs && objs[key].content.role == Some(w.snap.apps[app].spec.roles[i].role)
            && objs[key].content.subject == Some(app)
  {
    var roles := w.snap.apps[app].spec.roles;
    var l := RoleItemIsLast(app, roles, i, key);
    SweptContentIsLast(w, o, cfg, app, image, RoleBindingItems(app, roles), l);
  }

  /** Likewise a cluster role binding; p is where the stage stops, at the first misplaced role or the end. */
  lemma ClusterRoleBindingIsLast(
    w: World, o: Oracle, cfg: Config, app: NamespacedName, image: Option<string>, p: nat, i: nat, key: Key)
    requires GoodPass(w, o, cfg, app, image) && i < p <= |w.snap.apps[app].spec.roles|
    requires var roles := w.snap.apps[app].spec.roles;
             && WellPlaced(roles[..p]) && (p < |roles| ==> NotAClusterRole(roles[p]))
             && NamesClusterRoleBindingAt(app, roles[i], key)
             && forall j :: i < j < p ==> !NamesClusterRoleBindingAt(app, roles[j], key)
    ensures var objs := Pass(w, o, cfg, app).0.snap.objs;
            && key in objs && objs[key].content.role == Some(w.snap.apps[app].spec.roles[i].role)
            && objs[key].content.subject == Some(app)
  {
    var roles := w.snap.apps[app].spec.roles;
    if p < |roles| {
      OnlyRolesBeforeMisplaced(app, roles, p);
    } else {
      assert roles[..p] == roles;
    }
    var l := ClusterRoleItemIsLast(app, roles[..p], i, key);
    SweptContentIsLast(w, o, cfg, app, image, ClusterRoleBindingItems(app, roles), l);
  }

  /** A cron job has the schedule and command of the last entry that names it, and runs the image under the account. */
  lemma CronJobIsLast(w: World, o: Oracle, cfg: Config, app: NamespacedName, image: Option<string>, i: nat, key: Key)
    requires GoodPass(w, o, cfg, app, image) && i < |w.snap.apps[app].spec.cronJobs|
    requires var jobs := w.snap.apps[app].spec.cronJobs;
             NamesCronJobAt(app, jobs[i], key) && forall j :: i < j < |jobs| ==> !NamesCronJobAt(app, jobs[j], key)
    ensures var objs, job := Pass(w, o, cfg, app).0.snap.objs, w.snap.apps[app].spec.cronJobs[i];
            && key in objs
            && var c := objs[key].content;
               && c.schedule == job.schedule && c.pod.fields == job.command && Some(c.pod.image) == image
               && c.pod.serviceAccount == app.name && c.pod.container == app.name && c.pod.labels == job.name
  {
    var jobs := w.snap.apps[app].spec.cronJobs;
    var l := CronJobItemIsLast(app, jobs, i, key);
    SweptContentIsLast(w, o, cfg, app, image, CronJobItems(app, jobs), l);
  }

  lemma {:induction false} ItemKinds(app: NamespacedName, roles: seq<ScopedRole>, jobs: seq<CronJobSpec>)
    ensures forall i :: 0 <= i < |RoleBindingItems(app, roles)| ==> RoleBindingItems(app, roles)[i].m.MutateBinding?
    ensures forall i :: 0 <= i < |ClusterRoleBindingItems(app, roles)| ==>
              ClusterRoleBindingItems(app, roles)[i].m.MutateBinding?
    ensures forall i :: 0 <= i < |CronJobItems(app, jobs)| ==> CronJobItems(app, jobs)[i].m.MutateCronJob?
    decreases |roles| + |jobs|
  {
    if roles != [] {
      ItemKinds(app, roles[1..], jobs);
    } else if jobs != [] {
      ItemKinds(app, roles, jobs[1..]);
    }
  }

  // ---------- The misplaced role ----------

  /** Binding items never fail to upsert when nothing is in their way. */
  lemma {:induction false} BindingUpsertsSucceed(w: World, o: Oracle, g: Goal, items: seq<Item>)
    requires Quiet(o) && NoFaults(o)
    requires forall i :: 0 <= i < |items| ==>
               items[i].m.MutateBinding? && items[i].key.kind == ClusterRoleBinding && items[i].key.namespace == ""
    requires forall key :: key in w.snap.objs && key.kind == ClusterRoleBinding ==>
               w.snap.objs[key].primary == Some(PrimaryOf(g.app))
    ensures UpsertAll(w, o, g, items).1.Done?
    decreases |items|
  {
    if items != [] {
      var r := ReconcileResource(w, o, g, items[0].key, items[0].m, true);
      QuietCall(w, o, g.app);
      QuietCall(w.(calls := w.calls + 1), o, g.app);
      QuietCall(w.(calls := w.calls + 2), o, g.app);
      ResourceQuietly(w, o, g, items[0].key, items[0].m, true);
      BindingUpsertsSucceed(r.0, o, g, items[1..]);
    }
  }

  /** If the stage succeeds, the Application has exactly the cluster role bindings that its roles name. */
  ghost predicate ExactAfter(w: World, o: Oracle, g: Goal)
    requires o.Picks()
  {
    var (t, out) := RunStage(w, o, g, StageAt(g, 2));
    out.Done? ==>
      forall key {:trigger NamesClusterRoleBinding(g.app, g.spec.roles, key)} ::
        key in t.snap.objs && BindingOf(key, t.snap.objs[key], g.app) <==> NamesClusterRoleBinding(g.app, g.spec.roles, key)
  }

  /** A cluster holding one stale binding of the Application, under a name no role gives. */
  function StaleWorld(app: NamespacedName): World {
    var snap := Snap(map[], map[Key(ClusterRoleBinding, "", "") := Obj(None, Some(PrimaryOf(app)), BLANK)]);
    World(snap, snap, 0, 0, [])
  }

  function CalmOracle(choose: set<Key> -> Key): Oracle {
    Oracle((i: nat) => NoFault, (i: nat) => [], (i: nat, spec) => None, (i: nat, s: set<Key>) => choose(s), (i: nat) => 0)
  }

  lemma {:induction false} FirstMisplaced(roles: seq<ScopedRole>) returns (p: nat)
    requires !WellPlaced(roles)
    ensures p < |roles| && NotAClusterRole(roles[p]) && WellPlaced(roles[..p])
  {
    p := 0;
    if !NotAClusterRole(roles[0]) {
      var q := FirstMisplaced(roles[1..]);
      p := q + 1;
      assert roles[..p] == [roles[0]] + roles[1..][..q];
    }
  }

  /** With a misplaced role, what the roles before it do not name stays as it is, stale bindings included. */
  lemma MisplacedRolePrunesNothing(w: World, o: Oracle, g: Goal, p: nat, key: Key)
    requires o.Picks() && Quiet(o) && ValidName(g.app) && p < |g.spec.roles|
    requires NotAClusterRole(g.spec.roles[p]) && WellPlaced(g.spec.roles[..p])
    requires !NamesClusterRoleBinding(g.app, g.spec.roles[..p], key)
    ensures var t := RunStage(w, o, g, StageAt(g, 2)).0;
            && (key in w.snap.objs <==> key in t.snap.objs)
            && (key in w.snap.objs ==> t.snap.objs[key] == w.snap.objs[key])
  {
    var items := ClusterRoleBindingItems(g.app, g.spec.roles);
    WellPlacedIff(g.spec.roles);
    assert StageAt(g, 2) == Many(ClusterRoleBinding, items, false);
    OnlyRolesBeforeMisplaced(g.app, g.spec.roles, p);
    ClusterRoleBindingKeys(g.app, g.spec.roles[..p], key);
    UnprunedStage(w, o, g, ClusterRoleBinding, items);
    UntouchedByKeys(w, RunStage(w, o, g, StageAt(g, 2)).0, KeysOf(items), key);
  }

  lemma UnprunedStage(w: World, o: Oracle, g: Goal, kind: Kind, items: seq<Item>)
    requires o.Picks() && Quiet(o)
    ensures OnlyKeys(w, RunStage(w, o, g, Many(kind, items, false)).0, KeysOf(items))
  {
    QuietCall(w, o, g.app);
    UpsertAllQuietly(Arrive(w, o, g.app), o, g, items);
  }

  lemma PlacedStageIsExact(w: World, o: Oracle, g: Goal, image: Option<string>)
    requires Calm(o, g, image) && ValidName(g.app) && WellPlaced(g.spec.roles)
    ensures ExactAfter(w, o, g)
  {
    var (t, out) := RunStage(w, o, g, StageAt(g, 2));
    if out.Done? {
      WellPlacedIff(g.spec.roles);
      StageEstablishes(w, o, g, 2, image);
      forall key
        ensures key in t.snap.objs && BindingOf(key, t.snap.objs[key], g.app)
                <==> NamesClusterRoleBinding(g.app, g.spec.roles, key)
      {
        ClusterRoleBindingKeys(g.app, g.spec.roles, key);
        ListedIs(t.snap.objs, g.app, key);
      }
    }
  }

  lemma MisplacedStageSucceeds(g: Goal, choose: set<Key> -> Key)
    requires ValidName(g.app) && !WellPlaced(g.spec.roles) && forall s :: s != {} ==> choose(s) in s
    ensures RunStage(StaleWorld(g.app), CalmOracle(choose), g, StageAt(g, 2)).1.Done?
  {
    var w, o := StaleWorld(g.app), CalmOracle(choose);
    WellPlacedIff(g.spec.roles);
    ItemsAreScoped(g.app, g.spec.roles, []);
    ItemKinds(g.app, g.spec.roles, []);
    QuietCall(w, o, g.app);
    BindingUpsertsSucceed(w.(calls := 1), o, g, ClusterRoleBindingItems(g.app, g.spec.roles));
  }

  lemma StaleBindingStays(g: Goal, choose: set<Key> -> Key)
    requires ValidName(g.app) && !WellPlaced(g.spec.roles) && forall s :: s != {} ==> choose(s) in s
    ensures !ExactAfter(StaleWorld(g.app), CalmOracle(choose), g)
  {
    var w, o := StaleWorld(g.app), CalmOracle(choose);
    var stale := Key(ClusterRoleBinding, "", "");
    var p := FirstMisplaced(g.spec.roles);
    NotNamedEmpty(g.app, g.spec.roles[..p]);
    NotNamedEmpty(g.app, g.spec.roles);
    MisplacedStageSucceeds(g, choose);
    MisplacedRolePrunesNothing(w, o, g, p, stale);
    assert stale in w.snap.objs && BindingOf(stale, w.snap.objs[stale], g.app);
  }

  lemma NotNamedEmpty(app: NamespacedName, roles: seq<ScopedRole>)
    ensures !NamesClusterRoleBinding(app, roles, Key(ClusterRoleBinding, "", ""))
  {
  }

  /** The stage makes the cluster role bindings exact, from every cluster, if and only if no role is misplaced. */
  lemma PrunesExactlyWhenPlaced(g: Goal, choose: set<Key> -> Key)
    requires ValidName(g.app) && forall s :: s != {} ==> choose(s) in s
    ensures (forall w, o, image :: Calm(o, g, image) ==> ExactAfter(w, o, g)) <==> WellPlaced(g.spec.roles)
  {
    if WellPlaced(g.spec.roles) {
      forall w, o, image | Calm(o, g, image)
        ensures ExactAfter(w, o, g)
      {
        PlacedStageIsExact(w, o, g, image);
      }
    } else {
      assert Calm(CalmOracle(choose), g, None);
      StaleBindingStays(g, choose);
    }
  }

  // ---------- Fail-fast ----------

  ghost predicate TouchedUpTo(g: Goal, k: nat, key: Option<Key>) {
    key.Some? && exists j: nat :: j <= k && InRegion(StageAt(g, j), key.value)
  }

  /** Every step of the Application's own worker from an index on is on a child of stages 0 to k only. */
  ghost predicate OwnStepsUpTo(g: Goal, k: nat, history: seq<Step>, from: nat) {
    forall i :: from <= i < |history| && history[i].actor == Some(g.app) ==>
      TouchedUpTo(g, k, history[i].key) && history[i].after.apps == history[i].before.apps
  }

  /** As long as the Application has the version of the copy it is as the copy has it, and new versions are new. */
  predicate Tracks(w: World, app: NamespacedName, copy: App) {
    && copy.version <= w.version
    && (app in w.snap.apps ==>
          && w.snap.apps[app].version <= w.version
          && (w.snap.apps[app].version == copy.version ==> w.snap.apps[app] == copy))
  }

  /** What a copy knew of its Application in the one world it knows in the other. */
  ghost predicate Follows(app: NamespacedName, w: World, t: World) {
    forall copy {:trigger Tracks(t, app, copy)} :: Tracks(w, app, copy) ==> Tracks(t, app, copy)
  }

  lemma {:induction false} OthersAreFollowed(w: World, app: NamespacedName, actions: seq<EnvAction>)
    ensures Follows(app, w, ActAll(w, app, actions))
  {
    if actions != [] {
      var before, last := ActAll(w, app, actions[..|actions| - 1]), actions[|actions| - 1];
      OthersAreFollowed(w, app, actions[..|actions| - 1]);
      forall copy | Tracks(before, app, copy)
        ensures Tracks(Act(before, app, last), app, copy)
      {
        ActIsFollowed(before, app, last, copy);
      }
    }
  }

  lemma ActIsFollowed(w: World, app: NamespacedName, a: EnvAction, copy: App)
    requires Tracks(w, app, copy)
    ensures Tracks(Act(w, app, a), app, copy)
  {
    if a.OtherWorker? && Act(w, app, a) != w {
      assert app in a.after.apps <==> app in a.after.apps - {a.worker};
      assert app in w.snap.apps <==> app in w.snap.apps - {a.worker};
      if app in a.after.apps {
        assert (a.after.apps - {a.worker})[app] == (w.snap.apps - {a.worker})[app];
      }
    }
  }

  ghost predicate Extends(w: World, t: World) {
    |w.history| <= |t.history| && t.history[..|w.history|] == w.history
  }

  /** All own steps a call adds are on its own key, and on no Application. */
  ghost predicate OwnStepsOn(app: NamespacedName, keys: set<Key>, w: World, t: World) {
    && Extends(w, t) && Follows(app, w, t)
    && forall i :: |w.history| <= i < |t.history| && t.history[i].actor == Some(app) ==> OwnStepOn(keys, t.history[i])
  }

  predicate OwnStepOn(keys: set<Key>, step: Step) {
    step.key.Some? && step.key.value in keys && step.after.apps == step.before.apps
  }

  lemma OwnStepsChain(app: NamespacedName, keys: set<Key>, a: World, b: World, c: World)
    requires OwnStepsOn(app, keys, a, b) && OwnStepsOn(app, keys, b, c)
    ensures OwnStepsOn(app, keys, a, c)
  {
    assert c.history[..|a.history|] == c.history[..|b.history|][..|a.history|];
    forall i | |a.history| <= i < |c.history| && c.history[i].actor == Some(app)
      ensures OwnStepOn(keys, c.history[i])
    {
      if i < |b.history| {
        assert c.history[..|b.history|][i] == b.history[i];
      }
    }
  }

  lemma ArriveOwnSteps(app: NamespacedName, keys: set<Key>, w: World, o: Oracle)
    ensures OwnStepsOn(app, keys, w, Arrive(w, o, app))
  {
    ArriveAddsNoOwnSteps(w, o, app);
    OthersAreFollowed(w.(calls := w.calls + 1), app, o.env(w.calls));
  }

  /** A call's own write, if it makes one, comes after the others' steps it meets. */
  lemma WriteOwnSteps(app: NamespacedName, keys: set<Key>, w: World, at: World, t: World, key: Key, snap: Snap)
    requires key in keys && OwnStepsOn(app, keys, w, at)
    requires t.history == at.history || t.history == at.history + [Step(Some(app), Some(key), at.snap, snap)]
    requires t.snap.apps == at.snap.apps == snap.apps && t.version == at.version
    ensures OwnStepsOn(app, keys, w, t)
  {
    assert t.history[..|at.history|] == at.history;
    OwnStepsChain(app, keys, w, at, t);
  }

  lemma CreateOrPatchOwnSteps(w: World, o: Oracle, g: Goal, key: Key, m: Mutation, read: Option<Obj>, keys: set<Key>)
    requires key in keys
    ensures OwnStepsOn(g.app, keys, w, CreateOrPatch(w, o, g, key, m, read).0)
  {
    var t := CreateOrPatch(w, o, g, key, m, read).0;
    var w1 := Arrive(w, o, g.app);
    var w2 := Arrive(w1, o, g.app);
    ArriveOwnSteps(g.app, keys, w, o);
    ArriveOwnSteps(g.app, keys, w1, o);
    OwnStepsChain(g.app, keys, w, w1, w2);
    if t != w1 {
      WriteOwnSteps(g.app, keys, w, w2, t, key, t.snap);
    }
  }

  lemma ResourceOwnSteps(w: World, o: Oracle, g: Goal, key: Key, m: Mutation, wanted: bool, keys: set<Key>)
    requires key in keys
    ensures OwnStepsOn(g.app, keys, w, ReconcileResource(w, o, g, key, m, wanted).0)
  {
    var t := ReconcileResource(w, o, g, key, m, wanted).0;
    var w1 := Arrive(w, o, g.app);
    ArriveOwnSteps(g.app, keys, w, o);
    if wanted {
      var read := if key in w1.snap.objs then Some(w1.snap.objs[key]) else None;
      CreateOrPatchOwnSteps(w1, o, g, key, m, read, keys);
      OwnStepsChain(g.app, keys, w, w1, CreateOrPatch(w1, o, g, key, m, read).0);
    } else if t != w1 {
      var w2 := Arrive(w1, o, g.app);
      ArriveOwnSteps(g.app, keys, w1, o);
      OwnStepsChain(g.app, keys, w, w1, w2);
      WriteOwnSteps(g.app, keys, w, w2, t, key, t.snap);
    }
  }

  lemma {:induction false} UpsertAllOwnSteps(w: World, o: Oracle, g: Goal, items: seq<Item>, keys: set<Key>)
    requires KeysOf(items) <= keys
    ensures OwnStepsOn(g.app, keys, w, UpsertAll(w, o, g, items).0)
    decreases |items|
  {
    if items != [] {
      KeysOfCons(items);
      ResourceOwnSteps(w, o, g, items[0].key, items[0].m, true, keys);
      var r := ReconcileResource(w, o, g, items[0].key, items[0].m, true);
      if r.1.Done? {
        UpsertAllOwnSteps(r.0, o, g, items[1..], keys);
        OwnStepsChain(g.app, keys, w, r.0, UpsertAll(r.0, o, g, items[1..]).0);
      }
    }
  }

  lemma {:induction false} SweepOwnSteps(w: World, o: Oracle, g: Goal, todo: set<Key>, keys: set<Key>)
    requires o.Picks() && todo <= keys
    ensures OwnStepsOn(g.app, keys, w, Sweep(w, o, g, todo).0)
    decreases |todo|
  {
    if todo != {} {
      var key := o.pick(w.calls, todo);
      ResourceOwnSteps(w, o, g, key, MutateNothing, false, keys);
      var r := ReconcileResource(w, o, g, key, MutateNothing, false);
      if r.1.Done? {
        SweepOwnSteps(r.0, o, g, todo - {key}, keys);
        OwnStepsChain(g.app, keys, w, r.0, Sweep(r.0, o, g, todo - {key}).0);
      }
    }
  }

  /** A stage writes children of its own region only, whatever others do and whichever calls fail. */
  lemma StageOwnSteps(w: World, o: Oracle, g: Goal, i: nat) returns (keys: set<Key>)
    requires o.Picks() && ValidName(g.app)
    ensures forall key :: key in keys ==> InRegion(StageAt(g, i), key)
    ensures OwnStepsOn(g.app, keys, w, RunStage(w, o, g, StageAt(g, i)).0)
  {
    var stage := StageAt(g, i);
    match stage
    case Skip => keys := {};
    case One(key, m, wanted) =>
      keys := {key};
      ResourceOwnSteps(w, o, g, key, m, wanted, keys);
    case Many(kind, items, prune) =>
      ItemsInRegion(g, i);
      var w1 := Arrive(w, o, g.app);
      var listed := ListOwned(w1.snap.objs, kind, g.app);
      keys := listed + KeysOf(items);
      ArriveOwnSteps(g.app, keys, w, o);
      var mid := UpsertAll(w1, o, g, items).0;
      UpsertAllOwnSteps(w1, o, g, items, keys);
      OwnStepsChain(g.app, keys, w, w1, mid);
      SweepOwnSteps(mid, o, g, listed - KeysOf(items), keys);
      OwnStepsChain(g.app, keys, w, mid, Sweep(mid, o, g, listed - KeysOf(items)).0);
  }

  lemma OwnStepsInStage(g: Goal, i: nat, keys: set<Key>, a: World, b: World)
    requires OwnStepsOn(g.app, keys, a, b) && forall key :: key in keys ==> InRegion(StageAt(g, i), key)
    ensures OwnStepsUpTo(g, i, b.history, |a.history|)
  {
    forall n | |a.history| <= n < |b.history| && b.history[n].actor == Some(g.app)
      ensures TouchedUpTo(g, i, b.history[n].key) && b.history[n].after.apps == b.history[n].before.apps
    {
      assert OwnStepOn(keys, b.history[n]) && InRegion(StageAt(g, i), b.history[n].key.value);
    }
  }

  lemma TouchedLater(g: Goal, i: nat, k: nat, key: Option<Key>)
    requires i <= k && TouchedUpTo(g, i, key)
    ensures TouchedUpTo(g, k, key)
  {
  }

  /** One world leads to the other, and the own steps on the way are on children of stages 0 to k. */
  ghost predicate OwnWritesUpTo(g: Goal, k: nat, a: World, b: World) {
    Extends(a, b) && Follows(g.app, a, b) && OwnStepsUpTo(g, k, b.history, |a.history|)
  }

  lemma OwnWritesChain(g: Goal, k: nat, a: World, b: World, c: World)
    requires OwnWritesUpTo(g, k, a, b) && OwnWritesUpTo(g, k, b, c)
    ensures OwnWritesUpTo(g, k, a, c)
  {
    assert c.history[..|a.history|] == c.history[..|b.history|][..|a.history|];
    forall n | |a.history| <= n < |c.history| && c.history[n].actor == Some(g.app)
      ensures TouchedUpTo(g, k, c.history[n].key) && c.history[n].after.apps == c.history[n].before.apps
    {
      if n < |b.history| {
        assert c.history[..|b.history|][n] == b.history[n];
      }
    }
  }

  lemma OwnWritesWiden(g: Goal, i: nat, k: nat, a: World, b: World)
    requires i <= k && OwnWritesUpTo(g, i, a, b)
    ensures OwnWritesUpTo(g, k, a, b)
  {
    forall n | |a.history| <= n < |b.history| && b.history[n].actor == Some(g.app)
      ensures TouchedUpTo(g, k, b.history[n].key) && b.history[n].after.apps == b.history[n].before.apps
    {
      TouchedLater(g, i, k, b.history[n].key);
    }
  }

  lemma StageOwnWrites(w: World, v: World, o: Oracle, g: Goal, n: nat)
    requires o.Picks() && ValidName(g.app) && OwnWritesUpTo(g, n, w, v)
    ensures var t := RunStage(v, o, g, StageAt(g, n)).0;
            OwnWritesUpTo(g, n, w, t) && OwnWritesUpTo(g, n + 1, w, t)
  {
    var t := RunStage(v, o, g, StageAt(g, n)).0;
    var keys := StageOwnSteps(v, o, g, n);
    OwnStepsInStage(g, n, keys, v, t);
    OwnWritesChain(g, n, w, v, t);
    OwnWritesWiden(g, n, n + 1, w, t);
  }

  ghost predicate OwnWritesEnd(g: Goal, i: nat, w: World, t: World, k: nat, out: Outcome) {
    i <= k <= STAGES && (out.Failed? <==> k < STAGES) && OwnWritesUpTo(g, k, w, t)
  }

  /** The first stage to fail ends the run, and the own writes of the run are on children of the stages up to it. */
  lemma StagesOwnSteps(w: World, o: Oracle, g: Goal, i: nat)
    requires o.Picks() && ValidName(g.app) && i < STAGES
    ensures var (t, k, out) := RunStages(w, o, g, i); OwnWritesEnd(g, i, w, t, k, out)
  {
    var inv := (n: nat, v: World) => OwnWritesUpTo(g, n, w, v);
    var end := (t: World, k: nat, out: Outcome) => OwnWritesEnd(g, i, w, t, k, out);
    forall n: nat, v | i <= n < STAGES && inv(n, v)
      ensures Carries(o, g, n, v, inv, end)
    {
      StageOwnWrites(w, v, o, g, n);
    }
    StagesCarry(w, o, g, i, inv, end);
  }

  /** The reasons of the stages, in their order. */
  const REASONS := [
    "ServiceAccountUpsertFailed", "RoleBindingUpsertFailed", "ClusterRoleBindingUpsertFailed", "ServiceUpsertFailed",
    "LoadBalancerServiceUpsertFailed", "PodMonitorUpsertFailed", "IngressRouteUpsertFailed", "CronJobUpsertFailed",
    "DeploymentUpsertFailed"]

  /**
   Fail-fast, with any interference and failures: when stage k is the first to fail, the worker wrote children of
   stages 0 to k only, and the status it submits has Ready set to False with that stage's reason. The pass returns the
   stage's error, after it the error of the status update if there is one, and asks for another pass instead if that is
   a conflict.
   */
  lemma FailFast(w: World, o: Oracle, g: Goal, copy: App)
    requires o.Picks() && ValidName(g.app)
    ensures var (t, k, out) := RunStages(w, o, g, 0);
            && OwnStepsUpTo(g, k, t.history, |w.history|)
            && (out.Failed? ==>
                  && k < |REASONS|
                  && var submitted := copy.(status := copy.status.(ready := Some(Condition(False, REASONS[k]))));
                     var (u, error) := UpdateStatus(t, o, g.app, submitted);
                     var (end, result) := RunAll(w, o, g, copy);
                     && end == u
                     && result.errors == [out.error] + (if error.Some? && error != Some(Conflict) then [error.value] else [])
                     && (result.requeue <==> error == Some(Conflict))
                     && (error.None? ==> g.app in u.snap.apps && u.snap.apps[g.app].status == submitted.status))
  {
    StagesOwnSteps(w, o, g, 0);
    ReasonsOfStages();
  }

  lemma ReasonsOfStages()
    ensures |REASONS| == STAGES && forall k: nat :: k < STAGES ==> FailureReason(k) == REASONS[k]
  {
    forall k: nat | k < STAGES
      ensures FailureReason(k) == REASONS[k]
    {
      assert k in {0, 1, 2, 3, 4, 5, 6, 7, 8};
    }
  }

  /** And with nobody interfering, what the stages before k are for holds at that point. */
  lemma FailedPassKeepsPrefix(w: World, o: Oracle, g: Goal, image: Option<string>)
    requires Calm(o, g, image) && ValidName(g.app)
    ensures var (t, k, out) := RunStages(w, o, g, 0); Converged(t.snap.objs, g, image, k)
  {
    StagesConverge(w, o, g, 0, image);
  }
}
