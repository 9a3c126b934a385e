/**
 When a pass succeeds, exactly: left undisturbed, a pass reports an error for four reasons in the spec and the image lookup,
 or because something foreign sits under the name of a child.
 */
module Feasibility {
  import opened Cluster
  import opened Convergence
  import opened Frame
  import opened ImageFinder
  import opened Mutators
  import opened Names
  import opened Passes
  import opened Reconcile
  import opened Safety
  import opened Traces
  import opened Workloads
  import opened Wrappers

  /** The owner is the Application, in the very form the controller writes it. */
  predicate OwnedExactly(app: NamespacedName, key: Key, obj: Obj) {
    if key.namespace == "" then obj.primary == Some(Primary("yarotsky.me", "Application", app.namespace + "/" + app.name))
    else obj.controller == Some(OwnerRef("yarotsky.me", "Application", app.name))
  }

  ghost predicate Handles(stage: Stage, key: Key) {
    match stage
    case Skip => false
    case One(k, _, _) => key == k
    case Many(_, items, _) => key in KeysOf(items)
  }

  /** What is to be deleted must pass the ownership check; what is to be written must be owned in the exact form. */
  predicate OursFor(app: NamespacedName, stage: Stage, key: Key, obj: Obj) {
    if stage.One? && !stage.wanted then !Stranger(app, key, obj) else OwnedExactly(app, key, obj)
  }

  ghost predicate OursAt(objs: map<Key, Obj>, g: Goal, stage: Stage) {
    forall key {:trigger Handles(stage, key)} ::
      key in objs && Handles(stage, key) ==> OursFor(g.app, stage, key, objs[key])
  }

  /** Nothing foreign sits under the name of a child of the Application. */
  ghost predicate Unobstructed(objs: map<Key, Obj>, g: Goal) {
    forall i: nat {:trigger OursAt(objs, g, StageAt(g, i))} :: i < STAGES ==> OursAt(objs, g, StageAt(g, i))
  }

  ghost predicate Succeeds(g: Goal, m: Mutation, image: Option<string>) {
    forall c {:trigger Mutate(g, m, image, c)} :: Mutate(g, m, image, c).Success?
  }

  ghost predicate StageFeasible(g: Goal, image: Option<string>, stage: Stage) {
    match stage
    case Skip => true
    case One(_, m, wanted) => wanted ==> Succeeds(g, m, image)
    case Many(_, items, _) => forall k {:trigger items[k]} :: 0 <= k < |items| ==> Succeeds(g, items[k].m, image)
  }

  /**
   An image is known, the load balancer's port names are the Application's, wanted metrics have a port, and a wanted
   ingress has a valid host, a port, and a valid auth configuration if it asks for one.
   */
  predicate Feasible(g: Goal, image: Option<string>) {
    && image.Some? && KnownBalancedPorts(g)
    && (g.cfg.supportsPrometheus && g.spec.metrics.Some? && g.spec.metrics.value.enabled ==> KnownMetricsPort(g))
    && (g.cfg.supportsTraefik ==> ValidIngress(g))
  }

  lemma FeasibleSucceeds(g: Goal, m: Mutation, image: Option<string>)
    requires CanSucceed(g, m) && image.Some?
    ensures Succeeds(g, m, image)
  {
    forall c
      ensures Mutate(g, m, image, c).Success?
    {
      SucceedsIff(g, m, image, c);
    }
  }

  lemma FeasibleStages(g: Goal, image: Option<string>, i: nat)
    requires Feasible(g, image) && i < STAGES
    ensures StageFeasible(g, image, StageAt(g, i))
  {
    ItemKinds(g.app, g.spec.roles, g.spec.cronJobs);
    var stage := StageAt(g, i);
    match stage
    case Skip =>
    case One(_, m, wanted) =>
      if wanted {
        FeasibleSucceeds(g, m, image);
      }
    case Many(_, items, _) =>
      forall k | 0 <= k < |items|
        ensures Succeeds(g, items[k].m, image)
      {
        FeasibleSucceeds(g, items[k].m, image);
      }
  }

  // ---------- Calls ----------

  lemma UpsertSucceeds(w: World, o: Oracle, g: Goal, key: Key, m: Mutation, image: Option<string>)
    requires Calm(o, g, image) && NoFaults(o) && Scoped(key) && Succeeds(g, m, image)
    requires key in w.snap.objs ==> OwnedExactly(g.app, key, w.snap.objs[key])
    ensures var (t, out) := ReconcileResource(w, o, g, key, m, true);
            out.Done? && key in t.snap.objs && OwnedExactly(g.app, key, t.snap.objs[key])
  {
    QuietCall(w, o, g.app);
    QuietCall(w.(calls := w.calls + 1), o, g.app);
    QuietCall(w.(calls := w.calls + 2), o, g.app);
    var base := if key in w.snap.objs then w.snap.objs[key] else NEW_OBJ;
    assert Mutate(g, m, image, base.content).Success?;
    ResourceQuietly(w, o, g, key, m, true);
  }

  lemma DeleteSucceeds(w: World, o: Oracle, g: Goal, key: Key)
    requires Quiet(o) && NoFaults(o)
    requires key in w.snap.objs ==> !Stranger(g.app, key, w.snap.objs[key])
    ensures var (t, out) := ReconcileResource(w, o, g, key, MutateNothing, false);
            out.Done? && t.snap.objs == w.snap.objs - {key}
  {
    QuietCall(w, o, g.app);
    QuietCall(w.(calls := w.calls + 1), o, g.app);
    ResourceQuietly(w, o, g, key, MutateNothing, false);
  }

  ghost predicate ItemsReady(objs: map<Key, Obj>, g: Goal, image: Option<string>, items: seq<Item>) {
    forall k {:trigger items[k]} :: 0 <= k < |items| ==>
      && Scoped(items[k].key) && Succeeds(g, items[k].m, image)
      && (items[k].key in objs ==> OwnedExactly(g.app, items[k].key, objs[items[k].key]))
  }

  lemma {:induction false} UpsertAllSucceeds(w: World, o: Oracle, g: Goal, items: seq<Item>, image: Option<string>)
    requires Calm(o, g, image) && NoFaults(o) && ItemsReady(w.snap.objs, g, image, items)
    ensures var (t, out) := UpsertAll(w, o, g, items);
            && out.Done?
            && forall key :: key in KeysOf(items) && key in t.snap.objs ==> OwnedExactly(g.app, key, t.snap.objs[key])
    decreases |items|
  {
    if items != [] {
      var first, rest := items[0], items[1..];
      var v := ReconcileResource(w, o, g, first.key, first.m, true).0;
      var t := UpsertAll(w, o, g, items).0;
      UpsertSucceeds(w, o, g, first.key, first.m, image);
      ResourceQuietly(w, o, g, first.key, first.m, true);
      forall k | 0 <= k < |rest|
        ensures Scoped(rest[k].key) && Succeeds(g, rest[k].m, image)
                && (rest[k].key in v.snap.objs ==> OwnedExactly(g.app, rest[k].key, v.snap.objs[rest[k].key]))
      {
        assert rest[k] == items[k + 1];
      }
      UpsertAllSucceeds(v, o, g, rest, image);
      KeysOfCons(items);
      UpsertAllQuietly(v, o, g, rest);
      if first.key !in KeysOf(rest) {
        UntouchedByKeys(v, t, KeysOf(rest), first.key);
      }
    }
  }

  lemma {:induction false} SweepSucceeds(w: World, o: Oracle, g: Goal, keys: set<Key>)
    requires o.Picks() && Quiet(o) && NoFaults(o)
    requires forall key :: key in keys && key in w.snap.objs ==> !Stranger(g.app, key, w.snap.objs[key])
    ensures Sweep(w, o, g, keys).1.Done?
    decreases |keys|
  {
    if keys != {} {
      var key := o.pick(w.calls, keys);
      DeleteSucceeds(w, o, g, key);
      SweepSucceeds(ReconcileResource(w, o, g, key, MutateNothing, false).0, o, g, keys - {key});
    }
  }

  // ---------- Stages ----------

  lemma ManySucceeds(w: World, o: Oracle, g: Goal, stage: Stage, image: Option<string>)
    requires Calm(o, g, image) && NoFaults(o) && stage.Many? && ItemsReady(w.snap.objs, g, image, stage.items)
    ensures RunStage(w, o, g, stage).1.Done? && OursAt(RunStage(w, o, g, stage).0.snap.objs, g, stage)
  {
    var Many(kind, items, prune) := stage;
    QuietCall(w, o, g.app);
    var w1 := Arrive(w, o, g.app);
    UpsertAllSucceeds(w1, o, g, items, image);
    UpsertAllQuietly(w1, o, g, items);
    var mid := UpsertAll(w1, o, g, items).0;
    var rest := ListOwned(w1.snap.objs, kind, g.app) - KeysOf(items);
    forall key | key in rest && key in mid.snap.objs
      ensures !Stranger(g.app, key, mid.snap.objs[key])
    {
      UntouchedByKeys(w1, mid, KeysOf(items), key);
    }
    SweepSucceeds(mid, o, g, rest);
    SweepQuietly(mid, o, g, rest);
  }

  lemma OneSucceeds(w: World, o: Oracle, g: Goal, stage: Stage, image: Option<string>)
    requires Calm(o, g, image) && NoFaults(o) && stage.One? && StageFeasible(g, image, stage)
    requires Scoped(stage.key) && OursAt(w.snap.objs, g, stage) && ValidName(g.app)
    ensures RunStage(w, o, g, stage).1.Done? && OursAt(RunStage(w, o, g, stage).0.snap.objs, g, stage)
  {
    assert Handles(stage, stage.key);
    if stage.wanted {
      UpsertSucceeds(w, o, g, stage.key, stage.m, image);
    } else {
      DeleteSucceeds(w, o, g, stage.key);
    }
  }

  lemma OneIsScoped(g: Goal, i: nat)
    requires ValidName(g.app) && StageAt(g, i).One?
    ensures InReach(g.app, StageAt(g, i).key)
  {
  }

  lemma StageSucceeds(w: World, o: Oracle, g: Goal, i: nat, image: Option<string>)
    requires Calm(o, g, image) && NoFaults(o) && ValidName(g.app)
    requires StageFeasible(g, image, StageAt(g, i)) && OursAt(w.snap.objs, g, StageAt(g, i))
    ensures var r := RunStage(w, o, g, StageAt(g, i)); r.1.Done? && OursAt(r.0.snap.objs, g, StageAt(g, i))
  {
    var stage := StageAt(g, i);
    match stage
    case Skip =>
    case One(_, _, _) =>
      OneIsScoped(g, i);
      OneSucceeds(w, o, g, stage, image);
    case Many(_, items, _) =>
      ItemsInRegion(g, i);
      forall k | 0 <= k < |items|
        ensures Scoped(items[k].key) && Succeeds(g, items[k].m, image)
                && (items[k].key in w.snap.objs ==> OwnedExactly(g.app, items[k].key, w.snap.objs[items[k].key]))
      {
        assert Handles(stage, items[k].key);
      }
      ManySucceeds(w, o, g, stage, image);
  }

  lemma HandledIsInRegion(g: Goal, i: nat, key: Key)
    requires ValidName(g.app) && Handles(StageAt(g, i), key)
    ensures InRegion(StageAt(g, i), key)
  {
    ItemsInRegion(g, i);
  }

  lemma OthersStayOurs(a: map<Key, Obj>, b: map<Key, Obj>, g: Goal, i: nat, j: nat)
    requires ValidName(g.app) && i != j && AgreeOutside(StageAt(g, i), a, b) && OursAt(a, g, StageAt(g, j))
    ensures OursAt(b, g, StageAt(g, j))
  {
    forall key | key in b && Handles(StageAt(g, j), key)
      ensures OursFor(g.app, StageAt(g, j), key, b[key])
    {
      HandledIsInRegion(g, j, key);
      RegionsAreDisjoint(g, j, i, key);
    }
  }

  lemma StageStaysUnobstructed(w: World, o: Oracle, g: Goal, i: nat, image: Option<string>)
    requires Calm(o, g, image) && NoFaults(o) && ValidName(g.app) && i < STAGES
    requires Feasible(g, image) && Unobstructed(w.snap.objs, g)
    ensures var r := RunStage(w, o, g, StageAt(g, i)); r.1.Done? && Unobstructed(r.0.snap.objs, g)
  {
    var v := RunStage(w, o, g, StageAt(g, i)).0;
    FeasibleStages(g, image, i);
    StageSucceeds(w, o, g, i, image);
    StageStaysInRegion(w, o, g, i);
    forall j: nat | j < STAGES
      ensures OursAt(v.snap.objs, g, StageAt(g, j))
    {
      if j != i {
        OthersStayOurs(w.snap.objs, v.snap.objs, g, i, j);
      }
    }
  }

  lemma StagesSucceed(w: World, o: Oracle, g: Goal, i: nat, image: Option<string>)
    requires Calm(o, g, image) && NoFaults(o) && ValidName(g.app) && i < STAGES
    requires Feasible(g, image) && Unobstructed(w.snap.objs, g)
    ensures RunStages(w, o, g, i).2.Done?
  {
    var inv := (n: nat, v: World) => Unobstructed(v.snap.objs, g);
    var end := (t: World, k: nat, out: Outcome) => out.Done?;
    forall n: nat, v | i <= n < STAGES && inv(n, v)
      ensures Carries(o, g, n, v, inv, end)
    {
      StageStaysUnobstructed(v, o, g, n, image);
    }
    StagesCarry(w, o, g, i, inv, end);
  }

  // ---------- Foreign objects ----------

  /** A foreign object under the name makes the call fail, and stays. */
  lemma ForeignIsRefused(w: World, o: Oracle, g: Goal, key: Key, m: Mutation, wanted: bool)
    requires Quiet(o) && key in w.snap.objs && Near(g.app, key) && (wanted ==> Scoped(key))
    requires if wanted then !OwnedExactly(g.app, key, w.snap.objs[key]) else Stranger(g.app, key, w.snap.objs[key])
    ensures ReconcileResource(w, o, g, key, m, wanted).1.Failed?
  {
    QuietCall(w, o, g.app);
    QuietCall(w.(calls := w.calls + 1), o, g.app);
  }

  lemma {:induction false} ForeignItemFails(w: World, o: Oracle, g: Goal, items: seq<Item>, key: Key)
    requires Quiet(o) && key in KeysOf(items) && key in w.snap.objs && InReach(g.app, key)
    requires !OwnedExactly(g.app, key, w.snap.objs[key])
    ensures UpsertAll(w, o, g, items).1.Failed?
    decreases |items|
  {
    KeysOfCons(items);
    if items[0].key == key {
      ForeignIsRefused(w, o, g, key, items[0].m, true);
    } else {
      var v := ReconcileResource(w, o, g, items[0].key, items[0].m, true).0;
      ResourceQuietly(w, o, g, items[0].key, items[0].m, true);
      UntouchedByKeys(w, v, {items[0].key}, key);
      ForeignItemFails(v, o, g, items[1..], key);
    }
  }

  /** The stage that handles a foreign object fails. */
  lemma StageRefuses(w: World, o: Oracle, g: Goal, i: nat, key: Key)
    requires o.Picks() && Quiet(o) && ValidName(g.app) && key in w.snap.objs
    requires Handles(StageAt(g, i), key) && !OursFor(g.app, StageAt(g, i), key, w.snap.objs[key])
    ensures RunStage(w, o, g, StageAt(g, i)).1.Failed?
  {
    match StageAt(g, i)
    case One(_, m, wanted) =>
      OneIsScoped(g, i);
      ForeignIsRefused(w, o, g, key, m, wanted);
    case Many(_, items, _) =>
      ItemsInRegion(g, i);
      QuietCall(w, o, g.app);
      ForeignItemFails(Arrive(w, o, g.app), o, g, items, key);
  }

  /** Until its stage the foreign object stays, and no later stage is reached. */
  ghost predicate ForeignWaits(a: map<Key, Obj>, b: map<Key, Obj>, key: Key, i: nat, n: nat) {
    n <= i && SameAt(a, b, key)
  }

  lemma ObstructedFails(w: World, o: Oracle, g: Goal)
    requires o.Picks() && Quiet(o) && ValidName(g.app) && !Unobstructed(w.snap.objs, g)
    ensures RunStages(w, o, g, 0).2.Failed?
  {
    var i: nat :| i < STAGES && !OursAt(w.snap.objs, g, StageAt(g, i));
    var key :| key in w.snap.objs && Handles(StageAt(g, i), key) && !OursFor(g.app, StageAt(g, i), key, w.snap.objs[key]);
    HandledIsInRegion(g, i, key);
    OnlyOneRegion(g, i, key);
    var inv := (n: nat, v: World) => ForeignWaits(w.snap.objs, v.snap.objs, key, i, n);
    var end := (t: World, k: nat, out: Outcome) => out.Failed?;
    forall n: nat, v | n < STAGES && inv(n, v)
      ensures Carries(o, g, n, v, inv, end)
    {
      if n == i {
        StageRefuses(v, o, g, i, key);
      } else {
        StageKeeps(v, o, g, n, key);
      }
    }
    StagesCarry(w, o, g, 0, inv, end);
  }

  // ---------- The pass ----------

  lemma StatusUpdateSucceeds(w: World, o: Oracle, app: NamespacedName, copy: App)
    requires Quiet(o) && NoFaults(o) && app in w.snap.apps && w.snap.apps[app].version == copy.version
    ensures UpdateStatus(w, o, app, copy).1.None?
  {
    QuietCall(w, o, app);
  }

  lemma FeasiblePassSucceeds(w: World, o: Oracle, cfg: Config, app: NamespacedName, image: Option<string>)
    requires ValidName(app) && Steady(w, app) && Calm(o, GoalOf(w, cfg, app), image) && NoFaults(o)
    requires Unobstructed(w.snap.objs, GoalOf(w, cfg, app)) && Feasible(GoalOf(w, cfg, app), image)
    ensures Pass(w, o, cfg, app).1 == OK
  {
    SteadyPassRunsAll(w, o, cfg, app);
    var w1, g, copy := w.(calls := 1), GoalOf(w, cfg, app), w.snap.apps[app];
    StagesSucceed(w1, o, g, 0, image);
    StagesConverge(w1, o, g, 0, image);
    var (w2, k, out) := RunStages(w1, o, g, 0);
    StatusUpdateSucceeds(w2, o, app, Observed(copy, out.obj.value, o.clock(w2.calls)));
  }

  lemma MadeSucceeds(g: Goal, image: Option<string>, key: Key, m: Mutation, obj: Obj)
    requires Made(g, image, key, m, obj)
    ensures CanSucceed(g, m) && (NeedsImage(m) ==> image.Some?)
  {
    var before := MadeContent(g, image, key, m, obj);
    SucceedsIff(g, m, image, before);
  }

  /** A stage whose wanted child is settled shows that its mutator could succeed. */
  lemma StageShowsSuccess(objs: map<Key, Obj>, g: Goal, image: Option<string>, i: nat, key: Key, m: Mutation)
    requires Converged(objs, g, image, STAGES) && i < STAGES && StageAt(g, i) == One(key, m, true)
    ensures CanSucceed(g, m) && (NeedsImage(m) ==> image.Some?)
  {
    OneHolds(objs, g, image, i);
    assert Settled(objs, g, image, key, m);
    MadeSucceeds(g, image, key, m, objs[key]);
  }

  lemma ConvergedKnowsImage(objs: map<Key, Obj>, g: Goal, image: Option<string>)
    requires Converged(objs, g, image, STAGES)
    ensures image.Some?
  {
    StageShowsSuccess(objs, g, image, 8, KeyOf(Deployment, g.app), MutateDeployment);
  }

  lemma ConvergedBalances(objs: map<Key, Obj>, g: Goal, image: Option<string>)
    requires Converged(objs, g, image, STAGES)
    ensures KnownBalancedPorts(g)
  {
    if g.spec.loadBalancer.Some? {
      StageShowsSuccess(objs, g, image, 4, KeyOf(Service, LBServiceName(g.app)), MutateLBService);
    }
  }

  lemma ConvergedIsMonitored(objs: map<Key, Obj>, g: Goal, image: Option<string>)
    requires Converged(objs, g, image, STAGES)
    requires g.cfg.supportsPrometheus && g.spec.metrics.Some? && g.spec.metrics.value.enabled
    ensures KnownMetricsPort(g)
  {
    StageShowsSuccess(objs, g, image, 5, KeyOf(PodMonitor, g.app), MutatePodMonitor);
  }

  lemma ConvergedIsRouted(objs: map<Key, Obj>, g: Goal, image: Option<string>)
    requires Converged(objs, g, image, STAGES) && g.cfg.supportsTraefik
    ensures ValidIngress(g)
  {
    if g.spec.ingress.Some? {
      StageShowsSuccess(objs, g, image, 6, KeyOf(IngressRoute, g.app), MutateIngressRoute);
    }
  }

  lemma ConvergedIsFeasible(objs: map<Key, Obj>, g: Goal, image: Option<string>)
    requires Converged(objs, g, image, STAGES)
    ensures Feasible(g, image)
  {
    ConvergedKnowsImage(objs, g, image);
    ConvergedBalances(objs, g, image);
    if g.cfg.supportsPrometheus && g.spec.metrics.Some? && g.spec.metrics.value.enabled {
      ConvergedIsMonitored(objs, g, image);
    }
    if g.cfg.supportsTraefik {
      ConvergedIsRouted(objs, g, image);
    }
  }

  /** A pass over a cluster with a foreign object under a child's name reports an error. */
  lemma ObstructedPassFails(w: World, o: Oracle, cfg: Config, app: NamespacedName)
    requires ValidName(app) && Steady(w, app) && o.Picks() && Quiet(o)
    requires !Unobstructed(w.snap.objs, GoalOf(w, cfg, app))
    ensures Pass(w, o, cfg, app).1 != OK
  {
    SteadyPassRunsAll(w, o, cfg, app);
    ObstructedFails(w.(calls := 1), o, GoalOf(w, cfg, app));
  }

  /**
   Undisturbed and without failing calls, a pass of a steady Application succeeds if and only if the spec is feasible and
   nothing foreign is under its children's names; and it then is a good pass in the sense of module Passes.
   */
  lemma PassSucceedsIff(w: World, o: Oracle, cfg: Config, app: NamespacedName, image: Option<string>)
    requires ValidName(app) && Steady(w, app) && Calm(o, GoalOf(w, cfg, app), image) && NoFaults(o)
    ensures Pass(w, o, cfg, app).1 == OK
            <==> Feasible(GoalOf(w, cfg, app), image) && Unobstructed(w.snap.objs, GoalOf(w, cfg, app))
    ensures Pass(w, o, cfg, app).1 == OK ==> GoodPass(w, o, cfg, app, image)
  {
    if Pass(w, o, cfg, app).1 == OK {
      GoodPassConverges(w, o, cfg, app, image);
      ConvergedIsFeasible(Pass(w, o, cfg, app).0.snap.objs, GoalOf(w, cfg, app), image);
      if !Unobstructed(w.snap.objs, GoalOf(w, cfg, app)) {
        ObstructedPassFails(w, o, cfg, app);
      }
    } else if Feasible(GoalOf(w, cfg, app), image) && Unobstructed(w.snap.objs, GoalOf(w, cfg, app)) {
      FeasiblePassSucceeds(w, o, cfg, app, image);
    }
  }

  /** The stage writes the child of that name. */
  ghost predicate Writes(g: Goal, i: nat, key: Key) {
    i < STAGES && Handles(StageAt(g, i), key) && !(StageAt(g, i).One? && !StageAt(g, i).wanted)
  }

  /** After a good pass the children to be written exist and are the Application's. */
  lemma HandledIsOwned(w: World, o: Oracle, cfg: Config, app: NamespacedName, image: Option<string>, i: nat, key: Key)
    requires GoodPass(w, o, cfg, app, image)
    requires Writes(GoalOf(w, cfg, app), i, key)
    ensures var objs := Pass(w, o, cfg, app).0.snap.objs; key in objs && !Stranger(app, key, objs[key])
  {
    var g, objs := GoalOf(w, cfg, app), Pass(w, o, cfg, app).0.snap.objs;
    GoodPassConverges(w, o, cfg, app, image);
    assert StageHolds(objs, g, image, StageAt(g, i));
    match StageAt(g, i)
    case One(_, _, _) =>
    case Many(_, items, _) =>
      var k: nat :| k < |items| && items[k].key == key;
      var l := LastOf(items, k);
      assert Settled(objs, g, image, items[l].key, items[l].m);
  }

  /** So every feasible spec has good passes: an Application with that spec on an otherwise empty cluster. */
  lemma GoodPassesExist(cfg: Config, app: NamespacedName, spec: Spec, image: string, choose: set<Key> -> Key)
    returns (w: World, o: Oracle)
    requires ValidName(app) && Feasible(Goal(cfg, app, spec), Some(image))
    requires forall s :: s != {} ==> choose(s) in s
    ensures app in w.snap.apps && w.snap.apps[app].spec == spec && GoodPass(w, o, cfg, app, Some(image))
  {
    var record := App(spec, Status("", 0, Some(Condition(Unknown, "Reconciling"))), true, false, false, 0);
    var snap := Snap(map[app := record], map[]);
    w := World(snap, snap, 0, 0, []);
    o := Oracle((i: nat) => NoFault, (i: nat) => [], (i: nat, spec: ImageSpec) => Some(image),
                (i: nat, s: set<Key>) => choose(s), (i: nat) => 0);
    PassSucceedsIff(w, o, cfg, app, Some(image));
  }

  // ---------- Children of two Applications under one name ----------

  lemma HandledIsNear(g: Goal, i: nat, key: Key)
    requires ValidName(g.app) && Handles(StageAt(g, i), key)
    ensures InReach(g.app, key)
  {
    if StageAt(g, i).Many? {
      ItemsInRegion(g, i);
    }
  }

  /** No object is owned by two Applications that can both have it as a child. */
  lemma OwnedByOne(a: NamespacedName, b: NamespacedName, stage: Stage, key: Key, obj: Obj)
    requires ValidName(a) && ValidName(b) && a != b && InReach(a, key) && InReach(b, key)
    requires !Stranger(a, key, obj)
    ensures !OursFor(b, stage, key, obj)
  {
    if key.kind == ClusterRoleBinding && a.String() == b.String() {
      StringInjective(a, b);
    }
  }

  lemma ForeignObstructs(objs: map<Key, Obj>, g: Goal, j: nat, key: Key)
    requires j < STAGES && key in objs && Handles(StageAt(g, j), key) && !OursFor(g.app, StageAt(g, j), key, objs[key])
    ensures !Unobstructed(objs, g)
  {
    assert !OursAt(objs, g, StageAt(g, j));
  }

  lemma OthersKeepSpec(w: World, o: Oracle, cfg: Config, a: NamespacedName, b: NamespacedName, image: Option<string>)
    requires GoodPass(w, o, cfg, a, image) && a != b && Steady(w, b)
    ensures var first := Pass(w, o, cfg, a).0; Steady(first, b) && GoalOf(first, cfg, b) == GoalOf(w, cfg, b)
  {
    SteadyPassRunsAll(w, o, cfg, a);
    RunAllConverges(w.(calls := 1), o, GoalOf(w, cfg, a), image);
    var first := Pass(w, o, cfg, a).0;
    assert b in first.snap.apps - {a} && (first.snap.apps - {a})[b] == (w.snap.apps - {a})[b];
  }

  lemma CollisionObstructs(
    w: World, o: Oracle, cfg: Config, a: NamespacedName, gb: Goal, image: Option<string>, i: nat, j: nat, key: Key)
    requires GoodPass(w, o, cfg, a, image) && a != gb.app && ValidName(gb.app)
    requires Writes(GoalOf(w, cfg, a), i, key) && Writes(gb, j, key)
    ensures !Unobstructed(Pass(w, o, cfg, a).0.snap.objs, gb)
  {
    var objs := Pass(w, o, cfg, a).0.snap.objs;
    HandledIsOwned(w, o, cfg, a, image, i, key);
    HandledIsNear(GoalOf(w, cfg, a), i, key);
    HandledIsNear(gb, j, key);
    OwnedByOne(a, gb.app, StageAt(gb, j), key, objs[key]);
    ForeignObstructs(objs, gb, j, key);
  }

  /** When two Applications have children of one name, the one that comes second has its pass fail. */
  lemma CollisionFailsSecond(
    w: World, o1: Oracle, o2: Oracle, cfg: Config, a: NamespacedName, b: NamespacedName, image: Option<string>,
    i: nat, j: nat, key: Key)
    requires GoodPass(w, o1, cfg, a, image) && a != b && ValidName(b) && Steady(w, b) && o2.Picks() && Quiet(o2)
    requires Writes(GoalOf(w, cfg, a), i, key) && Writes(GoalOf(w, cfg, b), j, key)
    ensures Pass(Pass(w, o1, cfg, a).0, o2, cfg, b).1 != OK
  {
    OthersKeepSpec(w, o1, cfg, a, b, image);
    CollisionObstructs(w, o1, cfg, a, GoalOf(w, cfg, b), image, i, j, key);
    ObstructedPassFails(Pass(w, o1, cfg, a).0, o2, cfg, b);
  }

  lemma JobIsWritten(g: Goal, name: string)
    requires exists job :: job in g.spec.cronJobs && job.name == name
    ensures Writes(g, 7, KeyOf(CronJob, CronJobName(g.app, name)))
  {
    CronJobKeys(g.app, g.spec.cronJobs, KeyOf(CronJob, CronJobName(g.app, name)));
  }

  /** For example, job b-c of the Application a makes the pass of the Application a-b with a job c fail. */
  lemma CronJobsCollide(w: World, o1: Oracle, o2: Oracle, cfg: Config, ns: string, image: Option<string>)
    requires var a, b := NamespacedName(ns, "a"), NamespacedName(ns, "a-b");
             && GoodPass(w, o1, cfg, a, image) && ValidName(b) && Steady(w, b) && o2.Picks() && Quiet(o2)
             && (exists job :: job in w.snap.apps[a].spec.cronJobs && job.name == "b-c")
             && (exists job :: job in w.snap.apps[b].spec.cronJobs && job.name == "c")
    ensures Pass(Pass(w, o1, cfg, NamespacedName(ns, "a")).0, o2, cfg, NamespacedName(ns, "a-b")).1 != OK
  {
    var a, b := NamespacedName(ns, "a"), NamespacedName(ns, "a-b");
    assert "a" + "-" + "b-c" == "a-b" + "-" + "c";
    JobIsWritten(GoalOf(w, cfg, a), "b-c");
    JobIsWritten(GoalOf(w, cfg, b), "c");
    CollisionFailsSecond(w, o1, o2, cfg, a, b, image, 7, 7, KeyOf(CronJob, CronJobName(a, "b-c")));
  }
}
