/**
 The ownership frame over whole runs. Whatever happens between passes and whichever calls fail, no pass changes or
 deletes an object its Application does not own, and no pass changes an owner, if and only if nobody puts a foreign
 object, during the pass, under a name that a pass for the Application can reach.
 */
module FrameRuns {
  import opened Cluster
  import opened Convergence
  import opened Frame
  import opened Mutators
  import opened Names
  import opened Passes
  import opened Reconcile
  import opened Safety
  import opened Wrappers

  // ---------- What is harmless ----------

  /** The names a pass for the Application can reach, whatever its spec: the swept kinds, and its own fixed names. */
  predicate Reached(cfg: Config, app: NamespacedName, key: Key) {
    || key.kind == ClusterRoleBinding
    || (key.namespace == app.namespace
        && match key.kind
           case RoleBinding => true
           case CronJob => true
           case Service => key.name == app.name || key.name == LBServiceName(app).name
           case PodMonitor => cfg.supportsPrometheus && key.name == app.name
           case IngressRoute => cfg.supportsTraefik && key.name == app.name
           case _ => key.name == app.name)
  }

  /** The service account is never edited or deleted, so only one without a controller can be taken over. */
  predicate PutThreat(app: NamespacedName, key: Key, obj: Obj) {
    match key.kind
    case ClusterRoleBinding => !ClaimsApplication(key, obj)
    case ServiceAccount => obj.controller.None?
    case _ => Stranger(app, key, obj)
  }

  /** Others may do anything else: edit and delete children, create them elsewhere, act on Applications. */
  predicate Harmless(cfg: Config, app: NamespacedName, a: EnvAction) {
    !a.OtherWorker? && (a.PutChild? && Reached(cfg, app, a.key) ==> !PutThreat(app, a.key, a.obj))
  }

  ghost predicate AllHarmless(cfg: Config, app: NamespacedName, allowed: EnvAction -> bool) {
    forall a :: allowed(a) ==> Harmless(cfg, app, a)
  }

  /** What the stages ask of a child: its name is in reach, and service accounts are only ensured. */
  predicate Handled(g: Goal, key: Key, m: Mutation, wanted: bool) {
    && Reached(g.cfg, g.app, key) && (wanted ==> Scoped(key))
    && (key.kind == ServiceAccount ==> wanted && m == MutateNothing)
  }

  // ---------- Harmless actions keep the frame ----------

  /** One world leads to the other, and the own steps on the way respect ownership. */
  ghost predicate OwnFramed(app: NamespacedName, a: World, b: World) {
    Extends(a, b) && OwnStepsFramed(app, b.history, |a.history|)
  }

  lemma OwnFramedChain(app: NamespacedName, a: World, b: World, c: World)
    requires OwnFramed(app, a, b) && OwnFramed(app, b, c)
    ensures OwnFramed(app, a, c)
  {
    assert c.history[..|a.history|] == c.history[..|b.history|][..|a.history|];
    forall i | |a.history| <= i < |c.history| && c.history[i].actor == Some(app)
      ensures FrameStep(app, c.history[i])
    {
      if i < |b.history| {
        assert c.history[..|b.history|][i] == b.history[i];
      }
    }
  }

  lemma ArrivalOwnFramed(app: NamespacedName, w: World, o: Oracle)
    ensures OwnFramed(app, w, Arrive(w, o, app))
  {
    ArriveAddsNoOwnSteps(w, o, app);
  }

  lemma CallOwnFramed(w: World, o: Oracle, g: Goal, key: Key, m: Mutation, wanted: bool, allowed: EnvAction -> bool)
    requires Handled(g, key, m, wanted) && Within(o, allowed) && AllHarmless(g.cfg, g.app, allowed)
    ensures OwnFramed(g.app, w, ReconcileResource(w, o, g, key, m, wanted).0)
  {
    forall a | allowed(a)
      ensures !a.OtherWorker? && (a.PutChild? && a.key == key ==> !Threat(g, key, m, wanted, a.obj))
    {
      assert Harmless(g.cfg, g.app, a);
    }
    HarmlessCallIsFramed(w, o, g, key, m, wanted, allowed);
    ResourceOwnSteps(w, o, g, key, m, wanted, {key});
  }

  lemma {:induction false} UpsertAllOwnFramed(w: World, o: Oracle, g: Goal, items: seq<Item>, allowed: EnvAction -> bool)
    requires Within(o, allowed) && AllHarmless(g.cfg, g.app, allowed)
    requires forall k :: 0 <= k < |items| ==> Handled(g, items[k].key, items[k].m, true)
    ensures OwnFramed(g.app, w, UpsertAll(w, o, g, items).0)
    decreases |items|
  {
    if items != [] {
      CallOwnFramed(w, o, g, items[0].key, items[0].m, true, allowed);
      var r := ReconcileResource(w, o, g, items[0].key, items[0].m, true);
      if r.1.Done? {
        UpsertAllOwnFramed(r.0, o, g, items[1..], allowed);
        OwnFramedChain(g.app, w, r.0, UpsertAll(r.0, o, g, items[1..]).0);
      }
    }
  }

  lemma {:induction false} SweepOwnFramed(w: World, o: Oracle, g: Goal, keys: set<Key>, allowed: EnvAction -> bool)
    requires o.Picks() && Within(o, allowed) && AllHarmless(g.cfg, g.app, allowed)
    requires forall key :: key in keys ==> Handled(g, key, MutateNothing, false)
    ensures OwnFramed(g.app, w, Sweep(w, o, g, keys).0)
    decreases |keys|
  {
    if keys != {} {
      var key := o.pick(w.calls, keys);
      CallOwnFramed(w, o, g, key, MutateNothing, false, allowed);
      var r := ReconcileResource(w, o, g, key, MutateNothing, false);
      if r.1.Done? {
        SweepOwnFramed(r.0, o, g, keys - {key}, allowed);
        OwnFramedChain(g.app, w, r.0, Sweep(r.0, o, g, keys - {key}).0);
      }
    }
  }

  predicate SweptKind(kind: Kind) {
    kind == RoleBinding || kind == ClusterRoleBinding || kind == CronJob
  }

  lemma ManyOwnFramed(w: World, o: Oracle, g: Goal, stage: Stage, allowed: EnvAction -> bool)
    requires o.Picks() && Within(o, allowed) && AllHarmless(g.cfg, g.app, allowed)
    requires stage.Many? && SweptKind(stage.kind)
    requires forall k :: 0 <= k < |stage.items| ==> Handled(g, stage.items[k].key, stage.items[k].m, true)
    ensures OwnFramed(g.app, w, RunStage(w, o, g, stage).0)
  {
    var Many(kind, items, prune) := stage;
    ArrivalOwnFramed(g.app, w, o);
    var w1 := Arrive(w, o, g.app);
    var mid := UpsertAll(w1, o, g, items).0;
    var rest := ListOwned(w1.snap.objs, kind, g.app) - KeysOf(items);
    UpsertAllOwnFramed(w1, o, g, items, allowed);
    OwnFramedChain(g.app, w, w1, mid);
    SweepOwnFramed(mid, o, g, rest, allowed);
    OwnFramedChain(g.app, w, mid, Sweep(mid, o, g, rest).0);
  }

  lemma StageOwnFramed(w: World, o: Oracle, g: Goal, i: nat, allowed: EnvAction -> bool)
    requires o.Picks() && Within(o, allowed) && AllHarmless(g.cfg, g.app, allowed) && ValidName(g.app)
    ensures OwnFramed(g.app, w, RunStage(w, o, g, StageAt(g, i)).0)
  {
    var stage := StageAt(g, i);
    ItemsAreScoped(g.app, g.spec.roles, g.spec.cronJobs);
    match stage
    case Skip =>
    case One(key, m, wanted) => CallOwnFramed(w, o, g, key, m, wanted, allowed);
    case Many(_, _, _) => ManyOwnFramed(w, o, g, stage, allowed);
  }

  lemma StagesOwnFramed(w: World, o: Oracle, g: Goal, i: nat, allowed: EnvAction -> bool)
    requires o.Picks() && Within(o, allowed) && AllHarmless(g.cfg, g.app, allowed) && ValidName(g.app) && i < STAGES
    ensures OwnFramed(g.app, w, RunStages(w, o, g, i).0)
  {
    var inv := (n: nat, v: World) => OwnFramed(g.app, w, v);
    var end := (t: World, k: nat, out: Outcome) => OwnFramed(g.app, w, t);
    forall n: nat, v | i <= n < STAGES && inv(n, v)
      ensures Carries(o, g, n, v, inv, end)
    {
      StageOwnFramed(v, o, g, n, allowed);
      OwnFramedChain(g.app, w, v, RunStage(v, o, g, StageAt(g, n)).0);
    }
    StagesCarry(w, o, g, i, inv, end);
  }

  /** Writing the Application's own record touches no child. */
  lemma RecordWriteOwnFramed(w: World, app: NamespacedName, snap: Snap)
    requires snap.objs == w.snap.objs
    ensures OwnFramed(app, w, Commit(w.(version := w.version + 1), Some(app), None, snap))
  {
  }

  lemma StatusOwnFramed(w: World, o: Oracle, app: NamespacedName, copy: App)
    ensures OwnFramed(app, w, UpdateStatus(w, o, app, copy).0)
  {
    StatusWritten(w, o, app, copy);
    ArrivalOwnFramed(app, w, o);
    var w1 := Arrive(w, o, app);
    if app in w1.snap.apps {
      var stored := w1.snap.apps[app].(status := copy.status, version := w1.version + 1);
      var snap := w1.snap.(apps := w1.snap.apps[app := stored]);
      RecordWriteOwnFramed(w1, app, snap);
      OwnFramedChain(app, w, w1, Commit(w1.(version := w1.version + 1), Some(app), None, snap));
    }
  }

  lemma RecordOwnFramed(w: World, o: Oracle, app: NamespacedName, copy: App)
    ensures OwnFramed(app, w, UpdateApp(w, o, app, copy).0)
  {
    AppWritten(w, o, app, copy);
    ArrivalOwnFramed(app, w, o);
    var w1 := Arrive(w, o, app);
    if app in w1.snap.apps {
      var snap := Stored(w1.snap, app, copy.(version := w1.version + 1, status := w1.snap.apps[app].status));
      RecordWriteOwnFramed(w1, app, snap);
      OwnFramedChain(app, w, w1, Commit(w1.(version := w1.version + 1), Some(app), None, snap));
    }
  }

  lemma RunAllOwnFramed(w: World, o: Oracle, g: Goal, copy: App, allowed: EnvAction -> bool)
    requires o.Picks() && Within(o, allowed) && AllHarmless(g.cfg, g.app, allowed) && ValidName(g.app)
    ensures OwnFramed(g.app, w, RunAll(w, o, g, copy).0)
  {
    StagesOwnFramed(w, o, g, 0, allowed);
    var (w1, stage, out) := RunStages(w, o, g, 0);
    var submitted :=
      match out
      case Failed(e) => WithReady(copy, Condition(False, FailureReason(stage)))
      case Done(obj) => Observed(copy, if obj.Some? then obj.value else NEW_OBJ, o.clock(w1.calls));
    StatusOwnFramed(w1, o, g.app, submitted);
    OwnFramedChain(g.app, w, w1, UpdateStatus(w1, o, g.app, submitted).0);
  }

  lemma CleanupOwnFramed(w: World, o: Oracle, g: Goal, copy: App, allowed: EnvAction -> bool)
    requires o.Picks() && Within(o, allowed) && AllHarmless(g.cfg, g.app, allowed)
    ensures OwnFramed(g.app, w, Cleanup(w, o, g, copy).0)
  {
    ArrivalOwnFramed(g.app, w, o);
    var w1 := Arrive(w, o, g.app);
    var listed := ListOwned(w1.snap.objs, ClusterRoleBinding, g.app);
    SweepOwnFramed(w1, o, g, listed, allowed);
    var swept := Sweep(w1, o, g, listed).0;
    OwnFramedChain(g.app, w, w1, swept);
    RecordOwnFramed(swept, o, g.app, copy.(finalizer := false));
    OwnFramedChain(g.app, w, swept, UpdateApp(swept, o, g.app, copy.(finalizer := false)).0);
  }

  /** From any state of the cluster. */
  lemma PassOwnFramed(w: World, o: Oracle, cfg: Config, app: NamespacedName, allowed: EnvAction -> bool)
    requires o.Picks() && Within(o, allowed) && AllHarmless(cfg, app, allowed) && ValidName(app)
    ensures OwnFramed(app, w, Pass(w, o, cfg, app).0)
  {
    var start := w.(calls := 0);
    ArrivalOwnFramed(app, start, o);
    var w1 := Arrive(start, o, app);
    if app in w1.snap.apps {
      var copy := w1.snap.apps[app];
      var g := Goal(cfg, app, copy.spec);
      if copy.status.ready.None? {
        StatusOwnFramed(w1, o, app, WithReady(copy, Condition(Unknown, "Reconciling")));
      } else if !copy.deleting && !copy.finalizer {
        RecordOwnFramed(w1, o, app, copy.(finalizer := true));
      } else if !copy.deleting {
        RunAllOwnFramed(w1, o, g, copy, allowed);
      } else if copy.finalizer {
        CleanupOwnFramed(w1, o, g, copy, allowed);
      }
      var t := Pass(w, o, cfg, app).0;
      if t != w1 {
        OwnFramedChain(app, start, w1, t);
      }
    }
  }

  // ---------- Runs ----------

  /** A pass of the run, from the state it finds, respects ownership. */
  ghost predicate PassFramed(w: World, input: PassInput)
    requires input.o.Picks()
  {
    OwnStepsFramed(input.app, Pass(w, input.o, input.cfg, input.app).0.history, |w.history|)
  }

  /** The controller's inputs: one configuration, valid names, and others within what is allowed during a pass. */
  ghost predicate Controlled(cfg: Config, inputs: seq<PassInput>, allowed: (NamespacedName, EnvAction) -> bool) {
    forall i {:trigger inputs[i]} :: 0 <= i < |inputs| ==>
      && inputs[i].o.Picks() && inputs[i].cfg == cfg && ValidName(inputs[i].app)
      && Within(inputs[i].o, a => allowed(inputs[i].app, a))
  }

  ghost predicate RunsFramed(w: World, inputs: seq<PassInput>)
    requires forall i :: 0 <= i < |inputs| ==> inputs[i].o.Picks()
  {
    forall i {:trigger inputs[i]} :: 0 <= i < |inputs| ==>
      PassFramed(ActAll(Runs(w, inputs[..i]), inputs[i].app, inputs[i].between), inputs[i])
  }

  /** Any state a controller may be started in. */
  ghost predicate Start(w: World) {
    NoOrphans(w.snap) && AppsValid(w.snap) && w.history == [] && w.origin == w.snap
  }

  /**
   Over every run of passes for any Applications, with any failures and any acts between passes, foreign ones of other
   workers included: each pass respects ownership if what others may do during it is harmless to its Application.
   */
  lemma FrameOverRuns(w: World, cfg: Config, inputs: seq<PassInput>, allowed: (NamespacedName, EnvAction) -> bool)
    requires Controlled(cfg, inputs, allowed)
    requires forall app, a :: ValidName(app) && allowed(app, a) ==> Harmless(cfg, app, a)
    ensures RunsFramed(w, inputs)
  {
    forall i | 0 <= i < |inputs|
      ensures PassFramed(ActAll(Runs(w, inputs[..i]), inputs[i].app, inputs[i].between), inputs[i])
    {
      var input := inputs[i];
      var before := ActAll(Runs(w, inputs[..i]), input.app, input.between);
      PassOwnFramed(before, input.o, cfg, input.app, a => allowed(input.app, a));
    }
  }

  // ---------- Sweeps are never refused ----------

  /** The name is one a sweep may come by, and the object under it, if any, passes the ownership check. */
  ghost predicate SweepableKey(app: NamespacedName, s: Snap, key: Key) {
    && SweptKind(key.kind) && Near(app, key)
    && (key in s.objs ==> !Stranger(app, key, s.objs[key]))
  }

  ghost predicate Sweepable(app: NamespacedName, s: Snap, keys: set<Key>) {
    forall key {:trigger SweepableKey(app, s, key)} :: key in keys ==> SweepableKey(app, s, key)
  }

  lemma ListedIsSweepable(app: NamespacedName, s: Snap, kind: Kind)
    requires SweptKind(kind)
    ensures Sweepable(app, s, ListOwned(s.objs, kind, app))
  {
  }

  lemma SweepableOnArrival(w: World, o: Oracle, cfg: Config, app: NamespacedName, allowed: EnvAction -> bool, key: Key)
    requires Within(o, allowed) && AllHarmless(cfg, app, allowed) && SweepableKey(app, w.snap, key)
    ensures SweepableKey(app, Arrive(w, o, app).snap, key)
  {
    if key.kind == ClusterRoleBinding {
      forall a | allowed(a)
        ensures KeepsClaimAt(key, a)
      {
        assert Harmless(cfg, app, a);
      }
      ClaimOnArrival(w, o, app, allowed, key);
    } else {
      var good := (c: Option<OwnerRef>, p: Option<Primary>) => !Stranger(app, key, Obj(c, p, BLANK));
      forall a | allowed(a)
        ensures PutsGood(key, good, a)
      {
        assert Harmless(cfg, app, a);
      }
      GoodOnArrival(w, o, app, allowed, key, good);
    }
  }

  /** A call on another child, or a deletion, leaves a name sweepable. */
  lemma SweepableAfterCall(
    w: World, o: Oracle, g: Goal, other: Key, m: Mutation, wanted: bool, allowed: EnvAction -> bool, key: Key)
    requires Within(o, allowed) && AllHarmless(g.cfg, g.app, allowed) && SweepableKey(g.app, w.snap, key)
    requires wanted ==> other != key
    ensures SweepableKey(g.app, ReconcileResource(w, o, g, other, m, wanted).0.snap, key)
  {
    var w1 := Arrive(w, o, g.app);
    var w2 := Arrive(w1, o, g.app);
    SweepableOnArrival(w, o, g.cfg, g.app, allowed, key);
    SweepableOnArrival(w1, o, g.cfg, g.app, allowed, key);
    SweepableOnArrival(w2, o, g.cfg, g.app, allowed, key);
  }

  lemma {:induction false} SweepableAfterUpserts(
    w: World, o: Oracle, g: Goal, items: seq<Item>, allowed: EnvAction -> bool, key: Key)
    requires Within(o, allowed) && AllHarmless(g.cfg, g.app, allowed) && SweepableKey(g.app, w.snap, key)
    requires key !in KeysOf(items)
    ensures SweepableKey(g.app, UpsertAll(w, o, g, items).0.snap, key)
    decreases |items|
  {
    if items != [] {
      KeysOfCons(items);
      SweepableAfterCall(w, o, g, items[0].key, items[0].m, true, allowed, key);
      SweepableAfterUpserts(
        ReconcileResource(w, o, g, items[0].key, items[0].m, true).0, o, g, items[1..], allowed, key);
    }
  }

  lemma {:induction false} SweepIsNeverRefused(w: World, o: Oracle, g: Goal, keys: set<Key>, allowed: EnvAction -> bool)
    requires o.Picks() && Within(o, allowed) && AllHarmless(g.cfg, g.app, allowed) && Sweepable(g.app, w.snap, keys)
    ensures Sweep(w, o, g, keys).1 != Failed(NotOwned)
    decreases |keys|
  {
    if keys != {} {
      var key := o.pick(w.calls, keys);
      assert SweepableKey(g.app, w.snap, key);
      SweepableOnArrival(w, o, g.cfg, g.app, allowed, key);
      var r := ReconcileResource(w, o, g, key, MutateNothing, false);
      if r.1.Done? {
        forall k | k in keys - {key}
          ensures SweepableKey(g.app, r.0.snap, k)
        {
          assert SweepableKey(g.app, w.snap, k);
          SweepableAfterCall(w, o, g, key, MutateNothing, false, allowed, k);
        }
        SweepIsNeverRefused(r.0, o, g, keys - {key}, allowed);
      }
    }
  }

  /** What the owner index returned is swept without a refusal: a stage can be refused over an upsert only. */
  lemma StageSweepIsNeverRefused(w: World, o: Oracle, g: Goal, i: nat, allowed: EnvAction -> bool)
    requires o.Picks() && Within(o, allowed) && AllHarmless(g.cfg, g.app, allowed) && StageAt(g, i).Many?
    ensures RunStage(w, o, g, StageAt(g, i)).1 == Failed(NotOwned) ==>
              UpsertAll(Arrive(w, o, g.app), o, g, StageAt(g, i).items).1 == Failed(NotOwned)
  {
    var Many(kind, items, prune) := StageAt(g, i);
    var w1 := Arrive(w, o, g.app);
    var mid := UpsertAll(w1, o, g, items).0;
    var rest := ListOwned(w1.snap.objs, kind, g.app) - KeysOf(items);
    ListedIsSweepable(g.app, w1.snap, kind);
    forall key | key in rest
      ensures SweepableKey(g.app, mid.snap, key)
    {
      assert SweepableKey(g.app, w1.snap, key);
      SweepableAfterUpserts(w1, o, g, items, allowed, key);
    }
    SweepIsNeverRefused(mid, o, g, rest, allowed);
  }

  /** Nor is the clean-up of a deleted Application. */
  lemma CleanupIsNeverRefused(w: World, o: Oracle, g: Goal, copy: App, allowed: EnvAction -> bool)
    requires o.Picks() && Within(o, allowed) && AllHarmless(g.cfg, g.app, allowed)
    ensures NotOwned !in Cleanup(w, o, g, copy).1.errors
  {
    var w1 := Arrive(w, o, g.app);
    ListedIsSweepable(g.app, w1.snap, ClusterRoleBinding);
    SweepIsNeverRefused(w1, o, g, ListOwned(w1.snap.objs, ClusterRoleBinding, g.app), allowed);
  }
}
