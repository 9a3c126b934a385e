/**
 The converse of the frame over runs: every act that is not harmless breaks the frame in some run. For each name in
 reach there is a cluster with little but the threatened child on it, and a moment in a pass over it at which putting
 a foreign object under that name has the pass overwrite, delete or take over the foreign object.
 */
module FrameExact {
  import opened Cluster
  import opened Convergence
  import opened Frame
  import opened FrameRuns
  import opened ImageFinder
  import opened Mutators
  import opened Names
  import opened Passes
  import opened Reconcile
  import opened Safety
  import opened Wrappers

  // ---------- A bare cluster ----------

  const BARE_SPEC :=
    Spec(ImageSpec("", None, "Digest", None, None), [], None, None, None, [], [], false, None, "")

  /** A live Application with conditions and finalizer in place that asks for next to nothing. */
  const BARE_APP := App(BARE_SPEC, Status("", 0, Some(Condition(Unknown, "Reconciling"))), true, false, false, 0)

  function BareGoal(cfg: Config, app: NamespacedName): Goal {
    Goal(cfg, app, BARE_SPEC)
  }

  function MutationAt(key: Key): Mutation {
    match key.kind
    case Service => MutateService
    case PodMonitor => MutatePodMonitor
    case IngressRoute => MutateIngressRoute
    case Deployment => MutateDeployment
    case _ => MutateNothing
  }

  /** Wanted whatever the spec says. */
  predicate WantedAlways(key: Key) {
    key.kind == ServiceAccount || key.kind == Deployment
  }

  function ServiceAccountKey(app: NamespacedName): Key {
    KeyOf(ServiceAccount, app)
  }

  const OWN_ACCOUNT: (NamespacedName) -> Obj := app => Obj(Some(OwnerRefOf(app)), None, BLANK)

  function BareObjs(g: Goal, key: Key, obj: Obj): map<Key, Obj> {
    var victim := Victim(g, key, MutationAt(key), WantedAlways(key), obj);
    (if key.kind == ServiceAccount then map[] else map[ServiceAccountKey(g.app) := OWN_ACCOUNT(g.app)])
    + (if victim.Some? then map[key := victim.value] else map[])
  }

  /** The calls an idle stage makes on the bare cluster. */
  function Cost(g: Goal, i: nat): nat {
    if i == 0 then 2 else if StageAt(g, i).Skip? then 0 else 1
  }

  function CostUpTo(g: Goal, i: nat): nat {
    if i == 0 then 0 else CostUpTo(g, i - 1) + Cost(g, i - 1)
  }

  /** When the put must happen: within the call on the child, counted from the start of its stage. */
  function Delay(g: Goal, key: Key): nat {
    (if SweptKind(key.kind) then 1 else 0) + Moment(g, key, MutationAt(key), WantedAlways(key))
  }

  ghost predicate Bare(w: World, g: Goal, key: Key, obj: Obj) {
    g.spec == BARE_SPEC && w.snap.objs == BareObjs(g, key, obj)
  }

  // ---------- Idle stages ----------

  lemma NothingElseListed(w: World, g: Goal, key: Key, obj: Obj, kind: Kind)
    requires Bare(w, g, key, obj) && SweptKind(kind) && kind != key.kind
    ensures ListOwned(w.snap.objs, kind, g.app) == {}
  {
  }

  lemma IdleAccount(w: World, o: Oracle, n: nat, g: Goal, key: Key, obj: Obj)
    requires Bare(w, g, key, obj) && key.kind != ServiceAccount && ValidName(g.app)
    requires IntrudesAt(o, n, key, obj) && w.calls + 2 <= n
    ensures ReconcileResource(w, o, g, ServiceAccountKey(g.app), MutateNothing, true)
         == (w.(calls := w.calls + 2), Done(Some(OWN_ACCOUNT(g.app))))
  {
    QuietArrival(w, o, n, key, obj, g.app);
    QuietArrival(w.(calls := w.calls + 1), o, n, key, obj, g.app);
  }

  lemma IdleUnwanted(w: World, o: Oracle, n: nat, g: Goal, key: Key, obj: Obj, other: Key, m: Mutation)
    requires IntrudesAt(o, n, key, obj) && w.calls < n && other !in w.snap.objs
    ensures ReconcileResource(w, o, g, other, m, false) == (w.(calls := w.calls + 1), Done(None))
  {
    QuietArrival(w, o, n, key, obj, g.app);
  }

  lemma IdleMany(w: World, o: Oracle, n: nat, g: Goal, key: Key, obj: Obj, kind: Kind)
    requires Bare(w, g, key, obj) && SweptKind(kind) && kind != key.kind && o.Picks()
    requires IntrudesAt(o, n, key, obj) && w.calls < n
    ensures RunStage(w, o, g, Many(kind, [], true)) == (w.(calls := w.calls + 1), Done(None))
  {
    QuietArrival(w, o, n, key, obj, g.app);
    NothingElseListed(w.(calls := w.calls + 1), g, key, obj, kind);
    assert KeysOf([]) == {};
  }

  lemma BareStages(g: Goal, i: nat)
    requires g.spec == BARE_SPEC && i < 8
    ensures match StageAt(g, i)
            case Skip => true
            case One(key, m, wanted) => if i == 0 then key == ServiceAccountKey(g.app) && m == MutateNothing && wanted
                                        else !wanted && key.kind != ServiceAccount && InRegion(StageAt(g, i), key)
            case Many(kind, items, prune) => SweptKind(kind) && items == [] && prune
  {
  }

  lemma TargetInRegion(g: Goal, key: Key)
    requires Reached(g.cfg, g.app, key)
    ensures InRegion(StageAt(g, StageOf(g.app, key)), key)
  {
    LBServiceNameDiffers(g.app);
  }

  /** Before the stage of the threatened child every stage finds nothing to do. */
  lemma IdleStage(w: World, o: Oracle, n: nat, g: Goal, key: Key, obj: Obj, i: nat)
    requires Bare(w, g, key, obj) && Reached(g.cfg, g.app, key) && ValidName(g.app) && o.Picks()
    requires IntrudesAt(o, n, key, obj) && w.calls + Cost(g, i) <= n && i < StageOf(g.app, key)
    ensures var r := RunStage(w, o, g, StageAt(g, i)); r.0 == w.(calls := w.calls + Cost(g, i)) && r.1.Done?
  {
    BareStages(g, i);
    TargetInRegion(g, key);
    match StageAt(g, i)
    case Skip =>
    case One(other, m, wanted) =>
      if i == 0 {
        IdleAccount(w, o, n, g, key, obj);
      } else {
        if other == key {
          RegionsAreDisjoint(g, i, StageOf(g.app, key), key);
        }
        IdleUnwanted(w, o, n, g, key, obj, other, m);
      }
    case Many(kind, items, prune) =>
      if kind == key.kind {
        RegionsAreDisjoint(g, i, StageOf(g.app, key), key);
      }
      IdleMany(w, o, n, g, key, obj, kind);
  }

  lemma {:induction false} CostGrows(g: Goal, i: nat, j: nat)
    requires i <= j
    ensures CostUpTo(g, i) <= CostUpTo(g, j)
    decreases j
  {
    if i < j {
      CostGrows(g, i, j - 1);
    }
  }

  // ---------- The stage of the threatened child ----------

  /** The own steps from one world to another do not all respect ownership. */
  ghost predicate Violated(app: NamespacedName, a: World, b: World) {
    Extends(a, b) && !OwnStepsFramed(app, b.history, |a.history|)
  }

  lemma ViolationStays(app: NamespacedName, a: World, b: World, c: World)
    requires Violated(app, a, b) && Extends(b, c)
    ensures Violated(app, a, c)
  {
    assert c.history[..|a.history|] == c.history[..|b.history|][..|a.history|];
    var i :| |a.history| <= i < |b.history| && b.history[i].actor == Some(app) && !FrameStep(app, b.history[i]);
    assert c.history[..|b.history|][i] == b.history[i] == c.history[i];
  }

  lemma ThreatInStage(g: Goal, key: Key, obj: Obj)
    requires g.spec == BARE_SPEC && PutThreat(g.app, key, obj)
    ensures Threat(g, key, MutationAt(key), WantedAlways(key), obj)
  {
  }

  lemma CallViolates(w: World, o: Oracle, g: Goal, key: Key, m: Mutation, obj: Obj)
    requires Bare(w, g, key, obj) && Reached(g.cfg, g.app, key) && ValidName(g.app) && PutThreat(g.app, key, obj)
    requires WantedAlways(key) ==> m == MutationAt(key)
    requires IntrudesAt(o, w.calls + Moment(g, key, MutationAt(key), WantedAlways(key)), key, obj)
    ensures Violated(g.app, w, ReconcileResource(w, o, g, key, m, WantedAlways(key)).0)
  {
    ThreatInStage(g, key, obj);
    if WantedAlways(key) {
      ThreatIsReal(w, o, g, key, m, true, obj);
    } else {
      ReplacedBeforeDelete(w, o, g, key, m, obj);
    }
    ResourceOwnSteps(w, o, g, key, m, WantedAlways(key), {key});
  }

  lemma OnlyTargetListed(w: World, g: Goal, key: Key, obj: Obj)
    requires Bare(w, g, key, obj) && Reached(g.cfg, g.app, key) && SweptKind(key.kind)
    ensures ListOwned(w.snap.objs, key.kind, g.app) == {key}
  {
  }

  lemma SweepViolates(w: World, o: Oracle, g: Goal, key: Key, obj: Obj)
    requires Bare(w, g, key, obj) && Reached(g.cfg, g.app, key) && ValidName(g.app) && PutThreat(g.app, key, obj)
    requires o.Picks() && SweptKind(key.kind) && IntrudesAt(o, w.calls + 2, key, obj)
    ensures Violated(g.app, w, RunStage(w, o, g, Many(key.kind, [], true)).0)
  {
    QuietArrival(w, o, w.calls + 2, key, obj, g.app);
    var w1 := w.(calls := w.calls + 1);
    OnlyTargetListed(w1, g, key, obj);
    assert KeysOf([]) == {} && {key} - {} == {key};
    assert o.pick(w1.calls, {key}) == key;
    CallViolates(w1, o, g, key, MutateNothing, obj);
    var r := ReconcileResource(w1, o, g, key, MutateNothing, false);
    assert {key} - {key} == {};
    assert Sweep(w1, o, g, {key}).0 == r.0;
  }

  lemma TargetStage(g: Goal, key: Key)
    requires g.spec == BARE_SPEC && Reached(g.cfg, g.app, key)
    ensures var stage := StageAt(g, StageOf(g.app, key));
            if SweptKind(key.kind) then stage == Many(key.kind, [], true)
            else stage.One? && stage.key == key && stage.wanted == WantedAlways(key)
                 && (WantedAlways(key) ==> stage.m == MutationAt(key))
  {
    LBServiceNameDiffers(g.app);
  }

  lemma StageViolates(w: World, o: Oracle, g: Goal, key: Key, obj: Obj)
    requires Bare(w, g, key, obj) && Reached(g.cfg, g.app, key) && ValidName(g.app) && PutThreat(g.app, key, obj)
    requires o.Picks() && IntrudesAt(o, w.calls + Delay(g, key), key, obj)
    ensures Violated(g.app, w, RunStage(w, o, g, StageAt(g, StageOf(g.app, key))).0)
  {
    TargetStage(g, key);
    if SweptKind(key.kind) {
      SweepViolates(w, o, g, key, obj);
    } else {
      CallViolates(w, o, g, key, StageAt(g, StageOf(g.app, key)).m, obj);
    }
  }

  // ---------- The pass ----------

  /** Before stage n: nothing has happened, if the child's stage is still to come; otherwise the frame is broken. */
  ghost predicate Doomed(w: World, v: World, g: Goal, key: Key, n: nat) {
    if n <= StageOf(g.app, key)
    then v.snap == w.snap && v.history == w.history && v.calls == w.calls + CostUpTo(g, n)
    else Violated(g.app, w, v)
  }

  lemma IdleStageIsDoomed(w: World, v: World, o: Oracle, g: Goal, key: Key, obj: Obj, n: nat)
    requires Bare(w, g, key, obj) && Reached(g.cfg, g.app, key) && ValidName(g.app) && o.Picks()
    requires IntrudesAt(o, w.calls + CostUpTo(g, StageOf(g.app, key)) + Delay(g, key), key, obj)
    requires n < StageOf(g.app, key) && Doomed(w, v, g, key, n)
    ensures var r := RunStage(v, o, g, StageAt(g, n)); r.1.Done? && Doomed(w, r.0, g, key, n + 1)
  {
    CostGrows(g, n + 1, StageOf(g.app, key));
    IdleStage(v, o, w.calls + CostUpTo(g, StageOf(g.app, key)) + Delay(g, key), g, key, obj, n);
  }

  lemma OwnStageIsDoomed(w: World, v: World, o: Oracle, g: Goal, key: Key, obj: Obj)
    requires Bare(w, g, key, obj) && Reached(g.cfg, g.app, key) && ValidName(g.app) && PutThreat(g.app, key, obj)
    requires o.Picks()
    requires IntrudesAt(o, w.calls + CostUpTo(g, StageOf(g.app, key)) + Delay(g, key), key, obj)
    requires Doomed(w, v, g, key, StageOf(g.app, key))
    ensures Violated(g.app, w, RunStage(v, o, g, StageAt(g, StageOf(g.app, key))).0)
  {
    StageViolates(v, o, g, key, obj);
  }

  lemma LaterStageIsDoomed(w: World, v: World, o: Oracle, g: Goal, n: nat)
    requires o.Picks() && ValidName(g.app) && Violated(g.app, w, v)
    ensures Violated(g.app, w, RunStage(v, o, g, StageAt(g, n)).0)
  {
    var _ := StageOwnSteps(v, o, g, n);
    ViolationStays(g.app, w, v, RunStage(v, o, g, StageAt(g, n)).0);
  }

  lemma StagesViolate(w: World, o: Oracle, g: Goal, key: Key, obj: Obj)
    requires Bare(w, g, key, obj) && Reached(g.cfg, g.app, key) && ValidName(g.app) && PutThreat(g.app, key, obj)
    requires o.Picks()
    requires IntrudesAt(o, w.calls + CostUpTo(g, StageOf(g.app, key)) + Delay(g, key), key, obj)
    ensures Violated(g.app, w, RunStages(w, o, g, 0).0)
  {
    var inv := (n: nat, v: World) => Doomed(w, v, g, key, n);
    var end := (t: World, k: nat, out: Outcome) => Violated(g.app, w, t);
    forall n: nat, v | n < STAGES && inv(n, v)
      ensures Carries(o, g, n, v, inv, end)
    {
      if n < StageOf(g.app, key) {
        IdleStageIsDoomed(w, v, o, g, key, obj, n);
      } else if n == StageOf(g.app, key) {
        OwnStageIsDoomed(w, v, o, g, key, obj);
      } else {
        LaterStageIsDoomed(w, v, o, g, n);
      }
    }
    StagesCarry(w, o, g, 0, inv, end);
  }

  lemma StatusUpdateExtendsHistory(w: World, o: Oracle, app: NamespacedName, copy: App)
    ensures Extends(w, UpdateStatus(w, o, app, copy).0)
  {
    StatusOwnFramed(w, o, app, copy);
  }

  lemma RunAllViolates(w: World, o: Oracle, g: Goal, copy: App, key: Key, obj: Obj)
    requires Bare(w, g, key, obj) && Reached(g.cfg, g.app, key) && ValidName(g.app) && PutThreat(g.app, key, obj)
    requires o.Picks()
    requires IntrudesAt(o, w.calls + CostUpTo(g, StageOf(g.app, key)) + Delay(g, key), key, obj)
    ensures Violated(g.app, w, RunAll(w, o, g, copy).0)
  {
    StagesViolate(w, o, g, key, obj);
    var (w1, stage, out) := RunStages(w, o, g, 0);
    var submitted :=
      match out
      case Failed(e) => WithReady(copy, Condition(False, FailureReason(stage)))
      case Done(obj) => Observed(copy, if obj.Some? then obj.value else NEW_OBJ, o.clock(w1.calls));
    StatusUpdateExtendsHistory(w1, o, g.app, submitted);
    ViolationStays(g.app, w, w1, UpdateStatus(w1, o, g.app, submitted).0);
  }

  function BareWorld(cfg: Config, app: NamespacedName, key: Key, obj: Obj): World {
    var snap := Snap(map[app := BARE_APP], BareObjs(BareGoal(cfg, app), key, obj));
    World(snap, snap, 0, 0, [])
  }

  lemma BareStart(cfg: Config, app: NamespacedName, key: Key, obj: Obj)
    requires ValidName(app)
    ensures Start(BareWorld(cfg, app, key, obj))
  {
    var s := BareWorld(cfg, app, key, obj).snap;
    forall k, other | k in s.objs && ValidName(other) && BindingOf(k, s.objs[k], other)
      ensures Held(s, other)
    {
      BindingOfOne(k, s.objs[k], app, other);
    }
  }

  /** The oracle of the breaking pass; any way of choosing from what is left will do. */
  function Breaker(cfg: Config, app: NamespacedName, key: Key, obj: Obj, choose: set<Key> -> Key): Oracle {
    var g := BareGoal(cfg, app);
    Intruder(key, obj, 1 + CostUpTo(g, StageOf(app, key)) + Delay(g, key), choose)
  }

  lemma PassViolates(cfg: Config, app: NamespacedName, key: Key, obj: Obj, choose: set<Key> -> Key)
    requires ValidName(app) && Reached(cfg, app, key) && PutThreat(app, key, obj)
    requires forall s :: s != {} ==> choose(s) in s
    ensures var o := Breaker(cfg, app, key, obj, choose);
            o.Picks() && !PassFramed(BareWorld(cfg, app, key, obj), PassInput([], app, o, cfg))
  {
    var w, o, g := BareWorld(cfg, app, key, obj), Breaker(cfg, app, key, obj, choose), BareGoal(cfg, app);
    var n := 1 + CostUpTo(g, StageOf(app, key)) + Delay(g, key);
    assert IntrudesAt(o, n, key, obj);
    assert w.(calls := 0) == w;
    QuietArrival(w, o, n, key, obj, app);
    RunAllViolates(w.(calls := 1), o, g, BARE_APP, key, obj);
  }

  /** A run of one pass that breaks the frame, within what is allowed. */
  lemma HarmBreaksRun(
    cfg: Config, allowed: (NamespacedName, EnvAction) -> bool, choose: set<Key> -> Key, app: NamespacedName, a: EnvAction)
    returns (w: World, inputs: seq<PassInput>)
    requires ValidName(app) && allowed(app, a) && !a.OtherWorker? && !Harmless(cfg, app, a)
    requires forall s :: s != {} ==> choose(s) in s
    ensures Start(w) && Controlled(cfg, inputs, allowed) && !RunsFramed(w, inputs)
  {
    var o := Breaker(cfg, app, a.key, a.obj, choose);
    w, inputs := BareWorld(cfg, app, a.key, a.obj), [PassInput([], app, o, cfg)];
    PassViolates(cfg, app, a.key, a.obj, choose);
    BareStart(cfg, app, a.key, a.obj);
    assert a == PutChild(a.key, a.obj);
    assert Within(o, b => allowed(app, b));
    assert inputs[..0] == [] && ActAll(Runs(w, inputs[..0]), app, []) == w;
    assert !PassFramed(w, inputs[0]);
  }

  /**
   The frame, exactly: with others within what is allowed, every pass of every run from every start respects ownership if
   and only if what is allowed during a pass for an Application is harmless to it.
   */
  lemma RunsFramedIffHarmless(cfg: Config, allowed: (NamespacedName, EnvAction) -> bool, choose: set<Key> -> Key)
    requires forall app, a :: allowed(app, a) ==> !a.OtherWorker?
    requires forall s :: s != {} ==> choose(s) in s
    ensures (forall w, inputs :: Start(w) && Controlled(cfg, inputs, allowed) ==> RunsFramed(w, inputs))
            <==> (forall app, a :: ValidName(app) && allowed(app, a) ==> Harmless(cfg, app, a))
  {
    if forall app, a :: ValidName(app) && allowed(app, a) ==> Harmless(cfg, app, a) {
      forall w, inputs | Start(w) && Controlled(cfg, inputs, allowed)
        ensures RunsFramed(w, inputs)
      {
        FrameOverRuns(w, cfg, inputs, allowed);
      }
    } else {
      var app, a :| ValidName(app) && allowed(app, a) && !Harmless(cfg, app, a);
      var w, inputs := HarmBreaksRun(cfg, allowed, choose, app, a);
      assert !RunsFramed(w, inputs);
    }
  }
}
