/** Where a child's content comes from: one stage makes it from what was there when the pass began, no other touches it. */
module Traces {
  import opened Cluster
  import opened Convergence
  import opened Mutators
  import opened Names
  import opened Passes
  import opened Reconcile
  import opened Wrappers

  /** What a create-or-patch of the child starts from. */
  function Before(objs: map<Key, Obj>, key: Key): Obj {
    if key in objs then objs[key] else NEW_OBJ
  }

  /** The child is what one create-or-patch makes of what was there before. */
  ghost predicate MadeOf(
    a: map<Key, Obj>, b: map<Key, Obj>, g: Goal, image: Option<string>, key: Key, m: Mutation) {
    key in b && Desired(g, m, image, key, Before(a, key)) == Success(b[key])
  }

  ghost predicate SameAt(a: map<Key, Obj>, b: map<Key, Obj>, key: Key) {
    (key in a <==> key in b) && (key in a ==> a[key] == b[key])
  }

  /** A stage that is not its own leaves a child alone. */
  lemma StageKeeps(w: World, o: Oracle, g: Goal, i: nat, key: Key)
    requires o.Picks() && Quiet(o) && ValidName(g.app) && i != StageOf(g.app, key)
    ensures SameAt(w.snap.objs, RunStage(w, o, g, StageAt(g, i)).0.snap.objs, key)
  {
    StageStaysInRegion(w, o, g, i);
    if InRegion(StageAt(g, i), key) {
      OnlyOneRegion(g, i, key);
    }
  }

  lemma StageMakes(w: World, o: Oracle, g: Goal, j: nat, image: Option<string>, key: Key, m: Mutation)
    requires Calm(o, g, image) && StageAt(g, j) == One(key, m, true)
    ensures var r := RunStage(w, o, g, StageAt(g, j));
            r.1.Done? ==> MadeOf(w.snap.objs, r.0.snap.objs, g, image, key, m)
  {
    ResourceQuietly(w, o, g, key, m, true);
  }

  /** Before stage n: as it was if its own stage j is still to come, and made of what it was afterwards. */
  ghost predicate Underway(
    a: map<Key, Obj>, b: map<Key, Obj>, g: Goal, image: Option<string>, key: Key, m: Mutation, n: nat, j: nat) {
    if n <= j then SameAt(a, b, key) else MadeOf(a, b, g, image, key, m)
  }

  lemma StageUnderway(
    a: map<Key, Obj>, v: World, o: Oracle, g: Goal, n: nat, image: Option<string>, j: nat, key: Key, m: Mutation)
    requires Calm(o, g, image) && ValidName(g.app) && j == StageOf(g.app, key) && StageAt(g, j) == One(key, m, true)
    requires Underway(a, v.snap.objs, g, image, key, m, n, j)
    ensures var r := RunStage(v, o, g, StageAt(g, n));
            r.1.Done? ==> Underway(a, r.0.snap.objs, g, image, key, m, n + 1, j)
  {
    var b := RunStage(v, o, g, StageAt(g, n)).0.snap.objs;
    if n == j {
      StageMakes(v, o, g, j, image, key, m);
      if RunStage(v, o, g, StageAt(g, n)).1.Done? {
        MadeOfKept(a, v.snap.objs, b, g, image, key, m);
      }
    } else {
      StageKeeps(v, o, g, n, key);
      if n > j {
        KeptIsMadeOf(a, v.snap.objs, b, g, image, key, m);
      }
    }
  }

  /** A complete run makes the child of what was there: its own stage does, the stages before and after leave it alone. */
  lemma StagesMake(w: World, o: Oracle, g: Goal, image: Option<string>, j: nat, key: Key, m: Mutation)
    requires Calm(o, g, image) && ValidName(g.app) && j < STAGES && StageAt(g, j) == One(key, m, true)
    ensures var t := RunStages(w, o, g, 0);
            t.2.Done? ==> MadeOf(w.snap.objs, t.0.snap.objs, g, image, key, m)
  {
    OnlyOneRegion(g, j, key);
    var inv := (n: nat, v: World) => Underway(w.snap.objs, v.snap.objs, g, image, key, m, n, j);
    var end := (t: World, k: nat, out: Outcome) =>
      out.Done? ==> Underway(w.snap.objs, t.snap.objs, g, image, key, m, STAGES, j);
    forall n: nat, v | n < STAGES && inv(n, v)
      ensures Carries(o, g, n, v, inv, end)
    {
      StageUnderway(w.snap.objs, v, o, g, n, image, j, key, m);
    }
    StagesCarry(w, o, g, 0, inv, end);
  }

  lemma MadeOfKept(
    a: map<Key, Obj>, b: map<Key, Obj>, c: map<Key, Obj>, g: Goal, image: Option<string>, key: Key, m: Mutation)
    requires SameAt(a, b, key) && MadeOf(b, c, g, image, key, m)
    ensures MadeOf(a, c, g, image, key, m)
  {
  }

  lemma KeptIsMadeOf(
    a: map<Key, Obj>, b: map<Key, Obj>, c: map<Key, Obj>, g: Goal, image: Option<string>, key: Key, m: Mutation)
    requires MadeOf(a, b, g, image, key, m) && SameAt(b, c, key)
    ensures MadeOf(a, c, g, image, key, m)
  {
  }

  /** After an error-free pass a wanted child is what one create-or-patch makes of the child before the pass. */
  lemma PassMakes(
    w: World, o: Oracle, cfg: Config, app: NamespacedName, image: Option<string>, j: nat, key: Key, m: Mutation)
    requires GoodPass(w, o, cfg, app, image) && j < STAGES && StageAt(GoalOf(w, cfg, app), j) == One(key, m, true)
    ensures MadeOf(w.snap.objs, Pass(w, o, cfg, app).0.snap.objs, GoalOf(w, cfg, app), image, key, m)
  {
    var g, copy, w1 := GoalOf(w, cfg, app), w.snap.apps[app], w.(calls := 1);
    SteadyPassRunsAll(w, o, cfg, app);
    RunAllEnds(w1, o, g, image);
    StagesMake(w1, o, g, image, j, key, m);
  }

  /** The status update at the end of a good pass leaves the children as the stages left them. */
  lemma RunAllEnds(w: World, o: Oracle, g: Goal, image: Option<string>)
    requires Calm(o, g, image) && ValidName(g.app) && g.app in w.snap.apps
    requires RunAll(w, o, g, w.snap.apps[g.app]).1 == OK
    ensures RunStages(w, o, g, 0).2.Done?
    ensures RunAll(w, o, g, w.snap.apps[g.app]).0.snap.objs == RunStages(w, o, g, 0).0.snap.objs
  {
    var copy := w.snap.apps[g.app];
    StagesConverge(w, o, g, 0, image);
    var (w2, k, out) := RunStages(w, o, g, 0);
    assert out.Done?;
    QuietStatusUpdate(w2, o, g.app, Observed(copy, out.obj.value, o.clock(w2.calls)));
  }
}
