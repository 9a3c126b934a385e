/**
 Rest and progress: a pass right after an error-free one writes nothing, and error-free passes bring every
 Application to rest in at most three steps.
 */
module Quiescence {
  import opened Cluster
  import opened Convergence
  import opened Mutators
  import opened Names
  import opened Passes
  import opened Reconcile
  import opened Safety
  import opened Traces
  import opened Wrappers

  // ---------- A settled cluster is left alone ----------

  /** The same cluster and history; only the count of calls moved on. */
  ghost predicate LeftAlone(w: World, t: World) {
    t == w.(calls := t.calls)
  }

  /** The child exists, is owned, and create-or-patch would leave it alone. */
  ghost predicate Rests(objs: map<Key, Obj>, g: Goal, image: Option<string>, key: Key, m: Mutation) {
    key in objs && !Stranger(g.app, key, objs[key]) && Desired(g, m, image, key, objs[key]) == Success(objs[key])
  }

  lemma RestingIsLeftAlone(w: World, o: Oracle, g: Goal, key: Key, m: Mutation, image: Option<string>)
    requires Calm(o, g, image) && NoFaults(o) && Rests(w.snap.objs, g, image, key, m)
    ensures var (t, out) := ReconcileResource(w, o, g, key, m, true);
            LeftAlone(w, t) && out == Done(Some(w.snap.objs[key]))
  {
    QuietCall(w, o, g.app);
    QuietCall(w.(calls := w.calls + 1), o, g.app);
  }

  /** Items for the same child ask for the same; distinct children are enough. */
  ghost predicate Consistent(items: seq<Item>) {
    forall i, j :: 0 <= i < j < |items| && items[i].key == items[j].key ==> items[i].m == items[j].m
  }

  lemma {:induction false} ItemsAreLeftAlone(w: World, o: Oracle, g: Goal, items: seq<Item>, image: Option<string>)
    requires Calm(o, g, image) && NoFaults(o)
    requires forall i :: 0 <= i < |items| ==> Rests(w.snap.objs, g, image, items[i].key, items[i].m)
    ensures var (t, out) := UpsertAll(w, o, g, items); LeftAlone(w, t) && out.Done?
    decreases |items|
  {
    if items != [] {
      RestingIsLeftAlone(w, o, g, items[0].key, items[0].m, image);
      var r := ReconcileResource(w, o, g, items[0].key, items[0].m, true);
      ItemsAreLeftAlone(r.0, o, g, items[1..], image);
    }
  }

  ghost predicate ConsistentStage(stage: Stage) {
    stage.Many? ==> Consistent(stage.items)
  }

  /** No two entries of the spec ask for different contents of one child. */
  ghost predicate ConsistentChildren(g: Goal) {
    forall i: nat {:trigger ConsistentStage(StageAt(g, i))} :: i < STAGES ==> ConsistentStage(StageAt(g, i))
  }

  predicate SameKind(items: seq<Item>) {
    || (forall i :: 0 <= i < |items| ==> items[i].m.MutateBinding?)
    || (forall i :: 0 <= i < |items| ==> items[i].m.MutateCronJob?)
  }

  lemma StageItemsOfOneKind(g: Goal, i: nat)
    ensures StageAt(g, i).Many? ==> SameKind(StageAt(g, i).items)
  {
    ItemKinds(g.app, g.spec.roles, g.spec.cronJobs);
  }

  lemma ManyIsLeftAlone(w: World, o: Oracle, g: Goal, stage: Stage, image: Option<string>)
    requires Calm(o, g, image) && NoFaults(o) && StageHolds(w.snap.objs, g, image, stage)
    requires stage.Many? && Consistent(stage.items) && SameKind(stage.items)
    ensures var (t, out) := RunStage(w, o, g, stage); LeftAlone(w, t) && out.Done?
  {
    var Many(kind, items, prune) := stage;
    QuietCall(w, o, g.app);
    var w1 := Arrive(w, o, g.app);
    forall i | 0 <= i < |items|
      ensures Rests(w1.snap.objs, g, image, items[i].key, items[i].m)
    {
      var l := LastOf(items, i);
      assert Settled(w1.snap.objs, g, image, items[l].key, items[l].m);
      assert l > i ==> items[l].m == items[i].m;
    }
    ItemsAreLeftAlone(w1, o, g, items, image);
    if prune {
      assert ListOwned(w1.snap.objs, kind, g.app) - KeysOf(items) == {};
    }
  }

  /** A wanted single child that create-or-patch would leave alone. */
  ghost predicate StageRests(objs: map<Key, Obj>, g: Goal, image: Option<string>, stage: Stage) {
    stage.One? && stage.wanted ==> Rests(objs, g, image, stage.key, stage.m)
  }

  ghost predicate AtRest(objs: map<Key, Obj>, g: Goal, image: Option<string>) {
    forall i: nat {:trigger StageRests(objs, g, image, StageAt(g, i))} ::
      i < STAGES ==> StageRests(objs, g, image, StageAt(g, i))
  }

  lemma StableIsAtRest(objs: map<Key, Obj>, g: Goal, image: Option<string>)
    requires Converged(objs, g, image, STAGES) && StablePorts(g.spec)
    ensures AtRest(objs, g, image)
  {
    forall i: nat | i < STAGES
      ensures StageRests(objs, g, image, StageAt(g, i))
    {
      assert StageHolds(objs, g, image, StageAt(g, i));
    }
  }

  lemma StageIsLeftAlone(w: World, o: Oracle, g: Goal, stage: Stage, image: Option<string>)
    requires Calm(o, g, image) && NoFaults(o) && StageHolds(w.snap.objs, g, image, stage)
    requires StageRests(w.snap.objs, g, image, stage) && ConsistentStage(stage)
    requires stage.Many? ==> SameKind(stage.items)
    ensures var (t, out) := RunStage(w, o, g, stage);
            && LeftAlone(w, t) && out.Done?
            && (stage.One? && stage.wanted ==> out.obj == Some(w.snap.objs[stage.key]))
  {
    match stage
    case Skip =>
    case One(key, m, wanted) =>
      if wanted {
        RestingIsLeftAlone(w, o, g, key, m, image);
      } else {
        QuietCall(w, o, g.app);
      }
    case Many(_, _, _) => ManyIsLeftAlone(w, o, g, stage, image);
  }

  lemma StageHoldsAt(objs: map<Key, Obj>, g: Goal, image: Option<string>, i: nat)
    requires Converged(objs, g, image, STAGES) && i < STAGES
    ensures StageHolds(objs, g, image, StageAt(g, i))
  {
  }

  lemma ConvergedStageIsLeftAlone(w: World, o: Oracle, g: Goal, i: nat, image: Option<string>)
    requires Calm(o, g, image) && NoFaults(o) && ConsistentChildren(g) && i < STAGES
    requires Converged(w.snap.objs, g, image, STAGES) && AtRest(w.snap.objs, g, image)
    ensures var (t, out) := RunStage(w, o, g, StageAt(g, i));
            && LeftAlone(w, t) && out.Done?
            && (i + 1 == STAGES ==> out.obj == Some(w.snap.objs[KeyOf(Deployment, g.app)]))
  {
    StageHoldsAt(w.snap.objs, g, image, i);
    StageItemsOfOneKind(g, i);
    assert StageRests(w.snap.objs, g, image, StageAt(g, i)) && ConsistentStage(StageAt(g, i));
    StageIsLeftAlone(w, o, g, StageAt(g, i), image);
  }

  lemma StagesAreLeftAlone(w: World, o: Oracle, g: Goal, i: nat, image: Option<string>)
    requires Calm(o, g, image) && NoFaults(o) && ConsistentChildren(g) && i < STAGES
    requires Converged(w.snap.objs, g, image, STAGES) && AtRest(w.snap.objs, g, image)
    requires KeyOf(Deployment, g.app) in w.snap.objs
    ensures var t := RunStages(w, o, g, i);
            LeftAlone(w, t.0) && t.2.Done? && t.2.obj == Some(w.snap.objs[KeyOf(Deployment, g.app)])
  {
    var inv := (n: nat, v: World) => LeftAlone(w, v);
    var end := (t: World, k: nat, out: Outcome) =>
      LeftAlone(w, t) && out.Done? && out.obj == Some(w.snap.objs[KeyOf(Deployment, g.app)]);
    forall n: nat, v | i <= n < STAGES && inv(n, v)
      ensures Carries(o, g, n, v, inv, end)
    {
      ConvergedStageIsLeftAlone(v, o, g, n, image);
    }
    StagesCarry(w, o, g, i, inv, end);
  }

  /** The status says what the Deployment says. */
  predicate InSync(copy: App, deployed: Obj) {
    && copy.status.image == deployed.content.pod.image
    && (deployed.content.available.Some? ==> copy.status.ready == deployed.content.available)
  }

  /** A pass over a converged, synchronised Application writes nothing, status included. */
  lemma ConvergedIsLeftAlone(w: World, o: Oracle, cfg: Config, app: NamespacedName, image: Option<string>)
    requires Steady(w, app) && Calm(o, GoalOf(w, cfg, app), image) && NoFaults(o) && ConsistentChildren(GoalOf(w, cfg, app))
    requires AtRest(w.snap.objs, GoalOf(w, cfg, app), image) && Converged(w.snap.objs, GoalOf(w, cfg, app), image, STAGES)
    requires KeyOf(Deployment, app) in w.snap.objs && InSync(w.snap.apps[app], w.snap.objs[KeyOf(Deployment, app)])
    ensures var (t, result) := Pass(w, o, cfg, app);
            result == OK && t.snap == w.snap && t.history == w.history
  {
    SteadyPassRunsAll(w, o, cfg, app);
    var w1, g, copy := w.(calls := 1), GoalOf(w, cfg, app), w.snap.apps[app];
    StagesAreLeftAlone(w1, o, g, 0, image);
    var (w2, k, out) := RunStages(w1, o, g, 0);
    QuietCall(w2, o, app);
    assert Observed(copy, out.obj.value, o.clock(w2.calls)) == copy;
  }

  lemma LivePassSettles(w: World, o: Oracle, cfg: Config, app: NamespacedName, image: Option<string>)
    requires GoodPass(w, o, cfg, app, image)
    ensures var t := Pass(w, o, cfg, app).0;
            && Steady(t, app) && GoalOf(t, cfg, app) == GoalOf(w, cfg, app)
            && Converged(t.snap.objs, GoalOf(w, cfg, app), image, STAGES)
            && KeyOf(Deployment, app) in t.snap.objs && InSync(t.snap.apps[app], t.snap.objs[KeyOf(Deployment, app)])
  {
    SteadyPassRunsAll(w, o, cfg, app);
    RunAllConverges(w.(calls := 1), o, GoalOf(w, cfg, app), image);
    var t, copy := Pass(w, o, cfg, app).0, w.snap.apps[app];
    var deployed := t.snap.objs[KeyOf(Deployment, app)];
    var now := o.clock(RunStages(w.(calls := 1), o, GoalOf(w, cfg, app), 0).0.calls);
    assert t.snap.apps[app].(version := copy.version) == Observed(copy, deployed, now);
  }

  /**
   With an unchanged spec and image answer and consistent entries, the pass after an error-free one reports success and
   makes no create, patch, delete or status change.
   */
  lemma SecondPassWritesNothing(w: World, o1: Oracle, o2: Oracle, cfg: Config, app: NamespacedName, image: Option<string>)
    requires GoodPass(w, o1, cfg, app, image)
    requires ConsistentChildren(GoalOf(w, cfg, app)) && StablePorts(w.snap.apps[app].spec)
    requires Calm(o2, GoalOf(w, cfg, app), image) && NoFaults(o2)
    ensures var first := Pass(w, o1, cfg, app).0;
            var (second, result) := Pass(first, o2, cfg, app);
            result == OK && second.snap == first.snap && second.history == first.history
  {
    var first := Pass(w, o1, cfg, app).0;
    LivePassSettles(w, o1, cfg, app, image);
    StableIsAtRest(first.snap.objs, GoalOf(w, cfg, app), image);
    ConvergedIsLeftAlone(first, o2, cfg, app, image);
  }

  // ---------- Inconsistent entries never come to rest ----------

  /** The child is owned and every create-or-patch of it goes through. */
  ghost predicate Patchable(objs: map<Key, Obj>, g: Goal, image: Option<string>, item: Item) {
    && item.key in objs && !Stranger(g.app, item.key, objs[item.key])
    && Desired(g, item.m, image, item.key, objs[item.key]).Success?
  }

  ghost predicate Fixed(objs: map<Key, Obj>, g: Goal, image: Option<string>, item: Item) {
    item.key in objs && Desired(g, item.m, image, item.key, objs[item.key]) == Success(objs[item.key])
  }

  lemma PatchableIsWrittenOrFixed(w: World, o: Oracle, g: Goal, item: Item, image: Option<string>)
    requires Calm(o, g, image) && NoFaults(o) && Patchable(w.snap.objs, g, image, item)
    ensures var (t, out) := ReconcileResource(w, o, g, item.key, item.m, true);
            && (Fixed(w.snap.objs, g, image, item) ==> LeftAlone(w, t) && out.Done?)
            && (!Fixed(w.snap.objs, g, image, item) ==> |w.history| < |t.history|)
  {
    QuietCall(w, o, g.app);
    var w1 := w.(calls := w.calls + 1);
    QuietCall(w1, o, g.app);
    QuietCall(w1.(calls := w1.calls + 1), o, g.app);
  }

  lemma {:induction false} UnfixedItemIsWritten(
    w: World, o: Oracle, g: Goal, items: seq<Item>, k: nat, image: Option<string>)
    requires Calm(o, g, image) && NoFaults(o) && k < |items| && !Fixed(w.snap.objs, g, image, items[k])
    requires forall i :: 0 <= i < |items| ==> Patchable(w.snap.objs, g, image, items[i])
    ensures |w.history| < |UpsertAll(w, o, g, items).0.history|
    decreases |items|
  {
    var r := ReconcileResource(w, o, g, items[0].key, items[0].m, true);
    PatchableIsWrittenOrFixed(w, o, g, items[0], image);
    if Fixed(w.snap.objs, g, image, items[0]) {
      UnfixedItemIsWritten(r.0, o, g, items[1..], k - 1, image);
    } else if r.1.Done? {
      UpsertAllOwnSteps(r.0, o, g, items[1..], KeysOf(items[1..]));
    }
  }

  /** No binding or cron job is as two different entries want it. */
  lemma FixedByOne(objs: map<Key, Obj>, g: Goal, image: Option<string>, a: Item, b: Item)
    requires Fixed(objs, g, image, a) && Fixed(objs, g, image, b) && a.key == b.key
    requires (a.m.MutateBinding? && b.m.MutateBinding?) || (a.m.MutateCronJob? && b.m.MutateCronJob?)
    ensures a.m == b.m
  {
    var c := objs[a.key].content;
    assert Mutate(g, a.m, image, c) == Success(c) && Mutate(g, b.m, image, c) == Success(c);
    if a.m.MutateBinding? {
      assert c.role == Some(a.m.role) && c.role == Some(b.m.role);
    } else {
      assert c.schedule == a.m.job.schedule == b.m.job.schedule;
      assert c.pod.labels == a.m.job.name == b.m.job.name;
      assert c.pod.fields == a.m.job.command == b.m.job.command;
    }
  }

  lemma SettledIsPatchable(objs: map<Key, Obj>, g: Goal, image: Option<string>, key: Key, m: Mutation)
    requires Settled(objs, g, image, key, m)
    ensures Patchable(objs, g, image, Item(key, m))
  {
    var base :| Desired(g, m, image, key, base) == Success(objs[key]);
    SucceedsIff(g, m, image, base.content);
    SucceedsIff(g, m, image, objs[key].content);
  }

  lemma SettledItemIsPatchable(objs: map<Key, Obj>, g: Goal, image: Option<string>, items: seq<Item>, i: nat)
    requires LastItemsSettled(objs, g, image, items) && SameKind(items) && i < |items|
    ensures Patchable(objs, g, image, items[i])
  {
    var l := LastOf(items, i);
    assert Settled(objs, g, image, items[l].key, items[l].m);
    SettledIsPatchable(objs, g, image, items[l].key, items[l].m);
  }

  lemma UnfixedItem(objs: map<Key, Obj>, g: Goal, image: Option<string>, items: seq<Item>) returns (k: nat)
    requires SameKind(items) && !Consistent(items)
    ensures k < |items| && !Fixed(objs, g, image, items[k])
  {
    var i, j :| 0 <= i < j < |items| && items[i].key == items[j].key && items[i].m != items[j].m;
    if Fixed(objs, g, image, items[i]) && Fixed(objs, g, image, items[j]) {
      FixedByOne(objs, g, image, items[i], items[j]);
    }
    k := if Fixed(objs, g, image, items[i]) then j else i;
  }

  /** A stage with inconsistent entries writes on every pass. */
  lemma InconsistentStageWrites(w: World, o: Oracle, g: Goal, stage: Stage, image: Option<string>)
    requires Calm(o, g, image) && NoFaults(o) && StageHolds(w.snap.objs, g, image, stage)
    requires !ConsistentStage(stage) && SameKind(stage.items)
    ensures |w.history| < |RunStage(w, o, g, stage).0.history|
  {
    var Many(kind, items, prune) := stage;
    QuietCall(w, o, g.app);
    var w1 := Arrive(w, o, g.app);
    forall i | 0 <= i < |items|
      ensures Patchable(w1.snap.objs, g, image, items[i])
    {
      SettledItemIsPatchable(w1.snap.objs, g, image, items, i);
    }
    var k := UnfixedItem(w1.snap.objs, g, image, items);
    UnfixedItemIsWritten(w1, o, g, items, k, image);
    var mid := UpsertAll(w1, o, g, items).0;
    var rest := ListOwned(w1.snap.objs, kind, g.app) - KeysOf(items);
    SweepOwnSteps(mid, o, g, rest, rest);
  }

  /** On a converged cluster a stage writes, or leaves all alone and succeeds, which only consistent entries allow. */
  ghost predicate WritesOrRests(w: World, o: Oracle, g: Goal, stage: Stage)
    requires o.Picks()
  {
    var (t, out) := RunStage(w, o, g, stage);
    |w.history| < |t.history| || (LeftAlone(w, t) && out.Done? && ConsistentStage(stage))
  }

  lemma SettledStageWritesOrRests(w: World, o: Oracle, g: Goal, stage: Stage, image: Option<string>)
    requires Calm(o, g, image) && NoFaults(o) && StageHolds(w.snap.objs, g, image, stage)
    requires stage.Many? ==> SameKind(stage.items)
    ensures WritesOrRests(w, o, g, stage)
  {
    match stage
    case Skip =>
    case One(key, m, wanted) =>
      if wanted {
        SettledIsPatchable(w.snap.objs, g, image, key, m);
        PatchableIsWrittenOrFixed(w, o, g, Item(key, m), image);
      } else {
        QuietCall(w, o, g.app);
      }
    case Many(_, items, _) =>
      if Consistent(items) {
        ManyIsLeftAlone(w, o, g, stage, image);
      } else {
        InconsistentStageWrites(w, o, g, stage, image);
      }
  }

  lemma ConvergedStageWritesOrRests(w: World, o: Oracle, g: Goal, i: nat, image: Option<string>)
    requires Calm(o, g, image) && NoFaults(o) && ValidName(g.app) && i < STAGES
    requires Converged(w.snap.objs, g, image, STAGES)
    ensures WritesOrRests(w, o, g, StageAt(g, i))
  {
    StageHoldsAt(w.snap.objs, g, image, i);
    StageItemsOfOneKind(g, i);
    SettledStageWritesOrRests(w, o, g, StageAt(g, i), image);
  }

  /** Before stage n: something was written, or all is as it was and the inconsistent stage is still to come. */
  ghost predicate WrittenOrToCome(w: World, v: World, n: nat, bad: nat) {
    |w.history| < |v.history| || (LeftAlone(w, v) && n <= bad)
  }

  lemma StageWritesOrIsToCome(w: World, v: World, o: Oracle, g: Goal, n: nat, bad: nat, image: Option<string>)
    requires Calm(o, g, image) && NoFaults(o) && ValidName(g.app) && n < STAGES
    requires Converged(w.snap.objs, g, image, STAGES) && !ConsistentStage(StageAt(g, bad))
    requires WrittenOrToCome(w, v, n, bad)
    ensures var (t, out) := RunStage(v, o, g, StageAt(g, n));
            |w.history| < |t.history| || (out.Done? && n < bad && WrittenOrToCome(w, t, n + 1, bad))
  {
    var _ := StageOwnSteps(v, o, g, n);
    if LeftAlone(w, v) && n <= bad {
      ConvergedStageWritesOrRests(v, o, g, n, image);
    }
  }

  lemma InconsistentStagesWrite(w: World, o: Oracle, g: Goal, bad: nat, image: Option<string>)
    requires Calm(o, g, image) && NoFaults(o) && ValidName(g.app) && bad < STAGES
    requires Converged(w.snap.objs, g, image, STAGES) && !ConsistentStage(StageAt(g, bad))
    ensures |w.history| < |RunStages(w, o, g, 0).0.history|
  {
    var inv := (n: nat, v: World) => WrittenOrToCome(w, v, n, bad);
    var end := (t: World, k: nat, out: Outcome) => |w.history| < |t.history|;
    forall n: nat, v | n < STAGES && inv(n, v)
      ensures Carries(o, g, n, v, inv, end)
    {
      StageWritesOrIsToCome(w, v, o, g, n, bad, image);
    }
    StagesCarry(w, o, g, 0, inv, end);
  }

  lemma StatusUpdateExtends(w: World, o: Oracle, app: NamespacedName, copy: App)
    requires Quiet(o)
    ensures |w.history| <= |UpdateStatus(w, o, app, copy).0.history|
  {
    QuietCall(w, o, app);
  }

  /** With inconsistent entries a pass over a converged Application still writes. */
  lemma InconsistentPassWrites(w: World, o: Oracle, cfg: Config, app: NamespacedName, image: Option<string>)
    requires Steady(w, app) && Calm(o, GoalOf(w, cfg, app), image) && NoFaults(o) && ValidName(app)
    requires !ConsistentChildren(GoalOf(w, cfg, app))
    requires Converged(w.snap.objs, GoalOf(w, cfg, app), image, STAGES)
    ensures Pass(w, o, cfg, app).0.history != w.history
  {
    SteadyPassRunsAll(w, o, cfg, app);
    var w1, g, copy := w.(calls := 1), GoalOf(w, cfg, app), w.snap.apps[app];
    var bad: nat :| bad < STAGES && !ConsistentStage(StageAt(g, bad));
    InconsistentStagesWrite(w1, o, g, bad, image);
    var (w2, stage, out) := RunStages(w1, o, g, 0);
    match out
    case Failed(e) => StatusUpdateExtends(w2, o, app, WithReady(copy, Condition(False, FailureReason(stage))));
    case Done(obj) =>
      StatusUpdateExtends(w2, o, app, Observed(copy, if obj.Some? then obj.value else NEW_OBJ, o.clock(w2.calls)));
  }

  /**
   Quiescence: with an unchanged spec and image answer, the pass after an error-free one writes nothing at all, no create,
   patch, delete or status change, if and only if no two entries of the spec ask for different contents of one child.
   */
  lemma SecondPassQuietIffConsistent(
    w: World, o1: Oracle, o2: Oracle, cfg: Config, app: NamespacedName, image: Option<string>)
    requires GoodPass(w, o1, cfg, app, image) && StablePorts(w.snap.apps[app].spec)
    requires Calm(o2, GoalOf(w, cfg, app), image) && NoFaults(o2)
    ensures var first := Pass(w, o1, cfg, app).0;
            Pass(first, o2, cfg, app).0.history == first.history <==> ConsistentChildren(GoalOf(w, cfg, app))
  {
    if ConsistentChildren(GoalOf(w, cfg, app)) {
      SecondPassWritesNothing(w, o1, o2, cfg, app, image);
    } else {
      LivePassSettles(w, o1, cfg, app, image);
      InconsistentPassWrites(Pass(w, o1, cfg, app).0, o2, cfg, app, image);
    }
  }

  // ---------- Any ports: rest after two passes, for good ----------

  /** Nothing is left to do for the Application: its children are as they should be and at rest, its status in step. */
  ghost predicate Resting(w: World, cfg: Config, app: NamespacedName, image: Option<string>) {
    && Steady(w, app)
    && Converged(w.snap.objs, GoalOf(w, cfg, app), image, STAGES) && AtRest(w.snap.objs, GoalOf(w, cfg, app), image)
    && KeyOf(Deployment, app) in w.snap.objs && InSync(w.snap.apps[app], w.snap.objs[KeyOf(Deployment, app)])
  }

  lemma TwiceMadeRests(
    a: map<Key, Obj>, b: map<Key, Obj>, c: map<Key, Obj>, g: Goal, image: Option<string>, key: Key, m: Mutation)
    requires MadeOf(a, b, g, image, key, m) && MadeOf(b, c, g, image, key, m) && Settled(c, g, image, key, m)
    ensures Rests(c, g, image, key, m)
  {
    TwoPatchesSettle(g, m, image, key, Before(a, key));
  }

  /** Two error-free passes bring every single child to rest, whatever ports the spec asks for. */
  lemma TwoPassesRest(w: World, o1: Oracle, o2: Oracle, cfg: Config, app: NamespacedName, image: Option<string>)
    requires GoodPass(w, o1, cfg, app, image) && GoodPass(Pass(w, o1, cfg, app).0, o2, cfg, app, image)
    ensures var second := Pass(Pass(w, o1, cfg, app).0, o2, cfg, app).0;
            Resting(second, cfg, app, image) && GoalOf(second, cfg, app) == GoalOf(w, cfg, app)
  {
    var g, first := GoalOf(w, cfg, app), Pass(w, o1, cfg, app).0;
    var second := Pass(first, o2, cfg, app).0;
    LivePassSettles(w, o1, cfg, app, image);
    LivePassSettles(first, o2, cfg, app, image);
    forall i: nat | i < STAGES
      ensures StageRests(second.snap.objs, g, image, StageAt(g, i))
    {
      var stage := StageAt(g, i);
      if stage.One? && stage.wanted {
        PassMakes(w, o1, cfg, app, image, i, stage.key, stage.m);
        PassMakes(first, o2, cfg, app, image, i, stage.key, stage.m);
        StageHoldsAt(second.snap.objs, g, image, i);
        TwiceMadeRests(w.snap.objs, first.snap.objs, second.snap.objs, g, image, stage.key, stage.m);
      }
    }
  }

  /** Fault-free passes with a constant image answer and nobody interfering. */
  ghost predicate AllCalm(os: seq<Oracle>, g: Goal, image: Option<string>) {
    forall i :: 0 <= i < |os| ==> Calm(os[i], g, image) && NoFaults(os[i])
  }

  /** Consecutive passes for one Application. */
  ghost function PassesOn(w: World, os: seq<Oracle>, cfg: Config, app: NamespacedName): World
    requires forall i :: 0 <= i < |os| ==> os[i].Picks()
    decreases |os|
  {
    if os == [] then w else PassesOn(Pass(w, os[0], cfg, app).0, os[1..], cfg, app)
  }

  /** At rest is for good: however many passes follow, none of them writes. */
  lemma {:induction false} RestsForGood(w: World, os: seq<Oracle>, cfg: Config, app: NamespacedName, image: Option<string>)
    requires Resting(w, cfg, app, image) && ConsistentChildren(GoalOf(w, cfg, app))
    requires AllCalm(os, GoalOf(w, cfg, app), image)
    ensures var t := PassesOn(w, os, cfg, app); t.snap == w.snap && t.history == w.history
    decreases |os|
  {
    if os != [] {
      ConvergedIsLeftAlone(w, os[0], cfg, app, image);
      RestsForGood(Pass(w, os[0], cfg, app).0, os[1..], cfg, app, image);
    }
  }

  /**
   Rest, for every spec, duplicate port names included: after two error-free passes, no later pass ever writes anything if
   no two entries ask for different contents of one child, and otherwise the very next one does.
   */
  lemma QuietForGoodIffConsistent(
    w: World, o1: Oracle, o2: Oracle, cfg: Config, app: NamespacedName, image: Option<string>, os: seq<Oracle>)
    requires GoodPass(w, o1, cfg, app, image) && GoodPass(Pass(w, o1, cfg, app).0, o2, cfg, app, image)
    requires os != [] && AllCalm(os, GoalOf(w, cfg, app), image)
    ensures var second := Pass(Pass(w, o1, cfg, app).0, o2, cfg, app).0;
            && (ConsistentChildren(GoalOf(w, cfg, app)) ==>
                  PassesOn(second, os, cfg, app).snap == second.snap
                  && PassesOn(second, os, cfg, app).history == second.history)
            && (Pass(second, os[0], cfg, app).0.history == second.history <==> ConsistentChildren(GoalOf(w, cfg, app)))
  {
    TwoPassesRest(w, o1, o2, cfg, app, image);
    var second := Pass(Pass(w, o1, cfg, app).0, o2, cfg, app).0;
    if ConsistentChildren(GoalOf(w, cfg, app)) {
      RestsForGood(second, os, cfg, app, image);
      ConvergedIsLeftAlone(second, os[0], cfg, app, image);
    } else {
      InconsistentPassWrites(second, os[0], cfg, app, image);
    }
  }

  // ---------- Progress ----------

  /** How far an Application is from rest: conditions, finalizer, children; or conditions and clean-up. */
  ghost function Rank(w: World, cfg: Config, app: NamespacedName, image: Option<string>): (r: nat)
    ensures r <= 3
    ensures app in w.snap.apps && w.snap.apps[app].deleting ==> r <= 2
  {
    if app !in w.snap.apps then 0
    else
      var a := w.snap.apps[app];
      if a.deleting then (if !a.finalizer then 0 else if a.status.ready.None? then 2 else 1)
      else if a.status.ready.None? then 3
      else if !a.finalizer then 2
      else if !Converged(w.snap.objs, GoalOf(w, cfg, app), image, STAGES) then 1
      else 0
  }

  /** Nobody else acts during the pass, the image answer is constant, and the pass reports neither error nor conflict. */
  ghost predicate CleanPass(w: World, o: Oracle, cfg: Config, app: NamespacedName, image: Option<string>) {
    && o.Picks() && Quiet(o)
    && (app in w.snap.apps ==> SteadyImage(o, w.snap.apps[app].spec.image, image))
    && Pass(w, o, cfg, app).1 == OK
  }

  lemma QuietAppUpdate(w: World, o: Oracle, app: NamespacedName, copy: App)
    requires Quiet(o) && app in w.snap.apps && UpdateApp(w, o, app, copy).1.None?
    ensures var t := UpdateApp(w, o, app, copy).0.snap;
            && t.objs == w.snap.objs
            && (copy.deleting && !Pinned(copy) ==> app !in t.apps)
            && (!(copy.deleting && !Pinned(copy)) ==>
                  app in t.apps && t.apps[app].spec == copy.spec && t.apps[app].finalizer == copy.finalizer
                  && t.apps[app].deleting == copy.deleting && t.apps[app].status == w.snap.apps[app].status)
  {
    QuietCall(w, o, app);
  }

  lemma CleanupProgress(w: World, o: Oracle, g: Goal)
    requires o.Picks() && Quiet(o) && g.app in w.snap.apps && w.snap.apps[g.app].deleting
    requires Cleanup(w, o, g, w.snap.apps[g.app]).1 == OK
    ensures var t := Cleanup(w, o, g, w.snap.apps[g.app]).0.snap;
            g.app in t.apps ==> t.apps[g.app].deleting && !t.apps[g.app].finalizer
  {
    QuietCall(w, o, g.app);
    var w1 := Arrive(w, o, g.app);
    var listed := ListOwned(w1.snap.objs, ClusterRoleBinding, g.app);
    SweepQuietly(w1, o, g, listed);
    var swept := Sweep(w1, o, g, listed);
    QuietAppUpdate(swept.0, o, g.app, w.snap.apps[g.app].(finalizer := false));
  }

  /** The rank went down unless it was zero; the spec stays, and a live Application stays. */
  ghost predicate Advances(w: World, t: World, cfg: Config, app: NamespacedName, image: Option<string>) {
    && (Rank(t, cfg, app, image) < Rank(w, cfg, app, image)
        || Rank(t, cfg, app, image) == Rank(w, cfg, app, image) == 0)
    && (app in t.snap.apps ==> app in w.snap.apps && t.snap.apps[app].spec == w.snap.apps[app].spec
                               && t.snap.apps[app].deleting == w.snap.apps[app].deleting)
    && (app in w.snap.apps && !w.snap.apps[app].deleting ==> app in t.snap.apps)
  }

  lemma SetupAdvances(w: World, o: Oracle, cfg: Config, app: NamespacedName, image: Option<string>)
    requires CleanPass(w, o, cfg, app, image) && app in w.snap.apps
    requires var a := w.snap.apps[app]; a.status.ready.None? || (!a.deleting && !a.finalizer)
    ensures Advances(w, Pass(w, o, cfg, app).0, cfg, app, image)
  {
    var start := w.(calls := 0);
    QuietCall(start, o, app);
    var w1, copy := Arrive(start, o, app), w.snap.apps[app];
    if copy.status.ready.None? {
      QuietStatusUpdate(w1, o, app, WithReady(copy, Condition(Unknown, "Reconciling")));
    } else {
      QuietAppUpdate(w1, o, app, copy.(finalizer := true));
    }
  }

  /**
   What the first passes do, one thing each: without conditions Ready becomes Unknown; with them the finalizer is added.
   Nothing else changes.
   */
  lemma FirstPassesSetUp(w: World, o: Oracle, cfg: Config, app: NamespacedName, image: Option<string>)
    requires CleanPass(w, o, cfg, app, image) && app in w.snap.apps
    requires var a := w.snap.apps[app]; a.status.ready.None? || (!a.deleting && !a.finalizer)
    ensures var t, a := Pass(w, o, cfg, app).0.snap, w.snap.apps[app];
            && t.objs == w.snap.objs && app in t.apps
            && t.apps[app].(version := a.version)
               == if a.status.ready.None? then a.(status := a.status.(ready := Some(Condition(Unknown, "Reconciling"))))
                  else a.(finalizer := true)
  {
    var start := w.(calls := 0);
    QuietCall(start, o, app);
    var w1, copy := Arrive(start, o, app), w.snap.apps[app];
    if copy.status.ready.None? {
      QuietStatusUpdate(w1, o, app, WithReady(copy, Condition(Unknown, "Reconciling")));
    } else {
      QuietCall(w1, o, app);
    }
  }

  /** Every clean pass lowers the rank until it is zero. */
  lemma CleanPassLowersRank(w: World, o: Oracle, cfg: Config, app: NamespacedName, image: Option<string>)
    requires ValidName(app) && CleanPass(w, o, cfg, app, image)
    ensures Advances(w, Pass(w, o, cfg, app).0, cfg, app, image)
  {
    QuietCall(w.(calls := 0), o, app);
    if app in w.snap.apps {
      var copy := w.snap.apps[app];
      if copy.status.ready.None? || (!copy.deleting && !copy.finalizer) {
        SetupAdvances(w, o, cfg, app, image);
      } else if !copy.deleting {
        LivePassSettles(w, o, cfg, app, image);
      } else if copy.finalizer {
        CleanupProgress(w.(calls := 1), o, Goal(cfg, app, copy.spec));
      }
    }
  }

  ghost predicate AllClean(w: World, os: seq<Oracle>, cfg: Config, app: NamespacedName, image: Option<string>)
    decreases |os|
  {
    os == [] || (CleanPass(w, os[0], cfg, app, image)
                 && AllClean(Pass(w, os[0], cfg, app).0, os[1..], cfg, app, image))
  }

  lemma {:induction false} RankMany(w: World, os: seq<Oracle>, cfg: Config, app: NamespacedName, image: Option<string>)
    requires ValidName(app) && AllClean(w, os, cfg, app, image) && forall i :: 0 <= i < |os| ==> os[i].Picks()
    ensures var t := PassesOn(w, os, cfg, app);
            && (Rank(w, cfg, app, image) <= |os| ==> Rank(t, cfg, app, image) == 0)
            && (app in t.snap.apps ==> app in w.snap.apps && t.snap.apps[app].spec == w.snap.apps[app].spec
                                       && t.snap.apps[app].deleting == w.snap.apps[app].deleting)
            && (app in w.snap.apps && !w.snap.apps[app].deleting ==> app in t.snap.apps)
    decreases |os|
  {
    if os != [] {
      CleanPassLowersRank(w, os[0], cfg, app, image);
      RankMany(Pass(w, os[0], cfg, app).0, os[1..], cfg, app, image);
    }
  }

  /** A live Application settles within three clean passes: conditions and finalizer in place, children converged. */
  lemma LiveSettlesInThree(w: World, os: seq<Oracle>, cfg: Config, app: NamespacedName, image: Option<string>)
    requires ValidName(app) && AllClean(w, os, cfg, app, image) && forall i :: 0 <= i < |os| ==> os[i].Picks()
    requires |os| == 3 && app in w.snap.apps && !w.snap.apps[app].deleting
    ensures var t := PassesOn(w, os, cfg, app);
            Steady(t, app) && Converged(t.snap.objs, GoalOf(t, cfg, app), image, STAGES)
  {
    RankMany(w, os, cfg, app, image);
  }

  lemma {:induction false} PassesAreSafe(w: World, os: seq<Oracle>, cfg: Config, app: NamespacedName)
    requires Safe(w) && forall i :: 0 <= i < |os| ==> os[i].Picks()
    ensures Safe(PassesOn(w, os, cfg, app))
    decreases |os|
  {
    if os != [] {
      PassIsSafe(w, os[0], cfg, app);
      PassesAreSafe(Pass(w, os[0], cfg, app).0, os[1..], cfg, app);
    }
  }

  /** A deleting Application loses the finalizer and all its cluster role bindings within two clean passes. */
  lemma DeletingIsCleanedInTwo(w: World, os: seq<Oracle>, cfg: Config, app: NamespacedName, image: Option<string>)
    requires ValidName(app) && AllClean(w, os, cfg, app, image) && forall i :: 0 <= i < |os| ==> os[i].Picks()
    requires Safe(w) && |os| == 2 && app in w.snap.apps && w.snap.apps[app].deleting
    ensures var t := PassesOn(w, os, cfg, app);
            !Held(t.snap, app) && Bindings(t.snap, app) == {}
  {
    RankMany(w, os, cfg, app, image);
    PassesAreSafe(w, os, cfg, app);
    var t := PassesOn(w, os, cfg, app);
    assert !Held(t.snap, app);
    forall key | key in t.snap.objs
      ensures !BindingOf(key, t.snap.objs[key], app)
    {
    }
  }
}
