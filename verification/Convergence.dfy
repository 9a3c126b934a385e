/**
 What a run of stages achieves when nobody else interferes: each stage establishes its part of the goal and keeps the
 parts of the earlier stages.
 */
module Convergence {
  import opened Cluster
  import opened Frame
  import opened ImageFinder
  import opened Mutators
  import opened Names
  import opened Reconcile
  import opened Safety
  import opened Wrappers

  /** No one else acts during the pass. */
  ghost predicate Quiet(o: Oracle) {
    forall n :: o.env(n) == []
  }

  ghost predicate NoFaults(o: Oracle) {
    forall n :: o.fault(n) == NoFault
  }

  /** The image lookup answers the same throughout the pass. */
  ghost predicate SteadyImage(o: Oracle, spec: ImageSpec, image: Option<string>) {
    forall n :: o.image(n, spec) == image
  }

  ghost predicate Calm(o: Oracle, g: Goal, image: Option<string>) {
    o.Picks() && Quiet(o) && SteadyImage(o, g.spec.image, image)
  }

  lemma QuietCall(w: World, o: Oracle, me: NamespacedName)
    requires Quiet(o)
    ensures Arrive(w, o, me) == w.(calls := w.calls + 1)
  {
    assert o.env(w.calls) == [];
  }

  // ---------- What each part of the goal means ----------

  /** Create-or-patch leaves alone what it made: given for all kinds but those with ports, which need stable ones. */
  ghost predicate Steadies(g: Goal, m: Mutation) {
    TouchesPorts(m) ==> StablePorts(g.spec)
  }

  /** The object is what create-or-patch makes of some object. */
  ghost predicate Made(g: Goal, image: Option<string>, key: Key, m: Mutation, obj: Obj) {
    exists base :: Desired(g, m, image, key, base) == Success(obj)
  }

  /** The child exists, passes the ownership check, was made by create-or-patch, and would be left alone by it. */
  ghost predicate Settled(objs: map<Key, Obj>, g: Goal, image: Option<string>, key: Key, m: Mutation) {
    && key in objs && !Stranger(g.app, key, objs[key]) && Made(g, image, key, m, objs[key])
    && (Steadies(g, m) ==> Desired(g, m, image, key, objs[key]) == Success(objs[key]))
  }

  /** No later item of the list writes the same child. */
  ghost predicate IsLast(items: seq<Item>, i: nat) {
    i < |items| && forall j :: i < j < |items| ==> items[j].key != items[i].key
  }

  lemma LastOf(items: seq<Item>, i: nat) returns (l: nat)
    requires i < |items|
    ensures IsLast(items, l) && i <= l && items[l].key == items[i].key
    decreases |items| - i
  {
    l := i;
    if j: nat :| i < j < |items| && items[j].key == items[i].key {
      l := LastOf(items, j);
    }
  }

  ghost predicate LastItemsSettled(objs: map<Key, Obj>, g: Goal, image: Option<string>, items: seq<Item>) {
    forall i: nat {:trigger items[i]} :: IsLast(items, i) ==> Settled(objs, g, image, items[i].key, items[i].m)
  }

  ghost predicate StageHolds(objs: map<Key, Obj>, g: Goal, image: Option<string>, stage: Stage) {
    match stage
    case Skip => true
    case One(key, m, wanted) => if wanted then Settled(objs, g, image, key, m) else key !in objs
    case Many(kind, items, prune) =>
      && LastItemsSettled(objs, g, image, items)
      && (prune ==> ListOwned(objs, kind, g.app) == KeysOf(items))
  }

  /** The parts of the goal that stages 0 to n - 1 are for. */
  ghost predicate Converged(objs: map<Key, Obj>, g: Goal, image: Option<string>, n: nat) {
    forall i: nat {:trigger StageAt(g, i)} :: i < n ==> StageHolds(objs, g, image, StageAt(g, i))
  }

  predicate InRegion(stage: Stage, key: Key) {
    match stage
    case Skip => false
    case One(k, _, _) => key == k
    case Many(kind, _, _) => key.kind == kind
  }

  /** The stage whose child, wanted or to be swept, the name may be. */
  function StageOf(app: NamespacedName, key: Key): nat {
    match key.kind
    case ServiceAccount => 0
    case RoleBinding => 1
    case ClusterRoleBinding => 2
    case Service => if key.name == app.name then 3 else 4
    case PodMonitor => 5
    case IngressRoute => 6
    case CronJob => 7
    case Deployment => 8
  }

  lemma OnlyOneRegion(g: Goal, i: nat, key: Key)
    requires InRegion(StageAt(g, i), key)
    ensures i == StageOf(g.app, key)
  {
    LBServiceNameDiffers(g.app);
  }

  lemma RegionsAreDisjoint(g: Goal, i: nat, j: nat, key: Key)
    requires i != j && InRegion(StageAt(g, i), key)
    ensures !InRegion(StageAt(g, j), key)
  {
    OnlyOneRegion(g, i, key);
    if InRegion(StageAt(g, j), key) {
      OnlyOneRegion(g, j, key);
    }
  }

  ghost predicate AgreeIn(stage: Stage, a: map<Key, Obj>, b: map<Key, Obj>) {
    forall key :: InRegion(stage, key) ==> (key in a <==> key in b) && (key in a ==> a[key] == b[key])
  }

  ghost predicate AgreeOutside(stage: Stage, a: map<Key, Obj>, b: map<Key, Obj>) {
    forall key :: !InRegion(stage, key) ==> (key in a <==> key in b) && (key in a ==> a[key] == b[key])
  }

  /** The items of a stage lie in its region. */
  lemma ItemsInRegion(g: Goal, i: nat)
    requires ValidName(g.app)
    ensures var stage := StageAt(g, i);
            stage.Many? ==> forall k :: 0 <= k < |stage.items| ==>
                              InRegion(stage, stage.items[k].key) && InReach(g.app, stage.items[k].key)
  {
    ItemsAreScoped(g.app, g.spec.roles, g.spec.cronJobs);
  }

  lemma StageHoldsLocally(a: map<Key, Obj>, b: map<Key, Obj>, g: Goal, image: Option<string>, i: nat)
    requires ValidName(g.app) && StageHolds(a, g, image, StageAt(g, i)) && AgreeIn(StageAt(g, i), a, b)
    ensures StageHolds(b, g, image, StageAt(g, i))
  {
    var stage := StageAt(g, i);
    if stage.Many? {
      ItemsInRegion(g, i);
      forall k: nat | IsLast(stage.items, k)
        ensures Settled(b, g, image, stage.items[k].key, stage.items[k].m)
      {
        assert Settled(a, g, image, stage.items[k].key, stage.items[k].m);
        assert InRegion(stage, stage.items[k].key);
      }
      assert ListOwned(a, stage.kind, g.app) == ListOwned(b, stage.kind, g.app) by {
        forall key
          ensures key in ListOwned(a, stage.kind, g.app) <==> key in ListOwned(b, stage.kind, g.app)
        {
          assert InRegion(stage, key) <==> key.kind == stage.kind;
        }
      }
    }
  }

  /** A stage that changes nothing outside its region keeps the parts of the goal of all other stages. */
  lemma OtherStagesKept(a: map<Key, Obj>, b: map<Key, Obj>, g: Goal, image: Option<string>, n: nat, i: nat)
    requires ValidName(g.app) && Converged(a, g, image, n) && n <= i && AgreeOutside(StageAt(g, i), a, b)
    ensures Converged(b, g, image, n)
  {
    forall j: nat | j < n
      ensures StageHolds(b, g, image, StageAt(g, j))
    {
      assert AgreeIn(StageAt(g, j), a, b) by {
        forall key | InRegion(StageAt(g, j), key)
          ensures (key in a <==> key in b) && (key in a ==> a[key] == b[key])
        {
          RegionsAreDisjoint(g, j, i, key);
        }
      }
      StageHoldsLocally(a, b, g, image, j);
    }
  }

  // ---------- One child ----------

  /** Applications are not touched, and no child but the given one. */
  ghost predicate OnlyChild(w: World, t: World, key: Key) {
    && t.snap.apps == w.snap.apps && t.version == w.version
    && t.snap.objs - {key} == w.snap.objs - {key}
  }

  lemma PatchQuietly(w: World, o: Oracle, app: NamespacedName, key: Key, obj: Obj)
    requires Quiet(o) && key in w.snap.objs
    ensures var (t, out) := Patch(w, o, app, key, w.snap.objs[key], obj);
            OnlyChild(w, t, key) && (out.Done? ==> out.obj == Some(obj) && t.snap.objs == w.snap.objs[key := obj])
  {
    QuietCall(w, o, app);
  }

  lemma CreateQuietly(w: World, o: Oracle, app: NamespacedName, key: Key, obj: Obj)
    requires Quiet(o)
    ensures var (t, out) := Create(w, o, app, key, obj);
            OnlyChild(w, t, key) && (out.Done? ==> out.obj == Some(obj) && t.snap.objs == w.snap.objs[key := obj])
  {
    QuietCall(w, o, app);
  }

  lemma CreateOrPatchQuietly(w: World, o: Oracle, g: Goal, key: Key, m: Mutation, read: Option<Obj>)
    requires Quiet(o) && read == (if key in w.snap.objs then Some(w.snap.objs[key]) else None)
    ensures var (t, out) := CreateOrPatch(w, o, g, key, m, read);
            var base := if read.Some? then read.value else NEW_OBJ;
            && OnlyChild(w, t, key)
            && (out.Done? ==>
                  && out.obj.Some? && t.snap.objs == w.snap.objs[key := out.obj.value]
                  && Desired(g, m, o.image(w.calls, g.spec.image), key, base) == Success(out.obj.value))
  {
    QuietCall(w, o, g.app);
    var w1 := Arrive(w, o, g.app);
    var desired := Desired(g, m, o.image(w.calls, g.spec.image), key, if read.Some? then read.value else NEW_OBJ);
    if desired.Success? {
      if read.Some? {
        PatchQuietly(w1, o, g.app, key, desired.value);
        assert w.snap.objs[key := w.snap.objs[key]] == w.snap.objs;
      } else {
        CreateQuietly(w1, o, g.app, key, desired.value);
      }
    }
  }

  lemma ResourceQuietly(w: World, o: Oracle, g: Goal, key: Key, m: Mutation, wanted: bool)
    requires Quiet(o)
    ensures var (t, out) := ReconcileResource(w, o, g, key, m, wanted);
            var base := if key in w.snap.objs then w.snap.objs[key] else NEW_OBJ;
            && OnlyChild(w, t, key)
            && (out.Done? && wanted ==>
                  && out.obj.Some? && t.snap.objs == w.snap.objs[key := out.obj.value]
                  && Desired(g, m, o.image(w.calls + 1, g.spec.image), key, base) == Success(out.obj.value))
            && (out.Done? && !wanted ==> t.snap.objs == w.snap.objs - {key})
  {
    QuietCall(w, o, g.app);
    var w1 := Arrive(w, o, g.app);
    QuietCall(w1, o, g.app);
    CreateOrPatchQuietly(w1, o, g, key, m, if key in w1.snap.objs then Some(w1.snap.objs[key]) else None);
  }

  /** A child that was reconciled as wanted is settled, and the owner index lists it. */
  lemma UpsertSettles(w: World, o: Oracle, g: Goal, key: Key, m: Mutation, image: Option<string>)
    requires Calm(o, g, image) && InReach(g.app, key) && ValidName(g.app)
    requires ReconcileResource(w, o, g, key, m, true).1.Done?
    ensures var t := ReconcileResource(w, o, g, key, m, true).0;
            Settled(t.snap.objs, g, image, key, m) && key in ListOwned(t.snap.objs, key.kind, g.app)
  {
    ResourceQuietly(w, o, g, key, m, true);
    MadeIsSettled(g, image, key, m, if key in w.snap.objs then w.snap.objs[key] else NEW_OBJ);
  }

  /** What create-or-patch makes is owned, listed, and left alone by it. */
  lemma MadeIsSettled(g: Goal, image: Option<string>, key: Key, m: Mutation, base: Obj)
    requires InReach(g.app, key) && ValidName(g.app) && Desired(g, m, image, key, base).Success?
    ensures var obj := Desired(g, m, image, key, base).value;
            && !Stranger(g.app, key, obj) && Made(g, image, key, m, obj)
            && (Steadies(g, m) ==> Desired(g, m, image, key, obj) == Success(obj))
            && (forall objs: map<Key, Obj> :: key in objs && objs[key] == obj ==> key in ListOwned(objs, key.kind, g.app))
  {
    if Steadies(g, m) {
      DesiredIsIdempotent(g, m, image, key, base);
    }
    WrittenObjectIsOwned(g, m, image, key, base);
  }

  // ---------- Stages ----------

  ghost predicate OnlyKeys(w: World, t: World, keys: set<Key>) {
    && t.snap.apps == w.snap.apps && t.version == w.version
    && t.snap.objs - keys == w.snap.objs - keys
  }

  lemma OnlyKeysChain(a: World, b: World, c: World, k1: set<Key>, k2: set<Key>)
    requires OnlyKeys(a, b, k1) && OnlyKeys(b, c, k2)
    ensures OnlyKeys(a, c, k1 + k2)
  {
    forall key | key !in k1 + k2
      ensures key in a.snap.objs <==> key in c.snap.objs
      ensures key in a.snap.objs ==> a.snap.objs[key] == c.snap.objs[key]
    {
      assert key in a.snap.objs - k1 <==> key in b.snap.objs - k1;
      assert key in b.snap.objs - k2 <==> key in c.snap.objs - k2;
      if key in a.snap.objs {
        assert (a.snap.objs - k1)[key] == (b.snap.objs - k1)[key];
        assert (b.snap.objs - k2)[key] == (c.snap.objs - k2)[key];
      }
    }
    var left, right := a.snap.objs - (k1 + k2), c.snap.objs - (k1 + k2);
    assert left.Keys == right.Keys;
  }

  lemma KeysOfCons(items: seq<Item>)
    requires items != []
    ensures KeysOf(items) == {items[0].key} + KeysOf(items[1..])
  {
    forall key
      ensures key in KeysOf(items) <==> key in {items[0].key} + KeysOf(items[1..])
    {
      if i :| 0 <= i < |items| && items[i].key == key {
        assert i > 0 ==> items[1..][i - 1].key == key;
      }
      if i :| 0 <= i < |items[1..]| && items[1..][i].key == key {
        assert items[i + 1].key == key;
      }
    }
  }

  lemma {:induction false} UpsertAllQuietly(w: World, o: Oracle, g: Goal, items: seq<Item>)
    requires Quiet(o)
    ensures OnlyKeys(w, UpsertAll(w, o, g, items).0, KeysOf(items))
    decreases |items|
  {
    if items != [] {
      var r := ReconcileResource(w, o, g, items[0].key, items[0].m, true);
      ResourceQuietly(w, o, g, items[0].key, items[0].m, true);
      KeysOfCons(items);
      if r.1.Done? {
        UpsertAllQuietly(r.0, o, g, items[1..]);
        OnlyKeysChain(w, r.0, UpsertAll(r.0, o, g, items[1..]).0, {items[0].key}, KeysOf(items[1..]));
      } else {
        OnlyKeysChain(w, r.0, r.0, {items[0].key}, KeysOf(items[1..]));
      }
    }
  }

  lemma UntouchedByKeys(w: World, t: World, keys: set<Key>, key: Key)
    requires OnlyKeys(w, t, keys) && key !in keys
    ensures key in w.snap.objs <==> key in t.snap.objs
    ensures key in w.snap.objs ==> w.snap.objs[key] == t.snap.objs[key]
  {
    assert key in w.snap.objs - keys <==> key in t.snap.objs - keys;
    if key in w.snap.objs {
      assert (w.snap.objs - keys)[key] == (t.snap.objs - keys)[key];
    }
  }

  /** After a completed run of upserts every child named has the content of the last item naming it. */
  lemma {:induction false} UpsertAllSettles(w: World, o: Oracle, g: Goal, items: seq<Item>, image: Option<string>)
    requires Calm(o, g, image) && ValidName(g.app)
    requires forall i :: 0 <= i < |items| ==> InReach(g.app, items[i].key)
    requires UpsertAll(w, o, g, items).1.Done?
    ensures var t := UpsertAll(w, o, g, items).0;
            && LastItemsSettled(t.snap.objs, g, image, items)
            && forall key :: key in KeysOf(items) ==> key in ListOwned(t.snap.objs, key.kind, g.app)
    decreases |items|
  {
    if items != [] {
      var first, rest := items[0], items[1..];
      var r := ReconcileResource(w, o, g, first.key, first.m, true);
      var t := UpsertAll(w, o, g, items).0;
      UpsertSettles(w, o, g, first.key, first.m, image);
      UpsertAllSettles(r.0, o, g, rest, image);
      UpsertAllQuietly(r.0, o, g, rest);
      KeysOfCons(items);
      if first.key !in KeysOf(rest) {
        UntouchedByKeys(r.0, t, KeysOf(rest), first.key);
      }
      forall i: nat | IsLast(items, i)
        ensures Settled(t.snap.objs, g, image, items[i].key, items[i].m)
      {
        if i == 0 {
          assert forall j :: 0 <= j < |rest| ==> rest[j] == items[j + 1];
        } else {
          assert IsLast(rest, i - 1) by {
            assert forall j :: 0 <= j < |rest| ==> rest[j] == items[j + 1];
          }
          assert Settled(t.snap.objs, g, image, rest[i - 1].key, rest[i - 1].m);
        }
      }
    }
  }

  lemma MinusInTurn(objs: map<Key, Obj>, key: Key, keys: set<Key>)
    requires key in keys
    ensures objs - {key} - (keys - {key}) == objs - keys
  {
  }

  lemma {:induction false} SweepQuietly(w: World, o: Oracle, g: Goal, keys: set<Key>)
    requires o.Picks() && Quiet(o)
    ensures OnlyKeys(w, Sweep(w, o, g, keys).0, keys)
    ensures Sweep(w, o, g, keys).1.Done? ==> Sweep(w, o, g, keys).0.snap.objs == w.snap.objs - keys
    decreases |keys|
  {
    if keys == {} {
      assert w.snap.objs - {} == w.snap.objs;
    } else {
      var key := o.pick(w.calls, keys);
      var r := ReconcileResource(w, o, g, key, MutateNothing, false);
      ResourceQuietly(w, o, g, key, MutateNothing, false);
      if r.1.Done? {
        SweepQuietly(r.0, o, g, keys - {key});
        OnlyKeysChain(w, r.0, Sweep(r.0, o, g, keys - {key}).0, {key}, keys - {key});
        assert {key} + (keys - {key}) == keys;
        MinusInTurn(w.snap.objs, key, keys);
      } else {
        OnlyKeysChain(w, r.0, r.0, {key}, keys);
        assert {key} + keys == keys;
      }
    }
  }

  lemma OnlyKeysInRegion(w: World, t: World, stage: Stage, keys: set<Key>)
    requires OnlyKeys(w, t, keys) && forall key :: key in keys ==> InRegion(stage, key)
    ensures AgreeOutside(stage, w.snap.objs, t.snap.objs)
  {
    forall key | !InRegion(stage, key)
      ensures (key in w.snap.objs <==> key in t.snap.objs)
              && (key in w.snap.objs ==> w.snap.objs[key] == t.snap.objs[key])
    {
      UntouchedByKeys(w, t, keys, key);
    }
  }

  /** Whether it succeeds or fails, a stage changes no child outside its region and no Application. */
  lemma StageStaysInRegion(w: World, o: Oracle, g: Goal, i: nat)
    requires o.Picks() && Quiet(o) && ValidName(g.app)
    ensures var t := RunStage(w, o, g, StageAt(g, i)).0;
            AgreeOutside(StageAt(g, i), w.snap.objs, t.snap.objs) && t.snap.apps == w.snap.apps && t.version == w.version
  {
    var stage := StageAt(g, i);
    var t := RunStage(w, o, g, stage).0;
    match stage
    case Skip =>
    case One(key, m, wanted) =>
      ResourceQuietly(w, o, g, key, m, wanted);
      OnlyKeysInRegion(w, t, stage, {key});
    case Many(kind, items, prune) =>
      QuietCall(w, o, g.app);
      ItemsInRegion(g, i);
      var w1 := Arrive(w, o, g.app);
      var rest := ListOwned(w1.snap.objs, kind, g.app) - KeysOf(items);
      var mid := UpsertAll(w1, o, g, items);
      UpsertAllQuietly(w1, o, g, items);
      SweepQuietly(mid.0, o, g, rest);
      OnlyKeysChain(w1, mid.0, Sweep(mid.0, o, g, rest).0, KeysOf(items), rest);
      OnlyKeysChain(w1, mid.0, mid.0, KeysOf(items), rest);
      OnlyKeysChain(w1, w1, w1, KeysOf(items), rest);
      OnlyKeysInRegion(w1, t, stage, KeysOf(items) + rest);
  }

  /** A stage that succeeds establishes its part of the goal. */
  lemma StageEstablishes(w: World, o: Oracle, g: Goal, i: nat, image: Option<string>)
    requires Calm(o, g, image) && ValidName(g.app)
    requires RunStage(w, o, g, StageAt(g, i)).1.Done?
    ensures StageHolds(RunStage(w, o, g, StageAt(g, i)).0.snap.objs, g, image, StageAt(g, i))
  {
    var stage := StageAt(g, i);
    match stage
    case Skip =>
    case One(key, m, wanted) =>
      ResourceQuietly(w, o, g, key, m, wanted);
      if wanted {
        UpsertSettles(w, o, g, key, m, image);
      }
    case Many(kind, items, prune) =>
      ItemsInRegion(g, i);
      ManyEstablishes(w, o, g, stage, image);
  }

  lemma ManyEstablishes(w: World, o: Oracle, g: Goal, stage: Stage, image: Option<string>)
    requires Calm(o, g, image) && ValidName(g.app) && stage.Many?
    requires forall k :: 0 <= k < |stage.items| ==>
               InRegion(stage, stage.items[k].key) && InReach(g.app, stage.items[k].key)
    requires RunStage(w, o, g, stage).1.Done?
    ensures StageHolds(RunStage(w, o, g, stage).0.snap.objs, g, image, stage)
  {
    var Many(kind, items, prune) := stage;
    QuietCall(w, o, g.app);
    var w1 := Arrive(w, o, g.app);
    var mid := UpsertAll(w1, o, g, items).0;
    UpsertAllSettles(w1, o, g, items, image);
    if prune {
      var keys := KeysOf(items);
      var listed := ListOwned(w1.snap.objs, kind, g.app);
      SweepQuietly(mid, o, g, listed - keys);
      UpsertAllQuietly(w1, o, g, items);
      var final := mid.snap.objs - (listed - keys);
      forall k: nat | IsLast(items, k)
        ensures Settled(final, g, image, items[k].key, items[k].m)
      {
        assert Settled(mid.snap.objs, g, image, items[k].key, items[k].m);
        assert items[k].key in keys;
      }
      forall key
        ensures key in ListOwned(final, kind, g.app) <==> key in keys
      {
        if key in keys {
          assert key.kind == kind && key in ListOwned(mid.snap.objs, kind, g.app);
        } else {
          UntouchedByKeys(w1, mid, keys, key);
        }
      }
    }
  }

  lemma OneStageMore(objs: map<Key, Obj>, g: Goal, image: Option<string>, i: nat)
    requires Converged(objs, g, image, i) && StageHolds(objs, g, image, StageAt(g, i))
    ensures Converged(objs, g, image, i + 1)
  {
  }

  lemma LastStageDeploys(w: World, o: Oracle, g: Goal)
    requires o.Picks() && Quiet(o)
    ensures var (t, out) := RunStage(w, o, g, StageAt(g, STAGES - 1));
            out.Done? ==>
              out.obj.Some? && KeyOf(Deployment, g.app) in t.snap.objs
              && t.snap.objs[KeyOf(Deployment, g.app)] == out.obj.value
  {
    ResourceQuietly(w, o, g, KeyOf(Deployment, g.app), MutateDeployment, true);
  }

  /** Before stage n of an undisturbed run: the parts of the goal of the stages before n hold. */
  ghost predicate Arrived(w: World, v: World, g: Goal, image: Option<string>, n: nat) {
    Converged(v.snap.objs, g, image, n) && v.snap.apps == w.snap.apps && v.version == w.version
  }

  /** At its end: those of the completed stages do, and with all of them the Deployment is at hand. */
  ghost predicate Ended(w: World, t: World, k: nat, out: Outcome, g: Goal, image: Option<string>) {
    && k <= STAGES && (out.Failed? <==> k < STAGES)
    && Arrived(w, t, g, image, k)
    && (out.Done? ==>
          out.obj.Some? && KeyOf(Deployment, g.app) in t.snap.objs
          && t.snap.objs[KeyOf(Deployment, g.app)] == out.obj.value)
  }

  lemma StageArrives(w: World, v: World, o: Oracle, g: Goal, n: nat, image: Option<string>)
    requires Calm(o, g, image) && ValidName(g.app) && n < STAGES && Arrived(w, v, g, image, n)
    ensures var r := RunStage(v, o, g, StageAt(g, n));
            if r.1.Failed? then Ended(w, r.0, n, r.1, g, image)
            else if n + 1 == STAGES then Ended(w, r.0, STAGES, r.1, g, image)
            else Arrived(w, r.0, g, image, n + 1)
  {
    var r := RunStage(v, o, g, StageAt(g, n));
    StageStaysInRegion(v, o, g, n);
    OtherStagesKept(v.snap.objs, r.0.snap.objs, g, image, n, n);
    if r.1.Done? {
      StageEstablishes(v, o, g, n, image);
      OneStageMore(r.0.snap.objs, g, image, n);
      if n + 1 == STAGES {
        LastStageDeploys(v, o, g);
      }
    }
  }

  /**
   Running the stages from i on: the parts of the goal of every stage that was completed hold at the end, those of
   the earlier ones included; a failing stage ends the run with its number.
   */
  lemma StagesConverge(w: World, o: Oracle, g: Goal, i: nat, image: Option<string>)
    requires Calm(o, g, image) && ValidName(g.app)
    requires i < STAGES && Converged(w.snap.objs, g, image, i)
    ensures var (t, k, out) := RunStages(w, o, g, i);
            && k <= STAGES && (out.Failed? <==> k < STAGES)
            && Converged(t.snap.objs, g, image, k)
            && t.snap.apps == w.snap.apps && t.version == w.version
            && (out.Done? ==>
                  out.obj.Some? && KeyOf(Deployment, g.app) in t.snap.objs
                  && t.snap.objs[KeyOf(Deployment, g.app)] == out.obj.value)
  {
    var inv := (n: nat, v: World) => Arrived(w, v, g, image, n);
    var end := (t: World, k: nat, out: Outcome) => Ended(w, t, k, out, g, image);
    forall n: nat, v | i <= n < STAGES && inv(n, v)
      ensures Carries(o, g, n, v, inv, end)
    {
      StageArrives(w, v, o, g, n, image);
    }
    StagesCarry(w, o, g, i, inv, end);
  }
}
