/**
 The ownership frame: a pass for an Application leaves objects that it does not own as they are.

 The check and the write are separate calls, so the claim depends on what others do in between. Per call it is
 characterised exactly by what others may put under the child's name; module FrameRuns takes it to whole runs.
 */
module Frame {
  import opened Cluster
  import opened ImageFinder
  import opened Mutators
  import opened Names
  import opened Reconcile
  import opened Safety
  import opened Wrappers

  /** Strangers to the Application are neither changed nor deleted, and no owner of an object changes. */
  ghost predicate FrameStep(app: NamespacedName, step: Step) {
    && (forall key :: key in step.before.objs && Stranger(app, key, step.before.objs[key]) ==>
          key in step.after.objs && step.after.objs[key] == step.before.objs[key])
    && (forall key :: key in step.before.objs && key in step.after.objs ==>
          && step.after.objs[key].controller == step.before.objs[key].controller
          && step.after.objs[key].primary == step.before.objs[key].primary)
  }

  /** All steps of the Application's own worker from an index on. */
  ghost predicate OwnStepsFramed(app: NamespacedName, history: seq<Step>, from: nat) {
    forall i :: from <= i < |history| && history[i].actor == Some(app) ==> FrameStep(app, history[i])
  }

  // ---------- One call, exactly ----------

  lemma ActAddsAtMostOne(w: World, me: NamespacedName, a: EnvAction)
    ensures var t := Act(w, me, a);
            || t.history == w.history
            || (|t.history| == |w.history| + 1 && t.history[..|w.history|] == w.history
                && t.history[|w.history|].actor != Some(me))
  {
  }

  lemma {:induction false} OthersActAsOthers(w: World, me: NamespacedName, actions: seq<EnvAction>)
    ensures var t := ActAll(w, me, actions);
            && |w.history| <= |t.history| && t.history[..|w.history|] == w.history
            && forall i :: |w.history| <= i < |t.history| ==> t.history[i].actor != Some(me)
  {
    if actions != [] {
      var before := actions[..|actions| - 1];
      OthersActAsOthers(w, me, before);
      ActAddsAtMostOne(ActAll(w, me, before), me, actions[|actions| - 1]);
    }
  }

  lemma ArriveAddsNoOwnSteps(w: World, o: Oracle, me: NamespacedName)
    ensures var t := Arrive(w, o, me);
            && |w.history| <= |t.history| && t.history[..|w.history|] == w.history
            && forall i :: |w.history| <= i < |t.history| ==> t.history[i].actor != Some(me)
  {
    OthersActAsOthers(w.(calls := w.calls + 1), me, o.env(w.calls));
  }

  /** The state a call's write meets and the object it leaves, when the call gets as far as writing. */
  datatype Write = Write(at: Snap, left: Option<Obj>)

  function PatchWrite(w: World, o: Oracle, g: Goal, key: Key, base: Obj, obj: Obj): Option<Write> {
    var at := Arrive(w, o, g.app).snap;
    if FaultAt(w, o) == Rejected || key !in at.objs then None
    else Some(Write(at, Some(MergePatch(at.objs[key], base, obj))))
  }

  function DeleteWrite(w: World, o: Oracle, g: Goal, key: Key): Option<Write> {
    var at := Arrive(w, o, g.app).snap;
    if FaultAt(w, o) == Rejected || key !in at.objs then None else Some(Write(at, None))
  }

  /** The overwrite a call performs on an existing object, if any, found by following the reads and the others' acts. */
  function Overwrite(w: World, o: Oracle, g: Goal, key: Key, m: Mutation, wanted: bool): Option<Write> {
    var w1 := Arrive(w, o, g.app);
    var w2 := Arrive(w1, o, g.app);
    if FaultAt(w, o) != NoFault || (key in w1.snap.objs && !IsObjectOwnedBy(key, w1.snap.objs[key], g.app)) then None
    else if !wanted then (if key in w1.snap.objs then DeleteWrite(w1, o, g, key) else None)
    else if FaultAt(w1, o) != NoFault || key !in w2.snap.objs then None
    else (
      var base := w2.snap.objs[key];
      match Desired(g, m, o.image(w1.calls, g.spec.image), key, base)
      case Failure(_) => None
      case Success(obj) => if obj == base then None else PatchWrite(w2, o, g, key, base, obj)
    )
  }

  /** The overwritten object belongs to someone else and is changed, or it changes hands. */
  ghost predicate Intrusion(app: NamespacedName, key: Key, write: Write) {
    key in write.at.objs &&
    var current := write.at.objs[key];
    match write.left
    case None => Stranger(app, key, current)
    case Some(obj) =>
      || (Stranger(app, key, current) && obj != current)
      || obj.controller != current.controller || obj.primary != current.primary
  }

  /** A put of one key is framed exactly when it is no intrusion. */
  lemma PutFramedIff(app: NamespacedName, s: Snap, key: Key, left: Option<Obj>)
    ensures var t := s.(objs := if left.Some? then s.objs[key := left.value] else s.objs - {key});
            FrameStep(app, Step(Some(app), Some(key), s, t)) <==> !Intrusion(app, key, Write(s, left))
  {
    var t := s.(objs := if left.Some? then s.objs[key := left.value] else s.objs - {key});
    var step := Step(Some(app), Some(key), s, t);
    if !Intrusion(app, key, Write(s, left)) {
      assert FrameStep(app, step);
    }
  }

  /** One recorded write after others' steps: the own steps are framed exactly when the write is. */
  lemma OneOwnStep(app: NamespacedName, history: seq<Step>, from: nat, step: Step)
    requires from <= |history| && step.actor == Some(app)
    requires forall i :: from <= i < |history| ==> history[i].actor != Some(app)
    ensures OwnStepsFramed(app, history + [step], from) <==> FrameStep(app, step)
  {
    var all := history + [step];
    assert all[|history|] == step;
    assert forall i :: from <= i < |history| ==> all[i] == history[i];
  }

  /** Reads and others' acts up to three calls deep leave only others' steps in the history. */
  lemma ThreeArrivals(w: World, o: Oracle, me: NamespacedName)
    ensures var w1 := Arrive(w, o, me); var w2 := Arrive(w1, o, me); var w3 := Arrive(w2, o, me);
            && |w.history| <= |w1.history| <= |w2.history| <= |w3.history|
            && (forall i :: |w.history| <= i < |w1.history| ==> w1.history[i].actor != Some(me))
            && (forall i :: |w.history| <= i < |w2.history| ==> w2.history[i].actor != Some(me))
            && (forall i :: |w.history| <= i < |w3.history| ==> w3.history[i].actor != Some(me))
  {
    var w1 := Arrive(w, o, me);
    var w2 := Arrive(w1, o, me);
    var w3 := Arrive(w2, o, me);
    ArriveAddsNoOwnSteps(w, o, me);
    ArriveAddsNoOwnSteps(w1, o, me);
    ArriveAddsNoOwnSteps(w2, o, me);
    forall i | |w.history| <= i < |w2.history|
      ensures w2.history[i].actor != Some(me)
    {
      assert i < |w1.history| ==> w2.history[..|w1.history|][i] == w1.history[i];
    }
    forall i | |w.history| <= i < |w3.history|
      ensures w3.history[i].actor != Some(me)
    {
      assert i < |w2.history| ==> w3.history[..|w2.history|][i] == w2.history[i];
    }
  }

  lemma DeleteFramedIff(w: World, o: Oracle, g: Goal, key: Key, from: nat)
    requires from <= |w.history|
    requires var t := Arrive(w, o, g.app);
             from <= |t.history| && forall i :: from <= i < |t.history| ==> t.history[i].actor != Some(g.app)
    ensures OwnStepsFramed(g.app, Delete(w, o, g.app, key).0.history, from)
            <==> !(DeleteWrite(w, o, g, key).Some? && Intrusion(g.app, key, DeleteWrite(w, o, g, key).value))
  {
    var w1 := Arrive(w, o, g.app);
    if FaultAt(w, o) != Rejected && key in w1.snap.objs {
      PutFramedIff(g.app, w1.snap, key, None);
      OneOwnStep(g.app, w1.history, from,
                 Step(Some(g.app), Some(key), w1.snap, w1.snap.(objs := w1.snap.objs - {key})));
    }
  }

  lemma PatchFramedIff(w: World, o: Oracle, g: Goal, key: Key, base: Obj, obj: Obj, from: nat)
    requires from <= |w.history|
    requires var t := Arrive(w, o, g.app);
             from <= |t.history| && forall i :: from <= i < |t.history| ==> t.history[i].actor != Some(g.app)
    ensures OwnStepsFramed(g.app, Patch(w, o, g.app, key, base, obj).0.history, from)
            <==> !(PatchWrite(w, o, g, key, base, obj).Some?
                   && Intrusion(g.app, key, PatchWrite(w, o, g, key, base, obj).value))
  {
    var w1 := Arrive(w, o, g.app);
    if FaultAt(w, o) != Rejected && key in w1.snap.objs {
      var merged := MergePatch(w1.snap.objs[key], base, obj);
      PutFramedIff(g.app, w1.snap, key, Some(merged));
      OneOwnStep(g.app, w1.history, from,
                 Step(Some(g.app), Some(key), w1.snap, w1.snap.(objs := w1.snap.objs[key := merged])));
    }
  }

  lemma CreateFramed(w: World, o: Oracle, g: Goal, key: Key, obj: Obj, from: nat)
    requires from <= |w.history|
    requires var t := Arrive(w, o, g.app);
             from <= |t.history| && forall i :: from <= i < |t.history| ==> t.history[i].actor != Some(g.app)
    ensures OwnStepsFramed(g.app, Create(w, o, g.app, key, obj).0.history, from)
  {
    var w1 := Arrive(w, o, g.app);
    if FaultAt(w, o) != Rejected && key !in w1.snap.objs {
      PutFramedIff(g.app, w1.snap, key, Some(obj));
      OneOwnStep(g.app, w1.history, from,
                 Step(Some(g.app), Some(key), w1.snap, w1.snap.(objs := w1.snap.objs[key := obj])));
    }
  }

  ghost predicate Framed(app: NamespacedName, t: World, from: nat, write: Option<Write>, key: Key) {
    OwnStepsFramed(app, t.history, from) <==> !(write.Some? && Intrusion(app, key, write.value))
  }

  lemma UpsertFramedIff(w: World, o: Oracle, g: Goal, key: Key, m: Mutation)
    ensures Framed(g.app, ReconcileResource(w, o, g, key, m, true).0, |w.history|, Overwrite(w, o, g, key, m, true), key)
  {
    ThreeArrivals(w, o, g.app);
    var w1 := Arrive(w, o, g.app);
    var w2 := Arrive(w1, o, g.app);
    if FaultAt(w, o) == NoFault && !(key in w1.snap.objs && !IsObjectOwnedBy(key, w1.snap.objs[key], g.app)) {
      var image := o.image(w1.calls, g.spec.image);
      if FaultAt(w1, o) == NoFault && key in w2.snap.objs {
        var base := w2.snap.objs[key];
        var desired := Desired(g, m, image, key, base);
        if desired.Success? && desired.value != base {
          PatchFramedIff(w2, o, g, key, base, desired.value, |w.history|);
        }
      } else if FaultAt(w1, o) == NoFault {
        var desired := Desired(g, m, image, key, NEW_OBJ);
        if desired.Success? {
          CreateFramed(w2, o, g, key, desired.value, |w.history|);
        }
      }
    }
  }

  lemma RemovalFramedIff(w: World, o: Oracle, g: Goal, key: Key, m: Mutation)
    ensures Framed(g.app, ReconcileResource(w, o, g, key, m, false).0, |w.history|, Overwrite(w, o, g, key, m, false), key)
  {
    ThreeArrivals(w, o, g.app);
    var w1 := Arrive(w, o, g.app);
    if FaultAt(w, o) == NoFault && key in w1.snap.objs && IsObjectOwnedBy(key, w1.snap.objs[key], g.app) {
      DeleteFramedIff(w1, o, g, key, |w.history|);
    }
  }

  /**
   Whatever others do and whichever calls fail: reconciling one child respects ownership exactly when it does not end
   in overwriting an object that came under the key, owned by someone else, after the check.
   */
  lemma ResourceFramedIff(w: World, o: Oracle, g: Goal, key: Key, m: Mutation, wanted: bool)
    ensures OwnStepsFramed(g.app, ReconcileResource(w, o, g, key, m, wanted).0.history, |w.history|)
            <==> !(Overwrite(w, o, g, key, m, wanted).Some?
                   && Intrusion(g.app, key, Overwrite(w, o, g, key, m, wanted).value))
  {
    if wanted {
      UpsertFramedIff(w, o, g, key, m);
    } else {
      RemovalFramedIff(w, o, g, key, m);
    }
  }

  // ---------- What others may put under a name, exactly ----------

  predicate Near(app: NamespacedName, key: Key) {
    key.kind == ClusterRoleBinding || key.namespace == app.namespace
  }

  /** The keys a pass handles lie in the Application's namespace or in none. */
  predicate InReach(app: NamespacedName, key: Key) {
    Scoped(key) && Near(app, key)
  }

  /** Others' actions are among the allowed ones. */
  ghost predicate Within(o: Oracle, allowed: EnvAction -> bool) {
    forall n {:trigger o.env(n)} :: forall i :: 0 <= i < |o.env(n)| ==> allowed(o.env(n)[i])
  }

  ghost predicate FramedCall(w: World, o: Oracle, g: Goal, key: Key, m: Mutation, wanted: bool) {
    OwnStepsFramed(g.app, ReconcileResource(w, o, g, key, m, wanted).0.history, |w.history|)
  }

  /**
   An object that must not be put under the name: for a cluster role binding any that claims no Application; for a
   namespaced child any that the Application does not own, except that an upsert which edits nothing only takes over
   objects without a controller. An upsert whose mutator cannot succeed never writes.
   */
  predicate Threat(g: Goal, key: Key, m: Mutation, wanted: bool, obj: Obj) {
    && (wanted ==> CanSucceed(g, m))
    && if key.kind == ClusterRoleBinding then !ClaimsApplication(key, obj)
       else if wanted && !CanChange(g, m) then obj.controller.None?
       else Stranger(g.app, key, obj)
  }

  /** Puts under the key have good owners, and no other worker acts. */
  ghost predicate PutsGood(key: Key, good: (Option<OwnerRef>, Option<Primary>) -> bool, a: EnvAction) {
    !a.OtherWorker? && (a.PutChild? && a.key == key ==> good(a.obj.controller, a.obj.primary))
  }

  lemma {:induction false} OwnersStayGood(
    w: World, me: NamespacedName, actions: seq<EnvAction>, key: Key,
    good: (Option<OwnerRef>, Option<Primary>) -> bool)
    requires forall i :: 0 <= i < |actions| ==> PutsGood(key, good, actions[i])
    requires key in w.snap.objs ==> good(w.snap.objs[key].controller, w.snap.objs[key].primary)
    ensures var t := ActAll(w, me, actions).snap;
            key in t.objs ==> good(t.objs[key].controller, t.objs[key].primary)
  {
    if actions != [] {
      OwnersStayGood(w, me, actions[..|actions| - 1], key, good);
    }
  }

  lemma GoodOnArrival(
    w: World, o: Oracle, me: NamespacedName, allowed: EnvAction -> bool, key: Key,
    good: (Option<OwnerRef>, Option<Primary>) -> bool)
    requires Within(o, allowed) && forall a :: allowed(a) ==> PutsGood(key, good, a)
    requires key in w.snap.objs ==> good(w.snap.objs[key].controller, w.snap.objs[key].primary)
    ensures var t := Arrive(w, o, me).snap;
            key in t.objs ==> good(t.objs[key].controller, t.objs[key].primary)
  {
    assert forall i :: 0 <= i < |o.env(w.calls)| ==> allowed(o.env(w.calls)[i]);
    OwnersStayGood(w.(calls := w.calls + 1), me, o.env(w.calls), key, good);
  }

  /** Others can put a binding that claims an Application only where one with the same claim is. */
  predicate KeepsClaimAt(key: Key, a: EnvAction) {
    !a.OtherWorker? && (a.PutChild? && a.key == key ==> ClaimsApplication(key, a.obj))
  }

  lemma {:induction false} ClaimKept(w: World, me: NamespacedName, actions: seq<EnvAction>, key: Key)
    requires forall i :: 0 <= i < |actions| ==> KeepsClaimAt(key, actions[i])
    ensures var t := ActAll(w, me, actions).snap;
            key in t.objs ==> key in w.snap.objs && t.objs[key].primary == w.snap.objs[key].primary
  {
    if actions != [] {
      ClaimKept(w, me, actions[..|actions| - 1], key);
    }
  }

  lemma ClaimOnArrival(w: World, o: Oracle, me: NamespacedName, allowed: EnvAction -> bool, key: Key)
    requires Within(o, allowed) && forall a :: allowed(a) ==> KeepsClaimAt(key, a)
    ensures var t := Arrive(w, o, me).snap;
            key in t.objs ==> key in w.snap.objs && t.objs[key].primary == w.snap.objs[key].primary
  {
    assert forall i :: 0 <= i < |o.env(w.calls)| ==> allowed(o.env(w.calls)[i]);
    ClaimKept(w.(calls := w.calls + 1), me, o.env(w.calls), key);
  }

  /** Setting the owner of an owned object either is refused or leaves its owner as it was. */
  lemma OwnerStays(g: Goal, m: Mutation, image: Option<string>, key: Key, base: Obj)
    requires InReach(g.app, key) && !Stranger(g.app, key, base) && Desired(g, m, image, key, base).Success?
    ensures var obj := Desired(g, m, image, key, base).value;
            obj.controller == base.controller && obj.primary == base.primary
  {
  }

  lemma ClaimedCallIsFramed(
    w: World, o: Oracle, g: Goal, key: Key, m: Mutation, wanted: bool, allowed: EnvAction -> bool)
    requires key.kind == ClusterRoleBinding && (wanted ==> Scoped(key))
    requires Within(o, allowed) && forall a :: allowed(a) ==> KeepsClaimAt(key, a)
    ensures FramedCall(w, o, g, key, m, wanted)
  {
    var w1 := Arrive(w, o, g.app);
    var w2 := Arrive(w1, o, g.app);
    ClaimOnArrival(w1, o, g.app, allowed, key);
    ClaimOnArrival(w2, o, g.app, allowed, key);
    ResourceFramedIff(w, o, g, key, m, wanted);
  }

  ghost predicate PutsOwned(g: Goal, key: Key, allowed: EnvAction -> bool) {
    forall a :: allowed(a) ==> !a.OtherWorker? && (a.PutChild? && a.key == key ==> !Stranger(g.app, key, a.obj))
  }

  /** What was absent or owned at one call is so at the next. */
  lemma OwnedOnArrival(w: World, o: Oracle, g: Goal, key: Key, allowed: EnvAction -> bool)
    requires key.kind != ClusterRoleBinding && Within(o, allowed) && PutsOwned(g, key, allowed)
    requires key in w.snap.objs ==> !Stranger(g.app, key, w.snap.objs[key])
    ensures var t := Arrive(w, o, g.app).snap; key in t.objs ==> !Stranger(g.app, key, t.objs[key])
  {
    var good := (c: Option<OwnerRef>, p: Option<Primary>) => !Stranger(g.app, key, Obj(c, p, BLANK));
    forall a | allowed(a)
      ensures PutsGood(key, good, a)
    {
    }
    GoodOnArrival(w, o, g.app, allowed, key, good);
  }

  lemma OwnedUpsertIsFramed(w: World, o: Oracle, g: Goal, key: Key, m: Mutation, allowed: EnvAction -> bool)
    requires key.kind != ClusterRoleBinding && key.namespace == g.app.namespace && Scoped(key)
    requires Within(o, allowed) && PutsOwned(g, key, allowed)
    ensures FramedCall(w, o, g, key, m, true)
  {
    var w1 := Arrive(w, o, g.app);
    var w2 := Arrive(w1, o, g.app);
    if !(key in w1.snap.objs && !IsObjectOwnedBy(key, w1.snap.objs[key], g.app)) {
      OwnedOnArrival(w1, o, g, key, allowed);
      OwnedOnArrival(w2, o, g, key, allowed);
      if key in w2.snap.objs {
        var image := o.image(w1.calls, g.spec.image);
        if Desired(g, m, image, key, w2.snap.objs[key]).Success? {
          OwnerStays(g, m, image, key, w2.snap.objs[key]);
        }
      }
    }
    ResourceFramedIff(w, o, g, key, m, true);
  }

  lemma OwnedDeleteIsFramed(w: World, o: Oracle, g: Goal, key: Key, m: Mutation, allowed: EnvAction -> bool)
    requires key.kind != ClusterRoleBinding && key.namespace == g.app.namespace
    requires Within(o, allowed) && PutsOwned(g, key, allowed)
    ensures FramedCall(w, o, g, key, m, false)
  {
    var w1 := Arrive(w, o, g.app);
    if key in w1.snap.objs && IsObjectOwnedBy(key, w1.snap.objs[key], g.app) {
      OwnedOnArrival(w1, o, g, key, allowed);
    }
    ResourceFramedIff(w, o, g, key, m, false);
  }

  /** An upsert that edits nothing writes only to an object without a controller. */
  lemma UnchangingCallIsFramed(w: World, o: Oracle, g: Goal, key: Key, m: Mutation, allowed: EnvAction -> bool)
    requires key.kind != ClusterRoleBinding && Scoped(key) && !CanChange(g, m)
    requires Within(o, allowed)
    requires forall a :: allowed(a) ==> !a.OtherWorker? && (a.PutChild? && a.key == key ==> a.obj.controller.Some?)
    ensures FramedCall(w, o, g, key, m, true)
  {
    var good := (c: Option<OwnerRef>, p: Option<Primary>) => c.Some?;
    forall a | allowed(a)
      ensures PutsGood(key, good, a)
    {
    }
    var w1 := Arrive(w, o, g.app);
    var w2 := Arrive(w1, o, g.app);
    if !(key in w1.snap.objs && !IsObjectOwnedBy(key, w1.snap.objs[key], g.app)) {
      GoodOnArrival(w1, o, g.app, allowed, key, good);
      if key in w2.snap.objs {
        var base, image := w2.snap.objs[key], o.image(w1.calls, g.spec.image);
        if Mutate(g, m, image, base.content).Success? {
          UnchangingIsIdentity(g, m, image, base.content);
        }
      }
    }
    ResourceFramedIff(w, o, g, key, m, true);
  }

  lemma FailingCallIsFramed(w: World, o: Oracle, g: Goal, key: Key, m: Mutation)
    requires !CanSucceed(g, m)
    ensures FramedCall(w, o, g, key, m, true)
  {
    var w1 := Arrive(w, o, g.app);
    var w2 := Arrive(w1, o, g.app);
    if key in w2.snap.objs {
      SucceedsIff(g, m, o.image(w1.calls, g.spec.image), w2.snap.objs[key].content);
    }
    ResourceFramedIff(w, o, g, key, m, true);
  }

  /** Without threats among the allowed puts a call respects ownership, whatever happens when and whatever fails. */
  lemma HarmlessCallIsFramed(
    w: World, o: Oracle, g: Goal, key: Key, m: Mutation, wanted: bool, allowed: EnvAction -> bool)
    requires Near(g.app, key) && (wanted ==> Scoped(key)) && Within(o, allowed)
    requires forall a :: allowed(a) ==>
               !a.OtherWorker? && (a.PutChild? && a.key == key ==> !Threat(g, key, m, wanted, a.obj))
    ensures FramedCall(w, o, g, key, m, wanted)
  {
    if wanted && !CanSucceed(g, m) {
      FailingCallIsFramed(w, o, g, key, m);
    } else if key.kind == ClusterRoleBinding {
      ClaimedCallIsFramed(w, o, g, key, m, wanted, allowed);
    } else if wanted && !CanChange(g, m) {
      UnchangingCallIsFramed(w, o, g, key, m, allowed);
    } else if wanted {
      OwnedUpsertIsFramed(w, o, g, key, m, allowed);
    } else {
      OwnedDeleteIsFramed(w, o, g, key, m, allowed);
    }
  }

  /** A stranger under the name when the call reads is refused before anything is written, wanted or not. */
  lemma StrangerIsRefused(w: World, o: Oracle, g: Goal, key: Key, m: Mutation, wanted: bool)
    requires Near(g.app, key) && FaultAt(w, o) == NoFault
    requires var s := Arrive(w, o, g.app).snap; key in s.objs && Stranger(g.app, key, s.objs[key])
    ensures ReconcileResource(w, o, g, key, m, wanted) == (Arrive(w, o, g.app), Failed(NotOwned))
  {
  }

  /** One with a controller that appears between the two reads of an upsert is refused too, once the mutator is through. */
  lemma LateStrangerIsRefused(w: World, o: Oracle, g: Goal, key: Key, m: Mutation)
    requires InReach(g.app, key) && key.kind != ClusterRoleBinding && CanSucceed(g, m)
    requires FaultAt(w, o) == NoFault && key !in Arrive(w, o, g.app).snap.objs
    requires var w1 := Arrive(w, o, g.app);
             var s := Arrive(w1, o, g.app).snap;
             && FaultAt(w1, o) == NoFault && (NeedsImage(m) ==> o.image(w1.calls, g.spec.image).Some?)
             && key in s.objs && Stranger(g.app, key, s.objs[key]) && s.objs[key].controller.Some?
    ensures ReconcileResource(w, o, g, key, m, true) == (Arrive(Arrive(w, o, g.app), o, g.app), Failed(AlreadyOwned))
  {
    var w1 := Arrive(w, o, g.app);
    var base := Arrive(w1, o, g.app).snap.objs[key];
    SucceedsIff(g, m, o.image(w1.calls, g.spec.image), base.content);
  }

  // ---------- Every threat is real ----------

  const IMAGE := "image"

  /** One other actor puts an object in place just before call n; all calls succeed. */
  ghost predicate IntrudesAt(o: Oracle, n: nat, key: Key, obj: Obj) {
    && (forall k :: o.fault(k) == NoFault)
    && (forall k :: o.env(k) == if k == n then [PutChild(key, obj)] else [])
    && (forall k, spec :: o.image(k, spec) == Some(IMAGE))
  }

  function Intruder(key: Key, obj: Obj, n: nat, choose: set<Key> -> Key): Oracle {
    Oracle((i: nat) => NoFault, (i: nat) => if i == n then [PutChild(key, obj)] else [],
           (i: nat, spec: ImageSpec) => Some(IMAGE), (i: nat, s: set<Key>) => choose(s), (i: nat) => 0)
  }

  lemma QuietArrival(w: World, o: Oracle, n: nat, key: Key, obj: Obj, me: NamespacedName)
    requires IntrudesAt(o, n, key, obj) && w.calls != n
    ensures Arrive(w, o, me) == w.(calls := w.calls + 1)
  {
    assert o.env(w.calls) == [];
  }

  /** The put is accepted, for it claims no Application as a binding. */
  lemma IntrusionArrival(w: World, o: Oracle, key: Key, obj: Obj, me: NamespacedName)
    requires IntrudesAt(o, w.calls, key, obj) && !ClaimsApplication(key, obj)
    ensures Arrive(w, o, me)
         == Commit(w.(calls := w.calls + 1), None, Some(key), w.snap.(objs := w.snap.objs[key := obj]))
  {
    var put := [PutChild(key, obj)];
    assert o.env(w.calls) == put && put[..0] == [];
    assert ActAll(w.(calls := w.calls + 1), me, []) == w.(calls := w.calls + 1);
    assert ActAll(w.(calls := w.calls + 1), me, put) == Act(w.(calls := w.calls + 1), me, put[0]);
  }

  /** An object without an owner that appears between the two reads of an upsert becomes the Application's. */
  lemma TakenOver(w: World, o: Oracle, g: Goal, key: Key, m: Mutation, obj: Obj)
    requires InReach(g.app, key) && key !in w.snap.objs && CanSucceed(g, m)
    requires if key.kind == ClusterRoleBinding then !ClaimsApplication(key, obj) else obj.controller.None?
    requires IntrudesAt(o, w.calls + 1, key, obj)
    ensures !FramedCall(w, o, g, key, m, true)
  {
    var w1 := w.(calls := w.calls + 1);
    QuietArrival(w, o, w.calls + 1, key, obj, g.app);
    IntrusionArrival(w1, o, key, obj, g.app);
    var w2 := Arrive(w1, o, g.app);
    QuietArrival(w2, o, w.calls + 1, key, obj, g.app);
    SucceedsIff(g, m, Some(IMAGE), obj.content);
    ResourceFramedIff(w, o, g, key, m, true);
    assert Intrusion(g.app, key, Overwrite(w, o, g, key, m, true).value);
  }

  lemma LateIntrusion(w: World, o: Oracle, key: Key, obj: Obj, me: NamespacedName)
    requires IntrudesAt(o, w.calls + 2, key, obj) && !ClaimsApplication(key, obj)
    ensures var w1 := Arrive(w, o, me); var w2 := Arrive(w1, o, me); var w3 := Arrive(w2, o, me);
            && w1 == w.(calls := w.calls + 1) && w2 == w.(calls := w.calls + 2)
            && w3.snap.objs == w.snap.objs[key := obj]
  {
    QuietArrival(w, o, w.calls + 2, key, obj, me);
    QuietArrival(w.(calls := w.calls + 1), o, w.calls + 2, key, obj, me);
    IntrusionArrival(w.(calls := w.calls + 2), o, key, obj, me);
  }

  /** An owned object that is replaced by a foreign one after the second read has the foreign one patched. */
  lemma ReplacedBeforePatch(w: World, o: Oracle, g: Goal, key: Key, m: Mutation, obj: Obj)
    requires InReach(g.app, key) && key.kind != ClusterRoleBinding && CanChange(g, m) && Stranger(g.app, key, obj)
    requires key in w.snap.objs
    requires w.snap.objs[key] == Obj(Some(OwnerRefOf(g.app)), None, Contrast(g, m, obj.content))
    requires IntrudesAt(o, w.calls + 2, key, obj)
    ensures !FramedCall(w, o, g, key, m, true)
  {
    LateIntrusion(w, o, key, obj, g.app);
    ContrastChanges(g, m, IMAGE, obj.content);
    ResourceFramedIff(w, o, g, key, m, true);
    var base := w.snap.objs[key];
    var write := PatchWrite(
      w.(calls := w.calls + 2), o, g, key, base, Desired(g, m, Some(IMAGE), key, base).value);
    assert Overwrite(w, o, g, key, m, true) == write;
    assert write.value.at.objs[key] == obj && write.value.left.value.content != obj.content;
  }

  /** An owned object that is replaced by a foreign one after the check has the foreign one deleted. */
  lemma ReplacedBeforeDelete(w: World, o: Oracle, g: Goal, key: Key, m: Mutation, obj: Obj)
    requires Near(g.app, key) && key in w.snap.objs && !Stranger(g.app, key, w.snap.objs[key])
    requires Stranger(g.app, key, obj) && !ClaimsApplication(key, obj)
    requires IntrudesAt(o, w.calls + 1, key, obj)
    ensures !FramedCall(w, o, g, key, m, false)
  {
    QuietArrival(w, o, w.calls + 1, key, obj, g.app);
    IntrusionArrival(w.(calls := w.calls + 1), o, key, obj, g.app);
    ResourceFramedIff(w, o, g, key, m, false);
    assert Intrusion(g.app, key, Overwrite(w, o, g, key, m, false).value);
  }

  /** What makes a threat real: the call, the object there before, and the moment of the put. */
  function Victim(g: Goal, key: Key, m: Mutation, wanted: bool, obj: Obj): Option<Obj> {
    if key.kind == ClusterRoleBinding then (if wanted then None else Some(Obj(None, Some(PrimaryOf(g.app)), BLANK)))
    else if wanted && !CanChange(g, m) then None
    else Some(Obj(Some(OwnerRefOf(g.app)), None, if wanted then Contrast(g, m, obj.content) else BLANK))
  }

  function Moment(g: Goal, key: Key, m: Mutation, wanted: bool): nat {
    if wanted && key.kind != ClusterRoleBinding && CanChange(g, m) then 2 else 1
  }

  lemma ThreatIsReal(w: World, o: Oracle, g: Goal, key: Key, m: Mutation, wanted: bool, obj: Obj)
    requires Near(g.app, key) && (wanted ==> Scoped(key)) && Threat(g, key, m, wanted, obj)
    requires match Victim(g, key, m, wanted, obj)
             case None => key !in w.snap.objs
             case Some(victim) => key in w.snap.objs && w.snap.objs[key] == victim
    requires IntrudesAt(o, w.calls + Moment(g, key, m, wanted), key, obj)
    ensures !FramedCall(w, o, g, key, m, wanted)
  {
    if !wanted {
      ReplacedBeforeDelete(w, o, g, key, m, obj);
    } else if key.kind == ClusterRoleBinding || !CanChange(g, m) {
      TakenOver(w, o, g, key, m, obj);
    } else {
      ReplacedBeforePatch(w, o, g, key, m, obj);
    }
  }

  ghost predicate NoThreat(g: Goal, key: Key, m: Mutation, wanted: bool, allowed: EnvAction -> bool) {
    forall obj :: allowed(PutChild(key, obj)) ==> !Threat(g, key, m, wanted, obj)
  }

  lemma NoThreatIsFramed(
    w: World, o: Oracle, g: Goal, key: Key, m: Mutation, wanted: bool, allowed: EnvAction -> bool)
    requires Near(g.app, key) && (wanted ==> Scoped(key)) && forall a :: allowed(a) ==> !a.OtherWorker?
    requires Within(o, allowed) && NoThreat(g, key, m, wanted, allowed)
    ensures FramedCall(w, o, g, key, m, wanted)
  {
    forall a | allowed(a)
      ensures a.PutChild? && a.key == key ==> !Threat(g, key, m, wanted, a.obj)
    {
      assert a.PutChild? && a.key == key ==> a == PutChild(key, a.obj);
    }
    HarmlessCallIsFramed(w, o, g, key, m, wanted, allowed);
  }

  lemma ThreatBreaksFrame(g: Goal, key: Key, m: Mutation, wanted: bool, allowed: EnvAction -> bool)
    returns (w: World, o: Oracle)
    requires Near(g.app, key) && (wanted ==> Scoped(key)) && !NoThreat(g, key, m, wanted, allowed)
    ensures Within(o, allowed) && !FramedCall(w, o, g, key, m, wanted)
  {
    var obj :| allowed(PutChild(key, obj)) && Threat(g, key, m, wanted, obj);
    var victim := Victim(g, key, m, wanted, obj);
    var snap := Snap(map[], if victim.Some? then map[key := victim.value] else map[]);
    w, o := World(snap, snap, 0, 0, []), Intruder(key, obj, Moment(g, key, m, wanted), (s: set<Key>) => key);
    ThreatIsReal(w, o, g, key, m, wanted, obj);
  }

  /**
   Upserting or deleting a child of any kind respects ownership, in every cluster, under every failure and every timing of
   the others, if and only if no threat is among what others may put under its name.
   */
  lemma FramedIffNoThreat(g: Goal, key: Key, m: Mutation, wanted: bool, allowed: EnvAction -> bool)
    requires Near(g.app, key) && (wanted ==> Scoped(key)) && forall a :: allowed(a) ==> !a.OtherWorker?
    ensures (forall w, o :: Within(o, allowed) ==> FramedCall(w, o, g, key, m, wanted))
            <==> (forall obj :: allowed(PutChild(key, obj)) ==> !Threat(g, key, m, wanted, obj))
  {
    if NoThreat(g, key, m, wanted, allowed) {
      forall w, o | Within(o, allowed)
        ensures FramedCall(w, o, g, key, m, wanted)
      {
        NoThreatIsFramed(w, o, g, key, m, wanted, allowed);
      }
    } else {
      var w, o := ThreatBreaksFrame(g, key, m, wanted, allowed);
      assert Within(o, allowed) && !FramedCall(w, o, g, key, m, wanted);
    }
  }
}
