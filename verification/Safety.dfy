/**
 No orphans: in every state of every run, a cluster role binding annotated as owned by an Application has that
 Application, still holding the finalizer. Users, failed calls and the workers of other Applications interleave with
 every API call of a pass.
 */
module Safety {
  import opened Cluster
  import opened Mutators
  import opened Names
  import opened Reconcile
  import opened Wrappers

  ghost predicate AppsValid(s: Snap) {
    forall app :: app in s.apps ==> ValidName(app)
  }

  ghost predicate GoodStep(step: Step) {
    && NoOrphans(step.after)
    && (step.actor.Some? ==> WorkerStep(step.actor.value, step.before, step.after))
  }

  /** No orphan now or in any recorded state, and every worker's step is what the others assume of it. */
  ghost predicate Safe(w: World) {
    && Linked(w) && NoOrphans(w.snap) && AppsValid(w.snap)
    && forall i {:trigger w.history[i]} :: 0 <= i < |w.history| ==> GoodStep(w.history[i])
  }

  function Bindings(s: Snap, app: NamespacedName): set<Key> {
    ListOwned(s.objs, ClusterRoleBinding, app)
  }

  /** What an Application's worker can count on while others act. */
  ghost predicate Relied(app: NamespacedName, s: Snap, t: Snap) {
    (Held(s, app) ==> Held(t, app)) && Bindings(t, app) <= Bindings(s, app)
  }

  /** Only the controller's own kind of object is cluster-scoped. */
  predicate Scoped(key: Key) {
    key.namespace == "" <==> key.kind == ClusterRoleBinding
  }

  // ---------- Steps ----------

  lemma BindingOfOne(key: Key, obj: Obj, a: NamespacedName, b: NamespacedName)
    requires ValidName(a) && ValidName(b) && BindingOf(key, obj, a) && BindingOf(key, obj, b)
    ensures a == b
  {
    StringInjective(a, b);
  }

  lemma WorkerStepKeepsNoOrphans(me: NamespacedName, s: Snap, t: Snap)
    requires NoOrphans(s) && ValidName(me) && WorkerStep(me, s, t)
    ensures NoOrphans(t)
  {
    forall key, app | key in t.objs && ValidName(app) && BindingOf(key, t.objs[key], app)
      ensures Held(t, app)
    {
      if app != me {
        if BindingOf(key, t.objs[key], me) {
          BindingOfOne(key, t.objs[key], app, me);
        }
        assert BindingOf(key, s.objs[key], app);
        assert Held(s, app);
        assert app in s.apps - {me};
      }
    }
  }

  /** Another worker's step leaves my finalizer in place and gives me no new bindings. */
  lemma OtherWorkerIsReliable(me: NamespacedName, other: NamespacedName, s: Snap, t: Snap)
    requires me != other && ValidName(me) && ValidName(other) && WorkerStep(other, s, t)
    ensures Relied(me, s, t)
  {
    if Held(s, me) {
      assert me in s.apps - {other};
    }
    forall key | key in Bindings(t, me)
      ensures key in Bindings(s, me)
    {
      if BindingOf(key, t.objs[key], other) {
        BindingOfOne(key, t.objs[key], me, other);
      }
    }
  }

  lemma CommitIsSafe(w: World, actor: Option<NamespacedName>, key: Option<Key>, snap: Snap)
    requires Safe(w) && NoOrphans(snap) && AppsValid(snap)
    requires actor.Some? ==> WorkerStep(actor.value, w.snap, snap)
    ensures Safe(Commit(w, actor, key, snap))
  {
    var after := Commit(w, actor, key, snap);
    forall i | 0 <= i < |after.history|
      ensures GoodStep(after.history[i])
    {
      if i < |w.history| {
        assert GoodStep(w.history[i]);
      }
    }
  }

  /** A change of one Application that keeps the finalizer while there are bindings keeps the cluster free of orphans. */
  lemma StoredKeepsNoOrphans(s: Snap, name: NamespacedName, app: App)
    requires NoOrphans(s) && name in s.apps && app.finalizer == s.apps[name].finalizer
    ensures NoOrphans(Stored(s, name, app))
    ensures forall a :: Relied(a, s, Stored(s, name, app))
  {
    var t := Stored(s, name, app);
    forall key, a | key in t.objs && ValidName(a) && BindingOf(key, t.objs[key], a)
      ensures Held(t, a)
    {
      assert Held(s, a);
    }
  }

  /** Others' changes of children bring no owner annotation into being. */
  lemma ChildChangeIsSafe(w: World, key: Key, t: Snap)
    requires Safe(w) && t.apps == w.snap.apps
    requires forall k :: k in t.objs && ClaimsApplication(k, t.objs[k]) ==>
               k in w.snap.objs && t.objs[k].primary == w.snap.objs[k].primary
    ensures Safe(Commit(w, None, Some(key), t))
    ensures forall me :: Relied(me, w.snap, t)
  {
    forall k, app | k in t.objs && BindingOf(k, t.objs[k], app)
      ensures k in w.snap.objs && BindingOf(k, w.snap.objs[k], app)
    {
      assert ClaimsApplication(k, t.objs[k]);
    }
    assert NoOrphans(t) by {
      forall k, app | k in t.objs && ValidName(app) && BindingOf(k, t.objs[k], app)
        ensures Held(t, app)
      {
        assert Held(w.snap, app);
      }
    }
    CommitIsSafe(w, None, Some(key), t);
  }

  lemma AppChangeIsSafe(w: World, name: NamespacedName, app: App)
    requires Safe(w) && name in w.snap.apps && app.finalizer == w.snap.apps[name].finalizer
    ensures Safe(Commit(w.(version := w.version + 1), None, None, Stored(w.snap, name, app)))
    ensures forall me :: Relied(me, w.snap, Stored(w.snap, name, app))
  {
    StoredKeepsNoOrphans(w.snap, name, app);
    BumpIsSafe(w);
    CommitIsSafe(w.(version := w.version + 1), None, None, Stored(w.snap, name, app));
  }

  lemma NewAppIsSafe(w: World, name: NamespacedName, app: App)
    requires Safe(w) && name !in w.snap.apps && ValidName(name)
    ensures var t := w.snap.(apps := w.snap.apps[name := app]);
            && Safe(Commit(w.(version := w.version + 1), None, None, t))
            && forall me :: Relied(me, w.snap, t)
  {
    var t := w.snap.(apps := w.snap.apps[name := app]);
    forall key, b | key in t.objs && ValidName(b) && BindingOf(key, t.objs[key], b)
      ensures Held(t, b)
    {
      assert Held(w.snap, b);
    }
    BumpIsSafe(w);
    CommitIsSafe(w.(version := w.version + 1), None, None, t);
  }

  lemma BumpIsSafe(w: World)
    requires Safe(w)
    ensures Safe(w.(version := w.version + 1)) && Safe(w.(calls := w.calls + 1)) && Safe(w.(calls := 0))
  {
    var bumped, counted, started := w.(version := w.version + 1), w.(calls := w.calls + 1), w.(calls := 0);
    assert forall i :: 0 <= i < |w.history| ==> bumped.history[i] == w.history[i];
    assert forall i :: 0 <= i < |w.history| ==> counted.history[i] == w.history[i];
    assert forall i :: 0 <= i < |w.history| ==> started.history[i] == w.history[i];
  }

  lemma OtherWorkerIsSafe(w: World, worker: NamespacedName, after: Snap)
    requires Safe(w) && ValidName(worker) && WorkerStep(worker, w.snap, after)
    ensures Safe(Commit(w.(version := w.version + 1), Some(worker), None, after))
  {
    WorkerStepKeepsNoOrphans(worker, w.snap, after);
    forall app | app in after.apps
      ensures ValidName(app)
    {
      if app != worker {
        assert app in after.apps - {worker};
      }
    }
    BumpIsSafe(w);
    CommitIsSafe(w.(version := w.version + 1), Some(worker), None, after);
  }

  lemma AppActIsSafe(w: World, me: NamespacedName, a: EnvAction)
    requires Safe(w) && (a.CreateApp? || a.EditApp? || a.DeleteApp?)
    ensures Safe(Act(w, me, a)) && Relied(me, w.snap, Act(w, me, a).snap)
  {
    var s := w.snap;
    match a
    case CreateApp(app, spec, others) =>
      if app !in s.apps && ValidName(app) {
        NewAppIsSafe(w, app, App(spec, Status("", 0, None), false, others, false, w.version + 1));
      }
    case EditApp(app, spec, others) =>
      if app in s.apps {
        AppChangeIsSafe(w, app, s.apps[app].(spec := spec, others := others, version := w.version + 1));
      }
    case DeleteApp(app) =>
      if app in s.apps {
        AppChangeIsSafe(w, app, s.apps[app].(deleting := true, version := w.version + 1));
      }
  }

  lemma ChildActIsSafe(w: World, me: NamespacedName, a: EnvAction)
    requires Safe(w) && (a.PutChild? || a.EditChild? || a.DeleteChild?)
    ensures Safe(Act(w, me, a)) && Relied(me, w.snap, Act(w, me, a).snap)
  {
    var t := Act(w, me, a).snap;
    if Act(w, me, a) != w {
      ChildChangeIsSafe(w, a.key, t);
    }
  }

  lemma ActIsSafe(w: World, me: NamespacedName, a: EnvAction)
    requires Safe(w)
    ensures Safe(Act(w, me, a))
    ensures ValidName(me) ==> Relied(me, w.snap, Act(w, me, a).snap)
  {
    match a
    case CreateApp(_, _, _) => AppActIsSafe(w, me, a);
    case EditApp(_, _, _) => AppActIsSafe(w, me, a);
    case DeleteApp(_) => AppActIsSafe(w, me, a);
    case PutChild(_, _) => ChildActIsSafe(w, me, a);
    case EditChild(_, _) => ChildActIsSafe(w, me, a);
    case DeleteChild(_) => ChildActIsSafe(w, me, a);
    case OtherWorker(worker, after) =>
      if worker != me && ValidName(worker) && WorkerStep(worker, w.snap, after) {
        OtherWorkerIsSafe(w, worker, after);
        if ValidName(me) {
          OtherWorkerIsReliable(me, worker, w.snap, after);
        }
      }
  }

  lemma {:induction false} ActAllIsSafe(w: World, me: NamespacedName, actions: seq<EnvAction>)
    requires Safe(w)
    ensures Safe(ActAll(w, me, actions))
    ensures ValidName(me) ==> Relied(me, w.snap, ActAll(w, me, actions).snap)
  {
    if actions != [] {
      var before := actions[..|actions| - 1];
      ActAllIsSafe(w, me, before);
      ActIsSafe(ActAll(w, me, before), me, actions[|actions| - 1]);
    }
  }

  lemma ArriveIsSafe(w: World, o: Oracle, me: NamespacedName)
    requires Safe(w)
    ensures Safe(Arrive(w, o, me))
    ensures ValidName(me) ==> Relied(me, w.snap, Arrive(w, o, me).snap)
  {
    BumpIsSafe(w);
    ActAllIsSafe(w.(calls := w.calls + 1), me, o.env(w.calls));
  }

  // ---------- One child ----------

  /** The pass under study may write the object: a binding is annotated as its own, or keeps its annotation. */
  ghost predicate MayPut(s: Snap, app: NamespacedName, key: Key, obj: Obj) {
    key.kind == ClusterRoleBinding ==>
      obj.primary == Some(PrimaryOf(app)) || (key in s.objs && obj.primary == s.objs[key].primary)
  }

  lemma PutIsSafe(w: World, app: NamespacedName, key: Key, obj: Obj)
    requires Safe(w) && ValidName(app) && Held(w.snap, app) && MayPut(w.snap, app, key, obj)
    ensures Safe(PutObj(w, app, key, obj)) && Held(PutObj(w, app, key, obj).snap, app)
  {
    var t := w.snap.(objs := w.snap.objs[key := obj]);
    assert WorkerStep(app, w.snap, t);
    WorkerStepKeepsNoOrphans(app, w.snap, t);
    CommitIsSafe(w, Some(app), Some(key), t);
  }

  lemma CreateIsSafe(w: World, o: Oracle, app: NamespacedName, key: Key, obj: Obj)
    requires Safe(w) && ValidName(app) && Held(w.snap, app)
    requires key.kind == ClusterRoleBinding ==> obj.primary == Some(PrimaryOf(app))
    ensures Safe(Create(w, o, app, key, obj).0) && Held(Create(w, o, app, key, obj).0.snap, app)
  {
    ArriveIsSafe(w, o, app);
    var w1 := Arrive(w, o, app);
    if FaultAt(w, o) != Rejected && key !in w1.snap.objs {
      PutIsSafe(w1, app, key, obj);
    }
  }

  lemma PatchIsSafe(w: World, o: Oracle, app: NamespacedName, key: Key, base: Obj, obj: Obj)
    requires Safe(w) && ValidName(app) && Held(w.snap, app)
    requires key.kind == ClusterRoleBinding ==> obj.primary == Some(PrimaryOf(app))
    ensures Safe(Patch(w, o, app, key, base, obj).0) && Held(Patch(w, o, app, key, base, obj).0.snap, app)
  {
    ArriveIsSafe(w, o, app);
    var w1 := Arrive(w, o, app);
    if FaultAt(w, o) != Rejected && key in w1.snap.objs {
      PutIsSafe(w1, app, key, MergePatch(w1.snap.objs[key], base, obj));
    }
  }

  lemma DeleteIsSafe(w: World, o: Oracle, app: NamespacedName, key: Key)
    requires Safe(w) && ValidName(app) && Held(w.snap, app)
    ensures Safe(Delete(w, o, app, key).0) && Held(Delete(w, o, app, key).0.snap, app)
    ensures Bindings(Delete(w, o, app, key).0.snap, app) <= Bindings(w.snap, app)
    ensures Delete(w, o, app, key).1.Done? ==> key !in Delete(w, o, app, key).0.snap.objs
  {
    ArriveIsSafe(w, o, app);
    var w1 := Arrive(w, o, app);
    if FaultAt(w, o) != Rejected && key in w1.snap.objs {
      var t := w1.snap.(objs := w1.snap.objs - {key});
      assert WorkerStep(app, w1.snap, t);
      WorkerStepKeepsNoOrphans(app, w1.snap, t);
      CommitIsSafe(w1, Some(app), Some(key), t);
    }
  }

  lemma DesiredIsAnnotated(g: Goal, m: Mutation, image: Option<string>, key: Key, base: Obj)
    requires Scoped(key) && Desired(g, m, image, key, base).Success?
    ensures key.kind == ClusterRoleBinding ==> Desired(g, m, image, key, base).value.primary == Some(PrimaryOf(g.app))
  {
  }

  lemma CreateOrPatchIsSafe(w: World, o: Oracle, g: Goal, key: Key, m: Mutation, read: Option<Obj>)
    requires Safe(w) && ValidName(g.app) && Held(w.snap, g.app) && Scoped(key)
    ensures var w' := CreateOrPatch(w, o, g, key, m, read).0; Safe(w') && Held(w'.snap, g.app)
  {
    ArriveIsSafe(w, o, g.app);
    var w1 := Arrive(w, o, g.app);
    var image := o.image(w.calls, g.spec.image);
    if key in w1.snap.objs {
      var base := w1.snap.objs[key];
      var desired := Desired(g, m, image, key, base);
      if desired.Success? {
        DesiredIsAnnotated(g, m, image, key, base);
        PatchIsSafe(w1, o, g.app, key, base, desired.value);
      }
    } else {
      ArriveIsSafe(w1, o, g.app);
      var desired := Desired(g, m, image, key, NEW_OBJ);
      if desired.Success? {
        DesiredIsAnnotated(g, m, image, key, NEW_OBJ);
        CreateIsSafe(w1, o, g.app, key, desired.value);
      }
    }
  }

  lemma ResourceIsSafe(w: World, o: Oracle, g: Goal, key: Key, m: Mutation, wanted: bool)
    requires Safe(w) && ValidName(g.app) && Held(w.snap, g.app) && (wanted ==> Scoped(key))
    ensures var (w', out) := ReconcileResource(w, o, g, key, m, wanted);
            && Safe(w') && Held(w'.snap, g.app)
            && (!wanted ==> Bindings(w'.snap, g.app) <= Bindings(w.snap, g.app))
            && (!wanted && out.Done? ==> key !in w'.snap.objs)
  {
    ArriveIsSafe(w, o, g.app);
    var w1 := Arrive(w, o, g.app);
    if wanted {
      CreateOrPatchIsSafe(w1, o, g, key, m, if key in w1.snap.objs then Some(w1.snap.objs[key]) else None);
    } else {
      DeleteIsSafe(w1, o, g.app, key);
    }
  }

  // ---------- Stages ----------

  lemma {:induction false} UpsertAllIsSafe(w: World, o: Oracle, g: Goal, items: seq<Item>)
    requires Safe(w) && ValidName(g.app) && Held(w.snap, g.app)
    requires forall i :: 0 <= i < |items| ==> Scoped(items[i].key)
    ensures var w' := UpsertAll(w, o, g, items).0; Safe(w') && Held(w'.snap, g.app)
    decreases |items|
  {
    if items != [] {
      ResourceIsSafe(w, o, g, items[0].key, items[0].m, true);
      var r := ReconcileResource(w, o, g, items[0].key, items[0].m, true);
      if r.1.Done? {
        UpsertAllIsSafe(r.0, o, g, items[1..]);
      }
    }
  }

  /** A completed sweep has left none of its keys among the bindings of the Application. */
  lemma {:induction false} SweepIsSafe(w: World, o: Oracle, g: Goal, keys: set<Key>)
    requires o.Picks() && Safe(w) && ValidName(g.app) && Held(w.snap, g.app)
    ensures var (w', out) := Sweep(w, o, g, keys);
            && Safe(w') && Held(w'.snap, g.app)
            && Bindings(w'.snap, g.app) <= Bindings(w.snap, g.app)
            && (out.Done? ==> Bindings(w'.snap, g.app) !! keys)
    decreases |keys|
  {
    if keys != {} {
      var key := o.pick(w.calls, keys);
      ResourceIsSafe(w, o, g, key, MutateNothing, false);
      var r := ReconcileResource(w, o, g, key, MutateNothing, false);
      if r.1.Done? {
        SweepIsSafe(r.0, o, g, keys - {key});
      }
    }
  }

  lemma {:induction false} ItemsAreScoped(app: NamespacedName, roles: seq<ScopedRole>, jobs: seq<CronJobSpec>)
    requires app.namespace != ""
    ensures forall i :: 0 <= i < |RoleBindingItems(app, roles)| ==>
              var key := RoleBindingItems(app, roles)[i].key; key.kind == RoleBinding && key.namespace == app.namespace
    ensures forall i :: 0 <= i < |ClusterRoleBindingItems(app, roles)| ==>
              var key := ClusterRoleBindingItems(app, roles)[i].key; key.kind == ClusterRoleBinding && key.namespace == ""
    ensures forall i :: 0 <= i < |CronJobItems(app, jobs)| ==>
              var key := CronJobItems(app, jobs)[i].key; key.kind == CronJob && key.namespace == app.namespace
    decreases |roles| + |jobs|
  {
    if roles != [] {
      ItemsAreScoped(app, roles[1..], jobs);
    } else if jobs != [] {
      ItemsAreScoped(app, roles, jobs[1..]);
    }
  }

  lemma ManyIsSafe(w: World, o: Oracle, g: Goal, stage: Stage)
    requires o.Picks() && Safe(w) && ValidName(g.app) && Held(w.snap, g.app) && stage.Many?
    requires forall i :: 0 <= i < |stage.items| ==> Scoped(stage.items[i].key)
    ensures var w' := RunStage(w, o, g, stage).0; Safe(w') && Held(w'.snap, g.app)
  {
    var Many(kind, items, prune) := stage;
    ArriveIsSafe(w, o, g.app);
    var w1 := Arrive(w, o, g.app);
    UpsertAllIsSafe(w1, o, g, items);
    SweepIsSafe(UpsertAll(w1, o, g, items).0, o, g, ListOwned(w1.snap.objs, kind, g.app) - KeysOf(items));
  }

  lemma StageIsSafe(w: World, o: Oracle, g: Goal, i: nat)
    requires o.Picks() && Safe(w) && ValidName(g.app) && Held(w.snap, g.app)
    ensures var w' := RunStage(w, o, g, StageAt(g, i)).0; Safe(w') && Held(w'.snap, g.app)
  {
    var stage := StageAt(g, i);
    ItemsAreScoped(g.app, g.spec.roles, g.spec.cronJobs);
    match stage
    case Skip =>
    case One(key, m, wanted) => ResourceIsSafe(w, o, g, key, m, wanted);
    case Many(_, _, _) => ManyIsSafe(w, o, g, stage);
  }

  lemma StagesAreSafe(w: World, o: Oracle, g: Goal, i: nat)
    requires o.Picks() && i < STAGES && Safe(w) && ValidName(g.app) && Held(w.snap, g.app)
    ensures var w' := RunStages(w, o, g, i).0; Safe(w') && Held(w'.snap, g.app)
  {
    var inv := (n: nat, v: World) => Safe(v) && Held(v.snap, g.app);
    var end := (t: World, k: nat, out: Outcome) => Safe(t) && Held(t.snap, g.app);
    forall n: nat, v | i <= n < STAGES && inv(n, v)
      ensures Carries(o, g, n, v, inv, end)
    {
      StageIsSafe(v, o, g, n);
    }
    StagesCarry(w, o, g, i, inv, end);
  }

  // ---------- The pass ----------

  lemma StatusWritten(w: World, o: Oracle, app: NamespacedName, copy: App)
    ensures var w1, t := Arrive(w, o, app), UpdateStatus(w, o, app, copy).0;
            || t == w1
            || (app in w1.snap.apps
                && var stored := w1.snap.apps[app].(status := copy.status, version := w1.version + 1);
                t == Commit(w1.(version := w1.version + 1), Some(app), None,
                            w1.snap.(apps := w1.snap.apps[app := stored])))
  {
  }

  lemma UpdateStatusIsSafe(w: World, o: Oracle, app: NamespacedName, copy: App)
    requires Safe(w)
    ensures Safe(UpdateStatus(w, o, app, copy).0)
  {
    ArriveIsSafe(w, o, app);
    StatusWritten(w, o, app, copy);
    var w1 := Arrive(w, o, app);
    if app in w1.snap.apps {
      StatusWriteIsSafe(w1, app, w1.snap.apps[app].(status := copy.status, version := w1.version + 1));
    }
  }

  lemma StatusWriteIsSafe(w: World, app: NamespacedName, stored: App)
    requires Safe(w) && app in w.snap.apps && stored.finalizer == w.snap.apps[app].finalizer
    ensures Safe(Commit(w.(version := w.version + 1), Some(app), None, w.snap.(apps := w.snap.apps[app := stored])))
  {
    OwnChangeIsSafe(w, app, w.snap.(apps := w.snap.apps[app := stored]));
  }

  /** A change of the Application's own record that keeps or gains the finalizer, or finds no binding left. */
  lemma OwnChangeIsSafe(w: World, app: NamespacedName, t: Snap)
    requires Safe(w) && app in w.snap.apps && t.objs == w.snap.objs && t.apps - {app} == w.snap.apps - {app}
    requires (Held(w.snap, app) ==> Held(t, app)) || Bindings(w.snap, app) == {}
    ensures Safe(Commit(w.(version := w.version + 1), Some(app), None, t))
  {
    var s := w.snap;
    assert WorkerStep(app, s, t) by {
      forall key | key in t.objs && BindingOf(key, t.objs[key], app)
        ensures Held(t, app)
      {
        assert key in Bindings(s, app);
        assert BindingOf(key, s.objs[key], app) && Held(s, app);
      }
    }
    WorkerStepKeepsNoOrphans(app, s, t);
    forall a | a in t.apps
      ensures ValidName(a)
    {
      if a != app {
        assert a in t.apps - {app};
      }
    }
    BumpIsSafe(w);
    CommitIsSafe(w.(version := w.version + 1), Some(app), None, t);
  }

  lemma AppWritten(w: World, o: Oracle, app: NamespacedName, copy: App)
    ensures var w1, t := Arrive(w, o, app), UpdateApp(w, o, app, copy).0;
            || t == w1
            || (app in w1.snap.apps
                && var stored := copy.(version := w1.version + 1, status := w1.snap.apps[app].status);
                t == Commit(w1.(version := w1.version + 1), Some(app), None, Stored(w1.snap, app, stored)))
  {
  }

  lemma AppWriteIsSafe(w: World, app: NamespacedName, stored: App)
    requires Safe(w) && app in w.snap.apps && (stored.finalizer || Bindings(w.snap, app) == {})
    ensures Safe(Commit(w.(version := w.version + 1), Some(app), None, Stored(w.snap, app, stored)))
  {
    OwnChangeIsSafe(w, app, Stored(w.snap, app, stored));
  }

  lemma UpdateAppIsSafe(w: World, o: Oracle, app: NamespacedName, copy: App)
    requires Safe(w) && ValidName(app)
    requires copy.finalizer || Bindings(w.snap, app) == {}
    ensures Safe(UpdateApp(w, o, app, copy).0)
  {
    ArriveIsSafe(w, o, app);
    AppWritten(w, o, app, copy);
    var w1 := Arrive(w, o, app);
    if app in w1.snap.apps {
      AppWriteIsSafe(w1, app, copy.(version := w1.version + 1, status := w1.snap.apps[app].status));
    }
  }

  lemma RunAllIsSafe(w: World, o: Oracle, g: Goal, copy: App)
    requires o.Picks() && Safe(w) && ValidName(g.app) && Held(w.snap, g.app)
    ensures Safe(RunAll(w, o, g, copy).0)
  {
    StagesAreSafe(w, o, g, 0);
    var (w1, stage, out) := RunStages(w, o, g, 0);
    match out
    case Failed(e) => UpdateStatusIsSafe(w1, o, g.app, WithReady(copy, Condition(False, FailureReason(stage))));
    case Done(obj) =>
      UpdateStatusIsSafe(w1, o, g.app, Observed(copy, if obj.Some? then obj.value else NEW_OBJ, o.clock(w1.calls)));
  }

  /** The finalizer goes only when no binding of the Application is left, and none can come back meanwhile. */
  lemma CleanupIsSafe(w: World, o: Oracle, g: Goal, copy: App)
    requires o.Picks() && Safe(w) && ValidName(g.app) && Held(w.snap, g.app)
    ensures Safe(Cleanup(w, o, g, copy).0)
  {
    ArriveIsSafe(w, o, g.app);
    var w1 := Arrive(w, o, g.app);
    var listed := ListOwned(w1.snap.objs, ClusterRoleBinding, g.app);
    SweepIsSafe(w1, o, g, listed);
    var swept := Sweep(w1, o, g, listed);
    if swept.1.Done? {
      UpdateAppIsSafe(swept.0, o, g.app, copy.(finalizer := false));
    }
  }

  /** One pass, whatever happens around each of its calls. */
  lemma PassIsSafe(w: World, o: Oracle, cfg: Config, app: NamespacedName)
    requires o.Picks() && Safe(w)
    ensures Safe(Pass(w, o, cfg, app).0)
  {
    var start := w.(calls := 0);
    BumpIsSafe(w);
    ArriveIsSafe(start, o, app);
    var w1 := Arrive(start, o, app);
    if app in w1.snap.apps {
      var copy := w1.snap.apps[app];
      var g := Goal(cfg, app, copy.spec);
      UpdateStatusIsSafe(w1, o, app, WithReady(copy, Condition(Unknown, "Reconciling")));
      UpdateAppIsSafe(w1, o, app, copy.(finalizer := true));
      if copy.finalizer {
        RunAllIsSafe(w1, o, g, copy);
        CleanupIsSafe(w1, o, g, copy);
      }
    }
  }

  /** Whole runs: no recorded state has an orphan, and each worker's steps are what the other workers assume. */
  lemma {:induction false} NoOrphansEver(w: World, inputs: seq<PassInput>)
    requires forall i :: 0 <= i < |inputs| ==> inputs[i].o.Picks()
    requires NoOrphans(w.snap) && AppsValid(w.snap) && w.history == [] && w.origin == w.snap
    ensures Safe(Runs(w, inputs))
  {
    if inputs != [] {
      var last := inputs[|inputs| - 1];
      var before := Runs(w, inputs[..|inputs| - 1]);
      NoOrphansEver(w, inputs[..|inputs| - 1]);
      ActAllIsSafe(before, last.app, last.between);
      PassIsSafe(ActAll(before, last.app, last.between), last.o, last.cfg, last.app);
    }
  }
}
