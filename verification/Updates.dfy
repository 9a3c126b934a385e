/**
 No update is lost: whatever users do to an Application between the calls of a pass, the pass never takes back a change of
 its spec, its deletion mark or another controller's finalizer, and never removes an Application that is not to go.
 */
module Updates {
  import opened Cluster
  import opened Mutators
  import opened Names
  import opened Passes
  import opened Reconcile
  import opened Wrappers

  /** What the step does to Applications: only their status, this controller's finalizer and the version may change. */
  ghost predicate KeepsUsersParts(step: Step) {
    && (forall a :: a in step.after.apps ==>
          && a in step.before.apps
          && var before, after := step.before.apps[a], step.after.apps[a];
             after.spec == before.spec && after.deleting == before.deleting && after.others == before.others)
    && (forall a :: a in step.before.apps && a !in step.after.apps ==>
          step.before.apps[a].deleting && !step.before.apps[a].others)
  }

  /** One world leads to the other, and the own steps on the way are such. */
  ghost predicate OwnKept(app: NamespacedName, a: World, b: World) {
    && Extends(a, b)
    && forall i :: |a.history| <= i < |b.history| && b.history[i].actor == Some(app) ==> KeepsUsersParts(b.history[i])
  }

  lemma OwnKeptChain(app: NamespacedName, a: World, b: World, c: World)
    requires OwnKept(app, a, b) && OwnKept(app, b, c)
    ensures OwnKept(app, a, c)
  {
    assert c.history[..|a.history|] == c.history[..|b.history|][..|a.history|];
    forall i | |a.history| <= i < |c.history| && c.history[i].actor == Some(app)
      ensures KeepsUsersParts(c.history[i])
    {
      if i < |b.history| {
        assert c.history[..|b.history|][i] == b.history[i];
      }
    }
  }

  lemma ChildStepsKeep(app: NamespacedName, keys: set<Key>, a: World, b: World)
    requires OwnStepsOn(app, keys, a, b)
    ensures OwnKept(app, a, b)
  {
    forall i | |a.history| <= i < |b.history| && b.history[i].actor == Some(app)
      ensures KeepsUsersParts(b.history[i])
    {
      assert OwnStepOn(keys, b.history[i]);
    }
  }

  /** A write of the Application, from a copy of which only the finalizer and the status were edited. */
  predicate EditOf(copy: App, edited: App) {
    edited.spec == copy.spec && edited.deleting == copy.deleting && edited.others == copy.others && edited.version == copy.version
  }

  lemma OneStepKeeps(app: NamespacedName, a: World, b: World, t: World, snap: Snap)
    requires OwnKept(app, a, b)
    requires t.history == b.history || (t.history == b.history + [Step(Some(app), None, b.snap, snap)]
                                        && KeepsUsersParts(Step(Some(app), None, b.snap, snap)))
    ensures OwnKept(app, a, t)
  {
    assert t.history[..|b.history|] == b.history;
    assert t.history[..|a.history|] == b.history[..|a.history|];
  }

  /** The version check refuses the write unless the Application is still as the copy was. */
  lemma UpdateAppKeeps(w: World, o: Oracle, app: NamespacedName, copy: App, edited: App)
    requires Tracks(w, app, copy) && EditOf(copy, edited)
    ensures OwnKept(app, w, UpdateApp(w, o, app, edited).0)
  {
    var w1, t := Arrive(w, o, app), UpdateApp(w, o, app, edited).0;
    ArriveOwnSteps(app, {}, w, o);
    ChildStepsKeep(app, {}, w, w1);
    assert Tracks(w1, app, copy);
    OneStepKeeps(app, w, w1, t, t.snap);
  }

  lemma UpdateStatusKeeps(w: World, o: Oracle, app: NamespacedName, copy: App)
    ensures OwnKept(app, w, UpdateStatus(w, o, app, copy).0)
  {
    var w1, t := Arrive(w, o, app), UpdateStatus(w, o, app, copy).0;
    ArriveOwnSteps(app, {}, w, o);
    ChildStepsKeep(app, {}, w, w1);
    OneStepKeeps(app, w, w1, t, t.snap);
  }

  lemma RunAllKeeps(w: World, o: Oracle, g: Goal, copy: App)
    requires o.Picks() && ValidName(g.app)
    ensures OwnKept(g.app, w, RunAll(w, o, g, copy).0)
  {
    var (t, k, out) := RunStages(w, o, g, 0);
    StagesOwnSteps(w, o, g, 0);
    assert OwnKept(g.app, w, t) by {
      forall i | |w.history| <= i < |t.history| && t.history[i].actor == Some(g.app)
        ensures KeepsUsersParts(t.history[i])
      {
        assert t.history[i].after.apps == t.history[i].before.apps;
      }
    }
    match out
    case Failed(_) =>
      UpdateStatusKeeps(t, o, g.app, WithReady(copy, Condition(False, FailureReason(k))));
      OwnKeptChain(g.app, w, t, RunAll(w, o, g, copy).0);
    case Done(obj) =>
      UpdateStatusKeeps(t, o, g.app, Observed(copy, if obj.Some? then obj.value else NEW_OBJ, o.clock(t.calls)));
      OwnKeptChain(g.app, w, t, RunAll(w, o, g, copy).0);
  }

  lemma CleanupKeeps(w: World, o: Oracle, g: Goal, copy: App)
    requires o.Picks() && Tracks(w, g.app, copy)
    ensures OwnKept(g.app, w, Cleanup(w, o, g, copy).0)
  {
    var w1 := Arrive(w, o, g.app);
    var listed := ListOwned(w1.snap.objs, ClusterRoleBinding, g.app);
    ArriveOwnSteps(g.app, listed, w, o);
    ChildStepsKeep(g.app, listed, w, w1);
    if FaultAt(w, o) == NoFault {
      var swept := Sweep(w1, o, g, listed);
      SweepOwnSteps(w1, o, g, listed, listed);
      OwnStepsChain(g.app, listed, w, w1, swept.0);
      ChildStepsKeep(g.app, listed, w, swept.0);
      if swept.1.Done? {
        assert Tracks(swept.0, g.app, copy);
        UpdateAppKeeps(swept.0, o, g.app, copy, copy.(finalizer := false));
        OwnKeptChain(g.app, w, swept.0, Cleanup(w, o, g, copy).0);
      }
    }
  }

  /** Versions handed out so far are not in the future. */
  predicate Bounded(w: World, app: NamespacedName) {
    app in w.snap.apps ==> w.snap.apps[app].version <= w.version
  }

  lemma {:induction false} StaysBounded(w: World, app: NamespacedName, actions: seq<EnvAction>)
    requires Bounded(w, app)
    ensures Bounded(ActAll(w, app, actions), app)
  {
    if actions != [] {
      var before, last := ActAll(w, app, actions[..|actions| - 1]), actions[|actions| - 1];
      StaysBounded(w, app, actions[..|actions| - 1]);
      if last.OtherWorker? && Act(before, app, last) != before {
        assert app in last.after.apps <==> app in last.after.apps - {last.worker};
        assert app in before.snap.apps <==> app in before.snap.apps - {last.worker};
        if app in last.after.apps {
          assert (last.after.apps - {last.worker})[app] == (before.snap.apps - {last.worker})[app];
        }
      }
    }
  }

  /**
   Whatever happens between the calls and whichever of them fail, no own step of a pass changes the spec, the deletion mark
   or other controllers' finalizers of any Application, creates one, or removes one that is not marked and free to go.
   */
  lemma NoUpdateIsLost(w: World, o: Oracle, cfg: Config, app: NamespacedName)
    requires o.Picks() && ValidName(app) && Bounded(w, app)
    ensures OwnKept(app, w, Pass(w, o, cfg, app).0)
  {
    var start := w.(calls := 0);
    var w1, t := Arrive(start, o, app), Pass(w, o, cfg, app).0;
    ArriveOwnSteps(app, {}, start, o);
    ChildStepsKeep(app, {}, start, w1);
    StaysBounded(start.(calls := 1), app, o.env(0));
    if FaultAt(start, o) == NoFault && app in w1.snap.apps {
      var copy := w1.snap.apps[app];
      var g := Goal(cfg, app, copy.spec);
      assert Tracks(w1, app, copy);
      if copy.status.ready.None? {
        UpdateStatusKeeps(w1, o, app, WithReady(copy, Condition(Unknown, "Reconciling")));
      } else if !copy.deleting && copy.finalizer {
        RunAllKeeps(w1, o, g, copy);
      } else if !copy.deleting {
        UpdateAppKeeps(w1, o, app, copy, copy.(finalizer := true));
      } else if copy.finalizer {
        CleanupKeeps(w1, o, g, copy);
      }
      if t != w1 {
        OwnKeptChain(app, start, w1, t);
      }
    }
  }
}
