/**
 The controller in its own imperative form: a client for the API server, and the reconciler whose methods fetch,
 edit in memory, write back, keep the set of children seen, and return at the first error. Every method is proved
 to do exactly what the functions of the module Reconcile say, so all that is proved about those holds of it.
 */
module Reconciler {
  import opened Cluster
  import opened Convergence
  import opened Frame
  import opened Mutators
  import opened Names
  import opened Wrappers
  import opened Reconcile
  import opened Safety
  import Model = Reconcile

  /** An error return stands for a failed outcome, none for success. */
  predicate Ends(out: Outcome, error: Option<Error>) {
    match out
    case Failed(e) => error == Some(e)
    case Done(_) => error.None?
  }

  /** The outcome also agrees with the object the caller is left with. */
  predicate EndsWith(out: Outcome, error: Option<Error>, obj: Obj) {
    Ends(out, error) && (out.Done? ==> out.obj == Some(obj))
  }

  // ---------- The client ----------

  class Client {
    const o: Oracle
    var world: World

    constructor (o: Oracle, world: World)
      ensures this.o == o && this.world == world
    {
      this.o, this.world := o, world;
    }

    /** Lets the others act; a read fails whenever the call does. */
    method Read(me: NamespacedName) returns (error: Option<Error>)
      modifies this
      ensures world == Arrive(old(world), o, me)
      ensures error == if FaultAt(old(world), o) != NoFault then Some(Unavailable) else None
    {
      error := if FaultAt(world, o) != NoFault then Some(Unavailable) else None;
      world := Arrive(world, o, me);
    }

    /** Fills the object if it exists, and leaves it alone otherwise. */
    method Get(me: NamespacedName, key: Key, obj: Child) returns (found: bool, error: Option<Error>)
      modifies this, obj
      ensures world == Arrive(old(world), o, me)
      ensures error == if FaultAt(old(world), o) != NoFault then Some(Unavailable) else None
      ensures found <==> error.None? && key in world.snap.objs
      ensures found ==> obj.Value() == world.snap.objs[key] && obj.versioned
      ensures !found ==> obj.Value() == old(obj.Value()) && obj.versioned == old(obj.versioned)
    {
      found := false;
      error := Read(me);
      if error.None? && key in world.snap.objs {
        obj.Fill(world.snap.objs[key]);
        found := true;
      }
    }

    method Create(me: NamespacedName, key: Key, obj: Child) returns (error: Option<Error>)
      modifies this, obj
      ensures old(obj.versioned) ==> world == Arrive(old(world), o, me) && error == Some(VersionGiven)
      ensures !old(obj.versioned) ==>
                var r := Model.Create(old(world), o, me, key, old(obj.Value()));
                world == r.0 && EndsWith(r.1, error, obj.Value())
    {
      var fault := FaultAt(world, o);
      world := Arrive(world, o, me);
      if obj.versioned {
        return Some(VersionGiven);
      }
      if fault == Rejected {
        return Some(Unavailable);
      }
      if key in world.snap.objs {
        return Some(AlreadyExists);
      }
      world := PutObj(world, me, key, obj.Value());
      error := if fault == Lost then Some(Unavailable) else None;
    }

    method Patch(me: NamespacedName, key: Key, base: Obj, obj: Child) returns (error: Option<Error>)
      modifies this, obj
      ensures var r := Model.Patch(old(world), o, me, key, base, old(obj.Value()));
              world == r.0 && EndsWith(r.1, error, obj.Value())
    {
      var fault := FaultAt(world, o);
      world := Arrive(world, o, me);
      if fault == Rejected {
        return Some(Unavailable);
      }
      if key !in world.snap.objs {
        return Some(Gone);
      }
      var merged := MergePatch(world.snap.objs[key], base, obj.Value());
      world := PutObj(world, me, key, merged);
      obj.Fill(merged);
      error := if fault == Lost then Some(Unavailable) else None;
    }

    method Delete(me: NamespacedName, key: Key) returns (error: Option<Error>)
      modifies this
      ensures var r := Model.Delete(old(world), o, me, key); world == r.0 && Ends(r.1, error)
    {
      var fault := FaultAt(world, o);
      world := Arrive(world, o, me);
      if fault == Rejected {
        return Some(Unavailable);
      }
      if key !in world.snap.objs {
        return Some(Gone);
      }
      world := Commit(world, Some(me), Some(key), world.snap.(objs := world.snap.objs - {key}));
      error := if fault == Lost then Some(Unavailable) else None;
    }

    method Update(app: Application) returns (error: Option<Error>)
      modifies this
      ensures (world, error) == Model.UpdateApp(old(world), o, app.name, app.Value())
    {
      var fault := FaultAt(world, o);
      world := Arrive(world, o, app.name);
      if fault == Rejected {
        return Some(Unavailable);
      }
      if app.name !in world.snap.apps {
        return Some(Gone);
      }
      if world.snap.apps[app.name].version != app.version {
        return Some(Conflict);
      }
      var stored := app.Value().(version := world.version + 1, status := world.snap.apps[app.name].status);
      world := Commit(world.(version := world.version + 1), Some(app.name), None, Stored(world.snap, app.name, stored));
      error := if fault == Lost then Some(Unavailable) else None;
    }

    method UpdateStatus(app: Application) returns (error: Option<Error>)
      modifies this
      ensures (world, error) == Model.UpdateStatus(old(world), o, app.name, app.Value())
    {
      var fault := FaultAt(world, o);
      world := Arrive(world, o, app.name);
      if fault == Rejected {
        return Some(Unavailable);
      }
      if app.name !in world.snap.apps {
        return Some(Gone);
      }
      var current := world.snap.apps[app.name];
      if current.version != app.version {
        return Some(Conflict);
      }
      if current.status != app.status {
        var stored := current.(status := app.status, version := world.version + 1);
        world := Commit(world.(version := world.version + 1), Some(app.name), None,
                        world.snap.(apps := world.snap.apps[app.name := stored]));
      }
      error := if fault == Lost then Some(Unavailable) else None;
    }
  }

  // ---------- The reconciler ----------

  /** The local copy of an Application that a pass works on. */
  class Application {
    const name: NamespacedName
    const spec: Spec
    const others: bool
    const deleting: bool
    const version: nat
    var status: Status
    var finalizer: bool

    constructor (name: NamespacedName, app: App)
      ensures this.name == name && Value() == app
    {
      this.name, spec, others, deleting, version := name, app.spec, app.others, app.deleting, app.version;
      status, finalizer := app.status, app.finalizer;
    }

    function Value(): App
      reads this
    {
      App(spec, status, finalizer, others, deleting, version)
    }

    method SetReady(c: Condition)
      modifies this`status
      ensures Value() == WithReady(old(Value()), c)
    {
      status := status.(ready := Some(c));
    }
  }

  function Unseen(seen: map<Key, bool>): set<Key> {
    set key | key in seen && !seen[key]
  }

  class ApplicationReconciler {
    const client: Client
    const cfg: Config

    constructor (client: Client, cfg: Config)
      ensures this.client == client && this.cfg == cfg
    {
      this.client, this.cfg := client, cfg;
    }

    function GoalFor(app: Application): Goal {
      Goal(cfg, app.name, app.spec)
    }

    // ---------- One child ----------

    method SetOwner(app: Application, key: Key, obj: Child) returns (error: Option<Error>)
      modifies obj`controller, obj`primary
      ensures match Mutators.SetOwner(app.name, key, old(obj.Value()))
              case Success(owned) => error.None? && obj.Value() == owned
              case Failure(e) => error == Some(e)
    {
      if key.namespace != "" {
        if obj.controller.Some? && obj.controller.value != OwnerRefOf(app.name) {
          return Some(AlreadyOwned);
        }
        obj.controller := Some(OwnerRefOf(app.name));
      } else {
        obj.primary := Some(PrimaryOf(app.name));
      }
      return None;
    }

    /** The callback of a create-or-patch: the mutator, then the owner. */
    method MutateAndOwn(app: Application, key: Key, m: Mutation, image: Option<string>, obj: Child)
      returns (error: Option<Error>)
      modifies obj`content, obj`controller, obj`primary
      ensures match Desired(GoalFor(app), m, image, key, old(obj.Value()))
              case Success(desired) => error.None? && obj.Value() == desired
              case Failure(e) => error == Some(e)
    {
      error := RunMutator(GoalFor(app), m, image, obj);
      if error.None? {
        error := SetOwner(app, key, obj);
      }
    }

    method CreateOrPatch(app: Application, key: Key, m: Mutation, obj: Child) returns (error: Option<Error>)
      requires !obj.versioned ==> obj.Value() == NEW_OBJ
      modifies client, obj
      ensures var read := if old(obj.versioned) then Some(old(obj.Value())) else None;
              var r := Model.CreateOrPatch(old(client.world), client.o, GoalFor(app), key, m, read);
              client.world == r.0 && EndsWith(r.1, error, obj.Value())
    {
      var image := client.o.image(client.world.calls, app.spec.image);
      var found;
      found, error := client.Get(app.name, key, obj);
      if error.Some? {
        return;
      }
      if !found {
        error := MutateAndOwn(app, key, m, image, obj);
        if error.None? {
          error := client.Create(app.name, key, obj);
        }
        return;
      }
      var base := obj.Value();
      error := MutateAndOwn(app, key, m, image, obj);
      if error.None? && obj.Value() != base {
        error := client.Patch(app.name, key, base, obj);
      }
    }

    /** The fetch goes through and finds an object that is not the Application's. */
    ghost predicate FoundStranger(w: World, app: NamespacedName, key: Key) {
      var s := Arrive(w, client.o, app).snap;
      FaultAt(w, client.o) == NoFault && Near(app, key) && key in s.objs && Stranger(app, key, s.objs[key])
    }

    /** Fetches the child, refuses to touch one that is not owned, then upserts or deletes it. */
    method ReconcileResource(app: Application, key: Key, m: Mutation, wanted: bool, obj: Child)
      returns (error: Option<Error>)
      requires !obj.versioned && obj.Value() == NEW_OBJ
      modifies client, obj
      ensures var r := Model.ReconcileResource(old(client.world), client.o, GoalFor(app), key, m, wanted);
              && client.world == r.0 && Ends(r.1, error)
              && (wanted ==> EndsWith(r.1, error, obj.Value()))
      ensures var w1 := Arrive(old(client.world), client.o, app.name);
              FoundStranger(old(client.world), app.name, key) ==> error == Some(NotOwned) && client.world == w1
    {
      if FoundStranger(client.world, app.name, key) {
        StrangerIsRefused(client.world, client.o, GoalFor(app), key, m, wanted);
      }
      var found;
      found, error := client.Get(app.name, key, obj);
      if error.Some? {
        return;
      }
      if found && !IsObjectOwnedBy(key, obj.Value(), app.name) {
        return Some(NotOwned);
      }
      if wanted {
        error := CreateOrPatch(app, key, m, obj);
      } else if found {
        error := client.Delete(app.name, key);
      }
    }

    method EnsureResource(app: Application, key: Key, m: Mutation, obj: Child) returns (error: Option<Error>)
      requires !obj.versioned && obj.Value() == NEW_OBJ
      modifies client, obj
      ensures var r := Model.ReconcileResource(old(client.world), client.o, GoalFor(app), key, m, true);
              client.world == r.0 && EndsWith(r.1, error, obj.Value())
    {
      error := ReconcileResource(app, key, m, true, obj);
    }

    method EnsureNoResource(app: Application, key: Key) returns (error: Option<Error>)
      modifies client
      ensures var r := Model.ReconcileResource(old(client.world), client.o, GoalFor(app), key, MutateNothing, false);
              client.world == r.0 && Ends(r.1, error)
    {
      var obj := new Child();
      error := ReconcileResource(app, key, MutateNothing, false, obj);
    }

    // ---------- Mark and sweep ----------

    method List(app: Application, kind: Kind) returns (listed: set<Key>, error: Option<Error>)
      modifies client
      ensures client.world == Arrive(old(client.world), client.o, app.name)
      ensures error == if FaultAt(old(client.world), client.o) != NoFault then Some(Unavailable) else None
      ensures listed == ListOwned(client.world.snap.objs, kind, app.name)
    {
      error := client.Read(app.name);
      listed := ListOwned(client.world.snap.objs, kind, app.name);
    }

    /** Deletes the given children one after the other, in any order, up to the first error. */
    method DeleteAll(app: Application, keys: set<Key>) returns (error: Option<Error>)
      requires client.o.Picks()
      modifies client
      ensures var r := Sweep(old(client.world), client.o, GoalFor(app), keys);
              client.world == r.0 && Ends(r.1, error)
    {
      error := None;
      var rest := keys;
      while rest != {}
        invariant error.None?
        invariant Sweep(old(client.world), client.o, GoalFor(app), keys)
               == Sweep(client.world, client.o, GoalFor(app), rest)
        decreases |rest|
      {
        var key := client.o.pick(client.world.calls, rest);
        error := EnsureNoResource(app, key);
        if error.Some? {
          return;
        }
        rest := rest - {key};
      }
    }

    /** A stage ran from one world to another and ended with the error, if any. */
    ghost predicate Ran(w: World, t: World, app: Application, stage: Stage, error: Option<Error>)
      requires client.o.Picks()
    {
      var r := RunStage(w, client.o, GoalFor(app), stage);
      t == r.0 && Ends(r.1, error)
    }

    ghost function RoleBindingStage(app: Application): Stage {
      Many(RoleBinding, RoleBindingItems(app.name, app.spec.roles), true)
    }

    ghost function ClusterRoleBindingStage(app: Application): Stage {
      Many(ClusterRoleBinding, ClusterRoleBindingItems(app.name, app.spec.roles), AllPlaced(app.spec.roles))
    }

    ghost function CronJobStage(app: Application): Stage {
      Many(CronJob, CronJobItems(app.name, app.spec.cronJobs), true)
    }

    /** The stages of the goal for the Application. */
    ghost function StageOf(app: Application, i: nat): Stage {
      StageAt(GoalFor(app), i)
    }

    /** Of all items of a stage that began in world w the rest is still to be upserted; others are marked as seen. */
    ghost predicate Midway(
      w: World, app: Application, kind: Kind, all: seq<Item>, rest: seq<Item>, seen: map<Key, bool>)
      reads client
    {
      var w1 := Arrive(w, client.o, app.name);
      && FaultAt(w, client.o) == NoFault
      && UpsertAll(w1, client.o, GoalFor(app), all) == UpsertAll(client.world, client.o, GoalFor(app), rest)
      && Unseen(seen) - KeysOf(rest) == ListOwned(w1.snap.objs, kind, app.name) - KeysOf(all)
    }

    /** Lists the owned children of a kind, all of them yet unseen. */
    method ListUnseen(app: Application, kind: Kind, ghost all: seq<Item>, ghost prune: bool)
      returns (seen: map<Key, bool>, error: Option<Error>)
      requires client.o.Picks()
      modifies client
      ensures error.Some? ==> Ran(old(client.world), client.world, app, Many(kind, all, prune), error)
      ensures error.None? ==> Midway(old(client.world), app, kind, all, all, seen)
    {
      var listed;
      listed, error := List(app, kind);
      seen := map key | key in listed :: false;
      assert Unseen(seen) == listed;
    }

    /** Upserts the first of the remaining items and marks its child as seen. */
    method EnsureSeen(
      app: Application, key: Key, m: Mutation, seen: map<Key, bool>,
      ghost w: World, ghost stage: Stage, ghost rest: seq<Item>)
      returns (marked: map<Key, bool>, error: Option<Error>)
      requires client.o.Picks() && stage.Many? && rest != [] && rest[0] == Item(key, m)
      requires Midway(w, app, stage.kind, stage.items, rest, seen)
      modifies client
      ensures error.Some? ==> Ran(w, client.world, app, stage, error)
      ensures error.None? ==> Midway(w, app, stage.kind, stage.items, rest[1..], marked)
    {
      MarkSeen(seen, rest);
      marked := seen[key := true];
      var obj := new Child();
      error := EnsureResource(app, key, m, obj);
    }

    method DeleteUnseen(app: Application, seen: map<Key, bool>, ghost w: World, ghost stage: Stage)
      returns (error: Option<Error>)
      requires client.o.Picks() && stage.Many? && stage.prune
      requires Midway(w, app, stage.kind, stage.items, [], seen)
      modifies client
      ensures Ran(w, client.world, app, stage, error)
    {
      assert KeysOf([]) == {};
      assert Unseen(seen) - {} == Unseen(seen);
      error := DeleteAll(app, Unseen(seen));
    }

    method ReconcileRoleBindings(app: Application) returns (error: Option<Error>)
      requires client.o.Picks()
      modifies client
      ensures Ran(old(client.world), client.world, app, RoleBindingStage(app), error)
    {
      var roles := app.spec.roles;
      ghost var w, stage := client.world, RoleBindingStage(app);
      var seen;
      seen, error := ListUnseen(app, RoleBinding, stage.items, true);
      if error.Some? {
        return;
      }
      for i := 0 to |roles|
        invariant error.None? && Midway(w, app, RoleBinding, stage.items, RoleBindingItems(app.name, roles[i..]), seen)
      {
        ghost var rest := RoleBindingItems(app.name, roles[i..]);
        RoleBindingsFrom(app.name, roles, i);
        if roles[i].ScopeOrDefault() != "Namespace" {
          continue;
        }
        var key := KeyOf(RoleBinding, RoleBindingName(app.name, roles[i].role));
        seen, error := EnsureSeen(app, key, MutateBinding(roles[i].role), seen, w, stage, rest);
        if error.Some? {
          return;
        }
      }
      error := DeleteUnseen(app, seen, w, stage);
    }

    /** Where nothing is left to upsert and nothing is to be pruned, the stage is done. */
    lemma EndsUnpruned(w: World, app: Application, stage: Stage, seen: map<Key, bool>)
      requires client.o.Picks() && stage.Many? && !stage.prune && Midway(w, app, stage.kind, stage.items, [], seen)
      ensures Ran(w, client.world, app, stage, None)
    {
    }

    /** Meeting a cluster-scoped role that is no ClusterRole returns early with no error, so nothing is deleted. */
    method ReconcileClusterRoleBindings(app: Application) returns (error: Option<Error>)
      requires client.o.Picks()
      modifies client
      ensures Ran(old(client.world), client.world, app, ClusterRoleBindingStage(app), error)
    {
      var roles := app.spec.roles;
      ghost var w, stage := client.world, ClusterRoleBindingStage(app);
      var seen;
      seen, error := ListUnseen(app, ClusterRoleBinding, stage.items, stage.prune);
      if error.Some? {
        return;
      }
      for i := 0 to |roles|
        invariant error.None? && forall j :: 0 <= j < i ==> !Misplaced(roles[j])
        invariant Midway(w, app, ClusterRoleBinding, stage.items, ClusterRoleBindingItems(app.name, roles[i..]), seen)
      {
        ghost var rest := ClusterRoleBindingItems(app.name, roles[i..]);
        ClusterRoleBindingsFrom(app.name, roles, i);
        if roles[i].ScopeOrDefault() != "Cluster" {
          continue;
        }
        if !IsClusterRole(roles[i].role) {
          assert rest == [];
          EndsUnpruned(w, app, stage, seen);
          return;
        }
        var key := KeyOf(ClusterRoleBinding, ClusterRoleBindingName(app.name, roles[i].role));
        seen, error := EnsureSeen(app, key, MutateBinding(roles[i].role), seen, w, stage, rest);
        if error.Some? {
          return;
        }
      }
      error := DeleteUnseen(app, seen, w, stage);
    }

    method ReconcileCronJobs(app: Application) returns (error: Option<Error>)
      requires client.o.Picks()
      modifies client
      ensures Ran(old(client.world), client.world, app, CronJobStage(app), error)
    {
      var jobs := app.spec.cronJobs;
      ghost var w, stage := client.world, CronJobStage(app);
      var seen;
      seen, error := ListUnseen(app, CronJob, stage.items, true);
      if error.Some? {
        return;
      }
      for i := 0 to |jobs|
        invariant error.None? && Midway(w, app, CronJob, stage.items, CronJobItems(app.name, jobs[i..]), seen)
      {
        ghost var rest := CronJobItems(app.name, jobs[i..]);
        CronJobsFrom(app.name, jobs, i);
        var key := KeyOf(CronJob, CronJobName(app.name, jobs[i].name));
        seen, error := EnsureSeen(app, key, MutateCronJob(jobs[i]), seen, w, stage, rest);
        if error.Some? {
          return;
        }
      }
      error := DeleteUnseen(app, seen, w, stage);
    }

    // ---------- The other stages ----------

    method ReconcileServiceAccount(app: Application) returns (error: Option<Error>)
      requires client.o.Picks()
      modifies client
      ensures Ran(old(client.world), client.world, app, StageOf(app, 0), error)
    {
      var obj := new Child();
      error := EnsureResource(app, KeyOf(ServiceAccount, app.name), MutateNothing, obj);
    }

    method ReconcileService(app: Application) returns (error: Option<Error>)
      requires client.o.Picks()
      modifies client
      ensures Ran(old(client.world), client.world, app, StageOf(app, 3), error)
    {
      var obj := new Child();
      error := ReconcileResource(app, KeyOf(Service, app.name), MutateService, |app.spec.ports| > 0, obj);
    }

    method ReconcileLBService(app: Application) returns (error: Option<Error>)
      requires client.o.Picks()
      modifies client
      ensures Ran(old(client.world), client.world, app, StageOf(app, 4), error)
    {
      var obj := new Child();
      var key := KeyOf(Service, LBServiceName(app.name));
      error := ReconcileResource(app, key, MutateLBService, app.spec.loadBalancer.Some?, obj);
    }

    method ReconcilePodMonitor(app: Application) returns (error: Option<Error>)
      requires client.o.Picks()
      modifies client
      ensures Ran(old(client.world), client.world, app, StageOf(app, 5), error)
    {
      if !cfg.supportsPrometheus {
        return None;
      }
      var obj := new Child();
      var wanted := app.spec.metrics.Some? && app.spec.metrics.value.enabled;
      error := ReconcileResource(app, KeyOf(PodMonitor, app.name), MutatePodMonitor, wanted, obj);
    }

    method ReconcileIngressRoute(app: Application) returns (error: Option<Error>)
      requires client.o.Picks()
      modifies client
      ensures Ran(old(client.world), client.world, app, StageOf(app, 6), error)
    {
      if !cfg.supportsTraefik {
        return None;
      }
      var obj := new Child();
      error := ReconcileResource(app, KeyOf(IngressRoute, app.name), MutateIngressRoute, app.spec.ingress.Some?, obj);
    }

    /** Upserts the Deployment and notes a changed image, with its time, in the local status. */
    method ReconcileDeployment(app: Application) returns (deploy: Child, error: Option<Error>)
      requires client.o.Picks()
      modifies client, app`status
      ensures fresh(deploy)
      ensures var r := RunStage(old(client.world), client.o, GoalFor(app), StageAt(GoalFor(app), 8));
              client.world == r.0 && EndsWith(r.1, error, deploy.Value())
      ensures error.Some? ==> app.status == old(app.status)
      ensures error.None? ==>
                var image, now := deploy.content.pod.image, client.o.clock(client.world.calls);
                app.status == if old(app.status).image == image then old(app.status)
                              else old(app.status).(image := image, imageTime := now)
    {
      DeploymentStage(client.world, client.o, GoalFor(app));
      deploy := new Child();
      error := EnsureResource(app, KeyOf(Deployment, app.name), MutateDeployment, deploy);
      if error.Some? {
        return;
      }
      var newImage := deploy.content.pod.image;
      if app.status.image != newImage {
        app.status := app.status.(image := newImage);
        app.status := app.status.(imageTime := client.o.clock(client.world.calls));
      }
    }

    // ---------- Status ----------

    method UpdateStatus(app: Application) returns (result: PassResult)
      modifies client
      ensures var r := Model.UpdateStatus(old(client.world), client.o, app.name, app.Value());
              client.world == r.0 && result == StatusResult([], r.1)
    {
      var error := client.UpdateStatus(app);
      if error == Some(Conflict) {
        return PassResult(true, []);
      }
      return ErrorResult(error);
    }

    method UpdateStatusWithError(app: Application, error: Error, reason: string) returns (result: PassResult)
      modifies client, app`status
      ensures var r := Model.UpdateStatus(old(client.world), client.o, app.name,
                                          WithReady(old(app.Value()), Condition(False, reason)));
              client.world == r.0 && result == StatusResult([error], r.1)
    {
      app.SetReady(Condition(False, reason));
      result := UpdateStatus(app);
      result := result.(errors := [error] + result.errors);
    }

    // ---------- The pass ----------

    method EnsureNoClusterRoleBindings(app: Application) returns (error: Option<Error>)
      requires client.o.Picks()
      modifies client
      ensures var w := old(client.world);
              var w1 := Arrive(w, client.o, app.name);
              if FaultAt(w, client.o) != NoFault then client.world == w1 && error == Some(Unavailable)
              else
                var r := Sweep(w1, client.o, GoalFor(app), ListOwned(w1.snap.objs, ClusterRoleBinding, app.name));
                client.world == r.0 && Ends(r.1, error)
    {
      var listed;
      listed, error := List(app, ClusterRoleBinding);
      if error.None? {
        error := DeleteAll(app, listed);
      }
    }

    /** The run of all stages that began in world w has come to stage i, or ended at stage i with the error. */
    ghost predicate Reached(w: World, app: Application, i: nat, error: Option<Error>)
      requires client.o.Picks() && i < STAGES
      reads client
    {
      RunStages(w, client.o, GoalFor(app), 0)
      == if error.None? then RunStages(client.world, client.o, GoalFor(app), i)
         else (client.world, i, Failed(error.value))
    }

    lemma Proceeds(w: World, v: World, app: Application, i: nat, stage: Stage, error: Option<Error>)
      requires client.o.Picks() && i + 1 < STAGES
      requires RunStages(w, client.o, GoalFor(app), 0) == RunStages(v, client.o, GoalFor(app), i)
      requires stage == StageAt(GoalFor(app), i) && Ran(v, client.world, app, stage, error)
      ensures Reached(w, app, if error.None? then i + 1 else i, error)
    {
    }

    /** Stages 0 to 2, up to the first error; `stage` is the one that failed, or the next. */
    method ReconcileAccess(app: Application) returns (stage: nat, error: Option<Error>)
      requires client.o.Picks()
      modifies client
      ensures stage < STAGES && Reached(old(client.world), app, stage, error)
      ensures error.None? ==> stage == 3
    {
      ghost var w := client.world;
      ghost var v := w;
      stage := 0;
      error := ReconcileServiceAccount(app);
      Proceeds(w, v, app, 0, StageOf(app, 0), error);
      if error.Some? { return; }
      stage, v := 1, client.world;
      error := ReconcileRoleBindings(app);
      Proceeds(w, v, app, 1, RoleBindingStage(app), error);
      if error.Some? { return; }
      stage, v := 2, client.world;
      error := ReconcileClusterRoleBindings(app);
      Proceeds(w, v, app, 2, ClusterRoleBindingStage(app), error);
      if error.Some? { return; }
      stage := 3;
    }

    /** Stages 3 to 7, likewise, of a run that began in world w. */
    method ReconcileWorkloads(app: Application, ghost w: World) returns (stage: nat, error: Option<Error>)
      requires client.o.Picks() && Reached(w, app, 3, None)
      modifies client
      ensures stage < STAGES && Reached(w, app, stage, error)
      ensures error.None? ==> stage == 8
    {
      ghost var v := client.world;
      stage := 3;
      error := ReconcileService(app);
      Proceeds(w, v, app, 3, StageOf(app, 3), error);
      if error.Some? { return; }
      stage, v := 4, client.world;
      error := ReconcileLBService(app);
      Proceeds(w, v, app, 4, StageOf(app, 4), error);
      if error.Some? { return; }
      stage, v := 5, client.world;
      error := ReconcilePodMonitor(app);
      Proceeds(w, v, app, 5, StageOf(app, 5), error);
      if error.Some? { return; }
      stage, v := 6, client.world;
      error := ReconcileIngressRoute(app);
      Proceeds(w, v, app, 6, StageOf(app, 6), error);
      if error.Some? { return; }
      stage, v := 7, client.world;
      error := ReconcileCronJobs(app);
      Proceeds(w, v, app, 7, CronJobStage(app), error);
      if error.Some? { return; }
      stage := 8;
    }

    method ReconcileLive(app: Application) returns (result: PassResult)
      requires client.o.Picks()
      modifies client, app`status
      ensures (client.world, result) == RunAll(old(client.world), client.o, GoalFor(app), old(app.Value()))
    {
      ghost var w := client.world;
      var stage, error := ReconcileAccess(app);
      if error.None? {
        stage, error := ReconcileWorkloads(app, w);
      }
      if error.Some? {
        result := UpdateStatusWithError(app, error.value, FailureReason(stage));
        return;
      }
      var deploy;
      deploy, error := ReconcileDeployment(app);
      if error.Some? {
        result := UpdateStatusWithError(app, error.value, FailureReason(8));
        return;
      }
      if deploy.content.available.Some? {
        app.SetReady(deploy.content.available.value);
      }
      result := UpdateStatus(app);
    }

    method Cleanup(app: Application) returns (result: PassResult)
      requires client.o.Picks()
      modifies client, app`finalizer
      ensures (client.world, result) == Model.Cleanup(old(client.world), client.o, GoalFor(app), old(app.Value()))
    {
      var error := EnsureNoClusterRoleBindings(app);
      if error.Some? {
        return ErrorResult(error);
      }
      app.finalizer := false;
      error := client.Update(app);
      return ErrorResult(error);
    }

    /** One reconcile pass is exactly the modelled one, for every oracle. */
    method Reconcile(name: NamespacedName) returns (result: PassResult)
      requires client.o.Picks()
      modifies client
      ensures (client.world, result) == Pass(old(client.world), client.o, cfg, name)
      ensures Safe(old(client.world)) ==> Safe(client.world)
    {
      if Safe(client.world) {
        PassIsSafe(client.world, client.o, cfg, name);
      }
      client.world := client.world.(calls := 0);
      var error := client.Read(name);
      if error.Some? {
        return ErrorResult(error);
      }
      if name !in client.world.snap.apps {
        return OK;
      }
      var app := new Application(name, client.world.snap.apps[name]);
      if app.status.ready.None? {
        app.SetReady(Condition(Unknown, "Reconciling"));
        result := UpdateStatus(app);
        return;
      }
      if !app.deleting {
        if !app.finalizer {
          app.finalizer := true;
          error := client.Update(app);
          return ErrorResult(error);
        }
      } else {
        if app.finalizer {
          result := Cleanup(app);
          return;
        }
        return OK;
      }
      result := ReconcileLive(app);
    }
  }

  lemma DeploymentStage(w: World, o: Oracle, g: Goal)
    requires o.Picks()
    ensures RunStage(w, o, g, StageAt(g, 8)) == Model.ReconcileResource(w, o, g, KeyOf(Deployment, g.app), MutateDeployment, true)
  {
  }

  lemma RoleBindingsFrom(app: NamespacedName, roles: seq<ScopedRole>, i: nat)
    requires i < |roles|
    ensures var items, later := RoleBindingItems(app, roles[i..]), RoleBindingItems(app, roles[i + 1..]);
            if roles[i].ScopeOrDefault() != "Namespace" then items == later
            else items != [] && items[1..] == later
                 && items[0] == Item(KeyOf(RoleBinding, RoleBindingName(app, roles[i].role)), MutateBinding(roles[i].role))
  {
    assert roles[i..][1..] == roles[i + 1..];
  }

  lemma ClusterRoleBindingsFrom(app: NamespacedName, roles: seq<ScopedRole>, i: nat)
    requires i < |roles|
    ensures var items, later := ClusterRoleBindingItems(app, roles[i..]), ClusterRoleBindingItems(app, roles[i + 1..]);
            if roles[i].ScopeOrDefault() != "Cluster" then items == later
            else if !IsClusterRole(roles[i].role) then items == [] && !AllPlaced(roles)
            else items != [] && items[1..] == later
                 && items[0] == Item(KeyOf(ClusterRoleBinding, ClusterRoleBindingName(app, roles[i].role)),
                                     MutateBinding(roles[i].role))
  {
    assert roles[i..][1..] == roles[i + 1..];
  }

  lemma CronJobsFrom(app: NamespacedName, jobs: seq<CronJobSpec>, i: nat)
    requires i < |jobs|
    ensures var items := CronJobItems(app, jobs[i..]);
            && items != [] && items[1..] == CronJobItems(app, jobs[i + 1..])
            && items[0] == Item(KeyOf(CronJob, CronJobName(app, jobs[i].name)), MutateCronJob(jobs[i]))
  {
    assert jobs[i..][1..] == jobs[i + 1..];
  }

  /** Marking the first item's child as seen takes it out of both sides. */
  lemma MarkSeen(seen: map<Key, bool>, items: seq<Item>)
    requires items != []
    ensures Unseen(seen[items[0].key := true]) - KeysOf(items[1..]) == Unseen(seen) - KeysOf(items)
  {
    KeysOfCons(items);
    assert Unseen(seen[items[0].key := true]) == Unseen(seen) - {items[0].key};
  }
}
