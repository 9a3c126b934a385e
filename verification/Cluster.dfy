/**
 The cluster the controller works on: Applications, their child objects, and the API server's rules.

 Each API call of the controller is numbered within a reconcile pass. An oracle decides, per call, what everyone
 else did to the cluster just before it, whether the call fails, and how unordered collections are walked; every
 statement about passes is for all oracles.
 */
module Cluster {
  import opened ImageFinder
  import opened Names
  import opened PortMerge
  import opened Wrappers
  import Ingresses = IngressRoute

  const GROUP := "yarotsky.me"
  const KIND := "Application"
  const RBAC_GROUP := "rbac.authorization.k8s.io"

  // ---------- Applications ----------

  datatype ScopedRole = ScopedRole(role: RoleRef, scope: Option<string>) {
    function ScopeOrDefault(): string {
      if scope.Some? then scope.value else "Namespace"
    }
  }

  datatype LoadBalancer = LoadBalancer(host: string, portNames: seq<string>)

  datatype Metrics = Metrics(enabled: bool, path: string, portName: string)

  datatype CronJobSpec = CronJobSpec(name: string, schedule: string, command: string)

  /** `podFields` stands for the fields copied verbatim into the pod template: command, environment, volumes, probes. */
  datatype Spec = Spec(
    image: ImageSpec,
    ports: seq<ContainerPort>,
    ingress: Option<Ingresses.Ingress>,
    loadBalancer: Option<LoadBalancer>,
    metrics: Option<Metrics>,
    roles: seq<ScopedRole>,
    cronJobs: seq<CronJobSpec>,
    hostNetwork: bool,
    securityContext: Option<string>,
    podFields: string)

  datatype ConditionStatus = True | False | Unknown

  datatype Condition = Condition(status: ConditionStatus, reason: string)

  /** Ready is the only condition the controller ever sets, so no conditions means no Ready condition. */
  datatype Status = Status(image: string, imageTime: nat, ready: Option<Condition>)

  /** `others` tells whether finalizers of other controllers are present; `version` is the resource version. */
  datatype App = App(
    spec: Spec, status: Status, finalizer: bool, others: bool, deleting: bool, version: nat)

  // ---------- Child objects ----------

  datatype Kind =
    | ServiceAccount | RoleBinding | ClusterRoleBinding | Service | PodMonitor | IngressRoute | CronJob | Deployment

  datatype Key = Key(kind: Kind, namespace: string, name: string)

  function KeyOf(kind: Kind, n: NamespacedName): Key {
    Key(kind, n.namespace, n.name)
  }

  datatype Pod = Pod(
    labels: string, serviceAccount: string, container: string, image: string, ports: seq<ContainerPort>,
    fields: string, hostNetwork: bool, dnsPolicy: string, security: Option<string>)

  /** The fields of all kinds side by side; an object of a kind uses that kind's fields. */
  datatype Content = Content(
    subject: Option<NamespacedName>, role: Option<RoleRef>,
    servicePorts: seq<ServicePort>, selector: string, balanced: bool, dnsHost: string,
    endpoint: Option<(string, string)>,
    routes: seq<Ingresses.Route>, dnsTarget: string,
    schedule: string, pod: Pod,
    available: Option<Condition>)

  const BLANK_POD := Pod("", "", "", "", [], "", false, "", None)

  const BLANK := Content(None, None, [], "", false, "", None, [], "", "", BLANK_POD, None)

  datatype OwnerRef = OwnerRef(group: string, kind: string, name: string)

  /** The two owner annotations of a cluster-scoped object: the owner's type and its printed name. */
  datatype Primary = Primary(group: string, kind: string, target: string)

  datatype Obj = Obj(controller: Option<OwnerRef>, primary: Option<Primary>, content: Content)

  const NEW_OBJ := Obj(None, None, BLANK)

  function OwnerRefOf(app: NamespacedName): OwnerRef {
    OwnerRef(GROUP, KIND, app.name)
  }

  function PrimaryOf(app: NamespacedName): Primary {
    Primary(GROUP, KIND, app.String())
  }

  /** The controller's own check: group and name of the controller reference, or the annotations. */
  predicate IsObjectOwnedBy(key: Key, obj: Obj, app: NamespacedName) {
    if key.kind != ClusterRoleBinding then
      obj.controller.Some? && obj.controller.value.group == GROUP && obj.controller.value.name == app.name
    else
      obj.primary.Some? && obj.primary.value.group == GROUP && obj.primary.value.kind == KIND
      && obj.primary.value.target == app.String()
  }

  /**
   An object that does not belong to the Application, said in its fields: no owner, one of another group or name, or, for a
   namespaced object, another namespace; and for a cluster role binding, annotations of another type or name.
   */
  predicate Stranger(app: NamespacedName, key: Key, obj: Obj) {
    if key.kind == ClusterRoleBinding then
      || obj.primary.None? || obj.primary.value.group != "yarotsky.me" || obj.primary.value.kind != "Application"
      || obj.primary.value.target != app.namespace + "/" + app.name
    else
      || obj.controller.None? || obj.controller.value.group != "yarotsky.me"
      || obj.controller.value.name != app.name || key.namespace != app.namespace
  }

  /** A cluster role binding annotated as belonging to the Application. */
  predicate BindingOf(key: Key, obj: Obj, app: NamespacedName) {
    && key.kind == ClusterRoleBinding
    && obj.primary == Some(Primary("yarotsky.me", "Application", app.namespace + "/" + app.name))
  }

  predicate ClaimsApplication(key: Key, obj: Obj) {
    && key.kind == ClusterRoleBinding && obj.primary.Some?
    && obj.primary.value.group == "yarotsky.me" && obj.primary.value.kind == "Application"
  }

  /** What the owner index of a kind returns for the Application. */
  function ListOwned(objs: map<Key, Obj>, kind: Kind, app: NamespacedName): (r: set<Key>)
    ensures forall key :: key in r ==> key.kind == kind && key in objs && !Stranger(app, key, objs[key])
  {
    if kind == ClusterRoleBinding then
      set key | key in objs && key.kind == kind && objs[key].primary == Some(PrimaryOf(app))
    else
      set key | key in objs && key.kind == kind && key.namespace == app.namespace
                && objs[key].controller == Some(OwnerRefOf(app))
  }

  // ---------- The cluster and its history ----------

  datatype Snap = Snap(apps: map<NamespacedName, App>, objs: map<Key, Obj>)

  /** `actor` is the Application whose worker took the step, or none for users and other controllers. */
  datatype Step = Step(actor: Option<NamespacedName>, key: Option<Key>, before: Snap, after: Snap)

  datatype World = World(origin: Snap, snap: Snap, version: nat, calls: nat, history: seq<Step>)

  /** The history leads from the origin to the present without a gap, so it records every state in between. */
  ghost predicate Linked(w: World) {
    && w.snap == (if w.history == [] then w.origin else w.history[|w.history| - 1].after)
    && (w.history != [] ==> w.history[0].before == w.origin)
    && forall i {:trigger w.history[i].before} :: 0 < i < |w.history| ==> w.history[i].before == w.history[i - 1].after
  }

  function Commit(w: World, actor: Option<NamespacedName>, key: Option<Key>, snap: Snap): World {
    w.(snap := snap, history := w.history + [Step(actor, key, w.snap, snap)])
  }

  /** The Application exists and still holds this controller's finalizer. */
  predicate Held(s: Snap, app: NamespacedName) {
    app in s.apps && s.apps[app].finalizer
  }

  /** A cluster role binding annotated as owned by an Application has that Application, finalizer in place. */
  ghost predicate NoOrphans(s: Snap) {
    forall key, app :: key in s.objs && ValidName(app) && BindingOf(key, s.objs[key], app) ==> Held(s, app)
  }

  /**
   What one step of the worker of an Application may do to the cluster. It is assumed of all other workers, and
   proved of every step of the worker under study.
   */
  predicate WorkerStep(app: NamespacedName, s: Snap, t: Snap) {
    && t.apps - {app} == s.apps - {app}
    && (app in t.apps ==> app in s.apps)
    && (forall key | key in t.objs && ClaimsApplication(key, t.objs[key]) && !BindingOf(key, t.objs[key], app) ::
          key in s.objs && s.objs[key].primary == t.objs[key].primary)
    && (forall key | key in t.objs && BindingOf(key, t.objs[key], app) :: Held(t, app))
  }

  // ---------- What everyone else may do ----------

  datatype EnvAction =
    | CreateApp(app: NamespacedName, spec: Spec, others: bool)
    | EditApp(app: NamespacedName, spec: Spec, others: bool)
    | DeleteApp(app: NamespacedName)
    | PutChild(key: Key, obj: Obj)
    | EditChild(key: Key, content: Content)
    | DeleteChild(key: Key)
    | OtherWorker(worker: NamespacedName, after: Snap)

  /** An object with finalizers is only marked for deletion. */
  predicate Pinned(app: App) {
    app.finalizer || app.others
  }

  /** Marking, un-pinning and editing bump the version; an Application marked and not pinned is gone. */
  function Stored(s: Snap, name: NamespacedName, app: App): Snap {
    if app.deleting && !Pinned(app) then s.(apps := s.apps - {name}) else s.(apps := s.apps[name := app])
  }

  /**
   Actions the API server refuses change nothing. Nobody but this controller adds owner annotations or touches its
   finalizer; anyone may create, edit or delete any child, except that annotating a binding is the controller's part.
   */
  function Act(w: World, me: NamespacedName, a: EnvAction): World {
    var s := w.snap;
    var bumped := w.(version := w.version + 1);
    match a
    case CreateApp(app, spec, others) =>
      if app in s.apps || !ValidName(app) then w
      else Commit(bumped, None, None,
                  s.(apps := s.apps[app := App(spec, Status("", 0, None), false, others, false, bumped.version)]))
    case EditApp(app, spec, others) =>
      if app !in s.apps then w
      else Commit(bumped, None, None,
                  Stored(s, app, s.apps[app].(spec := spec, others := others, version := bumped.version)))
    case DeleteApp(app) =>
      if app !in s.apps then w
      else Commit(bumped, None, None, Stored(s, app, s.apps[app].(deleting := true, version := bumped.version)))
    case PutChild(key, obj) =>
      if ClaimsApplication(key, obj) && !(key in s.objs && s.objs[key].primary == obj.primary) then w
      else Commit(w, None, Some(key), s.(objs := s.objs[key := obj]))
    case EditChild(key, content) =>
      if key !in s.objs then w
      else Commit(w, None, Some(key), s.(objs := s.objs[key := s.objs[key].(content := content)]))
    case DeleteChild(key) => Commit(w, None, Some(key), s.(objs := s.objs - {key}))
    case OtherWorker(worker, after) =>
      if worker == me || !ValidName(worker) || !WorkerStep(worker, s, after) then w
      else Commit(bumped, Some(worker), None, after)
  }

  function ActAll(w: World, me: NamespacedName, actions: seq<EnvAction>): World {
    if actions == [] then w
    else Act(ActAll(w, me, actions[..|actions| - 1]), me, actions[|actions| - 1])
  }

  // ---------- The oracle ----------

  /** A rejected call has no effect; a lost one takes effect but is reported as failed. */
  datatype Fault = NoFault | Rejected | Lost

  datatype Oracle = Oracle(
    fault: nat -> Fault,
    env: nat -> seq<EnvAction>,
    image: (nat, ImageSpec) -> Option<string>,
    pick: (nat, set<Key>) -> Key,
    clock: nat -> nat)
  {
    /** Any walk over an unordered collection takes its next element from what is left. */
    ghost predicate Picks() {
      forall n, s {:trigger pick(n, s)} :: s != {} ==> pick(n, s) in s
    }
  }

  /** The cluster as the next call finds it. */
  function Arrive(w: World, o: Oracle, me: NamespacedName): World {
    ActAll(w.(calls := w.calls + 1), me, o.env(w.calls))
  }
}
