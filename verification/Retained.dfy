/**
 What earlier specs leave behind: where a child after an error-free pass is as the spec says, and where it is as it was
 before. Port numbers of services, host network and security context follow the spec only in the cases stated here.
 */
module Retained {
  import opened Cluster
  import opened Convergence
  import opened Feasibility
  import opened ImageFinder
  import opened Mutators
  import opened Names
  import opened Passes
  import opened PortMerge
  import opened Reconcile
  import opened Traces
  import opened Wrappers

  function ServiceBefore(w: World, key: Key): seq<ServicePort> {
    Before(w.snap.objs, key).content.servicePorts
  }

  lemma AskedHasName(ports: seq<ContainerPort>, d: ContainerPort)
    requires d in ports
    ensures HasName(ServicePortsOf(ports), d.name)
  {
    var i :| 0 <= i < |ports| && ports[i] == d;
    assert ServicePortsOf(ports)[i] == ServicePortOf(d);
  }

  lemma AskedNumbered(ports: seq<ContainerPort>, name: string, number: int)
    ensures AllNumbered(ServicePortsOf(ports), name, number)
            <==> forall d :: d in ports && d.name == name ==> d.containerPort == number
  {
    forall d | d in ports
      ensures ServicePortOf(d) in ServicePortsOf(ports)
    {
      var i :| 0 <= i < |ports| && ports[i] == d;
      assert ServicePortsOf(ports)[i] == ServicePortOf(d);
    }
  }

  /**
   After an error-free pass the service carries the spec's number for a port if and only if every live port of that name
   already did, or, where none was live, every port of that name in the spec has that number.
   */
  lemma ServiceNumberFollowsIff(
    w: World, o: Oracle, cfg: Config, app: NamespacedName, image: Option<string>, d: ContainerPort)
    requires GoodPass(w, o, cfg, app, image) && d in w.snap.apps[app].spec.ports
    ensures var key, ports := KeyOf(Service, app), w.snap.apps[app].spec.ports;
            var live, after := ServiceBefore(w, key), Pass(w, o, cfg, app).0.snap.objs;
            && key in after
            && (AllNumbered(after[key].content.servicePorts, d.name, d.containerPort) <==>
                  if HasName(live, d.name) then AllNumbered(live, d.name, d.containerPort)
                  else forall e :: e in ports && e.name == d.name ==> e.containerPort == d.containerPort)
  {
    var key, ports := KeyOf(Service, app), w.snap.apps[app].spec.ports;
    PassMakes(w, o, cfg, app, image, 3, key, MutateService);
    AskedHasName(ports, d);
    AskedNumbered(ports, d.name, d.containerPort);
    NumberedIff(ServiceBefore(w, key), ServicePortsOf(ports), d.name, d.containerPort);
  }

  lemma {:induction false} BalancedMembers(ports: seq<ContainerPort>, names: seq<string>, n: string)
    requires BalancedPorts(ports, names).Some? && n in names
    ensures HasName(BalancedPorts(ports, names).value, n) && Wanted(ContainerShape(), ports, n).Some?
    ensures forall p :: p in BalancedPorts(ports, names).value && p.name == n ==>
                          p == ServicePortOf(Wanted(ContainerShape(), ports, n).value)
    decreases |names|
  {
    var before, last := names[..|names| - 1], names[|names| - 1];
    assert names == before + [last];
    var all := BalancedPorts(ports, names).value;
    assert all[|all| - 1] in all;
    if n in before {
      BalancedMembers(ports, before, n);
      var p :| p in BalancedPorts(ports, before).value && p.name == n;
      assert p in all;
    } else {
      NotBalanced(ports, before, n);
    }
  }

  lemma {:induction false} NotBalanced(ports: seq<ContainerPort>, names: seq<string>, n: string)
    requires BalancedPorts(ports, names).Some? && n !in names
    ensures !HasName(BalancedPorts(ports, names).value, n)
    decreases |names|
  {
    if names != [] {
      assert names == names[..|names| - 1] + [names[|names| - 1]];
      NotBalanced(ports, names[..|names| - 1], n);
    }
  }

  /** Likewise the load-balancer service, for the last port of the spec with the asked name. */
  lemma LBServiceNumberFollowsIff(
    w: World, o: Oracle, cfg: Config, app: NamespacedName, image: Option<string>, n: string)
    requires GoodPass(w, o, cfg, app, image) && w.snap.apps[app].spec.loadBalancer.Some?
    requires n in w.snap.apps[app].spec.loadBalancer.value.portNames
    ensures var key, d := KeyOf(Service, LBServiceName(app)), Wanted(ContainerShape(), w.snap.apps[app].spec.ports, n);
            var live, after := ServiceBefore(w, key), Pass(w, o, cfg, app).0.snap.objs;
            && key in after && d.Some?
            && (AllNumbered(after[key].content.servicePorts, n, d.value.containerPort) <==>
                  HasName(live, n) ==> AllNumbered(live, n, d.value.containerPort))
  {
    var key, spec := KeyOf(Service, LBServiceName(app)), w.snap.apps[app].spec;
    PassMakes(w, o, cfg, app, image, 4, key, MutateLBService);
    var desired := BalancedPorts(spec.ports, spec.loadBalancer.value.portNames).value;
    BalancedMembers(spec.ports, spec.loadBalancer.value.portNames, n);
    NumberedIff(ServiceBefore(w, key), desired, n, Wanted(ContainerShape(), spec.ports, n).value.containerPort);
  }

  lemma PodMade(g: Goal, image: Option<string>, base: Obj, obj: Obj)
    requires Desired(g, MutateDeployment, image, KeyOf(Deployment, g.app), base) == Success(obj)
    ensures var before, pod := base.content.pod, obj.content.pod;
            && pod.hostNetwork == (g.spec.hostNetwork || before.hostNetwork)
            && pod.security == (if g.spec.securityContext.Some? then g.spec.securityContext else before.security)
            && pod.dnsPolicy == if g.spec.hostNetwork then "ClusterFirstWithHostNet" else before.dnsPolicy
  {
  }

  /**
   After an error-free pass the Deployment has the spec's host network if and only if the spec asks for it or it was off
   before, and the spec's security context if and only if the spec has one or there was none before.
   */
  lemma PodFollowsIff(w: World, o: Oracle, cfg: Config, app: NamespacedName, image: Option<string>)
    requires GoodPass(w, o, cfg, app, image)
    ensures var key, spec := KeyOf(Deployment, app), w.snap.apps[app].spec;
            var before, after := Before(w.snap.objs, key).content.pod, Pass(w, o, cfg, app).0.snap.objs;
            && key in after
            && var pod := after[key].content.pod;
               && (pod.hostNetwork == spec.hostNetwork <==> spec.hostNetwork || !before.hostNetwork)
               && (pod.security == spec.securityContext <==> spec.securityContext.Some? || before.security.None?)
               && pod.dnsPolicy == if spec.hostNetwork then "ClusterFirstWithHostNet" else before.dnsPolicy
  {
    var g, key := GoalOf(w, cfg, app), KeyOf(Deployment, app);
    var t := Pass(w, o, cfg, app).0;
    assert MadeOf(w.snap.objs, t.snap.objs, g, image, key, MutateDeployment) by {
      PassMakes(w, o, cfg, app, image, 8, key, MutateDeployment);
    }
    PodMade(g, image, Before(w.snap.objs, key), t.snap.objs[key]);
  }

  // ---------- Cron jobs ----------

  /** The security context is the spec's if it has one, and what it was before otherwise. */
  predicate Secured(g: Goal, before: Obj, after: Obj) {
    after.content.pod.security == if g.spec.securityContext.Some? then g.spec.securityContext else before.content.pod.security
  }

  /** The child is there with its security context so derived. */
  predicate SecuredAt(g: Goal, a: map<Key, Obj>, b: map<Key, Obj>, key: Key) {
    key in b && Secured(g, Before(a, key), b[key])
  }

  lemma JobIsSecured(w: World, o: Oracle, g: Goal, item: Item, image: Option<string>)
    requires Calm(o, g, image) && item.m.MutateCronJob?
    ensures var (t, out) := ReconcileResource(w, o, g, item.key, item.m, true);
            OnlyChild(w, t, item.key) && (out.Done? ==> SecuredAt(g, w.snap.objs, t.snap.objs, item.key))
  {
    ResourceQuietly(w, o, g, item.key, item.m, true);
  }

  lemma {:induction false} JobsAreSecured(w: World, o: Oracle, g: Goal, items: seq<Item>, image: Option<string>, key: Key)
    requires Calm(o, g, image) && key in KeysOf(items) && forall i :: 0 <= i < |items| ==> items[i].m.MutateCronJob?
    ensures var (t, out) := UpsertAll(w, o, g, items); out.Done? ==> SecuredAt(g, w.snap.objs, t.snap.objs, key)
    decreases |items|
  {
    var rest := items[1..];
    var v := ReconcileResource(w, o, g, items[0].key, items[0].m, true);
    JobIsSecured(w, o, g, items[0], image);
    KeysOfCons(items);
    if v.1.Done? {
      if key in KeysOf(rest) {
        JobsAreSecured(v.0, o, g, rest, image, key);
        if items[0].key != key {
          UntouchedByKeys(w, v.0, {items[0].key}, key);
        }
      } else {
        UpsertAllQuietly(v.0, o, g, rest);
        UntouchedByKeys(v.0, UpsertAll(v.0, o, g, rest).0, KeysOf(rest), key);
      }
    }
  }

  lemma JobStageSecures(w: World, o: Oracle, g: Goal, items: seq<Item>, image: Option<string>, key: Key)
    requires Calm(o, g, image) && key in KeysOf(items) && forall i :: 0 <= i < |items| ==> items[i].m.MutateCronJob?
    ensures var (t, out) := RunStage(w, o, g, Many(CronJob, items, true));
            out.Done? ==> SecuredAt(g, w.snap.objs, t.snap.objs, key)
  {
    QuietCall(w, o, g.app);
    var w1 := Arrive(w, o, g.app);
    var mid := UpsertAll(w1, o, g, items).0;
    var rest := ListOwned(w1.snap.objs, CronJob, g.app) - KeysOf(items);
    JobsAreSecured(w1, o, g, items, image, key);
    SweepQuietly(mid, o, g, rest);
    UntouchedByKeys(mid, Sweep(mid, o, g, rest).0, rest, key);
  }

  /** Before stage n: as it was while the cron job stage is to come, and with its security context derived afterwards. */
  ghost predicate JobUnderway(g: Goal, a: map<Key, Obj>, b: map<Key, Obj>, key: Key, n: nat) {
    if n <= 7 then SameAt(a, b, key) else SecuredAt(g, a, b, key)
  }

  lemma StageSecuresJob(a: map<Key, Obj>, v: World, o: Oracle, g: Goal, n: nat, image: Option<string>, key: Key)
    requires Calm(o, g, image) && ValidName(g.app) && key in KeysOf(CronJobItems(g.app, g.spec.cronJobs))
    requires key.kind == CronJob && JobUnderway(g, a, v.snap.objs, key, n)
    ensures var (t, out) := RunStage(v, o, g, StageAt(g, n)); out.Done? ==> JobUnderway(g, a, t.snap.objs, key, n + 1)
  {
    if n == 7 {
      ItemKinds(g.app, [], g.spec.cronJobs);
      JobStageSecures(v, o, g, CronJobItems(g.app, g.spec.cronJobs), image, key);
    } else {
      StageKeeps(v, o, g, n, key);
    }
  }

  lemma StagesSecureJob(w: World, o: Oracle, g: Goal, image: Option<string>, key: Key)
    requires Calm(o, g, image) && ValidName(g.app) && key in KeysOf(CronJobItems(g.app, g.spec.cronJobs))
    requires key.kind == CronJob
    ensures var (t, k, out) := RunStages(w, o, g, 0); out.Done? ==> SecuredAt(g, w.snap.objs, t.snap.objs, key)
  {
    var inv := (n: nat, v: World) => JobUnderway(g, w.snap.objs, v.snap.objs, key, n);
    var end := (t: World, k: nat, out: Outcome) => out.Done? ==> SecuredAt(g, w.snap.objs, t.snap.objs, key);
    forall n: nat, v | n < STAGES && inv(n, v)
      ensures Carries(o, g, n, v, inv, end)
    {
      StageSecuresJob(w.snap.objs, v, o, g, n, image, key);
    }
    StagesCarry(w, o, g, 0, inv, end);
  }

  /** A cron job has the spec's security context if and only if the spec has one or the cron job had none before. */
  lemma JobFollowsIff(w: World, o: Oracle, cfg: Config, app: NamespacedName, image: Option<string>, key: Key)
    requires GoodPass(w, o, cfg, app, image) && NamesCronJob(app, w.snap.apps[app].spec.cronJobs, key)
    ensures var before, after := Before(w.snap.objs, key).content.pod, Pass(w, o, cfg, app).0.snap.objs;
            var asked := w.snap.apps[app].spec.securityContext;
            key in after && (after[key].content.pod.security == asked <==> asked.Some? || before.security.None?)
  {
    var g, w1 := GoalOf(w, cfg, app), w.(calls := 1);
    CronJobKeys(app, g.spec.cronJobs, key);
    SteadyPassRunsAll(w, o, cfg, app);
    RunAllEnds(w1, o, g, image);
    StagesSecureJob(w1, o, g, image, key);
  }

  // ---------- A case of each ----------

  const HTTP := ContainerPort("http", 8080, "TCP", 0, "")

  /** One port, no host network, no security context. */
  const PLAIN_SPEC :=
    Spec(ImageSpec("", None, "Digest", None, None), [HTTP], None, None, None, [], [], false, None, "")

  /** What a spec with port 80, host network and a security context had left. */
  function LeftBehind(app: NamespacedName): map<Key, Obj> {
    var service := BLANK.(servicePorts := [ServicePort("http", "http", "TCP", 80, 0)]);
    var pod := BLANK_POD.(hostNetwork := true, dnsPolicy := "ClusterFirstWithHostNet", security := Some("privileged"));
    map[KeyOf(Service, app) := Obj(Some(OwnerRefOf(app)), None, service),
        KeyOf(Deployment, app) := Obj(Some(OwnerRefOf(app)), None, BLANK.(pod := pod))]
  }

  lemma LeftBehindIsOwned(g: Goal)
    requires ValidName(g.app)
    ensures Unobstructed(LeftBehind(g.app), g)
  {
    forall i: nat | i < STAGES
      ensures OursAt(LeftBehind(g.app), g, StageAt(g, i))
    {
    }
  }

  /** None of the three follows an edited spec: an error-free pass leaves all of them as they were. */
  lemma EditedSpecIsNotFollowed(cfg: Config, app: NamespacedName, image: string, choose: set<Key> -> Key)
    returns (w: World, o: Oracle)
    requires ValidName(app) && forall s :: s != {} ==> choose(s) in s
    ensures app in w.snap.apps && w.snap.apps[app].spec == PLAIN_SPEC && GoodPass(w, o, cfg, app, Some(image))
    ensures var after := Pass(w, o, cfg, app).0.snap.objs;
            && KeyOf(Service, app) in after && KeyOf(Deployment, app) in after
            && !AllNumbered(after[KeyOf(Service, app)].content.servicePorts, "http", 8080)
            && after[KeyOf(Deployment, app)].content.pod.hostNetwork
            && after[KeyOf(Deployment, app)].content.pod.security != None
  {
    var record := App(PLAIN_SPEC, Status("", 0, Some(Condition(Unknown, "Reconciling"))), true, false, false, 0);
    var snap := Snap(map[app := record], LeftBehind(app));
    w := World(snap, snap, 0, 0, []);
    o := Oracle((i: nat) => NoFault, (i: nat) => [], (i: nat, spec: ImageSpec) => Some(image),
                (i: nat, s: set<Key>) => choose(s), (i: nat) => 0);
    LeftBehindIsOwned(GoalOf(w, cfg, app));
    PassSucceedsIff(w, o, cfg, app, Some(image));
    ServiceNumberFollowsIff(w, o, cfg, app, Some(image), HTTP);
    PodFollowsIff(w, o, cfg, app, Some(image));
    var live := ServiceBefore(w, KeyOf(Service, app));
    assert live[0] in live && live[0].name == HTTP.name && live[0].port == 80;
  }
}
