/**
 What an error-free pass gives an Application, said in terms of its spec alone: which children exist, what the
 Deployment runs, which ports the services expose, what is scraped, and which requests the auth proxy guards.
 */
module Workloads {
  import opened Cluster
  import opened Convergence
  import opened Mutators
  import opened Names
  import opened Passes
  import opened PortMerge
  import opened Reconcile
  import opened Wrappers
  import Ingresses = IngressRoute

  ghost predicate Exists(objs: map<Key, Obj>, kind: Kind, name: NamespacedName) {
    KeyOf(kind, name) in objs
  }

  lemma OneHolds(objs: map<Key, Obj>, g: Goal, image: Option<string>, i: nat)
    requires Converged(objs, g, image, STAGES) && i < STAGES && StageAt(g, i).One?
    ensures var One(key, m, wanted) := StageAt(g, i);
            if wanted then Settled(objs, g, image, key, m) else key !in objs
  {
    assert StageHolds(objs, g, image, StageAt(g, i));
  }

  /** The child exists and is the Application's if wanted, and does not exist otherwise. */
  ghost predicate ExistsIff(objs: map<Key, Obj>, kind: Kind, name: NamespacedName, app: NamespacedName, wanted: bool) {
    if wanted then
      Exists(objs, kind, name) && objs[KeyOf(kind, name)].controller == Some(OwnerRef("yarotsky.me", "Application", app.name))
    else !Exists(objs, kind, name)
  }

  /** The load balancer's service goes by the Application's name with a suffix. */
  function LBName(app: NamespacedName): NamespacedName {
    NamespacedName(app.namespace, app.name + "-loadbalancer")
  }

  ghost predicate AsSpecified(objs: map<Key, Obj>, cfg: Config, app: NamespacedName, spec: Spec) {
    && ExistsIff(objs, ServiceAccount, app, app, true)
    && ExistsIff(objs, Service, app, app, spec.ports != [])
    && ExistsIff(objs, Service, LBName(app), app, spec.loadBalancer.Some?)
    && (cfg.supportsPrometheus ==>
          ExistsIff(objs, PodMonitor, app, app, spec.metrics.Some? && spec.metrics.value.enabled))
    && (cfg.supportsTraefik ==> ExistsIff(objs, IngressRoute, app, app, spec.ingress.Some?))
    && ExistsIff(objs, Deployment, app, app, true)
  }

  lemma MadeIsControlled(g: Goal, image: Option<string>, key: Key, m: Mutation, obj: Obj)
    requires Made(g, image, key, m, obj) && key.namespace != "" && key.kind != ClusterRoleBinding
    ensures obj.controller == Some(OwnerRef("yarotsky.me", "Application", g.app.name))
  {
    var base :| Desired(g, m, image, key, base) == Success(obj);
    WrittenObjectIsOwned(g, m, image, key, base);
  }

  lemma OneExistsIff(objs: map<Key, Obj>, g: Goal, image: Option<string>, i: nat, kind: Kind, name: NamespacedName)
    requires Converged(objs, g, image, STAGES) && i < STAGES && StageAt(g, i).One?
    requires StageAt(g, i).key == KeyOf(kind, name) && name.namespace == g.app.namespace && ValidName(g.app)
    ensures ExistsIff(objs, kind, name, g.app, StageAt(g, i).wanted)
  {
    OneHolds(objs, g, image, i);
    if StageAt(g, i).wanted {
      MadeIsControlled(g, image, KeyOf(kind, name), StageAt(g, i).m, objs[KeyOf(kind, name)]);
    }
  }

  lemma ConvergedAsSpecified(objs: map<Key, Obj>, g: Goal, image: Option<string>)
    requires Converged(objs, g, image, STAGES) && ValidName(g.app)
    ensures AsSpecified(objs, g.cfg, g.app, g.spec)
  {
    OneExistsIff(objs, g, image, 0, ServiceAccount, g.app);
    OneExistsIff(objs, g, image, 3, Service, g.app);
    OneExistsIff(objs, g, image, 4, Service, LBServiceName(g.app));
    if g.cfg.supportsPrometheus {
      OneExistsIff(objs, g, image, 5, PodMonitor, g.app);
    }
    if g.cfg.supportsTraefik {
      OneExistsIff(objs, g, image, 6, IngressRoute, g.app);
    }
    OneExistsIff(objs, g, image, 8, Deployment, g.app);
  }

  /** Exactly the children the spec asks for exist, and they are the Application's. */
  lemma ChildrenAreAsSpecified(w: World, o: Oracle, cfg: Config, app: NamespacedName, image: Option<string>)
    requires GoodPass(w, o, cfg, app, image)
    ensures AsSpecified(Pass(w, o, cfg, app).0.snap.objs, cfg, app, w.snap.apps[app].spec)
  {
    GoodPassConverges(w, o, cfg, app, image);
    ConvergedAsSpecified(Pass(w, o, cfg, app).0.snap.objs, GoalOf(w, cfg, app), image);
  }

  lemma MadeContent(g: Goal, image: Option<string>, key: Key, m: Mutation, obj: Obj) returns (before: Content)
    requires Made(g, image, key, m, obj)
    ensures Mutate(g, m, image, before) == Success(obj.content)
  {
    var base :| Desired(g, m, image, key, base) == Success(obj);
    before := base.content;
  }

  /** The Deployment runs the image the lookup answered, under the Application's own account, with the spec's ports. */
  lemma DeploymentRunsImage(w: World, o: Oracle, cfg: Config, app: NamespacedName, image: Option<string>)
    requires GoodPass(w, o, cfg, app, image)
    ensures var objs, spec := Pass(w, o, cfg, app).0.snap.objs, w.snap.apps[app].spec;
            && Exists(objs, Deployment, app)
            && var pod := objs[KeyOf(Deployment, app)].content.pod;
               && Some(pod.image) == image && pod.serviceAccount == app.name && pod.fields == spec.podFields
               && pod.container == app.name
               && (spec.hostNetwork ==> pod.hostNetwork && pod.dnsPolicy == "ClusterFirstWithHostNet")
               && (spec.securityContext.Some? ==> pod.security == spec.securityContext)
               && NameSet(PortNamesOf(pod.ports)) == NameSet(PortNamesOf(spec.ports))
  {
    GoodPassConverges(w, o, cfg, app, image);
    var objs, g := Pass(w, o, cfg, app).0.snap.objs, GoalOf(w, cfg, app);
    OneHolds(objs, g, image, 8);
    DeploymentMade(g, image, objs[KeyOf(Deployment, app)]);
  }

  lemma DeploymentMade(g: Goal, image: Option<string>, obj: Obj)
    requires Made(g, image, KeyOf(Deployment, g.app), MutateDeployment, obj)
    ensures var pod, spec := obj.content.pod, g.spec;
            && Some(pod.image) == image && pod.serviceAccount == g.app.name && pod.fields == spec.podFields
            && pod.container == g.app.name && pod.labels == g.app.name
            && (spec.hostNetwork ==> pod.hostNetwork && pod.dnsPolicy == "ClusterFirstWithHostNet")
            && (spec.securityContext.Some? ==> pod.security == spec.securityContext)
            && NameSet(PortNamesOf(pod.ports)) == NameSet(PortNamesOf(spec.ports))
  {
    var before := MadeContent(g, image, KeyOf(Deployment, g.app), MutateDeployment, obj);
    ShapesAreLawful();
    MergedNames(ContainerShape(), before.pod.ports, g.spec.ports);
  }

  /**
   After an error-free pass the status says what is deployed: the looked-up image, with the time noted if it changed, and
   as Ready the Deployment's availability where it has one. Nothing else of the Application is touched.
   */
  lemma StatusTellsDeployment(w: World, o: Oracle, cfg: Config, app: NamespacedName, image: Option<string>)
    requires GoodPass(w, o, cfg, app, image)
    ensures var t, before := Pass(w, o, cfg, app).0.snap, w.snap.apps[app];
            && Exists(t.objs, Deployment, app) && app in t.apps
            && var after, available := t.apps[app], t.objs[KeyOf(Deployment, app)].content.available;
               && Some(after.status.image) == image
               && after.status.ready == (if available.Some? then available else before.status.ready)
               && (after.status.image == before.status.image ==> after.status.imageTime == before.status.imageTime)
               && (after.status.image != before.status.image ==> exists n :: after.status.imageTime == o.clock(n))
               && after.(status := before.status, version := before.version) == before
  {
    DeploymentRunsImage(w, o, cfg, app, image);
    SteadyPassRunsAll(w, o, cfg, app);
    RunAllConverges(w.(calls := 1), o, GoalOf(w, cfg, app), image);
    var t, copy := Pass(w, o, cfg, app).0, w.snap.apps[app];
    var deployed := t.snap.objs[KeyOf(Deployment, app)];
    var n := RunStages(w.(calls := 1), o, GoalOf(w, cfg, app), 0).0.calls;
    assert t.snap.apps[app].(version := copy.version) == Observed(copy, deployed, o.clock(n));
  }

  /** The child selects pods by the Application's name. */
  ghost predicate Selects(objs: map<Key, Obj>, app: NamespacedName, key: Key) {
    key in objs && objs[key].content.selector == app.name
  }

  lemma StageSelects(objs: map<Key, Obj>, g: Goal, image: Option<string>, i: nat, key: Key, m: Mutation)
    requires Converged(objs, g, image, STAGES) && i < STAGES && StageAt(g, i) == One(key, m, true)
    requires || m == MutateService || (m == MutateLBService && g.spec.loadBalancer.Some?)
             || (m == MutatePodMonitor && g.spec.metrics.Some?)
    ensures Selects(objs, g.app, key)
  {
    OneHolds(objs, g, image, i);
    var before := MadeContent(g, image, key, m, objs[key]);
  }

  lemma ServiceSelects(objs: map<Key, Obj>, g: Goal, image: Option<string>)
    requires Converged(objs, g, image, STAGES) && g.spec.ports != []
    ensures Selects(objs, g.app, KeyOf(Service, g.app))
  {
    StageSelects(objs, g, image, 3, KeyOf(Service, g.app), MutateService);
  }

  lemma LBServiceSelects(objs: map<Key, Obj>, g: Goal, image: Option<string>)
    requires Converged(objs, g, image, STAGES) && g.spec.loadBalancer.Some?
    ensures Selects(objs, g.app, KeyOf(Service, LBServiceName(g.app)))
  {
    StageSelects(objs, g, image, 4, KeyOf(Service, LBServiceName(g.app)), MutateLBService);
  }

  lemma MonitorSelects(objs: map<Key, Obj>, g: Goal, image: Option<string>)
    requires Converged(objs, g, image, STAGES)
    requires g.cfg.supportsPrometheus && g.spec.metrics.Some? && g.spec.metrics.value.enabled
    ensures Selects(objs, g.app, KeyOf(PodMonitor, g.app))
  {
    StageSelects(objs, g, image, 5, KeyOf(PodMonitor, g.app), MutatePodMonitor);
  }

  lemma StageLabels(objs: map<Key, Obj>, g: Goal, image: Option<string>, i: nat, key: Key)
    requires Converged(objs, g, image, STAGES) && i < STAGES && StageAt(g, i) == One(key, MutateDeployment, true)
    ensures key in objs && objs[key].content.pod.labels == g.app.name
  {
    OneHolds(objs, g, image, i);
    var before := MadeContent(g, image, key, MutateDeployment, objs[key]);
  }

  lemma ConvergedLabels(objs: map<Key, Obj>, g: Goal, image: Option<string>)
    requires Converged(objs, g, image, STAGES)
    ensures KeyOf(Deployment, g.app) in objs && objs[KeyOf(Deployment, g.app)].content.pod.labels == g.app.name
  {
    StageLabels(objs, g, image, 8, KeyOf(Deployment, g.app));
  }

  /** The services and the monitor select exactly what the Deployment's pods are labelled with. */
  lemma SelectorsMatchPods(w: World, o: Oracle, cfg: Config, app: NamespacedName, image: Option<string>)
    requires GoodPass(w, o, cfg, app, image)
    ensures var objs, spec := Pass(w, o, cfg, app).0.snap.objs, w.snap.apps[app].spec;
            && Exists(objs, Deployment, app)
            && var labels := objs[KeyOf(Deployment, app)].content.pod.labels;
               && (spec.ports != [] ==>
                     Exists(objs, Service, app) && objs[KeyOf(Service, app)].content.selector == labels)
               && (spec.loadBalancer.Some? ==>
                     && Exists(objs, Service, LBName(app))
                     && objs[KeyOf(Service, LBName(app))].content.selector == labels)
               && (cfg.supportsPrometheus && spec.metrics.Some? && spec.metrics.value.enabled ==>
                     Exists(objs, PodMonitor, app) && objs[KeyOf(PodMonitor, app)].content.selector == labels)
  {
    GoodPassConverges(w, o, cfg, app, image);
    var objs, g := Pass(w, o, cfg, app).0.snap.objs, GoalOf(w, cfg, app);
    ConvergedLabels(objs, g, image);
    if g.spec.ports != [] {
      ServiceSelects(objs, g, image);
    }
    if g.spec.loadBalancer.Some? {
      LBServiceSelects(objs, g, image);
    }
    if cfg.supportsPrometheus && g.spec.metrics.Some? && g.spec.metrics.value.enabled {
      MonitorSelects(objs, g, image);
    }
  }

  /** A port of a merged list has a desired port's name, target and protocol. */
  ghost predicate Serves(p: ServicePort, ports: seq<ContainerPort>) {
    exists i :: 0 <= i < |ports| && p.name == p.targetPort == ports[i].name && p.protocol == ports[i].protocol
  }

  lemma MergedServes(actual: seq<ServicePort>, desired: seq<ServicePort>, ports: seq<ContainerPort>, p: ServicePort)
    requires forall d :: d in desired ==> Serves(d, ports)
    requires p in Merge(ServiceShape(), actual, desired)
    ensures Serves(p, ports)
  {
    if actual != [] {
      if p.name in NameSet(PortNames(ServiceShape(), actual)) {
        RetainedServicePort(actual, desired, p);
        var got, want :|
          && got in actual && want in desired && got.name == want.name == p.name
          && p == got.(targetPort := want.targetPort, protocol := want.protocol);
        assert Serves(want, ports);
      } else {
        MissingFromDesired(actual, desired, p);
      }
    }
  }

  lemma SurvivorIsNamed(actual: seq<ServicePort>, desired: seq<ServicePort>, p: ServicePort)
    requires p in Survivors(ServiceShape(), actual, desired)
    ensures p.name in NameSet(PortNames(ServiceShape(), actual))
  {
    var sh := ServiceShape();
    SurvivorOrigin(sh, actual, desired, p);
    var got, want :| got in actual && Wanted(sh, desired, sh.name(got)) == Some(want) && p == sh.graft(got, want);
    var i :| 0 <= i < |actual| && actual[i] == got;
    assert PortNames(sh, actual)[i] == p.name;
  }

  lemma MissingFromDesired(actual: seq<ServicePort>, desired: seq<ServicePort>, p: ServicePort)
    requires actual != [] && p in Merge(ServiceShape(), actual, desired)
    requires p.name !in NameSet(PortNames(ServiceShape(), actual))
    ensures p in desired
  {
    if p in Survivors(ServiceShape(), actual, desired) {
      SurvivorIsNamed(actual, desired, p);
    } else {
      MissingOrigin(ServiceShape(), NameSet(PortNames(ServiceShape(), actual)), desired, p);
    }
  }

  lemma AskedPortsServe(ports: seq<ContainerPort>)
    ensures forall d :: d in ServicePortsOf(ports) ==> Serves(d, ports)
  {
    forall d | d in ServicePortsOf(ports)
      ensures Serves(d, ports)
    {
      var i :| 0 <= i < |ports| && ServicePortsOf(ports)[i] == d;
      assert d == ServicePortOf(ports[i]);
    }
  }

  /** The service exposes the spec's port names, each towards a port of that name and its protocol. */
  lemma ServiceExposesPorts(w: World, o: Oracle, cfg: Config, app: NamespacedName, image: Option<string>)
    requires GoodPass(w, o, cfg, app, image) && w.snap.apps[app].spec.ports != []
    ensures var objs, ports := Pass(w, o, cfg, app).0.snap.objs, w.snap.apps[app].spec.ports;
            && Exists(objs, Service, app)
            && var c := objs[KeyOf(Service, app)].content;
               && NameSet(PortNames(ServiceShape(), c.servicePorts)) == NameSet(PortNamesOf(ports))
               && (forall p :: p in c.servicePorts ==> Serves(p, ports))
  {
    GoodPassConverges(w, o, cfg, app, image);
    var objs, g := Pass(w, o, cfg, app).0.snap.objs, GoalOf(w, cfg, app);
    OneHolds(objs, g, image, 3);
    ServiceMade(g, image, objs[KeyOf(Service, app)]);
  }

  lemma ServiceMade(g: Goal, image: Option<string>, obj: Obj)
    requires Made(g, image, KeyOf(Service, g.app), MutateService, obj)
    ensures NameSet(PortNames(ServiceShape(), obj.content.servicePorts)) == NameSet(PortNamesOf(g.spec.ports))
    ensures forall p :: p in obj.content.servicePorts ==> Serves(p, g.spec.ports)
  {
    var before := MadeContent(g, image, KeyOf(Service, g.app), MutateService, obj);
    var desired := ServicePortsOf(g.spec.ports);
    ShapesAreLawful();
    MergedNames(ServiceShape(), before.servicePorts, desired);
    assert PortNames(ServiceShape(), desired) == PortNamesOf(g.spec.ports);
    AskedPortsServe(g.spec.ports);
    forall p | p in Merge(ServiceShape(), before.servicePorts, desired)
      ensures Serves(p, g.spec.ports)
    {
      MergedServes(before.servicePorts, desired, g.spec.ports, p);
    }
  }

  lemma {:induction false} BalancedPortsServe(ports: seq<ContainerPort>, names: seq<string>)
    requires BalancedPorts(ports, names).Some?
    ensures forall d :: d in BalancedPorts(ports, names).value ==> Serves(d, ports)
    decreases |names|
  {
    if names != [] {
      var last := names[|names| - 1];
      BalancedPortsServe(ports, names[..|names| - 1]);
      var port := Wanted(ContainerShape(), ports, last).value;
      var i :| 0 <= i < |ports| && ports[i] == port;
      assert Serves(ServicePortOf(port), ports);
    }
  }

  /** The load balancer exposes exactly the asked names, all of them ports of the Application, under the asked host. */
  lemma LBServiceExposesPorts(w: World, o: Oracle, cfg: Config, app: NamespacedName, image: Option<string>)
    requires GoodPass(w, o, cfg, app, image) && w.snap.apps[app].spec.loadBalancer.Some?
    ensures var objs, spec := Pass(w, o, cfg, app).0.snap.objs, w.snap.apps[app].spec;
            && Exists(objs, Service, LBName(app))
            && var c, lb := objs[KeyOf(Service, LBName(app))].content, spec.loadBalancer.value;
               && c.balanced && c.dnsHost == lb.host
               && NameSet(PortNames(ServiceShape(), c.servicePorts)) == NameSet(lb.portNames)
               && NameSet(lb.portNames) <= NameSet(PortNamesOf(spec.ports))
               && (forall p :: p in c.servicePorts ==> Serves(p, spec.ports))
  {
    GoodPassConverges(w, o, cfg, app, image);
    var objs, g := Pass(w, o, cfg, app).0.snap.objs, GoalOf(w, cfg, app);
    OneHolds(objs, g, image, 4);
    LBServiceMade(g, image, objs[KeyOf(Service, LBServiceName(app))]);
  }

  lemma LBServiceMade(g: Goal, image: Option<string>, obj: Obj)
    requires g.spec.loadBalancer.Some? && Made(g, image, KeyOf(Service, LBServiceName(g.app)), MutateLBService, obj)
    ensures var c, lb := obj.content, g.spec.loadBalancer.value;
            && c.balanced && c.dnsHost == lb.host
            && NameSet(PortNames(ServiceShape(), c.servicePorts)) == NameSet(lb.portNames)
            && NameSet(lb.portNames) <= NameSet(PortNamesOf(g.spec.ports))
            && (forall p :: p in c.servicePorts ==> Serves(p, g.spec.ports))
  {
    var lb := g.spec.loadBalancer.value;
    var before := MadeContent(g, image, KeyOf(Service, LBServiceName(g.app)), MutateLBService, obj);
    var desired := BalancedPorts(g.spec.ports, lb.portNames).value;
    ShapesAreLawful();
    BalancedNames(g.spec.ports, lb.portNames);
    MergedNames(ServiceShape(), before.servicePorts, desired);
    BalancedPortsServe(g.spec.ports, lb.portNames);
    forall n | n in lb.portNames
      ensures n in PortNamesOf(g.spec.ports)
    {
      BalancedNamesKnown(g.spec.ports, lb.portNames, n);
    }
    forall p | p in Merge(ServiceShape(), before.servicePorts, desired)
      ensures Serves(p, g.spec.ports)
    {
      MergedServes(before.servicePorts, desired, g.spec.ports, p);
    }
  }

  lemma {:induction false} BalancedNamesKnown(ports: seq<ContainerPort>, names: seq<string>, n: string)
    requires BalancedPorts(ports, names).Some? && n in names
    ensures n in PortNamesOf(ports)
    decreases |names|
  {
    if n in names[..|names| - 1] {
      BalancedNamesKnown(ports, names[..|names| - 1], n);
    }
  }

  /** The monitor scrapes the named port, or the first called metrics or prometheus, on the asked path or /metrics. */
  lemma MonitorScrapes(w: World, o: Oracle, cfg: Config, app: NamespacedName, image: Option<string>)
    requires GoodPass(w, o, cfg, app, image) && cfg.supportsPrometheus
    requires var metrics := w.snap.apps[app].spec.metrics; metrics.Some? && metrics.value.enabled
    ensures var objs, spec := Pass(w, o, cfg, app).0.snap.objs, w.snap.apps[app].spec;
            && Exists(objs, PodMonitor, app)
            && var endpoint := objs[KeyOf(PodMonitor, app)].content.endpoint;
               && endpoint.Some?
               && endpoint.value.1 == (if spec.metrics.value.path != "" then spec.metrics.value.path else "/metrics")
               && (if spec.metrics.value.portName != "" then endpoint.value.0 == spec.metrics.value.portName
                   else FirstOf(PortNamesOf(spec.ports), {"metrics", "prometheus"}, endpoint.value.0))
  {
    GoodPassConverges(w, o, cfg, app, image);
    var objs, g := Pass(w, o, cfg, app).0.snap.objs, GoalOf(w, cfg, app);
    OneHolds(objs, g, image, 5);
    var before := MadeContent(g, image, KeyOf(PodMonitor, app), MutatePodMonitor, objs[KeyOf(PodMonitor, app)]);
    MetricsPortIsFirst(g.spec.ports);
  }

  /** A request to the host is served, and by every route that may serve it as the policy wants: how, and by whom. */
  ghost predicate RoutesServe(
    routes: seq<Ingresses.Route>, cfg: Config, app: NamespacedName, spec: Spec, ing: Ingresses.Ingress, path: string) {
    && (exists i: nat :: Ingresses.Selected(routes, ing.host, path, i))
    && (forall i: nat :: Ingresses.Selected(routes, ing.host, path, i) ==>
          routes[i].middlewares == Ingresses.Policy(cfg.ingress, ing, path))
    && Ingresses.GoesWhereWanted(routes, cfg.ingress, app, ing, PortNamesOf(spec.ports), path)
  }

  /**
   Every request to the host meets a route, with the auth middleware exactly where the policy wants it, and is sent to the
   Application's service or the auth service as it wants; the host's DNS record is to point at the configured target.
   */
  lemma RouteServesPolicy(
    w: World, o: Oracle, cfg: Config, app: NamespacedName, image: Option<string>, path: string)
    requires GoodPass(w, o, cfg, app, image) && cfg.supportsTraefik && w.snap.apps[app].spec.ingress.Some?
    requires Ingresses.LiteralPolicy(cfg.ingress, w.snap.apps[app].spec.ingress.value)
    ensures var objs, spec := Pass(w, o, cfg, app).0.snap.objs, w.snap.apps[app].spec;
            && Exists(objs, IngressRoute, app)
            && var c := objs[KeyOf(IngressRoute, app)].content;
               c.dnsTarget == cfg.ingress.cnameTarget && RoutesServe(c.routes, cfg, app, spec, spec.ingress.value, path)
  {
    GoodPassConverges(w, o, cfg, app, image);
    var objs, g := Pass(w, o, cfg, app).0.snap.objs, GoalOf(w, cfg, app);
    OneHolds(objs, g, image, 6);
    RouteMade(g, image, objs[KeyOf(IngressRoute, app)], path);
  }

  lemma RouteMade(g: Goal, image: Option<string>, obj: Obj, path: string)
    requires g.spec.ingress.Some? && Ingresses.LiteralPolicy(g.cfg.ingress, g.spec.ingress.value)
    requires Made(g, image, KeyOf(IngressRoute, g.app), MutateIngressRoute, obj)
    ensures obj.content.dnsTarget == g.cfg.ingress.cnameTarget
    ensures RoutesServe(obj.content.routes, g.cfg, g.app, g.spec, g.spec.ingress.value, path)
  {
    var before := MadeContent(g, image, KeyOf(IngressRoute, g.app), MutateIngressRoute, obj);
    var ing, ports := g.spec.ingress.value, PortNamesOf(g.spec.ports);
    Ingresses.CompiledTableMeansPolicy(g.cfg.ingress, g.app, ing, ports, path);
    Ingresses.CompiledTableGoesWhereWanted(g.cfg.ingress, g.app, ing, ports, path);
  }
}
