/** What each child object should look like: the mutators, as functions and as the in-place edits they are. */
module Mutators {
  import opened Cluster
  import opened Names
  import opened PortMerge
  import opened Wrappers
  import Ingresses = IngressRoute

  datatype Error =
    | Unavailable | NotOwned | Gone | AlreadyExists | VersionGiven | AlreadyOwned | Conflict
    | ImageCheckFailed | UnknownLBServicePort | NoMetricsPort | IngressFailed(error: Ingresses.IngressError)

  datatype Config = Config(ingress: Ingresses.Config, supportsPrometheus: bool, supportsTraefik: bool)

  /** What a pass is for: the configuration, the Application's name, and the spec of its local copy. */
  datatype Goal = Goal(cfg: Config, app: NamespacedName, spec: Spec)

  datatype Mutation =
    | MutateNothing
    | MutateBinding(role: RoleRef)
    | MutateService
    | MutateLBService
    | MutatePodMonitor
    | MutateIngressRoute
    | MutateCronJob(job: CronJobSpec)
    | MutateDeployment

  function ServicePortOf(p: ContainerPort): ServicePort {
    ServicePort(p.name, p.name, p.protocol, p.containerPort, 0)
  }

  function ServicePortsOf(ports: seq<ContainerPort>): (r: seq<ServicePort>)
    ensures |r| == |ports| && forall i :: 0 <= i < |ports| ==> r[i] == ServicePortOf(ports[i])
  {
    seq(|ports|, i requires 0 <= i < |ports| => ServicePortOf(ports[i]))
  }

  /** The named ports in the order asked for; an unknown name fails. */
  function BalancedPorts(ports: seq<ContainerPort>, names: seq<string>): Option<seq<ServicePort>> {
    if names == [] then Some([])
    else
      var before := BalancedPorts(ports, names[..|names| - 1]);
      var port := Wanted(ContainerShape(), ports, names[|names| - 1]);
      if before.None? || port.None? then None else Some(before.value + [ServicePortOf(port.value)])
  }

  function MetricsPort(explicit: string, ports: seq<ContainerPort>): string {
    if explicit != "" then explicit
    else if ports == [] then ""
    else if ports[0].name == "metrics" || ports[0].name == "prometheus" then ports[0].name
    else MetricsPort("", ports[1..])
  }

  function WithPod(g: Goal, pod: Pod, labels: string, image: string): Pod {
    pod.(labels := labels, serviceAccount := g.app.name, container := g.app.name, image := image,
         security := if g.spec.securityContext.Some? then g.spec.securityContext else pod.security)
  }

  /** Host network, DNS policy and security context are set when asked for and never cleared. */
  function DeploymentPod(g: Goal, pod: Pod, image: string): Pod {
    var base := WithPod(g, pod, g.app.name, image);
    base.(fields := g.spec.podFields,
          ports := Merge(ContainerShape(), pod.ports, g.spec.ports),
          hostNetwork := g.spec.hostNetwork || pod.hostNetwork,
          dnsPolicy := if g.spec.hostNetwork then "ClusterFirstWithHostNet" else pod.dnsPolicy)
  }

  function PortNamesOf(ports: seq<ContainerPort>): seq<string> {
    PortNames(ContainerShape(), ports)
  }

  function Mutate(g: Goal, m: Mutation, image: Option<string>, c: Content): Result<Content, Error> {
    match m
    case MutateNothing => Success(c)
    case MutateBinding(role) => Success(c.(subject := Some(g.app), role := Some(role)))
    case MutateService =>
      Success(c.(servicePorts := Merge(ServiceShape(), c.servicePorts, ServicePortsOf(g.spec.ports)),
                 selector := g.app.name))
    case MutateLBService =>
      if g.spec.loadBalancer.None? then Success(c)
      else (
        match BalancedPorts(g.spec.ports, g.spec.loadBalancer.value.portNames)
        case None => Failure(UnknownLBServicePort)
        case Some(ports) =>
          Success(c.(dnsHost := g.spec.loadBalancer.value.host, balanced := true,
                     servicePorts := Merge(ServiceShape(), c.servicePorts, ports), selector := g.app.name))
      )
    case MutatePodMonitor =>
      if g.spec.metrics.None? then Success(c)
      else
        var port := MetricsPort(g.spec.metrics.value.portName, g.spec.ports);
        var path := if g.spec.metrics.value.path == "" then "/metrics" else g.spec.metrics.value.path;
        if port == "" then Failure(NoMetricsPort)
        else Success(c.(endpoint := Some((port, path)), selector := g.app.name))
    case MutateIngressRoute =>
      if g.spec.ingress.None? then Success(c)
      else (
        match Ingresses.Compile(g.cfg.ingress, g.app, g.spec.ingress.value, PortNamesOf(g.spec.ports))
        case Failure(e) => Failure(IngressFailed(e))
        case Success(routes) => Success(c.(routes := routes, dnsTarget := g.cfg.ingress.cnameTarget))
      )
    case MutateCronJob(job) =>
      if image.None? then Failure(ImageCheckFailed)
      else Success(c.(schedule := job.schedule,
                      pod := WithPod(g, c.pod, job.name, image.value).(fields := job.command)))
    case MutateDeployment =>
      if image.None? then Failure(ImageCheckFailed)
      else Success(c.(pod := DeploymentPod(g, c.pod, image.value)))
  }

  // ---------- When a mutator succeeds ----------

  predicate KnownBalancedPorts(g: Goal) {
    g.spec.loadBalancer.Some? ==> forall n :: n in g.spec.loadBalancer.value.portNames ==> n in PortNamesOf(g.spec.ports)
  }

  predicate KnownMetricsPort(g: Goal) {
    g.spec.metrics.Some? ==>
      || g.spec.metrics.value.portName != ""
      || "metrics" in PortNamesOf(g.spec.ports) || "prometheus" in PortNamesOf(g.spec.ports)
  }

  predicate ValidIngress(g: Goal) {
    g.spec.ingress.Some? ==> Ingresses.Compilable(g.cfg.ingress, g.spec.ingress.value, PortNamesOf(g.spec.ports))
  }

  /** What the spec must get right for the mutator to succeed. */
  predicate CanSucceed(g: Goal, m: Mutation) {
    match m
    case MutateLBService => KnownBalancedPorts(g)
    case MutatePodMonitor => KnownMetricsPort(g)
    case MutateIngressRoute => ValidIngress(g)
    case _ => true
  }

  predicate NeedsImage(m: Mutation) {
    m.MutateCronJob? || m.MutateDeployment?
  }

  lemma {:induction false} BalancesIffKnown(ports: seq<ContainerPort>, names: seq<string>)
    ensures BalancedPorts(ports, names).Some? <==> forall n :: n in names ==> n in PortNamesOf(ports)
    decreases |names|
  {
    if names != [] {
      var before, last := names[..|names| - 1], names[|names| - 1];
      BalancesIffKnown(ports, before);
      assert names == before + [last] && last in names;
      assert forall n :: n in before ==> n in names;
    }
  }

  lemma {:induction false} MetricsPortIffKnown(ports: seq<ContainerPort>)
    ensures var port := MetricsPort("", ports);
            && (port != "" <==> "metrics" in PortNamesOf(ports) || "prometheus" in PortNamesOf(ports))
            && (port != "" ==> port in {"metrics", "prometheus"} && port in PortNamesOf(ports))
  {
    if ports != [] {
      MetricsPortIffKnown(ports[1..]);
      assert PortNamesOf(ports) == [ports[0].name] + PortNamesOf(ports[1..]);
    }
  }

  lemma {:induction false} MetricsPortIsFirst(ports: seq<ContainerPort>)
    ensures MetricsPort("", ports) != "" ==>
              FirstOf(PortNamesOf(ports), {"metrics", "prometheus"}, MetricsPort("", ports))
  {
    if ports != [] {
      var names, rest := PortNamesOf(ports), PortNamesOf(ports[1..]);
      MetricsPortIsFirst(ports[1..]);
      assert names[1..] == rest;
      if ports[0].name in {"metrics", "prometheus"} {
        assert FirstOf(names, {"metrics", "prometheus"}, names[0]);
      } else if MetricsPort("", ports[1..]) != "" {
        FirstOfRest(names, {"metrics", "prometheus"}, MetricsPort("", ports[1..]));
      }
    }
  }

  /** Success is up to the spec and the image lookup, never to the object. */
  lemma SucceedsIff(g: Goal, m: Mutation, image: Option<string>, c: Content)
    ensures Mutate(g, m, image, c).Success? <==> CanSucceed(g, m) && (NeedsImage(m) ==> image.Some?)
  {
    match m
    case MutateLBService =>
      if g.spec.loadBalancer.Some? {
        BalancesIffKnown(g.spec.ports, g.spec.loadBalancer.value.portNames);
      }
    case MutatePodMonitor => MetricsPortIffKnown(g.spec.ports);
    case MutateIngressRoute =>
      if g.spec.ingress.Some? {
        Ingresses.CompilesIffCompilable(g.cfg.ingress, g.app, g.spec.ingress.value, PortNamesOf(g.spec.ports));
      }
    case _ =>
  }

  /** Whether the mutator edits objects at all: a service account is only owned. */
  predicate CanChange(g: Goal, m: Mutation) {
    && CanSucceed(g, m) && m != MutateNothing
    && (m.MutateLBService? ==> g.spec.loadBalancer.Some?)
    && (m.MutatePodMonitor? ==> g.spec.metrics.Some?)
    && (m.MutateIngressRoute? ==> g.spec.ingress.Some?)
  }

  /** An object the mutator changes, and that stays different from another whatever the mutator does. */
  function Contrast(g: Goal, m: Mutation, other: Content): Content {
    BLANK.(available := if other.available.None? then Some(Condition(True, "")) else None,
           selector := g.app.name + "-old", dnsTarget := g.cfg.ingress.cnameTarget + "-old",
           schedule := if m.MutateCronJob? then m.job.schedule + "-old" else "",
           pod := BLANK_POD.(image := ""))
  }

  lemma ContrastChanges(g: Goal, m: Mutation, image: string, other: Content)
    requires CanChange(g, m) && image != ""
    ensures var c := Contrast(g, m, other);
            var r := Mutate(g, m, Some(image), c);
            r.Success? && r.value != c && r.value != other
  {
    var c := Contrast(g, m, other);
    SucceedsIff(g, m, Some(image), c);
    var r := Mutate(g, m, Some(image), c);
    assert r.value.available == c.available;
    assert |c.selector| > |g.app.name| && |c.dnsTarget| > |g.cfg.ingress.cnameTarget|;
    assert m.MutateCronJob? ==> |c.schedule| > |m.job.schedule|;
  }

  lemma UnchangingIsIdentity(g: Goal, m: Mutation, image: Option<string>, c: Content)
    requires !CanChange(g, m) && Mutate(g, m, image, c).Success?
    ensures Mutate(g, m, image, c) == Success(c)
  {
    SucceedsIff(g, m, image, c);
  }

  // ---------- The owner ----------

  function SetOwner(app: NamespacedName, key: Key, obj: Obj): Result<Obj, Error> {
    if key.namespace == "" then Success(obj.(primary := Some(PrimaryOf(app))))
    else if obj.controller.Some? && obj.controller.value != OwnerRefOf(app) then Failure(AlreadyOwned)
    else Success(obj.(controller := Some(OwnerRefOf(app))))
  }

  /** The object a create or patch aims for, from the object it starts from. */
  function Desired(g: Goal, m: Mutation, image: Option<string>, key: Key, base: Obj): Result<Obj, Error> {
    match Mutate(g, m, image, base.content)
    case Failure(e) => Failure(e)
    case Success(c) => SetOwner(g.app, key, base.(content := c))
  }

  predicate TouchesPorts(m: Mutation) {
    m.MutateService? || m.MutateLBService? || m.MutateDeployment?
  }

  /** The port lists a spec asks for are merge-stable; distinct port names are enough. */
  ghost predicate StablePorts(spec: Spec) {
    && Stable(ServiceShape(), ServicePortsOf(spec.ports))
    && Stable(ContainerShape(), spec.ports)
    && (spec.loadBalancer.Some? ==>
          var ports := BalancedPorts(spec.ports, spec.loadBalancer.value.portNames);
          ports.Some? ==> Stable(ServiceShape(), ports.value))
  }

  lemma {:induction false} BalancedNames(ports: seq<ContainerPort>, names: seq<string>)
    requires BalancedPorts(ports, names).Some?
    ensures PortNames(ServiceShape(), BalancedPorts(ports, names).value) == names
  {
    if names != [] {
      BalancedNames(ports, names[..|names| - 1]);
      assert names == names[..|names| - 1] + [names[|names| - 1]];
    }
  }

  lemma DistinctPortsAreStable(spec: Spec)
    requires Distinct(PortNamesOf(spec.ports))
    requires spec.loadBalancer.Some? ==> Distinct(spec.loadBalancer.value.portNames)
    ensures StablePorts(spec)
  {
    ShapesAreLawful();
    assert PortNames(ServiceShape(), ServicePortsOf(spec.ports)) == PortNamesOf(spec.ports);
    DistinctNamesAreStable(ServiceShape(), ServicePortsOf(spec.ports));
    DistinctNamesAreStable(ContainerShape(), spec.ports);
    if spec.loadBalancer.Some? && BalancedPorts(spec.ports, spec.loadBalancer.value.portNames).Some? {
      var lb := spec.loadBalancer.value;
      BalancedNames(spec.ports, lb.portNames);
      DistinctNamesAreStable(ServiceShape(), BalancedPorts(spec.ports, lb.portNames).value);
    }
  }

  /** Mutating a mutated object changes nothing, whatever object it started from. */
  lemma MutateIsIdempotent(g: Goal, m: Mutation, image: Option<string>, c: Content)
    requires (TouchesPorts(m) ==> StablePorts(g.spec)) && Mutate(g, m, image, c).Success?
    ensures var once := Mutate(g, m, image, c).value;
            Mutate(g, m, image, once) == Success(once)
  {
    ShapesAreLawful();
    match m
    case MutateService => MergeIsFixpoint(ServiceShape(), c.servicePorts, ServicePortsOf(g.spec.ports));
    case MutateLBService =>
      if g.spec.loadBalancer.Some? {
        var ports := BalancedPorts(g.spec.ports, g.spec.loadBalancer.value.portNames).value;
        MergeIsFixpoint(ServiceShape(), c.servicePorts, ports);
      }
    case MutateDeployment => MergeIsFixpoint(ContainerShape(), c.pod.ports, g.spec.ports);
    case _ =>
  }

  /** The goal of a patch is reached by one patch. */
  lemma DesiredIsIdempotent(g: Goal, m: Mutation, image: Option<string>, key: Key, base: Obj)
    requires (TouchesPorts(m) ==> StablePorts(g.spec)) && Desired(g, m, image, key, base).Success?
    ensures var once := Desired(g, m, image, key, base).value;
            Desired(g, m, image, key, once) == Success(once)
  {
    MutateIsIdempotent(g, m, image, base.content);
  }

  /** With any ports at all, duplicate names included, mutating three times is mutating twice. */
  lemma TwoMutationsSettle(g: Goal, m: Mutation, image: Option<string>, c: Content)
    requires Mutate(g, m, image, c).Success?
    ensures var once := Mutate(g, m, image, c).value;
            var twice := Mutate(g, m, image, once);
            twice.Success? && Mutate(g, m, image, twice.value) == twice
  {
    ShapesAreLawful();
    var once := Mutate(g, m, image, c).value;
    SucceedsIff(g, m, image, c);
    SucceedsIff(g, m, image, once);
    match m
    case MutateService => TwoMergesSettle(ServiceShape(), c.servicePorts, ServicePortsOf(g.spec.ports));
    case MutateLBService =>
      if g.spec.loadBalancer.Some? {
        var ports := BalancedPorts(g.spec.ports, g.spec.loadBalancer.value.portNames).value;
        TwoMergesSettle(ServiceShape(), c.servicePorts, ports);
      }
    case MutateDeployment => TwoMergesSettle(ContainerShape(), c.pod.ports, g.spec.ports);
    case _ =>
  }

  /** Two patches reach what a patch aims for, whatever ports the spec asks for. */
  lemma TwoPatchesSettle(g: Goal, m: Mutation, image: Option<string>, key: Key, base: Obj)
    requires Desired(g, m, image, key, base).Success?
    ensures var once := Desired(g, m, image, key, base).value;
            var twice := Desired(g, m, image, key, once);
            twice.Success? && Desired(g, m, image, key, twice.value) == twice
  {
    TwoMutationsSettle(g, m, image, base.content);
  }

  /** The owner of a written object, in its fields: the controller reference, or both annotations; the other stays. */
  lemma WrittenObjectIsOwned(g: Goal, m: Mutation, image: Option<string>, key: Key, base: Obj)
    requires Desired(g, m, image, key, base).Success?
    requires key.namespace == "" <==> key.kind == ClusterRoleBinding
    ensures var obj := Desired(g, m, image, key, base).value;
            if key.kind == ClusterRoleBinding then
              && obj.primary == Some(Primary("yarotsky.me", "Application", g.app.namespace + "/" + g.app.name))
              && obj.controller == base.controller
            else
              obj.controller == Some(OwnerRef("yarotsky.me", "Application", g.app.name)) && obj.primary == base.primary
    ensures key.kind == ClusterRoleBinding || key.namespace == g.app.namespace ==>
              !Stranger(g.app, key, Desired(g, m, image, key, base).value)
  {
  }

  // ---------- The edits in place ----------

  /** An object as the controller holds it in memory. */
  class Child {
    var controller: Option<OwnerRef>
    var primary: Option<Primary>
    var content: Content
    /** It was read from the server, so it carries a resource version. */
    var versioned: bool

    constructor ()
      ensures Value() == NEW_OBJ && !versioned
    {
      controller, primary, content, versioned := None, None, BLANK, false;
    }

    function Value(): Obj
      reads this
    {
      Obj(controller, primary, content)
    }

    method Fill(obj: Obj)
      modifies this
      ensures Value() == obj && versioned
    {
      controller, primary, content, versioned := obj.controller, obj.primary, obj.content, true;
    }
  }

  method EditService(g: Goal, child: Child)
    modifies child`content
    ensures Success(child.content) == Mutate(g, MutateService, None, old(child.content))
  {
    var ports: seq<ServicePort> := [];
    for i := 0 to |g.spec.ports|
      invariant ports == ServicePortsOf(g.spec.ports[..i])
      invariant child.content == old(child.content)
    {
      ports := ports + [ServicePortOf(g.spec.ports[i])];
    }
    assert g.spec.ports[..|g.spec.ports|] == g.spec.ports;
    var merged := ReconcileServicePorts(child.content.servicePorts, ports);
    child.content := child.content.(servicePorts := merged);
    child.content := child.content.(selector := g.app.name);
  }

  /** An unknown port name is found before anything is assigned. */
  method EditLBService(g: Goal, child: Child) returns (error: Option<Error>)
    requires g.spec.loadBalancer.Some?
    modifies child`content
    ensures match Mutate(g, MutateLBService, None, old(child.content))
            case Success(c) => error.None? && child.content == c
            case Failure(e) => error == Some(e) && child.content == old(child.content)
  {
    var lb := g.spec.loadBalancer.value;
    var byName := IndexByName(ContainerShape(), g.spec.ports);
    var ports: seq<ServicePort> := [];
    for i := 0 to |lb.portNames|
      invariant BalancedPorts(g.spec.ports, lb.portNames[..i]) == Some(ports)
      invariant child.content == old(child.content)
    {
      var n := lb.portNames[i];
      assert lb.portNames[..i + 1][..i] == lb.portNames[..i];
      if n !in byName {
        UnknownNameFails(g.spec.ports, lb.portNames, i);
        return Some(UnknownLBServicePort);
      }
      ports := ports + [ServicePortOf(byName[n])];
    }
    assert lb.portNames[..|lb.portNames|] == lb.portNames;
    child.content := child.content.(dnsHost := lb.host);
    child.content := child.content.(balanced := true);
    var merged := ReconcileServicePorts(child.content.servicePorts, ports);
    child.content := child.content.(servicePorts := merged);
    child.content := child.content.(selector := g.app.name);
    return None;
  }

  lemma {:induction false} UnknownNameFails(ports: seq<ContainerPort>, names: seq<string>, i: nat)
    requires i < |names| && Wanted(ContainerShape(), ports, names[i]).None?
    ensures BalancedPorts(ports, names).None?
    decreases |names|
  {
    if i < |names| - 1 {
      UnknownNameFails(ports, names[..|names| - 1], i);
    }
  }

  method EditDeployment(g: Goal, image: Option<string>, child: Child) returns (error: Option<Error>)
    modifies child`content
    ensures match Mutate(g, MutateDeployment, image, old(child.content))
            case Success(c) => error.None? && child.content == c
            case Failure(e) => error == Some(e) && child.content == old(child.content)
  {
    if image.None? {
      return Some(ImageCheckFailed);
    }
    var pod := child.content.pod.(labels := g.app.name, serviceAccount := g.app.name);
    if g.spec.hostNetwork {
      pod := pod.(hostNetwork := true);
      pod := pod.(dnsPolicy := "ClusterFirstWithHostNet");
    }
    pod := pod.(container := g.app.name, image := image.value, fields := g.spec.podFields);
    var merged := ReconcileContainerPorts(pod.ports, g.spec.ports);
    pod := pod.(ports := merged);
    if g.spec.securityContext.Some? {
      pod := pod.(security := g.spec.securityContext);
    }
    child.content := child.content.(pod := pod);
    return None;
  }

  method EditCronJob(g: Goal, job: CronJobSpec, image: Option<string>, child: Child) returns (error: Option<Error>)
    modifies child`content
    ensures match Mutate(g, MutateCronJob(job), image, old(child.content))
            case Success(c) => error.None? && child.content == c
            case Failure(e) => error == Some(e) && child.content == old(child.content)
  {
    if image.None? {
      return Some(ImageCheckFailed);
    }
    var pod := child.content.pod.(labels := job.name, serviceAccount := g.app.name);
    child.content := child.content.(schedule := job.schedule);
    pod := pod.(container := g.app.name, image := image.value, fields := job.command);
    if g.spec.securityContext.Some? {
      pod := pod.(security := g.spec.securityContext);
    }
    child.content := child.content.(pod := pod);
    return None;
  }

  method FindMetricsPort(explicit: string, ports: seq<ContainerPort>) returns (port: string)
    ensures port == MetricsPort(explicit, ports)
  {
    port := explicit;
    if port == "" {
      var i := 0;
      while i < |ports|
        invariant 0 <= i <= |ports|
        invariant MetricsPort("", ports) == MetricsPort("", ports[i..])
      {
        assert ports[i..][1..] == ports[i + 1..];
        if ports[i].name == "metrics" || ports[i].name == "prometheus" {
          return ports[i].name;
        }
        i := i + 1;
      }
    }
  }

  /** Runs the mutator of a child on the object, as the callback of a create-or-patch does. */
  method RunMutator(g: Goal, m: Mutation, image: Option<string>, child: Child) returns (error: Option<Error>)
    modifies child`content
    ensures match Mutate(g, m, image, old(child.content))
            case Success(c) => error.None? && child.content == c
            case Failure(e) => error == Some(e)
  {
    error := None;
    match m
    case MutateNothing =>
    case MutateBinding(role) =>
      child.content := child.content.(subject := Some(g.app));
      child.content := child.content.(role := Some(role));
    case MutateService => EditService(g, child);
    case MutateLBService =>
      if g.spec.loadBalancer.Some? {
        error := EditLBService(g, child);
      }
    case MutatePodMonitor =>
      if g.spec.metrics.Some? {
        var port := FindMetricsPort(g.spec.metrics.value.portName, g.spec.ports);
        if port == "" {
          return Some(NoMetricsPort);
        }
        var path := g.spec.metrics.value.path;
        if path == "" {
          path := "/metrics";
        }
        child.content := child.content.(endpoint := Some((port, path)), selector := g.app.name);
      }
    case MutateIngressRoute =>
      if g.spec.ingress.Some? {
        var route := new Ingresses.RouteObject(map[], child.content.routes);
        var failed :=
          Ingresses.Mutate(g.cfg.ingress, g.app, g.spec.ingress.value, PortNamesOf(g.spec.ports), route);
        if failed.Some? {
          return Some(IngressFailed(failed.value));
        }
        child.content := child.content.(routes := route.routes, dnsTarget := route.annotations[Ingresses.DNS_TARGET]);
      }
    case MutateCronJob(job) => error := EditCronJob(g, job, image, child);
    case MutateDeployment => error := EditDeployment(g, image, child);
  }
}
