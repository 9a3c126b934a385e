/**
 The port mergers of the service, load-balancer and deployment mutators.

 Both mergers follow one scheme, which `Merge` states for an arbitrary kind of port: a `Shape` says what the name
 of a port is and which fields of a live port are overwritten from the desired one.
 */
module PortMerge {
  import opened Wrappers

  datatype ServicePort = ServicePort(name: string, targetPort: string, protocol: string, port: int, nodePort: int)

  datatype ContainerPort =
    ContainerPort(name: string, containerPort: int, protocol: string, hostPort: int, hostIP: string)

  datatype Shape<!P> = Shape(name: P -> string, graft: (P, P) -> P)

  /** A service port keeps its own number (and node port); target and protocol follow the desired port. */
  function ServiceShape(): Shape<ServicePort> {
    Shape((p: ServicePort) => p.name,
          (got: ServicePort, want: ServicePort) => got.(targetPort := want.targetPort, protocol := want.protocol))
  }

  /** A container port keeps everything but its number and protocol. */
  function ContainerShape(): Shape<ContainerPort> {
    Shape((p: ContainerPort) => p.name,
          (got: ContainerPort, want: ContainerPort) =>
            got.(containerPort := want.containerPort, protocol := want.protocol))
  }

  /** Grafting keeps the name, is idempotent, and changes nothing when a port is grafted onto itself. */
  ghost predicate Lawful<P(!new)>(sh: Shape<P>) {
    && (forall got, want :: sh.name(sh.graft(got, want)) == sh.name(got))
    && (forall got, want :: sh.graft(sh.graft(got, want), want) == sh.graft(got, want))
    && (forall p :: sh.graft(p, p) == p)
  }

  function PortNames<P>(sh: Shape<P>, ports: seq<P>): (r: seq<string>)
    ensures |r| == |ports|
    ensures forall i :: 0 <= i < |ports| ==> r[i] == sh.name(ports[i])
  {
    seq(|ports|, i requires 0 <= i < |ports| => sh.name(ports[i]))
  }

  ghost predicate Distinct<T>(s: seq<T>) {
    forall i, j :: 0 <= i < j < |s| ==> s[i] != s[j]
  }

  /** The last desired port of that name: later entries overwrite earlier ones in the by-name table. */
  function Wanted<P>(sh: Shape<P>, desired: seq<P>, name: string): (r: Option<P>)
    ensures r.Some? <==> name in PortNames(sh, desired)
    ensures r.Some? ==> r.value in desired && sh.name(r.value) == name
  {
    if desired == [] then None
    else
      var last := |desired| - 1;
      assert desired == desired[..last] + [desired[last]];
      assert PortNames(sh, desired) == PortNames(sh, desired[..last]) + [sh.name(desired[last])];
      if sh.name(desired[last]) == name then Some(desired[last]) else Wanted(sh, desired[..last], name)
  }

  ghost predicate LastNamed<P>(sh: Shape<P>, desired: seq<P>, name: string, i: nat) {
    && i < |desired| && sh.name(desired[i]) == name
    && forall j {:trigger desired[j]} :: i < j < |desired| ==> sh.name(desired[j]) != name
  }

  /** Later entries win: the wanted port is the last of its name. */
  lemma {:induction false} WantedIsLast<P>(sh: Shape<P>, desired: seq<P>, name: string, i: nat)
    requires LastNamed(sh, desired, name, i)
    ensures Wanted(sh, desired, name) == Some(desired[i])
  {
    var last := |desired| - 1;
    if i < last {
      assert sh.name(desired[last]) != name;
      WantedIsLast(sh, desired[..last], name, i);
    }
  }

  function Survivors<P>(sh: Shape<P>, actual: seq<P>, desired: seq<P>): seq<P> {
    if actual == [] then []
    else
      var last := |actual| - 1;
      var want := Wanted(sh, desired, sh.name(actual[last]));
      Survivors(sh, actual[..last], desired) + if want.Some? then [sh.graft(actual[last], want.value)] else []
  }

  function Missing<P>(sh: Shape<P>, present: set<string>, desired: seq<P>): seq<P> {
    if desired == [] then []
    else
      var last := |desired| - 1;
      Missing(sh, present, desired[..last]) + if sh.name(desired[last]) in present then [] else [desired[last]]
  }

  function NameSet(names: seq<string>): set<string> {
    set n | n in names
  }

  function Merge<P>(sh: Shape<P>, actual: seq<P>, desired: seq<P>): seq<P> {
    if actual == [] then desired
    else Survivors(sh, actual, desired) + Missing(sh, NameSet(PortNames(sh, actual)), desired)
  }

  function Filter(names: seq<string>, keep: set<string>): seq<string> {
    if names == [] then []
    else
      var last := |names| - 1;
      Filter(names[..last], keep) + if names[last] in keep then [names[last]] else []
  }

  lemma {:induction false} FilterMembers(names: seq<string>, keep: set<string>)
    ensures forall n :: n in Filter(names, keep) <==> n in names && n in keep
  {
    if names != [] {
      var last := |names| - 1;
      FilterMembers(names[..last], keep);
      assert names == names[..last] + [names[last]];
    }
  }

  lemma {:induction false} SurvivorNames<P(!new)>(sh: Shape<P>, actual: seq<P>, desired: seq<P>)
    requires Lawful(sh)
    ensures PortNames(sh, Survivors(sh, actual, desired)) == Filter(PortNames(sh, actual), NameSet(PortNames(sh, desired)))
  {
    if actual != [] {
      var last := |actual| - 1;
      SurvivorNames(sh, actual[..last], desired);
      assert PortNames(sh, actual)[..last] == PortNames(sh, actual[..last]);
    }
  }

  lemma {:induction false} MissingNames<P(!new)>(sh: Shape<P>, actual: seq<P>, desired: seq<P>, all: set<string>)
    requires forall i :: 0 <= i < |desired| ==> sh.name(desired[i]) in all
    ensures PortNames(sh, Missing(sh, NameSet(PortNames(sh, actual)), desired))
         == Filter(PortNames(sh, desired), all - NameSet(PortNames(sh, actual)))
  {
    if desired != [] {
      var last := |desired| - 1;
      MissingNames(sh, actual, desired[..last], all);
      assert PortNames(sh, desired)[..last] == PortNames(sh, desired[..last]);
    }
  }

  lemma {:induction false} NothingPresent<P>(sh: Shape<P>, desired: seq<P>)
    ensures Missing(sh, {}, desired) == desired
  {
    if desired != [] {
      var last := |desired| - 1;
      NothingPresent(sh, desired[..last]);
      assert desired == desired[..last] + [desired[last]];
    }
  }

  /** The shortcut for an empty list of live ports computes what the general loops would. */
  lemma EmptyShortcutAgrees<P>(sh: Shape<P>, desired: seq<P>)
    ensures Merge(sh, [], desired) == Survivors(sh, [], desired) + Missing(sh, NameSet(PortNames(sh, [])), desired)
  {
    NothingPresent(sh, desired);
    assert NameSet(PortNames(sh, [])) == {};
  }

  /** Live names still wanted, in live order, then the desired names with no live port, in desired order. */
  lemma MergedNames<P(!new)>(sh: Shape<P>, actual: seq<P>, desired: seq<P>)
    requires Lawful(sh)
    ensures var have, want := NameSet(PortNames(sh, actual)), NameSet(PortNames(sh, desired));
            && PortNames(sh, Merge(sh, actual, desired))
               == Filter(PortNames(sh, actual), want) + Filter(PortNames(sh, desired), want - have)
            && NameSet(PortNames(sh, Merge(sh, actual, desired))) == want
  {
    var have, want := NameSet(PortNames(sh, actual)), NameSet(PortNames(sh, desired));
    MergedParts(sh, actual, desired);
    SurvivorNames(sh, actual, desired);
    MissingNames(sh, actual, desired, want);
    FilteredCover(PortNames(sh, actual), PortNames(sh, desired));
  }

  lemma MergedParts<P>(sh: Shape<P>, actual: seq<P>, desired: seq<P>)
    ensures var s, m := Survivors(sh, actual, desired), Missing(sh, NameSet(PortNames(sh, actual)), desired);
            PortNames(sh, Merge(sh, actual, desired)) == PortNames(sh, s) + PortNames(sh, m)
  {
    EmptyShortcutAgrees(sh, desired);
    var s, m := Survivors(sh, actual, desired), Missing(sh, NameSet(PortNames(sh, actual)), desired);
    assert Merge(sh, actual, desired) == s + m;
    assert PortNames(sh, s + m) == PortNames(sh, s) + PortNames(sh, m);
  }

  lemma FilteredCover(actual: seq<string>, desired: seq<string>)
    ensures var have, want := NameSet(actual), NameSet(desired);
            NameSet(Filter(actual, want) + Filter(desired, want - have)) == want
  {
    var have, want := NameSet(actual), NameSet(desired);
    FilterMembers(actual, want);
    FilterMembers(desired, want - have);
  }

  lemma {:induction false} SurvivorOrigin<P>(sh: Shape<P>, actual: seq<P>, desired: seq<P>, p: P)
    requires p in Survivors(sh, actual, desired)
    ensures exists got, want :: got in actual && Wanted(sh, desired, sh.name(got)) == Some(want) && p == sh.graft(got, want)
  {
    var last := |actual| - 1;
    if p in Survivors(sh, actual[..last], desired) {
      SurvivorOrigin(sh, actual[..last], desired, p);
    } else {
      assert actual[last] in actual;
    }
  }

  lemma {:induction false} MissingOrigin<P>(sh: Shape<P>, present: set<string>, desired: seq<P>, p: P)
    requires p in Missing(sh, present, desired)
    ensures p in desired && sh.name(p) !in present
  {
    var last := |desired| - 1;
    if p in Missing(sh, present, desired[..last]) {
      MissingOrigin(sh, present, desired[..last], p);
    }
  }

  lemma {:induction false} WantedOfDistinct<P>(sh: Shape<P>, desired: seq<P>, p: P)
    requires Distinct(PortNames(sh, desired)) && p in desired
    ensures Wanted(sh, desired, sh.name(p)) == Some(p)
  {
    var i :| 0 <= i < |desired| && desired[i] == p;
    var w := Wanted(sh, desired, sh.name(p)).value;
    var j :| 0 <= j < |desired| && desired[j] == w;
    assert PortNames(sh, desired)[i] == PortNames(sh, desired)[j];
  }

  /** Each desired port already agrees with the last desired port of its name in every grafted field. */
  ghost predicate Stable<P>(sh: Shape<P>, desired: seq<P>) {
    forall p :: p in desired ==>
                  var w := Wanted(sh, desired, sh.name(p)); w.Some? && sh.graft(p, w.value) == p
  }

  lemma DistinctNamesAreStable<P(!new)>(sh: Shape<P>, desired: seq<P>)
    requires Lawful(sh) && Distinct(PortNames(sh, desired))
    ensures Stable(sh, desired)
  {
    forall p | p in desired
      ensures Wanted(sh, desired, sh.name(p)) == Some(p)
    {
      WantedOfDistinct(sh, desired, p);
    }
  }

  /** Every port of the result carries its own desired values: grafting it again changes nothing. */
  lemma MergedSettled<P(!new)>(sh: Shape<P>, actual: seq<P>, desired: seq<P>, p: P)
    requires Lawful(sh) && Stable(sh, desired) && p in Merge(sh, actual, desired)
    ensures Wanted(sh, desired, sh.name(p)).Some?
    ensures sh.graft(p, Wanted(sh, desired, sh.name(p)).value) == p
  {
    if actual != [] && p in Survivors(sh, actual, desired) {
      SurvivorOrigin(sh, actual, desired, p);
    } else if actual != [] {
      MissingOrigin(sh, NameSet(PortNames(sh, actual)), desired, p);
    }
  }

  lemma {:induction false} SettledSurvive<P>(sh: Shape<P>, ports: seq<P>, desired: seq<P>)
    requires forall p :: p in ports ==>
               var w := Wanted(sh, desired, sh.name(p)); w.Some? && sh.graft(p, w.value) == p
    ensures Survivors(sh, ports, desired) == ports
  {
    if ports != [] {
      var last := |ports| - 1;
      assert ports == ports[..last] + [ports[last]];
      assert ports[last] in ports;
      forall p | p in ports[..last]
        ensures var w := Wanted(sh, desired, sh.name(p)); w.Some? && sh.graft(p, w.value) == p
      {
        assert p in ports;
      }
      SettledSurvive(sh, ports[..last], desired);
    }
  }

  lemma {:induction false} AllPresent<P>(sh: Shape<P>, present: set<string>, desired: seq<P>)
    requires forall p :: p in desired ==> sh.name(p) in present
    ensures Missing(sh, present, desired) == []
  {
    if desired != [] {
      AllPresent(sh, present, desired[..|desired| - 1]);
    }
  }

  /** Merging again changes nothing, so a settled object is never patched for its ports. */
  lemma MergeIsFixpoint<P(!new)>(sh: Shape<P>, actual: seq<P>, desired: seq<P>)
    requires Lawful(sh) && Stable(sh, desired)
    ensures Merge(sh, Merge(sh, actual, desired), desired) == Merge(sh, actual, desired)
  {
    var r := Merge(sh, actual, desired);
    forall p | p in r
      ensures var w := Wanted(sh, desired, sh.name(p)); w.Some? && sh.graft(p, w.value) == p
    {
      MergedSettled(sh, actual, desired, p);
    }
    SettledSurvive(sh, r, desired);
    MergedNames(sh, actual, desired);
    forall p | p in desired
      ensures sh.name(p) in NameSet(PortNames(sh, r))
    {
      var i :| 0 <= i < |desired| && desired[i] == p;
      assert PortNames(sh, desired)[i] == sh.name(p);
      assert sh.name(p) in NameSet(PortNames(sh, desired));
    }
    AllPresent(sh, NameSet(PortNames(sh, r)), desired);
  }

  /** When every desired name is live, merging only grafts, and each port then agrees with what is wanted of it. */
  lemma GraftedIsSettled<P(!new)>(sh: Shape<P>, live: seq<P>, desired: seq<P>)
    requires Lawful(sh) && NameSet(PortNames(sh, live)) == NameSet(PortNames(sh, desired))
    ensures Merge(sh, Merge(sh, live, desired), desired) == Merge(sh, live, desired)
  {
    var r := Merge(sh, live, desired);
    MergedNames(sh, live, desired);
    AllNamesPresent(sh, live, desired);
    AllNamesPresent(sh, r, desired);
    if live == [] {
      if desired != [] {
        PortsHaveNames(sh, desired);
      }
    } else {
      forall p | p in r
        ensures var w := Wanted(sh, desired, sh.name(p)); w.Some? && sh.graft(p, w.value) == p
      {
        SurvivorOrigin(sh, live, desired, p);
      }
    }
    SettledSurvive(sh, r, desired);
  }

  lemma PortsHaveNames<P>(sh: Shape<P>, ports: seq<P>)
    requires ports != []
    ensures NameSet(PortNames(sh, ports)) != {}
  {
    assert PortNames(sh, ports)[0] in NameSet(PortNames(sh, ports));
  }

  lemma AllNamesPresent<P>(sh: Shape<P>, live: seq<P>, desired: seq<P>)
    requires NameSet(PortNames(sh, live)) == NameSet(PortNames(sh, desired))
    ensures Missing(sh, NameSet(PortNames(sh, live)), desired) == []
  {
    forall p | p in desired
      ensures sh.name(p) in NameSet(PortNames(sh, live))
    {
      var i :| 0 <= i < |desired| && desired[i] == p;
      assert PortNames(sh, desired)[i] == sh.name(p);
    }
    AllPresent(sh, NameSet(PortNames(sh, live)), desired);
  }

  /** Whatever is desired, duplicate names included, two merges reach a fixpoint from any live list. */
  lemma TwoMergesSettle<P(!new)>(sh: Shape<P>, actual: seq<P>, desired: seq<P>)
    requires Lawful(sh)
    ensures var twice := Merge(sh, Merge(sh, actual, desired), desired); Merge(sh, twice, desired) == twice
  {
    MergedNames(sh, actual, desired);
    GraftedIsSettled(sh, Merge(sh, actual, desired), desired);
  }

  lemma {:induction false} SurvivorAt<P>(sh: Shape<P>, ports: seq<P>, desired: seq<P>, i: nat)
    requires i < |ports| && forall p :: p in ports ==> Wanted(sh, desired, sh.name(p)).Some?
    ensures |Survivors(sh, ports, desired)| == |ports|
    ensures Survivors(sh, ports, desired)[i] == sh.graft(ports[i], Wanted(sh, desired, sh.name(ports[i])).value)
  {
    var last := |ports| - 1;
    assert ports[last] in ports;
    if last > 0 {
      assert forall p :: p in ports[..last] ==> p in ports;
      SurvivorAt(sh, ports[..last], desired, if i < last then i else 0);
    }
  }

  /** Merging is a fixpoint over all live lists exactly when the desired list is stable. */
  lemma FixpointIffStable<P(!new)>(sh: Shape<P>, desired: seq<P>)
    requires Lawful(sh)
    ensures (forall actual :: Merge(sh, Merge(sh, actual, desired), desired) == Merge(sh, actual, desired))
            <==> Stable(sh, desired)
  {
    if Stable(sh, desired) {
      forall actual {
        MergeIsFixpoint(sh, actual, desired);
      }
    } else {
      var p :| p in desired && !(var w := Wanted(sh, desired, sh.name(p)); w.Some? && sh.graft(p, w.value) == p);
      var i :| 0 <= i < |desired| && desired[i] == p;
      forall q | q in desired
        ensures Wanted(sh, desired, sh.name(q)).Some?
      {
        var j :| 0 <= j < |desired| && desired[j] == q;
        assert PortNames(sh, desired)[j] == sh.name(q);
      }
      SurvivorAt(sh, desired, desired, i);
      assert Merge(sh, [], desired) == desired;
      assert Merge(sh, desired, desired)[i] != desired[i];
    }
  }

  /** With two desired ports of one name one merge is not enough: the next pass patches the first of them. */
  lemma DuplicateNamesAreRewritten()
    ensures var tcp, udp := ServicePort("p", "p", "TCP", 80, 0), ServicePort("p", "p", "UDP", 81, 0);
            var once := Merge(ServiceShape(), [], [tcp, udp]);
            Merge(ServiceShape(), once, [tcp, udp]) != once
  {
    var tcp, udp := ServicePort("p", "p", "TCP", 80, 0), ServicePort("p", "p", "UDP", 81, 0);
    var sh := ServiceShape();
    var both := [tcp, udp];
    assert both[..1] == [tcp];
    assert Wanted(sh, both, "p") == Some(udp);
    assert Survivors(sh, [tcp], both) == [sh.graft(tcp, udp)] by { assert [tcp][..0] == []; }
    assert Survivors(sh, both, both)[0] == sh.graft(tcp, udp);
  }

  lemma ShapesAreLawful()
    ensures Lawful(ServiceShape()) && Lawful(ContainerShape())
  {
  }

  /** A retained service port keeps its live number even when the desired number differs. */
  lemma RetainedServicePort(actual: seq<ServicePort>, desired: seq<ServicePort>, p: ServicePort)
    requires actual != [] && p in Merge(ServiceShape(), actual, desired)
    requires p.name in NameSet(PortNames(ServiceShape(), actual))
    ensures exists got, want ::
              && got in actual && want in desired && got.name == want.name == p.name
              && p == got.(targetPort := want.targetPort, protocol := want.protocol)
  {
    var sh := ServiceShape();
    if p in Survivors(sh, actual, desired) {
      SurvivorOrigin(sh, actual, desired, p);
      var got, want :| got in actual && Wanted(sh, desired, sh.name(got)) == Some(want) && p == sh.graft(got, want);
      assert want in desired && got.name == want.name;
    } else {
      MissingOrigin(sh, NameSet(PortNames(sh, actual)), desired, p);
    }
  }

  lemma {:induction false} SurvivorKept<P>(sh: Shape<P>, actual: seq<P>, desired: seq<P>, got: P)
    requires got in actual && Wanted(sh, desired, sh.name(got)).Some?
    ensures sh.graft(got, Wanted(sh, desired, sh.name(got)).value) in Survivors(sh, actual, desired)
  {
    var last := |actual| - 1;
    if got != actual[last] {
      assert actual == actual[..last] + [actual[last]];
      SurvivorKept(sh, actual[..last], desired, got);
    }
  }

  lemma {:induction false} MissingKept<P>(sh: Shape<P>, present: set<string>, desired: seq<P>, p: P)
    requires p in desired && sh.name(p) !in present
    ensures p in Missing(sh, present, desired)
  {
    var last := |desired| - 1;
    if p != desired[last] {
      assert desired == desired[..last] + [desired[last]];
      MissingKept(sh, present, desired[..last], p);
    }
  }

  predicate AllNumbered(ports: seq<ServicePort>, name: string, number: int) {
    forall p :: p in ports && p.name == name ==> p.port == number
  }

  predicate HasName(ports: seq<ServicePort>, name: string) {
    exists p :: p in ports && p.name == name
  }

  lemma NamedHasName(ports: seq<ServicePort>, name: string)
    ensures HasName(ports, name) <==> name in NameSet(PortNames(ServiceShape(), ports))
  {
    if p :| p in ports && p.name == name {
      var i :| 0 <= i < |ports| && ports[i] == p;
      assert PortNames(ServiceShape(), ports)[i] == name;
    }
    if name in NameSet(PortNames(ServiceShape(), ports)) {
      var i :| 0 <= i < |ports| && PortNames(ServiceShape(), ports)[i] == name;
      assert ports[i] in ports;
    }
  }

  /** Whose number a wanted port has after a merge: the live ports' of that name if there are any, else the desired. */
  lemma NumberedIff(actual: seq<ServicePort>, desired: seq<ServicePort>, name: string, number: int)
    requires HasName(desired, name)
    ensures AllNumbered(Merge(ServiceShape(), actual, desired), name, number)
            <==> AllNumbered(if HasName(actual, name) then actual else desired, name, number)
  {
    NamedHasName(actual, name);
    NamedHasName(desired, name);
    if actual != [] {
      if HasName(actual, name) {
        LiveNumbered(actual, desired, name, number);
      } else {
        NewNumbered(actual, desired, name, number);
      }
    }
  }

  lemma LiveNumbered(actual: seq<ServicePort>, desired: seq<ServicePort>, name: string, number: int)
    requires HasName(actual, name) && Wanted(ServiceShape(), desired, name).Some?
    ensures AllNumbered(Merge(ServiceShape(), actual, desired), name, number) <==> AllNumbered(actual, name, number)
  {
    var sh := ServiceShape();
    NamedHasName(actual, name);
    if AllNumbered(actual, name, number) {
      forall p | p in Merge(sh, actual, desired) && p.name == name
        ensures p.port == number
      {
        RetainedServicePort(actual, desired, p);
      }
    } else {
      var got :| got in actual && got.name == name && got.port != number;
      SurvivorKept(sh, actual, desired, got);
      assert sh.graft(got, Wanted(sh, desired, name).value) in Merge(sh, actual, desired);
    }
  }

  lemma NewNumbered(actual: seq<ServicePort>, desired: seq<ServicePort>, name: string, number: int)
    requires actual != [] && !HasName(actual, name)
    ensures AllNumbered(Merge(ServiceShape(), actual, desired), name, number) <==> AllNumbered(desired, name, number)
  {
    var sh := ServiceShape();
    NamedHasName(actual, name);
    if AllNumbered(desired, name, number) {
      forall p | p in Merge(sh, actual, desired) && p.name == name
        ensures p.port == number
      {
        if p in Survivors(sh, actual, desired) {
          SurvivorOrigin(sh, actual, desired, p);
          assert HasName(actual, name);
        } else {
          MissingOrigin(sh, NameSet(PortNames(sh, actual)), desired, p);
        }
      }
    } else {
      var d :| d in desired && d.name == name && d.port != number;
      MissingKept(sh, NameSet(PortNames(sh, actual)), desired, d);
      assert d in Merge(sh, actual, desired);
    }
  }

  /** A retained container port keeps everything but number and protocol. */
  lemma RetainedContainerPort(actual: seq<ContainerPort>, desired: seq<ContainerPort>, p: ContainerPort)
    requires actual != [] && p in Merge(ContainerShape(), actual, desired)
    requires p.name in NameSet(PortNames(ContainerShape(), actual))
    ensures exists got, want ::
              && got in actual && want in desired && got.name == want.name == p.name
              && p == got.(containerPort := want.containerPort, protocol := want.protocol)
  {
    var sh := ContainerShape();
    if p in Survivors(sh, actual, desired) {
      SurvivorOrigin(sh, actual, desired, p);
      var got, want :| got in actual && Wanted(sh, desired, sh.name(got)) == Some(want) && p == sh.graft(got, want);
      assert want in desired && got.name == want.name;
    } else {
      MissingOrigin(sh, NameSet(PortNames(sh, actual)), desired, p);
    }
  }

  /** One turn of the pass over the live ports. */
  lemma SurvivorsStep<P>(sh: Shape<P>, actual: seq<P>, desired: seq<P>, i: nat)
    requires i < |actual|
    ensures var want := Wanted(sh, desired, sh.name(actual[i]));
            Survivors(sh, actual[..i + 1], desired)
            == Survivors(sh, actual[..i], desired) + if want.Some? then [sh.graft(actual[i], want.value)] else []
    ensures NameSet(PortNames(sh, actual[..i + 1])) == NameSet(PortNames(sh, actual[..i])) + {sh.name(actual[i])}
  {
    assert actual[..i + 1][..i] == actual[..i];
    assert PortNames(sh, actual[..i + 1]) == PortNames(sh, actual[..i]) + [sh.name(actual[i])];
  }

  /** One turn of the pass over the desired ports. */
  lemma MissingStep<P>(sh: Shape<P>, present: set<string>, desired: seq<P>, i: nat)
    requires i < |desired|
    ensures Missing(sh, present, desired[..i + 1])
         == Missing(sh, present, desired[..i]) + if sh.name(desired[i]) in present then [] else [desired[i]]
    ensures sh.name(desired[i]) in PortNames(sh, desired)
  {
    assert desired[..i + 1][..i] == desired[..i];
    assert PortNames(sh, desired)[i] == sh.name(desired[i]);
  }

  /** The service merger as its source runs it: a by-name table, a pass over the live ports, a pass over the desired. */
  method ReconcileServicePorts(actual: seq<ServicePort>, desired: seq<ServicePort>) returns (result: seq<ServicePort>)
    ensures result == Merge(ServiceShape(), actual, desired)
  {
    var sh := ServiceShape();
    if |actual| == 0 {
      return desired;
    }
    var desiredByName := IndexByName(sh, desired);
    var seen: set<string> := {};
    result := [];
    for i := 0 to |actual|
      invariant result == Survivors(sh, actual[..i], desired)
      invariant forall n :: n in seen <==> n in NameSet(PortNames(sh, actual[..i])) && Wanted(sh, desired, n).Some?
    {
      var got := actual[i];
      SurvivorsStep(sh, actual, desired, i);
      if got.name in desiredByName {
        var want := desiredByName[got.name];
        got := got.(targetPort := want.targetPort, protocol := want.protocol);
        result := result + [got];
        seen := seen + {got.name};
      }
    }
    assert actual[..|actual|] == actual;
    ghost var survivors := result;
    for i := 0 to |desired|
      invariant result == survivors + Missing(sh, NameSet(PortNames(sh, actual)), desired[..i])
    {
      MissingStep(sh, NameSet(PortNames(sh, actual)), desired, i);
      if desired[i].name !in seen {
        result := result + [desired[i]];
      }
    }
    assert desired[..|desired|] == desired;
  }

  /** The container-port merger: the same scheme, keeping everything but number and protocol. */
  method ReconcileContainerPorts(actual: seq<ContainerPort>, desired: seq<ContainerPort>)
    returns (result: seq<ContainerPort>)
    ensures result == Merge(ContainerShape(), actual, desired)
  {
    var sh := ContainerShape();
    if |actual| == 0 {
      return desired;
    }
    var desiredByName := IndexByName(sh, desired);
    var seen: set<string> := {};
    result := [];
    for i := 0 to |actual|
      invariant result == Survivors(sh, actual[..i], desired)
      invariant forall n :: n in seen <==> n in NameSet(PortNames(sh, actual[..i])) && Wanted(sh, desired, n).Some?
    {
      var got := actual[i];
      SurvivorsStep(sh, actual, desired, i);
      if got.name in desiredByName {
        var want := desiredByName[got.name];
        got := got.(containerPort := want.containerPort, protocol := want.protocol);
        result := result + [got];
        seen := seen + {got.name};
      }
    }
    assert actual[..|actual|] == actual;
    ghost var survivors := result;
    for i := 0 to |desired|
      invariant result == survivors + Missing(sh, NameSet(PortNames(sh, actual)), desired[..i])
    {
      MissingStep(sh, NameSet(PortNames(sh, actual)), desired, i);
      if desired[i].name !in seen {
        result := result + [desired[i]];
      }
    }
    assert desired[..|desired|] == desired;
  }

  /** The by-name table both mergers and the load-balancer mutator fill: a later port of a name replaces an earlier. */
  method IndexByName<P>(sh: Shape<P>, ports: seq<P>) returns (byName: map<string, P>)
    ensures forall n :: n in byName <==> Wanted(sh, ports, n).Some?
    ensures forall n :: n in byName ==> Wanted(sh, ports, n) == Some(byName[n])
  {
    byName := map[];
    for i := 0 to |ports|
      invariant forall n :: n in byName <==> Wanted(sh, ports[..i], n).Some?
      invariant forall n :: n in byName ==> Wanted(sh, ports[..i], n) == Some(byName[n])
    {
      assert ports[..i + 1][..i] == ports[..i];
      byName := byName[sh.name(ports[i]) := ports[i]];
    }
    assert ports[..|ports|] == ports;
  }
}
