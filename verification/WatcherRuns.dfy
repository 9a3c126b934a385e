/**
 The image watcher under interleaving. `FindImage` holds no lock across its cache read, registry call and cache
 write, so those are separate steps, mixed with invalidations, prunings and other calls in any order.
 Every step advances a clock, and the registry may answer differently at every instant.
 */
module FetchRuns {
  import opened CronWatcher
  import opened ImageFinder
  import opened ImageRefs
  import opened Wrappers

  datatype World = World(registry: (nat, ImageSpec) -> Option<ImageRef>, keyOf: ImageSpec -> string)

  datatype Call =
    | Missed(spec: ImageSpec, begun: nat)
    | Holding(spec: ImageSpec, begun: nat, ref: ImageRef, fetched: nat)

  datatype Entry = Entry(spec: ImageSpec, begun: nat, ref: ImageRef, fetched: nat)

  /** A successful return of a `FindImage` call that began at `begun`. */
  datatype Return = Return(spec: ImageSpec, begun: nat, ref: ImageRef, fetched: nat)

  datatype State = State(now: nat, cache: map<string, Entry>, calls: map<nat, Call>, results: seq<Return>)

  datatype Step =
    | Begin(id: nat, spec: ImageSpec)
    | Fetch(id: nat)
    | Store(id: nat)
    | Invalidate(spec: ImageSpec)
    | Prune(keep: set<string>)

  const INIT := State(0, map[], map[], [])

  /** A step that is not enabled only lets time pass. */
  function Do(w: World, s: State, step: Step): State {
    var next := s.(now := s.now + 1);
    match step
    case Begin(id, spec) =>
      if id in s.calls then next
      else if w.keyOf(spec) in s.cache then
        var e := s.cache[w.keyOf(spec)];
        next.(results := s.results + [Return(spec, s.now, e.ref, e.fetched)])
      else next.(calls := s.calls[id := Missed(spec, s.now)])
    case Fetch(id) =>
      if id !in s.calls || s.calls[id].Holding? then next
      else (
        var c := s.calls[id];
        match w.registry(s.now, c.spec)
        case None => next.(calls := s.calls - {id})
        case Some(ref) => next.(calls := s.calls[id := Holding(c.spec, c.begun, ref, s.now)])
      )
    case Store(id) =>
      if id !in s.calls || s.calls[id].Missed? then next
      else
        var c := s.calls[id];
        next.(cache := s.cache[w.keyOf(c.spec) := Entry(c.spec, c.begun, c.ref, c.fetched)],
              calls := s.calls - {id},
              results := s.results + [Return(c.spec, c.begun, c.ref, c.fetched)])
    case Invalidate(spec) => next.(cache := s.cache - {w.keyOf(spec)})
    case Prune(keep) => next.(cache := map k | k in s.cache && k in keep :: s.cache[k])
  }

  function Run(w: World, s: State, steps: seq<Step>): State {
    if steps == [] then s else Do(w, Run(w, s, steps[..|steps| - 1]), steps[|steps| - 1])
  }

  /** The answer was the registry's for the spec at an instant of the past, not before the fetching call began. */
  ghost predicate Genuine(w: World, now: nat, spec: ImageSpec, begun: nat, ref: ImageRef, fetched: nat) {
    begun <= fetched < now && w.registry(fetched, spec) == Some(ref)
  }

  ghost predicate CacheGenuine(w: World, s: State) {
    forall k :: k in s.cache ==>
      var e := s.cache[k]; w.keyOf(e.spec) == k && Genuine(w, s.now, e.spec, e.begun, e.ref, e.fetched)
  }

  ghost predicate CallsGenuine(w: World, s: State) {
    forall id :: id in s.calls ==>
      var c := s.calls[id];
      c.begun < s.now && (c.Holding? ==> Genuine(w, s.now, c.spec, c.begun, c.ref, c.fetched))
  }

  ghost predicate ResultsGenuine(w: World, s: State) {
    forall i :: 0 <= i < |s.results| ==>
      var r := s.results[i];
      r.begun < s.now && r.fetched < s.now && w.registry(r.fetched, r.spec) == Some(r.ref)
  }

  ghost predicate AllGenuine(w: World, s: State) {
    CacheGenuine(w, s) && CallsGenuine(w, s) && ResultsGenuine(w, s)
  }

  lemma StepKeepsCalls(w: World, s: State, step: Step)
    requires CallsGenuine(w, s)
    ensures CallsGenuine(w, Do(w, s, step))
  {
  }

  lemma StepKeepsCache(w: World, s: State, step: Step)
    requires CallsGenuine(w, s) && CacheGenuine(w, s)
    ensures CacheGenuine(w, Do(w, s, step))
  {
  }

  lemma StepKeepsResults(w: World, s: State, step: Step)
    requires Injective(w.keyOf) && AllGenuine(w, s)
    ensures ResultsGenuine(w, Do(w, s, step))
  {
  }

  lemma StepKeepsGenuine(w: World, s: State, step: Step)
    requires Injective(w.keyOf) && AllGenuine(w, s)
    ensures AllGenuine(w, Do(w, s, step))
  {
    StepKeepsCalls(w, s, step);
    StepKeepsCache(w, s, step);
    StepKeepsResults(w, s, step);
  }

  /** In every interleaving, whatever is cached or returned was the registry's answer at some instant. */
  lemma {:induction false} EveryAnswerGenuine(w: World, steps: seq<Step>)
    requires Injective(w.keyOf)
    ensures AllGenuine(w, Run(w, INIT, steps))
  {
    if steps != [] {
      EveryAnswerGenuine(w, steps[..|steps| - 1]);
      StepKeepsGenuine(w, Run(w, INIT, steps[..|steps| - 1]), steps[|steps| - 1]);
    }
  }

  /** A call that began at `cut` or later returned an answer fetched before `cut`. */
  ghost predicate StaleReturn(s: State, spec: ImageSpec, cut: nat) {
    exists i :: 0 <= i < |s.results| && s.results[i].spec == spec && s.results[i].fetched < cut <= s.results[i].begun
  }

  /** A call for the spec has its answer but has not stored it yet. */
  ghost predicate AnswerInFlight(s: State, spec: ImageSpec) {
    exists id :: id in s.calls && s.calls[id].Holding? && s.calls[id].spec == spec
  }

  /** From `cut` on, everything known for the spec was fetched at `cut` or later. */
  ghost predicate FreshFrom(w: World, s: State, spec: ImageSpec, cut: nat) {
    && cut <= s.now
    && (w.keyOf(spec) in s.cache ==> cut <= s.cache[w.keyOf(spec)].fetched)
    && (forall id :: id in s.calls && s.calls[id].Holding? && s.calls[id].spec == spec ==> cut <= s.calls[id].fetched)
    && !StaleReturn(s, spec, cut)
  }

  lemma StepKeepsFresh(w: World, s: State, step: Step, spec: ImageSpec, cut: nat)
    requires Injective(w.keyOf) && FreshFrom(w, s, spec, cut)
    ensures FreshFrom(w, Do(w, s, step), spec, cut)
  {
    var after := Do(w, s, step);
    if after.results != s.results {
      var r := after.results[|s.results|];
      assert after.results == s.results + [r];
      assert r.spec == spec ==> cut <= r.fetched;
    }
  }

  lemma {:induction false} FreshForEver(w: World, s: State, steps: seq<Step>, spec: ImageSpec, cut: nat)
    requires Injective(w.keyOf) && FreshFrom(w, s, spec, cut)
    ensures FreshFrom(w, Run(w, s, steps), spec, cut)
  {
    if steps != [] {
      FreshForEver(w, s, steps[..|steps| - 1], spec, cut);
      StepKeepsFresh(w, Run(w, s, steps[..|steps| - 1]), steps[|steps| - 1], spec, cut);
    }
  }

  /** Some continuation lets a call that begins at `cut` or later return an answer fetched before. */
  ghost predicate CanTurnStale(w: World, s: State, spec: ImageSpec, cut: nat) {
    exists steps: seq<Step> :: StaleReturn(Run(w, s, steps), spec, cut)
  }

  /** Invalidation is final exactly when no call held an answer for the spec at that moment. */
  lemma InvalidationIsFinalIffNothingInFlight(w: World, before: seq<Step>, spec: ImageSpec)
    requires Injective(w.keyOf)
    ensures var s := Do(w, Run(w, INIT, before), Step.Invalidate(spec));
            CanTurnStale(w, s, spec, s.now) <==> AnswerInFlight(s, spec)
  {
    var s := Do(w, Run(w, INIT, before), Step.Invalidate(spec));
    EveryAnswerGenuine(w, before);
    StepKeepsGenuine(w, Run(w, INIT, before), Step.Invalidate(spec));
    if AnswerInFlight(s, spec) {
      var id :| id in s.calls && s.calls[id].Holding? && s.calls[id].spec == spec;
      StaleContinuation(w, s, spec, id);
    } else {
      forall steps
        ensures !StaleReturn(Run(w, s, steps), spec, s.now)
      {
        FreshForEver(w, s, steps, spec, s.now);
      }
    }
  }

  /** The in-flight call stores its old answer, and the next call finds it in the cache. */
  lemma StaleContinuation(w: World, s: State, spec: ImageSpec, id: nat)
    requires AllGenuine(w, s)
    requires id in s.calls && s.calls[id].Holding? && s.calls[id].spec == spec
    ensures StaleReturn(Run(w, s, [Store(id), Begin(id, spec)]), spec, s.now)
  {
    var steps := [Store(id), Begin(id, spec)];
    assert steps[..1] == [Store(id)] && [Store(id)][..0] == [];
    assert Run(w, s, []) == s;
    var one := Do(w, s, Store(id));
    assert Run(w, s, [Store(id)]) == one;
    var two := Do(w, one, Begin(id, spec));
    assert Run(w, s, steps) == two;
    assert two.results[|one.results|] == Return(spec, one.now, s.calls[id].ref, s.calls[id].fetched);
  }

  /** It does happen: a call fetches, the spec is invalidated, the call stores, and the next call answers from before. */
  lemma StaleAnswerHappens(w: World, spec: ImageSpec)
    requires w.registry(1, spec).Some?
    ensures var steps := [Begin(0, spec), Fetch(0), Step.Invalidate(spec), Store(0), Begin(1, spec)];
            StaleReturn(Run(w, INIT, steps), spec, 3)
  {
    var steps := [Begin(0, spec), Fetch(0), Step.Invalidate(spec), Store(0), Begin(1, spec)];
    var one := Do(w, INIT, steps[0]);
    var two := Do(w, one, steps[1]);
    var three := Do(w, two, steps[2]);
    var four := Do(w, three, steps[3]);
    var five := Do(w, four, steps[4]);
    assert steps[..4][..3] == steps[..3] && steps[..3][..2] == steps[..2] && steps[..2][..1] == steps[..1];
    assert steps[..1] == [steps[0]] && steps[..1][..0] == [];
    assert Run(w, INIT, []) == INIT && Run(w, INIT, steps[..1]) == one;
    assert Run(w, INIT, steps[..2]) == two;
    assert Run(w, INIT, steps[..3]) == three;
    assert Run(w, INIT, steps[..4]) == four;
    assert Run(w, INIT, steps) == five;
    var ref := w.registry(1, spec).value;
    assert five.results[|five.results| - 1] == Return(spec, 4, ref, 1);
  }
}

/**
 The events asking for reconciliation. A firing job and a webhook start senders; a sender first clears the cached
 image of its copy and then blocks on the unbuffered channel until the pump takes the copy and forwards it.
 */
module EventRuns {
  import opened CronScheduler
  import opened CronWatcher
  import opened ImageFinder
  import opened ImageRefs
  import opened Names
  import opened Wrappers

  datatype Sender = Sender(id: nat, app: App, cleared: bool)

  datatype Entry = Cleared(id: nat, key: string) | Forwarded(id: nat, app: App)

  datatype State = State(
    cache: map<string, ImageRef>,
    live: map<nat, Job>,
    senders: seq<Sender>,
    inHand: Option<Sender>,
    forwarded: seq<App>,
    log: seq<Entry>,
    enqueued: multiset<App>,
    nextId: nat)

  /** `Reschedule` and `Remember` stand for whatever the scheduler and `FindImage` do meanwhile. */
  datatype Step =
    | Fire(job: nat)
    | Webhook(repository: string, listing: Option<seq<App>>)
    | Clear(i: nat)
    | Take(i: nat)
    | Forward
    | Reschedule(live: map<nat, Job>)
    | Remember(key: string, ref: ImageRef)

  const INIT := State(map[], map[], [], None, [], [], multiset{}, 0)

  function Senders(apps: seq<App>, nextId: nat): (r: seq<Sender>)
    ensures |r| == |apps|
    ensures forall i :: 0 <= i < |apps| ==> r[i] == Sender(nextId + i, apps[i], false)
  {
    seq(|apps|, i requires 0 <= i < |apps| => Sender(nextId + i, apps[i], false))
  }

  function Spawn(s: State, apps: seq<App>): State {
    s.(senders := s.senders + Senders(apps, s.nextId),
       enqueued := s.enqueued + multiset(apps),
       nextId := s.nextId + |apps|)
  }

  function Do(keyOf: ImageSpec -> string, s: State, step: Step): State {
    match step
    case Fire(job) => if job in s.live then Spawn(s, [s.live[job].app]) else s
    case Webhook(repository, listing) =>
      if listing.Some? then Spawn(s, Affected(listing.value, repository)) else s
    case Clear(i) =>
      if i < |s.senders| && !s.senders[i].cleared then
        var key := keyOf(s.senders[i].app.image);
        s.(cache := s.cache - {key},
           senders := s.senders[i := s.senders[i].(cleared := true)],
           log := s.log + [Cleared(s.senders[i].id, key)])
      else s
    case Take(i) =>
      if i < |s.senders| && s.senders[i].cleared && s.inHand.None? then
        s.(senders := s.senders[..i] + s.senders[i + 1..], inHand := Some(s.senders[i]))
      else s
    case Forward =>
      if s.inHand.Some? then
        var sender := s.inHand.value;
        s.(inHand := None, forwarded := s.forwarded + [sender.app], log := s.log + [Forwarded(sender.id, sender.app)])
      else s
    case Reschedule(live) => s.(live := live)
    case Remember(key, ref) => s.(cache := s.cache[key := ref])
  }

  function Run(keyOf: ImageSpec -> string, s: State, steps: seq<Step>): State {
    if steps == [] then s else Do(keyOf, Run(keyOf, s, steps[..|steps| - 1]), steps[|steps| - 1])
  }

  function AppsOf(senders: seq<Sender>): (r: seq<App>)
    ensures |r| == |senders| && forall i :: 0 <= i < |senders| ==> r[i] == senders[i].app
  {
    seq(|senders|, i requires 0 <= i < |senders| => senders[i].app)
  }

  function InHand(s: State): multiset<App> {
    if s.inHand.Some? then multiset{s.inHand.value.app} else multiset{}
  }

  /** Nothing enqueued is lost or duplicated: it is forwarded, in the pump's hand, or with a blocked sender. */
  ghost predicate Conserved(s: State) {
    s.enqueued == multiset(s.forwarded) + InHand(s) + multiset(AppsOf(s.senders))
  }

  lemma StepConserves(keyOf: ImageSpec -> string, s: State, step: Step)
    requires Conserved(s)
    ensures Conserved(Do(keyOf, s, step))
  {
    match step
    case Fire(job) =>
      if job in s.live {
        SpawnConserves(s, [s.live[job].app]);
      }
    case Webhook(repository, listing) =>
      if listing.Some? {
        SpawnConserves(s, Affected(listing.value, repository));
      }
    case Clear(i) => ClearConserves(keyOf, s, i);
    case Take(i) => TakeConserves(keyOf, s, i);
    case Forward => ForwardConserves(keyOf, s);
    case Reschedule(_) =>
    case Remember(_, _) =>
  }

  lemma ClearConserves(keyOf: ImageSpec -> string, s: State, i: nat)
    requires Conserved(s)
    ensures Conserved(Do(keyOf, s, Clear(i)))
  {
    if i < |s.senders| {
      assert AppsOf(s.senders[i := s.senders[i].(cleared := true)]) == AppsOf(s.senders);
    }
  }

  lemma ForwardConserves(keyOf: ImageSpec -> string, s: State)
    requires Conserved(s)
    ensures Conserved(Do(keyOf, s, Step.Forward))
  {
  }

  lemma RemovalKeepsOthers(senders: seq<Sender>, i: nat)
    requires i < |senders|
    ensures multiset(AppsOf(senders)) == multiset(AppsOf(senders[..i] + senders[i + 1..])) + multiset{senders[i].app}
  {
    var all := AppsOf(senders);
    assert all == all[..i] + [all[i]] + all[i + 1..];
    assert AppsOf(senders[..i] + senders[i + 1..]) == all[..i] + all[i + 1..];
  }

  lemma TakeConserves(keyOf: ImageSpec -> string, s: State, i: nat)
    requires Conserved(s)
    ensures Conserved(Do(keyOf, s, Take(i)))
  {
    if i < |s.senders| {
      RemovalKeepsOthers(s.senders, i);
      var rest := multiset(AppsOf(s.senders[..i] + s.senders[i + 1..]));
      var one := multiset{s.senders[i].app};
      assert multiset(s.forwarded) + multiset{} + (rest + one) == multiset(s.forwarded) + one + rest;
    }
  }

  lemma SpawnConserves(s: State, apps: seq<App>)
    requires Conserved(s)
    ensures Conserved(Spawn(s, apps))
  {
    SpawnAppends(s, apps);
  }

  lemma SpawnAppends(s: State, apps: seq<App>)
    ensures AppsOf(Spawn(s, apps).senders) == AppsOf(s.senders) + apps
  {
  }

  lemma {:induction false} EventsConserved(keyOf: ImageSpec -> string, steps: seq<Step>)
    ensures Conserved(Run(keyOf, INIT, steps))
  {
    if steps != [] {
      EventsConserved(keyOf, steps[..|steps| - 1]);
      StepConserves(keyOf, Run(keyOf, INIT, steps[..|steps| - 1]), steps[|steps| - 1]);
    }
  }

  ghost predicate HasCleared(keyOf: ImageSpec -> string, log: seq<Entry>, id: nat, app: App) {
    Cleared(id, keyOf(app.image)) in log
  }

  /** Every forwarded copy is logged in order, and its own sender had cleared its image key before. */
  ghost predicate ClearedFirst(keyOf: ImageSpec -> string, s: State) {
    && (forall i :: 0 <= i < |s.senders| && s.senders[i].cleared ==>
          HasCleared(keyOf, s.log, s.senders[i].id, s.senders[i].app))
    && (s.inHand.Some? ==> HasCleared(keyOf, s.log, s.inHand.value.id, s.inHand.value.app))
    && (forall j :: 0 <= j < |s.log| && s.log[j].Forwarded? ==>
          HasCleared(keyOf, s.log[..j], s.log[j].id, s.log[j].app))
  }

  lemma LogGrows(keyOf: ImageSpec -> string, s: State, entry: Entry)
    requires ClearedFirst(keyOf, s)
    requires entry.Forwarded? ==> HasCleared(keyOf, s.log, entry.id, entry.app)
    ensures ClearedFirst(keyOf, s.(log := s.log + [entry]))
  {
    var log := s.log + [entry];
    assert log[..|s.log|] == s.log;
    forall j | 0 <= j < |log| && log[j].Forwarded?
      ensures HasCleared(keyOf, log[..j], log[j].id, log[j].app)
    {
      if j < |s.log| {
        assert log[..j] == s.log[..j];
      }
    }
  }

  lemma StepClearsFirst(keyOf: ImageSpec -> string, s: State, step: Step)
    requires ClearedFirst(keyOf, s)
    ensures ClearedFirst(keyOf, Do(keyOf, s, step))
  {
    var after := Do(keyOf, s, step);
    if after.log != s.log {
      var entry := after.log[|s.log|];
      LogGrows(keyOf, s, entry);
    }
  }

  lemma {:induction false} ClearedBeforeForwarded(keyOf: ImageSpec -> string, steps: seq<Step>)
    ensures ClearedFirst(keyOf, Run(keyOf, INIT, steps))
  {
    if steps != [] {
      ClearedBeforeForwarded(keyOf, steps[..|steps| - 1]);
      StepClearsFirst(keyOf, Run(keyOf, INIT, steps[..|steps| - 1]), steps[|steps| - 1]);
    }
  }

  /** The webhook starts one sender per listed Application of the repository; a firing starts one for the job's copy. */
  lemma SendersStarted(keyOf: ImageSpec -> string, s: State, repository: string, listing: seq<App>, job: nat)
    requires job in s.live
    ensures var hooked := Do(keyOf, s, Webhook(repository, Some(listing)));
            && AppsOf(hooked.senders) == AppsOf(s.senders) + Affected(listing, repository)
            && (forall a :: a in Affected(listing, repository) <==> a in listing && a.image.repository == repository)
    ensures AppsOf(Do(keyOf, s, Fire(job)).senders) == AppsOf(s.senders) + [s.live[job].app]
  {
    SpawnAppends(s, Affected(listing, repository));
    SpawnAppends(s, [s.live[job].app]);
  }

  // ---------- What a firing clears ----------

  ghost predicate Every(senders: seq<Sender>, good: (nat, App) -> bool) {
    forall k :: 0 <= k < |senders| ==> good(senders[k].id, senders[k].app)
  }

  /** Senders keep their ids and copies; what a step adds has new ids. */
  lemma StepKeepsEvery(keyOf: ImageSpec -> string, s: State, step: Step, good: (nat, App) -> bool)
    requires Every(s.senders, good)
    requires forall id, app :: s.nextId <= id < Do(keyOf, s, step).nextId ==> good(id, app)
    ensures Every(Do(keyOf, s, step).senders, good) && s.nextId <= Do(keyOf, s, step).nextId
  {
    match step
    case Fire(job) =>
      if job in s.live {
        SpawnKeepsEvery(s, [s.live[job].app], good);
      }
    case Webhook(repository, listing) =>
      if listing.Some? {
        SpawnKeepsEvery(s, Affected(listing.value, repository), good);
      }
    case Clear(_) =>
    case Take(_) =>
    case Forward =>
    case Reschedule(_) =>
    case Remember(_, _) =>
  }

  lemma SpawnKeepsEvery(s: State, apps: seq<App>, good: (nat, App) -> bool)
    requires Every(s.senders, good)
    requires forall id, app :: s.nextId <= id < s.nextId + |apps| ==> good(id, app)
    ensures Every(Spawn(s, apps).senders, good)
  {
  }

  ghost predicate IdsBelow(s: State) {
    Every(s.senders, (id, _) => id < s.nextId)
  }

  lemma {:induction false} IdsStayBelow(keyOf: ImageSpec -> string, steps: seq<Step>)
    ensures IdsBelow(Run(keyOf, INIT, steps))
  {
    if steps != [] {
      var s, last := Run(keyOf, INIT, steps[..|steps| - 1]), steps[|steps| - 1];
      IdsStayBelow(keyOf, steps[..|steps| - 1]);
      NextIdGrows(keyOf, s, last);
      StepKeepsEvery(keyOf, s, last, (id, _) => id < Do(keyOf, s, last).nextId);
    }
  }

  lemma NextIdGrows(keyOf: ImageSpec -> string, s: State, step: Step)
    ensures s.nextId <= Do(keyOf, s, step).nextId
  {
  }

  /** The sender of that id, if it is still waiting, holds the copy. */
  ghost predicate Holds(s: State, id: nat, copy: App) {
    id < s.nextId && Every(s.senders, (k, app) => k == id ==> app == copy)
  }

  lemma {:induction false} SenderHoldsCopy(keyOf: ImageSpec -> string, s: State, steps: seq<Step>, id: nat, copy: App)
    requires Holds(s, id, copy)
    ensures Holds(Run(keyOf, s, steps), id, copy)
  {
    if steps != [] {
      SenderHoldsCopy(keyOf, s, steps[..|steps| - 1], id, copy);
      StepKeepsEvery(keyOf, Run(keyOf, s, steps[..|steps| - 1]), steps[|steps| - 1], (k, app) => k == id ==> app == copy);
    }
  }

  /**
   In every run, with anything happening in between: when the sender of a firing clears, it removes the entry of the
   Application's current image spec if and only if the latest upsert that set up its job had that very image spec.
   */
  lemma FiringClearsCurrentEntry(
    keyOf: ImageSpec -> string, defaultSchedule: string, ops: seq<Op>, before: seq<Step>, job: nat,
    between: seq<Step>, i: nat, current: App)
    returns (latest: nat)
    requires Injective(keyOf)
    requires var s := Run(keyOf, INIT, before);
             && s.live == CronScheduler.Run(Empty(defaultSchedule), ops).live
             && job in s.live && s.live[job].app.Key() == current.Key()
             && var t := Run(keyOf, Do(keyOf, s, Fire(job)), between);
                && i < |t.senders| && t.senders[i].id == s.nextId && !t.senders[i].cleared
                && keyOf(current.image) in t.cache
    ensures LatestSetUp(defaultSchedule, ops, current.Key(), latest)
    ensures var t := Run(keyOf, Do(keyOf, Run(keyOf, INIT, before), Fire(job)), between);
            keyOf(current.image) !in Do(keyOf, t, Clear(i)).cache <==> ops[latest].app.image == current.image
  {
    var s := Run(keyOf, INIT, before);
    latest := JobHoldsLatestCopy(defaultSchedule, ops, job);
    IdsStayBelow(keyOf, before);
    assert Holds(Do(keyOf, s, Fire(job)), s.nextId, s.live[job].app);
    SenderHoldsCopy(keyOf, Do(keyOf, s, Fire(job)), between, s.nextId, s.live[job].app);
  }

  /** After an edit of the image alone the job keeps the copy with the old one. */
  lemma EditLeavesJob(name: NamespacedName, image: ImageSpec, edited: ImageSpec)
    requires image.updateSchedule == edited.updateSchedule
    ensures var live :=
              CronScheduler.Run(
                Empty("@hourly"), [Start, UpsertJob(App(name, image), true), UpsertJob(App(name, edited), true)]).live;
            0 in live && live[0].app == App(name, image)
  {
    var e := Empty("@hourly");
    var ops := [Start, UpsertJob(App(name, image), true), UpsertJob(App(name, edited), true)];
    assert ops[..2][..1] == [Start] && [Start][..0] == [] && CronScheduler.Run(e, []) == e;
    assert CronScheduler.Run(e, [Start]) == e.(started := true);
    var one := CronScheduler.Run(e, ops[..2]);
    assert one == Upsert(e.(started := true), App(name, image), true).0;
    assert CronScheduler.Run(e, ops) == one;
  }

  lemma FiringClears(keyOf: ImageSpec -> string, live: map<nat, Job>, key: string, ref: ImageRef)
    requires 0 in live && keyOf(live[0].app.image) != key
    ensures var s := Run(keyOf, INIT, [Reschedule(live), Remember(key, ref), Fire(0), Clear(0)]);
            s.log == [Cleared(0, keyOf(live[0].app.image))] && key in s.cache
  {
    var steps := [Reschedule(live), Remember(key, ref), Fire(0), Clear(0)];
    assert steps[..3][..2] == steps[..2] && steps[..2][..1] == steps[..1] && steps[..1] == [steps[0]];
    assert steps[..1][..0] == [] && Run(keyOf, INIT, []) == INIT;
    var a := Do(keyOf, INIT, steps[0]);
    var b := Do(keyOf, a, steps[1]);
    var c := Do(keyOf, b, steps[2]);
    assert Run(keyOf, INIT, steps[..1]) == a;
    assert Run(keyOf, INIT, steps[..2]) == b;
    assert Run(keyOf, INIT, steps[..3]) == c;
    assert c.senders[0] == Sender(0, live[0].app, false);
    assert Run(keyOf, INIT, steps) == Do(keyOf, c, steps[3]);
  }

  /** It does happen: after an edit of the image alone the job keeps firing for the old one, and the entry survives. */
  lemma EditedImageSurvives(
    keyOf: ImageSpec -> string, name: NamespacedName, image: ImageSpec, edited: ImageSpec, ref: ImageRef)
    requires Injective(keyOf) && image != edited && image.updateSchedule == edited.updateSchedule
    ensures var ops := [Start, UpsertJob(App(name, image), true), UpsertJob(App(name, edited), true)];
            var live := CronScheduler.Run(Empty("@hourly"), ops).live;
            var steps := [Reschedule(live), Remember(keyOf(edited), ref), Fire(0), Clear(0)];
            var s := Run(keyOf, INIT, steps);
            s.log == [Cleared(0, keyOf(image))] && keyOf(edited) in s.cache
  {
    var ops := [Start, UpsertJob(App(name, image), true), UpsertJob(App(name, edited), true)];
    EditLeavesJob(name, image, edited);
    FiringClears(keyOf, CronScheduler.Run(Empty("@hourly"), ops).live, keyOf(edited), ref);
  }
}
