/**
 The image watcher: a read-through cache of image references, the reconciliation of update schedules, and the
 events that ask for an Application to be reconciled.

 `keyOf` stands for the JSON encoding of an image spec, which is assumed injective where results are compared by spec.
 Each step here is atomic; module WatcherRuns interleaves the steps of concurrent calls.
 */
module CronWatcher {
  import opened Cache
  import opened CronScheduler
  import opened ImageFinder
  import opened ImageRefs
  import opened Wrappers

  ghost predicate Injective(keyOf: ImageSpec -> string) {
    forall a, b :: keyOf(a) == keyOf(b) ==> a == b
  }

  function SpecKeys(keyOf: ImageSpec -> string, apps: seq<App>): (r: set<string>)
    ensures forall k :: k in r <==> exists i :: 0 <= i < |apps| && keyOf(apps[i].image) == k
  {
    set i | 0 <= i < |apps| :: keyOf(apps[i].image)
  }

  lemma RemovedInTurn<V>(m: map<string, V>, keys: set<string>, key: string)
    ensures m - keys - {key} == m - (keys + {key})
  {
  }

  lemma SpecKeysSnoc(keyOf: ImageSpec -> string, apps: seq<App>, app: App)
    ensures SpecKeys(keyOf, apps + [app]) == SpecKeys(keyOf, apps) + {keyOf(app.image)}
  {
    forall k
      ensures k in SpecKeys(keyOf, apps + [app]) <==> k in SpecKeys(keyOf, apps) + {keyOf(app.image)}
    {
      if i :| 0 <= i < |apps| && keyOf(apps[i].image) == k {
        assert (apps + [app])[i] == apps[i];
      }
      assert (apps + [app])[|apps|] == app;
    }
  }

  function SpecsOf(apps: seq<App>): (r: seq<ImageSpec>)
    ensures |r| == |apps| && forall i :: 0 <= i < |apps| ==> r[i] == apps[i].image
  {
    seq(|apps|, i requires 0 <= i < |apps| => apps[i].image)
  }

  // ---------- The cache as a function of what happened to it ----------

  type Entries = map<string, ImageRef>

  type Answer = Result<ImageRef, FindError>

  /** `answer` is what the finder would say at that moment; it is consulted on a miss only. */
  datatype CacheOp = Find(spec: ImageSpec, answer: Answer) | Invalidate(spec: ImageSpec) | Prune(specs: seq<ImageSpec>)

  function Found(cache: Entries, keyOf: ImageSpec -> string, spec: ImageSpec, answer: Answer): Answer {
    if keyOf(spec) in cache then Success(cache[keyOf(spec)]) else answer
  }

  function Apply(cache: Entries, keyOf: ImageSpec -> string, op: CacheOp): Entries {
    match op
    case Find(spec, answer) =>
      if keyOf(spec) in cache || answer.Failure? then cache else cache[keyOf(spec) := answer.value]
    case Invalidate(spec) => cache - {keyOf(spec)}
    case Prune(specs) => Kept(cache, KeySet(keyOf, specs))
  }

  function After(keyOf: ImageSpec -> string, ops: seq<CacheOp>): Entries {
    if ops == [] then map[] else Apply(After(keyOf, ops[..|ops| - 1]), keyOf, ops[|ops| - 1])
  }

  predicate Removes(keyOf: ImageSpec -> string, op: CacheOp, key: string) {
    match op
    case Find(_, _) => false
    case Invalidate(spec) => keyOf(spec) == key
    case Prune(specs) => key !in KeySet(keyOf, specs)
  }

  predicate Answers(keyOf: ImageSpec -> string, op: CacheOp, key: string) {
    op.Find? && keyOf(op.spec) == key && op.answer.Success?
  }

  ghost predicate NoRemoval(keyOf: ImageSpec -> string, ops: seq<CacheOp>, key: string, from: nat) {
    forall k :: from < k < |ops| ==> !Removes(keyOf, ops[k], key)
  }

  ghost predicate RemovedBetween(keyOf: ImageSpec -> string, ops: seq<CacheOp>, key: string, h: nat, i: nat) {
    exists k :: h < k < i && k < |ops| && Removes(keyOf, ops[k], key)
  }

  /** Operation i gave the first successful answer for the key since the key's last removal. */
  ghost predicate Source(keyOf: ImageSpec -> string, ops: seq<CacheOp>, key: string, i: nat) {
    && i < |ops| && Answers(keyOf, ops[i], key)
    && NoRemoval(keyOf, ops, key, i)
    && forall h: nat :: h < i && Answers(keyOf, ops[h], key) ==> RemovedBetween(keyOf, ops, key, h, i)
  }

  /** The cache holds exactly, per key, the answer of its source: errors and later answers are never remembered. */
  lemma {:induction false} CacheRemembersSource(keyOf: ImageSpec -> string, ops: seq<CacheOp>, key: string)
    ensures key in After(keyOf, ops) <==> exists i: nat :: Source(keyOf, ops, key, i)
    ensures forall i: nat :: Source(keyOf, ops, key, i) ==>
              key in After(keyOf, ops) && After(keyOf, ops)[key] == ops[i].answer.value
  {
    if ops != [] {
      var last := |ops| - 1;
      var before := ops[..last];
      CacheRemembersSource(keyOf, before, key);
      if Removes(keyOf, ops[last], key) {
        assert forall i: nat :: i < last ==> !NoRemoval(keyOf, ops, key, i);
        assert !Source(keyOf, ops, key, last);
      } else {
        forall i: nat | i < last
          ensures Source(keyOf, ops, key, i) <==> Source(keyOf, before, key, i)
        {
          SourceOfPrefix(keyOf, ops, key, i);
        }
        if key in After(keyOf, before) {
          var i: nat :| Source(keyOf, before, key, i);
          assert !Source(keyOf, ops, key, last);
        } else if Answers(keyOf, ops[last], key) {
          FirstAnswerIsSource(keyOf, before, ops[last], key);
          assert before + [ops[last]] == ops;
        }
      }
    }
  }

  lemma SourceOfPrefix(keyOf: ImageSpec -> string, ops: seq<CacheOp>, key: string, i: nat)
    requires i < |ops| - 1 && !Removes(keyOf, ops[|ops| - 1], key)
    ensures Source(keyOf, ops, key, i) <==> Source(keyOf, ops[..|ops| - 1], key, i)
  {
    var before := ops[..|ops| - 1];
    assert NoRemoval(keyOf, ops, key, i) <==> NoRemoval(keyOf, before, key, i);
    forall h: nat | h < i
      ensures RemovedBetween(keyOf, ops, key, h, i) <==> RemovedBetween(keyOf, before, key, h, i)
    {
      if k :| h < k < i && Removes(keyOf, ops[k], key) {
        assert Removes(keyOf, before[k], key);
      }
      if k :| h < k < i && Removes(keyOf, before[k], key) {
        assert Removes(keyOf, ops[k], key);
      }
    }
  }

  lemma {:induction false} EarlierAnswerHasSource(keyOf: ImageSpec -> string, ops: seq<CacheOp>, key: string, h: nat)
    requires h < |ops| && Answers(keyOf, ops[h], key) && NoRemoval(keyOf, ops, key, h)
    ensures exists i: nat :: Source(keyOf, ops, key, i)
  {
    if !Source(keyOf, ops, key, h) {
      var g: nat :| g < h && Answers(keyOf, ops[g], key) && !RemovedBetween(keyOf, ops, key, g, h);
      assert NoRemoval(keyOf, ops, key, g);
      EarlierAnswerHasSource(keyOf, ops, key, g);
    }
  }

  lemma FirstAnswerIsSource(keyOf: ImageSpec -> string, before: seq<CacheOp>, op: CacheOp, key: string)
    requires Answers(keyOf, op, key)
    requires forall i: nat :: !Source(keyOf, before, key, i)
    ensures Source(keyOf, before + [op], key, |before|)
  {
    var ops := before + [op];
    forall h: nat | h < |before| && Answers(keyOf, ops[h], key)
      ensures RemovedBetween(keyOf, ops, key, h, |before|)
    {
      if NoRemoval(keyOf, before, key, h) {
        EarlierAnswerHasSource(keyOf, before, key, h);
      }
      var k :| h < k < |before| && Removes(keyOf, before[k], key);
      assert Removes(keyOf, ops[k], key);
    }
  }

  /** A find served without a call repeats its source's answer; a find that called the finder passes its answer on. */
  lemma FindAnswersFromSource(keyOf: ImageSpec -> string, ops: seq<CacheOp>, spec: ImageSpec, answer: Answer)
    ensures var r := Found(After(keyOf, ops), keyOf, spec, answer);
            && (forall i: nat :: Source(keyOf, ops, keyOf(spec), i) ==> r == ops[i].answer)
            && ((forall i: nat :: !Source(keyOf, ops, keyOf(spec), i)) ==> r == answer)
  {
    CacheRemembersSource(keyOf, ops, keyOf(spec));
  }

  /** The finder is called by operation i: a find whose key is not in the cache. */
  predicate Calls(keyOf: ImageSpec -> string, ops: seq<CacheOp>, i: nat)
    requires i < |ops|
  {
    ops[i].Find? && keyOf(ops[i].spec) !in After(keyOf, ops[..i])
  }

  /** Between two successful finder calls for one key the key was removed: the registry is not hammered. */
  lemma OneSuccessfulCallBetweenRemovals(keyOf: ImageSpec -> string, ops: seq<CacheOp>, key: string, i: nat, j: nat)
    requires i < j < |ops| && Calls(keyOf, ops, i) && Calls(keyOf, ops, j)
    requires Answers(keyOf, ops[i], key) && Answers(keyOf, ops[j], key)
    ensures RemovedBetween(keyOf, ops, key, i, j)
  {
    var before := ops[..j];
    CacheRemembersSource(keyOf, before, key);
    if NoRemoval(keyOf, before, key, i) {
      EarlierAnswerHasSource(keyOf, before, key, i);
    }
    var k :| i < k < |before| && Removes(keyOf, before[k], key);
    assert Removes(keyOf, ops[k], key);
  }

  // ---------- Events ----------

  /** The Applications of a listing whose image comes from the repository, in listing order. */
  function Affected(apps: seq<App>, repository: string): (r: seq<App>)
    ensures forall a :: a in r <==> a in apps && a.image.repository == repository
  {
    if apps == [] then []
    else
      var last := |apps| - 1;
      assert apps == apps[..last] + [apps[last]];
      Affected(apps[..last], repository) + if apps[last].image.repository == repository then [apps[last]] else []
  }

  lemma AffectedSnoc(apps: seq<App>, repository: string, i: nat)
    requires i < |apps|
    ensures Affected(apps[..i + 1], repository)
         == Affected(apps[..i], repository) + if apps[i].image.repository == repository then [apps[i]] else []
  {
    assert apps[..i + 1][..i] == apps[..i];
  }

  // ---------- The watcher object ----------

  class Watcher {
    const imageCache: Cache<ImageSpec, ImageRef>
    const scheduler: Scheduler
    /** Senders blocked on the update channel, and what the pump has forwarded to the controller. */
    var waiting: seq<App>
    var forwarded: seq<App>

    ghost predicate Valid()
      reads this, scheduler
    {
      scheduler.Valid()
    }

    constructor (keyOf: ImageSpec -> string, scheduler: Scheduler)
      requires scheduler.Valid()
      ensures Valid() && this.scheduler == scheduler && fresh(imageCache) && imageCache.keyOf == keyOf
      ensures imageCache.entries == map[] && waiting == [] && forwarded == []
    {
      this.scheduler := scheduler;
      imageCache := new Cache(keyOf);
      waiting, forwarded := [], [];
    }

    /** Reads through the cache; `finder` answers the call that is made on a miss. */
    method FindImage(spec: ImageSpec, finder: ImageSpec -> Answer) returns (r: Answer)
      modifies imageCache
      ensures r == Found(old(imageCache.entries), imageCache.keyOf, spec, finder(spec))
      ensures imageCache.entries == Apply(old(imageCache.entries), imageCache.keyOf, Find(spec, finder(spec)))
    {
      var cached := imageCache.Get(spec);
      if cached.Some? {
        return Success(cached.value);
      }
      r := finder(spec);
      if r.Success? {
        imageCache.Set(spec, r.value);
      }
    }

    /** A failed listing changes nothing; a failed upsert is logged and the pass goes on. */
    method ReconcileSchedules(listing: Option<seq<App>>, accepted: seq<bool>)
      requires Valid() && scheduler.jobs as object != imageCache
      requires listing.Some? ==> |accepted| == |listing.value|
      modifies scheduler, scheduler.jobs, imageCache
      ensures Valid()
      ensures scheduler.State() == match listing
                                   case None => old(scheduler.State())
                                   case Some(apps) => Keep(UpsertAll(old(scheduler.State()), apps, accepted), apps)
      ensures imageCache.entries == match listing
                                    case None => old(imageCache.entries)
                                    case Some(apps) => Kept(old(imageCache.entries), SpecKeys(imageCache.keyOf, apps))
    {
      if listing.None? {
        return;
      }
      var apps := listing.value;
      var seen: seq<ImageSpec> := [];
      for i := 0 to |apps|
        invariant Valid() && imageCache.entries == old(imageCache.entries)
        invariant seen == SpecsOf(apps[..i])
        invariant scheduler.State() == UpsertAll(old(scheduler.State()), apps[..i], accepted[..i])
      {
        assert apps[..i + 1][..i] == apps[..i] && accepted[..i + 1][..i] == accepted[..i];
        seen := seen + [apps[i].image];
        var _ := scheduler.UpsertJob(apps[i], accepted[i]);
      }
      assert apps[..|apps|] == apps && accepted[..|apps|] == accepted;
      scheduler.KeepJobs(apps);
      var _ := imageCache.KeepOnly(seen);
      assert KeySet(imageCache.keyOf, seen) == SpecKeys(imageCache.keyOf, apps) by {
        forall k
          ensures k in KeySet(imageCache.keyOf, seen) <==> k in SpecKeys(imageCache.keyOf, apps)
        {
          if i :| 0 <= i < |apps| && imageCache.keyOf(apps[i].image) == k {
            assert imageCache.keyOf(seen[i]) == k;
          }
        }
      }
    }

    /** Clears the cached image of the copy's spec, then queues the copy for reconciliation. */
    method EnqueueReconciliation(app: App)
      modifies this`waiting, imageCache
      ensures imageCache.entries == old(imageCache.entries) - {imageCache.keyOf(app.image)}
      ensures waiting == old(waiting) + [app]
    {
      imageCache.Delete(app.image);
      waiting := waiting + [app];
    }

    /** The webhook: every listed Application with the repository is queued, and no other. */
    method OnImageUpdated(repository: string, listing: Option<seq<App>>)
      modifies this`waiting, imageCache
      ensures listing.None? ==> waiting == old(waiting) && imageCache.entries == old(imageCache.entries)
      ensures listing.Some? ==>
                var affected := Affected(listing.value, repository);
                && waiting == old(waiting) + affected
                && imageCache.entries == old(imageCache.entries) - SpecKeys(imageCache.keyOf, affected)
    {
      if listing.None? {
        return;
      }
      var apps := listing.value;
      ghost var start, done := imageCache.entries, [];
      for i := 0 to |apps|
        invariant done == Affected(apps[..i], repository) && waiting == old(waiting) + done
        invariant imageCache.entries == start - SpecKeys(imageCache.keyOf, done)
      {
        AffectedSnoc(apps, repository, i);
        if apps[i].image.repository == repository {
          EnqueueReconciliation(apps[i]);
          SpecKeysSnoc(imageCache.keyOf, done, apps[i]);
          RemovedInTurn(start, SpecKeys(imageCache.keyOf, done), imageCache.keyOf(apps[i].image));
          done := done + [apps[i]];
        }
      }
      assert apps[..|apps|] == apps;
    }

    /** One turn of the pump: whichever blocked sender the runtime picks is received and forwarded. */
    method Pump(picked: nat)
      requires picked < |waiting|
      modifies this`waiting, this`forwarded
      ensures forwarded == old(forwarded) + [old(waiting)[picked]]
      ensures multiset(waiting) + multiset(forwarded) == old(multiset(waiting) + multiset(forwarded))
    {
      var app := waiting[picked];
      assert waiting == waiting[..picked] + [app] + waiting[picked + 1..];
      waiting := waiting[..picked] + waiting[picked + 1..];
      forwarded := forwarded + [app];
    }
  }
}
