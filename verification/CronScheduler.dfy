/**
 The scheduler of update checks: a table of job handles kept beside gocron's own set of live jobs.

 gocron is modelled as a map of live jobs by id. Adding a job either succeeds with a new id or fails and leaves
 nothing behind; whether it succeeds is decided by the caller of the model. Removing an absent job does nothing.
 */
module CronScheduler {
  import opened Cache
  import opened ImageFinder
  import opened Names
  import opened Wrappers

  /** An Application as the watcher sees it; a value, so a job's copy does not follow later edits. */
  datatype App = App(name: NamespacedName, image: ImageSpec) {
    function Key(): string {
      name.String()
    }
  }

  function AppKeys(apps: seq<App>): (r: set<string>)
    ensures forall k :: k in r <==> exists i :: 0 <= i < |apps| && apps[i].Key() == k
  {
    set i | 0 <= i < |apps| :: apps[i].Key()
  }

  datatype Job = Job(schedule: string, app: App)

  datatype Handle = Handle(job: nat, schedule: string)

  datatype Sched = Sched(
    started: bool,
    defaultSchedule: string,
    handles: map<string, Handle>,
    live: map<nat, Job>,
    nextId: nat)
  {
    function ScheduleOrDefault(app: App): string {
      if app.image.updateSchedule.Some? then app.image.updateSchedule.value else defaultSchedule
    }
  }

  function Empty(defaultSchedule: string): Sched {
    Sched(false, defaultSchedule, map[], map[], 0)
  }

  /** Adds or reschedules the job of an Application; `accepted` is gocron's verdict on the schedule. */
  function Upsert(s: Sched, app: App, accepted: bool): (r: (Sched, bool)) {
    var key, schedule := app.Key(), s.ScheduleOrDefault(app);
    if !s.started then (s, false)
    else if key in s.handles && s.handles[key].schedule == schedule then (s, true)
    else
      var cleaned := if key in s.handles then s.(live := s.live - {s.handles[key].job}) else s;
      if !accepted then (cleaned, false)
      else (cleaned.(handles := cleaned.handles[key := Handle(s.nextId, schedule)],
                     live := cleaned.live[s.nextId := Job(schedule, app)],
                     nextId := s.nextId + 1), true)
  }

  function JobIds(handles: map<string, Handle>): set<nat> {
    set k | k in handles :: handles[k].job
  }

  function Keep(s: Sched, apps: seq<App>): Sched {
    var keys := AppKeys(apps);
    s.(handles := Kept(s.handles, keys), live := s.live - JobIds(Pruned(s.handles, keys)))
  }

  // ---------- Whole runs ----------

  datatype Op = Start | UpsertJob(app: App, accepted: bool) | KeepJobs(apps: seq<App>)

  function Step(s: Sched, op: Op): Sched {
    match op
    case Start => s.(started := true)
    case UpsertJob(app, accepted) => Upsert(s, app, accepted).0
    case KeepJobs(apps) => Keep(s, apps)
  }

  function Run(s: Sched, ops: seq<Op>): Sched {
    if ops == [] then s else Step(Run(s, ops[..|ops| - 1]), ops[|ops| - 1])
  }

  /** The keys whose latest effective reschedule failed after the old job was already removed. */
  function Broken(s: Sched, ops: seq<Op>): set<string> {
    if ops == [] then {}
    else
      var before, op := ops[..|ops| - 1], ops[|ops| - 1];
      var at, broken := Run(s, before), Broken(s, before);
      match op
      case Start => broken
      case UpsertJob(app, accepted) => BrokenByUpsert(at, broken, app, accepted)
      case KeepJobs(apps) => broken * AppKeys(apps)
  }

  /** The schedule is the one the Application asks for, or the default where it asks for none. */
  predicate RunsOn(defaultSchedule: string, app: App, schedule: string) {
    match app.image.updateSchedule
    case Some(own) => schedule == own
    case None => schedule == defaultSchedule
  }

  /** A live job belongs to the handle under its Application's key, and runs on that Application's schedule. */
  ghost predicate Backed(s: Sched, id: nat) {
    id in s.live ==>
      var job := s.live[id];
      && id < s.nextId
      && job.app.Key() in s.handles && s.handles[job.app.Key()] == Handle(id, job.schedule)
      && RunsOn(s.defaultSchedule, job.app, job.schedule)
  }

  /** A handle's job is live exactly when its key is not broken, and no other key refers to it. */
  ghost predicate Sound(s: Sched, broken: set<string>, k: string) {
    k in s.handles ==>
      && s.handles[k].job < s.nextId
      && (s.handles[k].job in s.live <==> k !in broken)
  }

  ghost predicate Apart(s: Sched, k: string, l: string) {
    k in s.handles && l in s.handles && s.handles[k].job == s.handles[l].job ==> k == l
  }

  /** Every live job belongs to one handle, and every handle's job is live unless its key is broken. */
  ghost predicate NoLeak(s: Sched, broken: set<string>) {
    && broken <= s.handles.Keys
    && (forall id {:trigger Backed(s, id)} :: Backed(s, id))
    && (forall k {:trigger Sound(s, broken, k)} :: Sound(s, broken, k))
    && (forall k, l {:trigger Apart(s, k, l)} :: Apart(s, k, l))
  }

  /** Removing the old job before rescheduling breaks the key for the moment. */
  lemma RemovalBreaksKey(s: Sched, broken: set<string>, key: string)
    requires NoLeak(s, broken) && key in s.handles
    ensures NoLeak(s.(live := s.live - {s.handles[key].job}), broken + {key})
  {
    var after := s.(live := s.live - {s.handles[key].job});
    forall id
      ensures Backed(after, id)
    {
      assert Backed(s, id);
    }
    forall k
      ensures Sound(after, broken + {key}, k)
    {
      assert Sound(s, broken, k) && Apart(s, key, k);
    }
    forall k, l
      ensures Apart(after, k, l)
    {
      assert Apart(s, k, l);
    }
  }

  function Added(s: Sched, app: App): Sched {
    var schedule := s.ScheduleOrDefault(app);
    s.(handles := s.handles[app.Key() := Handle(s.nextId, schedule)],
       live := s.live[s.nextId := Job(schedule, app)],
       nextId := s.nextId + 1)
  }

  /** Adding a job under a key without a live one mends the key. */
  lemma AdditionMendsKey(s: Sched, broken: set<string>, app: App)
    requires NoLeak(s, broken) && (app.Key() in s.handles ==> app.Key() in broken)
    ensures NoLeak(Added(s, app), broken - {app.Key()})
  {
    var key, after := app.Key(), Added(s, app);
    forall id
      ensures Backed(after, id)
    {
      assert Backed(s, id);
      if id in s.live {
        assert Sound(s, broken, s.live[id].app.Key());
      }
    }
    forall k
      ensures Sound(after, broken - {key}, k)
    {
      assert Sound(s, broken, k);
    }
    forall k, l
      ensures Apart(after, k, l)
    {
      assert Apart(s, k, l) && Sound(s, broken, k) && Sound(s, broken, l);
    }
  }

  function BrokenByUpsert(s: Sched, broken: set<string>, app: App, accepted: bool): set<string> {
    var key := app.Key();
    if !s.started || (key in s.handles && RunsOn(s.defaultSchedule, app, s.handles[key].schedule)) then broken
    else if accepted then broken - {key}
    else if key in s.handles then broken + {key}
    else broken
  }

  lemma UpsertKeepsNoLeak(s: Sched, broken: set<string>, app: App, accepted: bool)
    requires NoLeak(s, broken)
    ensures NoLeak(Upsert(s, app, accepted).0, BrokenByUpsert(s, broken, app, accepted))
  {
    var key := app.Key();
    if s.started && !(key in s.handles && RunsOn(s.defaultSchedule, app, s.handles[key].schedule)) {
      var cleaned, broken' := s, broken;
      if key in s.handles {
        RemovalBreaksKey(s, broken, key);
        cleaned, broken' := s.(live := s.live - {s.handles[key].job}), broken + {key};
      }
      if accepted {
        AdditionMendsKey(cleaned, broken', app);
        assert broken' - {key} == broken - {key};
        assert Upsert(s, app, accepted).0 == Added(cleaned, app);
      }
    }
  }

  lemma KeepKeepsNoLeak(s: Sched, broken: set<string>, apps: seq<App>)
    requires NoLeak(s, broken)
    ensures NoLeak(Keep(s, apps), broken * AppKeys(apps))
    ensures forall k :: k in s.handles && k in AppKeys(apps) ==>
              (s.handles[k].job in Keep(s, apps).live <==> s.handles[k].job in s.live)
  {
    var keys := AppKeys(apps);
    var after := Keep(s, apps);
    var pruned := Pruned(s.handles, keys);
    forall id
      ensures Backed(after, id)
    {
      assert Backed(s, id);
      if id in s.live && s.live[id].app.Key() in pruned {
        assert id in JobIds(pruned);
      }
    }
    forall k | k in s.handles && k in keys
      ensures s.handles[k].job !in JobIds(pruned)
    {
      forall l | l in pruned
        ensures pruned[l].job != s.handles[k].job
      {
        assert Apart(s, k, l);
      }
    }
    forall k
      ensures Sound(after, broken * keys, k)
    {
      assert Sound(s, broken, k);
    }
    forall k, l
      ensures Apart(after, k, l)
    {
      assert Apart(s, k, l);
    }
  }

  /** No sequence of upserts and prunings, failing ones included, leaks a job. */
  lemma {:induction false} NoJobLeaks(defaultSchedule: string, ops: seq<Op>)
    ensures NoLeak(Run(Empty(defaultSchedule), ops), Broken(Empty(defaultSchedule), ops))
  {
    if ops != [] {
      var before, op := ops[..|ops| - 1], ops[|ops| - 1];
      NoJobLeaks(defaultSchedule, before);
      var s, broken := Run(Empty(defaultSchedule), before), Broken(Empty(defaultSchedule), before);
      match op
      case Start =>
        var after := s.(started := true);
        forall id
          ensures Backed(after, id)
        {
          assert Backed(s, id);
        }
        forall k
          ensures Sound(after, broken, k)
        {
          assert Sound(s, broken, k);
        }
        forall k, l
          ensures Apart(after, k, l)
        {
          assert Apart(s, k, l);
        }
      case UpsertJob(app, accepted) => UpsertKeepsNoLeak(s, broken, app, accepted);
      case KeepJobs(apps) => KeepKeepsNoLeak(s, broken, apps);
    }
  }

  /** The default is the one the scheduler was created with. */
  lemma {:induction false} DefaultStays(defaultSchedule: string, ops: seq<Op>)
    ensures Run(Empty(defaultSchedule), ops).defaultSchedule == defaultSchedule
  {
    if ops != [] {
      DefaultStays(defaultSchedule, ops[..|ops| - 1]);
    }
  }

  /** So in every run an Application has at most one live job. */
  lemma AtMostOneLiveJob(defaultSchedule: string, ops: seq<Op>, a: nat, b: nat)
    requires var s := Run(Empty(defaultSchedule), ops);
             a in s.live && b in s.live && s.live[a].app.name == s.live[b].app.name
    ensures a == b
  {
    NoJobLeaks(defaultSchedule, ops);
    var s := Run(Empty(defaultSchedule), ops);
    assert Backed(s, a) && Backed(s, b);
  }

  /** A broken key stays dead: asking again for the recorded schedule reports success and changes nothing. */
  lemma BrokenKeyStaysDead(defaultSchedule: string, ops: seq<Op>, app: App, accepted: bool)
    requires var s := Run(Empty(defaultSchedule), ops);
             && s.started && app.Key() in Broken(Empty(defaultSchedule), ops) && app.Key() in s.handles
             && RunsOn(defaultSchedule, app, s.handles[app.Key()].schedule)
    ensures var s := Run(Empty(defaultSchedule), ops);
            && Upsert(s, app, accepted) == (s, true)
            && forall id :: id in s.live ==> s.live[id].app.name != app.name
  {
    NoJobLeaks(defaultSchedule, ops);
    DefaultStays(defaultSchedule, ops);
    var s, broken := Run(Empty(defaultSchedule), ops), Broken(Empty(defaultSchedule), ops);
    forall id | id in s.live
      ensures s.live[id].app.name != app.name
    {
      assert Backed(s, id) && Sound(s, broken, s.live[id].app.Key());
    }
  }

  /** Keys do break: schedule a job, then ask for a schedule gocron refuses. */
  lemma FailedRescheduleBreaksKey(name: NamespacedName, image: ImageSpec)
    ensures var good := App(name, image.(updateSchedule := Some("@daily")));
            var bad := App(name, image.(updateSchedule := Some("oops")));
            var ops := [Start, UpsertJob(good, true), UpsertJob(bad, false)];
            && Broken(Empty("@hourly"), ops) == {good.Key()}
            && Run(Empty("@hourly"), ops).live == map[]
            && Upsert(Run(Empty("@hourly"), ops), good, true) == (Run(Empty("@hourly"), ops), true)
  {
    var good := App(name, image.(updateSchedule := Some("@daily")));
    var bad := App(name, image.(updateSchedule := Some("oops")));
    var e := Empty("@hourly");
    var ops := [Start, UpsertJob(good, true), UpsertJob(bad, false)];
    assert ops[..2] == [Start, UpsertJob(good, true)] && ops[..2][..1] == [Start] && [Start][..0] == [];
    assert Run(e, []) == e;
    assert Run(e, [Start]) == e.(started := true);
    var one := Run(e, ops[..2]);
    assert one == Upsert(e.(started := true), good, true).0;
    assert Broken(e, [Start]) == {};
    assert Broken(e, ops[..2]) == {};
  }

  // ---------- Which copy a job holds ----------

  /** The upsert sets up a new job: it is accepted, and the schedule is not already recorded. */
  predicate SetsUp(s: Sched, op: Op, key: string) {
    && op.UpsertJob? && op.app.Key() == key && op.accepted && s.started
    && !(key in s.handles && RunsOn(s.defaultSchedule, op.app, s.handles[key].schedule))
  }

  /** Operation i is the latest in the run to set up a job under the key. */
  ghost predicate LatestSetUp(defaultSchedule: string, ops: seq<Op>, key: string, i: nat) {
    && i < |ops| && SetsUp(Run(Empty(defaultSchedule), ops[..i]), ops[i], key)
    && forall j {:trigger ops[j]} :: i < j < |ops| ==> !SetsUp(Run(Empty(defaultSchedule), ops[..j]), ops[j], key)
  }

  lemma LatestStaysLatest(defaultSchedule: string, ops: seq<Op>, key: string, i: nat)
    requires ops != [] && LatestSetUp(defaultSchedule, ops[..|ops| - 1], key, i)
    requires !SetsUp(Run(Empty(defaultSchedule), ops[..|ops| - 1]), ops[|ops| - 1], key)
    ensures LatestSetUp(defaultSchedule, ops, key, i)
  {
    var before := ops[..|ops| - 1];
    assert before[..i] == ops[..i];
    forall j | i < j < |ops|
      ensures !SetsUp(Run(Empty(defaultSchedule), ops[..j]), ops[j], key)
    {
      if j < |before| {
        assert before[..j] == ops[..j] && before[j] == ops[j];
      }
    }
  }

  /** A step keeps a live job as it is, or the job is the one the step set up. */
  lemma StepKeepsOrSetsUp(s: Sched, broken: set<string>, op: Op, id: nat)
    requires NoLeak(s, broken) && id in Step(s, op).live
    ensures var job := Step(s, op).live[id];
            || (id in s.live && job == s.live[id] && !SetsUp(s, op, job.app.Key()))
            || (SetsUp(s, op, job.app.Key()) && job.app == op.app)
  {
    assert Backed(s, id);
    match op
    case Start =>
    case UpsertJob(app, accepted) =>
      if id in s.live && s.live[id].app.Key() == app.Key() {
        assert Sound(s, broken, app.Key());
      }
    case KeepJobs(_) =>
  }

  /** In every run a live job holds the copy of the latest upsert that set up a job for its Application. */
  lemma {:induction false} JobHoldsLatestCopy(defaultSchedule: string, ops: seq<Op>, id: nat) returns (i: nat)
    requires id in Run(Empty(defaultSchedule), ops).live
    ensures var job := Run(Empty(defaultSchedule), ops).live[id];
            LatestSetUp(defaultSchedule, ops, job.app.Key(), i) && ops[i].app == job.app
  {
    var last := |ops| - 1;
    var before, s := ops[..last], Run(Empty(defaultSchedule), ops[..last]);
    NoJobLeaks(defaultSchedule, before);
    StepKeepsOrSetsUp(s, Broken(Empty(defaultSchedule), before), ops[last], id);
    var job := Run(Empty(defaultSchedule), ops).live[id];
    if SetsUp(s, ops[last], job.app.Key()) {
      i := last;
    } else {
      i := JobHoldsLatestCopy(defaultSchedule, before, id);
      LatestStaysLatest(defaultSchedule, ops, job.app.Key(), i);
    }
  }

  // ---------- One pass over the listed Applications ----------

  ghost predicate DistinctKeys(apps: seq<App>) {
    forall i, j :: 0 <= i < j < |apps| ==> apps[i].Key() != apps[j].Key()
  }

  /** Distinct valid names have distinct keys, so the Applications of a cluster never share a job. */
  lemma DistinctNamesHaveDistinctKeys(apps: seq<App>)
    requires forall i :: 0 <= i < |apps| ==> ValidName(apps[i].name)
    requires forall i, j :: 0 <= i < j < |apps| ==> apps[i].name != apps[j].name
    ensures DistinctKeys(apps)
  {
    forall i, j | 0 <= i < j < |apps|
      ensures apps[i].Key() != apps[j].Key()
    {
      if apps[i].Key() == apps[j].Key() {
        StringInjective(apps[i].name, apps[j].name);
      }
    }
  }

  function UpsertAll(s: Sched, apps: seq<App>, accepted: seq<bool>): Sched
    requires |accepted| == |apps|
  {
    if apps == [] then s
    else
      var last := |apps| - 1;
      Upsert(UpsertAll(s, apps[..last], accepted[..last]), apps[last], accepted[last]).0
  }

  /** The job an upsert leaves under a key is live, unless the old handle recorded this schedule and was dead. */
  predicate LeftLive(s: Sched, app: App) {
    app.Key() in s.handles && RunsOn(s.defaultSchedule, app, s.handles[app.Key()].schedule) ==>
      s.handles[app.Key()].job in s.live
  }

  /** The Application has a handle with its own schedule. */
  ghost predicate Scheduled(s: Sched, after: Sched, app: App) {
    && app.Key() in after.handles
    && RunsOn(s.defaultSchedule, app, after.handles[app.Key()].schedule)
    && (after.handles[app.Key()].job in after.live <==> LeftLive(s, app))
  }

  ghost predicate Untouched(s: Sched, after: Sched, k: string) {
    && (k in after.handles <==> k in s.handles)
    && (k in s.handles ==>
          after.handles[k] == s.handles[k] && (s.handles[k].job in after.live <==> s.handles[k].job in s.live))
  }

  lemma UpsertOneExact(s: Sched, broken: set<string>, app: App)
    requires s.started && NoLeak(s, broken)
    ensures var after := Upsert(s, app, true).0;
            && Scheduled(s, after, app)
            && after.started && after.defaultSchedule == s.defaultSchedule
            && forall k {:trigger Untouched(s, after, k)} :: k != app.Key() ==> Untouched(s, after, k)
  {
    var after := Upsert(s, app, true).0;
    forall k | k != app.Key()
      ensures Untouched(s, after, k)
    {
      assert Apart(s, app.Key(), k) && Sound(s, broken, k);
    }
  }

  lemma {:induction false} UpsertAllExact(s: Sched, broken: set<string>, apps: seq<App>, accepted: seq<bool>)
    returns (broken': set<string>)
    requires s.started && DistinctKeys(apps) && |accepted| == |apps| && NoLeak(s, broken)
    requires forall i :: 0 <= i < |apps| ==> accepted[i]
    ensures var after := UpsertAll(s, apps, accepted);
            && NoLeak(after, broken') && after.started && after.defaultSchedule == s.defaultSchedule
            && (forall i :: 0 <= i < |apps| ==> Scheduled(s, after, apps[i]))
            && (forall k {:trigger Untouched(s, after, k)} :: k !in AppKeys(apps) ==> Untouched(s, after, k))
  {
    broken' := broken;
    if apps != [] {
      var last := |apps| - 1;
      var app := apps[last];
      var mid, after := UpsertAll(s, apps[..last], accepted[..last]), UpsertAll(s, apps, accepted);
      broken' := UpsertAllExact(s, broken, apps[..last], accepted[..last]);
      UpsertKeepsNoLeak(mid, broken', app, true);
      UpsertOneExact(mid, broken', app);
      broken' := BrokenByUpsert(mid, broken', app, true);
      assert app.Key() !in AppKeys(apps[..last]);
      assert Untouched(s, mid, app.Key());
      forall i | 0 <= i < |apps|
        ensures Scheduled(s, after, apps[i])
      {
        if i < last {
          assert Scheduled(s, mid, apps[..last][i]);
          assert Untouched(mid, after, apps[i].Key());
        }
      }
      forall k | k !in AppKeys(apps)
        ensures Untouched(s, after, k)
      {
        assert apps[last].Key() != k;
        assert k !in AppKeys(apps[..last]);
        assert Untouched(s, mid, k) && Untouched(mid, after, k);
      }
    }
  }

  lemma ScheduledAreHandled(s: Sched, after: Sched, apps: seq<App>)
    requires forall i :: 0 <= i < |apps| ==> Scheduled(s, after, apps[i])
    ensures AppKeys(apps) <= after.handles.Keys
  {
    forall k | k in AppKeys(apps)
      ensures k in after.handles
    {
      var i :| 0 <= i < |apps| && apps[i].Key() == k;
      assert Scheduled(s, after, apps[i]);
    }
  }

  lemma PassIsExact(s: Sched, broken: set<string>, apps: seq<App>, accepted: seq<bool>) returns (broken': set<string>)
    requires s.started && DistinctKeys(apps) && |accepted| == |apps| && NoLeak(s, broken)
    requires forall i :: 0 <= i < |apps| ==> accepted[i]
    ensures var after := Keep(UpsertAll(s, apps, accepted), apps);
            && after.handles.Keys == AppKeys(apps) && after.defaultSchedule == s.defaultSchedule
            && (forall i :: 0 <= i < |apps| ==> Scheduled(s, after, apps[i]))
            && NoLeak(after, broken')
  {
    broken' := UpsertAllExact(s, broken, apps, accepted);
    var mid := UpsertAll(s, apps, accepted);
    KeepKeepsNoLeak(mid, broken', apps);
    broken' := broken' * AppKeys(apps);
    var after := Keep(mid, apps);
    forall i | 0 <= i < |apps|
      ensures Scheduled(s, after, apps[i])
    {
      assert Scheduled(s, mid, apps[i]) && apps[i].Key() in AppKeys(apps);
    }
    ScheduledAreHandled(s, after, apps);
  }

  /** What an Application's schedule comes to: its handle's is the one wanted, and so is its live job's. */
  ghost predicate OnSchedule(defaultSchedule: string, after: Sched, app: App) {
    && app.Key() in after.handles
    && var handle := after.handles[app.Key()];
       && (app.image.updateSchedule.Some? ==> handle.schedule == app.image.updateSchedule.value)
       && (app.image.updateSchedule.None? ==> handle.schedule == defaultSchedule)
       && (handle.job in after.live ==> after.live[handle.job].schedule == handle.schedule)
  }

  /** The key had the wanted schedule recorded, but its job was gone since a failed reschedule. */
  ghost predicate DeadBefore(defaultSchedule: string, ops: seq<Op>, app: App) {
    var s := Run(Empty(defaultSchedule), ops);
    && app.Key() in Broken(Empty(defaultSchedule), ops) && app.Key() in s.handles
    && s.handles[app.Key()].schedule
       == if app.image.updateSchedule.Some? then app.image.updateSchedule.value else defaultSchedule
  }

  /**
   After any run, a pass whose upserts are all accepted leaves handles of exactly the listed Applications, each on the
   schedule its spec asks for, or on the default the scheduler was created with, with its live job on the same one; the
   job is live but for keys whose recorded schedule was already dead; and no other job is live.
   */
  lemma SchedulesAreExact(defaultSchedule: string, ops: seq<Op>, apps: seq<App>, accepted: seq<bool>)
    requires Run(Empty(defaultSchedule), ops).started && DistinctKeys(apps) && |accepted| == |apps|
    requires forall i :: 0 <= i < |apps| ==> accepted[i]
    ensures var after := Keep(UpsertAll(Run(Empty(defaultSchedule), ops), apps, accepted), apps);
            && after.handles.Keys == AppKeys(apps)
            && (forall i :: 0 <= i < |apps| ==>
                  && OnSchedule(defaultSchedule, after, apps[i])
                  && (after.handles[apps[i].Key()].job in after.live <==> !DeadBefore(defaultSchedule, ops, apps[i])))
            && (forall id :: id in after.live ==> exists i :: 0 <= i < |apps| && after.handles[apps[i].Key()].job == id)
  {
    NoJobLeaks(defaultSchedule, ops);
    DefaultStays(defaultSchedule, ops);
    var s, broken := Run(Empty(defaultSchedule), ops), Broken(Empty(defaultSchedule), ops);
    var _ := PassIsExact(s, broken, apps, accepted);
    var after := Keep(UpsertAll(s, apps, accepted), apps);
    forall i | 0 <= i < |apps|
      ensures OnSchedule(defaultSchedule, after, apps[i])
              && (after.handles[apps[i].Key()].job in after.live <==> !DeadBefore(defaultSchedule, ops, apps[i]))
    {
      assert Scheduled(s, after, apps[i]) && Sound(s, broken, apps[i].Key());
      var id := after.handles[apps[i].Key()].job;
      if id in after.live {
        assert Backed(after, id) && Apart(after, after.live[id].app.Key(), apps[i].Key());
      }
    }
    forall id | id in after.live
      ensures exists i :: 0 <= i < |apps| && after.handles[apps[i].Key()].job == id
    {
      assert Backed(after, id);
      var k := after.live[id].app.Key();
      var i :| 0 <= i < |apps| && apps[i].Key() == k;
    }
  }

  // ---------- The scheduler object ----------

  class Scheduler {
    const defaultSchedule: string
    const jobs: Cache<App, Handle>
    var live: map<nat, Job>
    var nextId: nat
    var isStarted: bool

    ghost predicate Valid()
      reads this
    {
      forall a :: jobs.keyOf(a) == a.Key()
    }

    function State(): Sched
      reads this, jobs
    {
      Sched(isStarted, defaultSchedule, jobs.entries, live, nextId)
    }

    constructor (defaultSchedule: string)
      ensures Valid() && fresh(jobs) && State() == Empty(defaultSchedule)
    {
      this.defaultSchedule := defaultSchedule;
      jobs := new Cache((a: App) => a.Key());
      live, nextId, isStarted := map[], 0, false;
    }

    method Start()
      requires Valid()
      modifies this
      ensures Valid() && State() == old(State()).(started := true)
    {
      isStarted := true;
    }

    method RemoveByReference(id: nat)
      requires Valid()
      modifies this`live
      ensures live == old(live) - {id}
    {
      live := live - {id};
    }

    method UpsertJob(app: App, accepted: bool) returns (ok: bool)
      requires Valid()
      modifies this, jobs
      ensures Valid() && (State(), ok) == Upsert(old(State()), app, accepted)
      ensures ok ==> app.Key() in jobs.entries && RunsOn(defaultSchedule, app, jobs.entries[app.Key()].schedule)
      ensures ok ==> isStarted && (accepted || jobs.entries == old(jobs.entries))
    {
      if !isStarted {
        return false;
      }
      var schedule := if app.image.updateSchedule.Some? then app.image.updateSchedule.value else defaultSchedule;
      var handle := jobs.Get(app);
      if handle.Some? {
        if handle.value.schedule == schedule {
          return true;
        }
        RemoveByReference(handle.value.job);
      }
      if !accepted {
        return false;
      }
      var id := nextId;
      nextId := nextId + 1;
      live := live[id := Job(schedule, app)];
      jobs.Set(app, Handle(id, schedule));
      return true;
    }

    method KeepJobs(apps: seq<App>)
      requires Valid()
      modifies this, jobs
      ensures Valid() && State() == Keep(old(State()), apps)
    {
      var discarded := jobs.KeepOnly(apps);
      assert KeySet(jobs.keyOf, apps) == AppKeys(apps);
      var todo := discarded.Keys;
      while todo != {}
        invariant Valid() && jobs.entries == Kept(old(jobs.entries), KeySet(jobs.keyOf, apps))
        invariant todo <= discarded.Keys && nextId == old(nextId) && isStarted == old(isStarted)
        invariant live == old(live) - (set k | k in discarded && k !in todo :: discarded[k].job)
      {
        var k :| k in todo;
        todo := todo - {k};
        RemoveByReference(discarded[k].job);
      }
      assert live == old(live) - JobIds(discarded);
    }
  }
}
