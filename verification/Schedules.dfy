/**
 Durable discovery schedules (src/founderos_atlas/scheduling.py): the catalog,
 the recurrence arithmetic, what each store operation does to the catalog, and
 the lease invariant every operation keeps.
 */
module Schedules {
  import opened Basics

  type Id = string

  /** Microseconds since the epoch, in UTC. */
  type Time = int

  const SECOND: Time := 1_000_000
  const MINUTE: Time := 60 * SECOND
  const RETAINED := 1000

  /** Persisted stamps carry whole seconds. */
  function Stamp(t: Time): Time {
    t - t % SECOND
  }

  datatype Recurrence = Once | Interval(minutes: int) | Daily

  datatype Misfire = Skip | RunOnce

  datatype Status = Claimed | Succeeded | Failed | Cancelled

  datatype Outcome = Ended(status: Status) | SkippedMisfire

  datatype Schedule = Schedule(
    id: Id,
    profile: string,
    recurrence: Recurrence,
    nextRunAt: Time,
    enabled: bool,
    misfire: Misfire,
    maxRetries: int,
    retryDelay: int,
    lastRunAt: Option<Time>,
    lastOutcome: Option<Outcome>,
    leaseOwner: Option<string>,
    leaseUntil: Option<Time>,
    activeRun: Option<Id>,
    retryAttempt: int,
    retryOrigin: Option<Time>,
    revision: int)
  {
    /** The occurrence a run belongs to: where its chain of retries began. */
    function Origin(): Time {
      if retryOrigin.Some? then retryOrigin.value else nextRunAt
    }

    /** The settings check of the constructor. */
    predicate Configured() {
      && (recurrence.Interval? ==> 1 <= recurrence.minutes <= 525_600)
      && 0 <= maxRetries <= 10
      && 1 <= retryDelay <= 1440
    }
  }

  /** The idempotency key joins the schedule id and the due stamp. */
  datatype RunKey = RunKey(schedule: Id, due: Time)

  datatype Run = Run(
    id: Id,
    schedule: Id,
    profile: string,
    key: RunKey,
    dueAt: Time,
    claimedAt: Time,
    status: Status,
    attempt: int,
    job: Option<string>,
    completedAt: Option<Time>)

  datatype Catalog = Catalog(revision: int, schedules: seq<Schedule>, runs: seq<Run>)

  datatype Error = Corrupt | Conflict | NoSuchSchedule | NoSuchRun | InvalidStatus | InvalidSchedule

  /** An enabled schedule that has not run yet. */
  function NewSchedule(id: Id, profile: string, recurrence: Recurrence, firstRunAt: Time,
                       misfire: Misfire, maxRetries: int, retryDelay: int): Schedule
  {
    Schedule(id, profile, recurrence, Stamp(firstRunAt), true, misfire, maxRetries, retryDelay,
             None, None, None, None, None, 1, None, 1)
  }

  /** How a daily schedule resolves its next wall-clock occurrence after an instant. */
  type DailyRule = (Schedule, Time) -> Time

  /** What the scheduler relies on: the occurrence is a whole-second instant after the moment. */
  ghost predicate Resolves(daily: DailyRule) {
    forall s, t :: t < daily(s, t) && Stamp(daily(s, t)) == daily(s, t)
  }

  // ---------------------------------------------------------- recurrence

  /** The least `base + k * step`, k a natural number, that lies after the moment. */
  function NextOnGrid(base: Time, step: Time, moment: Time): Time
    requires step > 0
  {
    if base > moment then base else base + ((moment - base) / step + 1) * step
  }

  lemma NextOnGridIsLeast(base: Time, step: Time, moment: Time, k: nat)
    requires step > 0
    ensures moment < NextOnGrid(base, step, moment)
    ensures exists n: nat :: NextOnGrid(base, step, moment) == base + n * step
    ensures base + k * step > moment ==> NextOnGrid(base, step, moment) <= base + k * step
  {
    if base > moment {
      assert NextOnGrid(base, step, moment) == base + 0 * step;
    } else {
      var n := (moment - base) / step + 1;
      assert NextOnGrid(base, step, moment) == base + n * step;
      MultiplyMonotone(k, n - 1, step);
      MultiplyMonotone(n, k, step);
    }
  }

  lemma MultiplyMonotone(a: int, b: int, step: int)
    requires step > 0
    ensures a <= b ==> a * step <= b * step
  {
    if a <= b { assert 0 <= (b - a) * step; }
  }

  /** The loop of the interval branch. */
  method NextCandidate(base: Time, step: Time, moment: Time) returns (candidate: Time)
    requires step > 0
    ensures candidate == NextOnGrid(base, step, moment)
  {
    candidate := base;
    ghost var n: nat := 0;
    while candidate <= moment
      invariant candidate == base + n * step
      invariant n > 0 ==> candidate - step <= moment
      decreases moment - candidate
    {
      candidate := candidate + step;
      n := n + 1;
    }
    if n > 0 {
      assert (n - 1) * step <= moment - base < n * step;
      Quotient(moment - base, step, n - 1);
    }
  }

  lemma Quotient(a: int, step: int, n: int)
    requires step > 0 && n * step <= a < (n + 1) * step
    ensures a / step == n
  {
    var q := a / step;
    assert q * step <= a < (q + 1) * step;
    MultiplyMonotone(q + 1, n, step);
    MultiplyMonotone(n + 1, q, step);
  }

  function Released(s: Schedule): Schedule {
    s.(leaseOwner := None, leaseUntil := None, activeRun := None)
  }

  function Advance(s: Schedule, moment: Time, outcome: Outcome, daily: DailyRule): Schedule
    requires s.Configured()
  {
    var next := match s.recurrence
      case Once => s.nextRunAt
      case Interval(m) => Stamp(NextOnGrid(s.Origin(), m * MINUTE, moment))
      case Daily => Stamp(daily(s, moment));
    Released(s).(
      nextRunAt := next,
      enabled := s.enabled && !s.recurrence.Once?,
      lastRunAt := Some(Stamp(moment)),
      lastOutcome := Some(outcome),
      retryAttempt := 1,
      retryOrigin := None,
      revision := s.revision + 1)
  }

  predicate Retries(s: Schedule, attempt: int, status: Status) {
    status == Failed && attempt <= s.maxRetries
  }

  function AfterTerminal(s: Schedule, attempt: int, status: Status, moment: Time, daily: DailyRule): Schedule
    requires s.Configured()
  {
    if Retries(s, attempt, status) then
      Released(s).(
        nextRunAt := Stamp(moment + s.retryDelay * MINUTE),
        enabled := true,
        lastRunAt := Some(Stamp(moment)),
        lastOutcome := Some(Ended(status)),
        retryAttempt := attempt + 1,
        retryOrigin := Some(s.Origin()),
        revision := s.revision + 1)
    else
      Advance(s, moment, Ended(status), daily)
  }

  // ------------------------------------------------------- the lease invariant

  predicate UniqueSchedules(ss: seq<Schedule>) {
    forall i, j :: 0 <= i < j < |ss| ==> ss[i].id != ss[j].id
  }

  predicate UniqueRuns(runs: seq<Run>) {
    && (forall i, j :: 0 <= i < j < |runs| ==> runs[i].id != runs[j].id)
    && (forall i, j :: 0 <= i < j < |runs| ==> runs[i].key != runs[j].key)
  }

  /** The lease rules of `validate_schedule_catalog` for one schedule. */
  predicate LeaseOk(s: Schedule, runs: seq<Run>) {
    match s.activeRun
    case None => s.leaseOwner.None? && s.leaseUntil.None?
    case Some(id) =>
      && s.leaseOwner.Some? && s.leaseUntil.Some?
      && exists r :: r in runs && r.id == id && r.schedule == s.id && r.status == Claimed
  }

  /** The declared catalog invariant: what every read of the file checks. */
  predicate Readable(c: Catalog) {
    && UniqueSchedules(c.schedules)
    && UniqueRuns(c.runs)
    && (forall s :: s in c.schedules ==> s.Configured() && LeaseOk(s, c.runs))
  }

  /** What additionally holds of a schedule between operations. */
  ghost predicate Consistent(s: Schedule, runs: seq<Run>) {
    && s.Configured()
    && LeaseOk(s, runs)
    && (s.activeRun.Some? ==>
          forall r :: r in runs && r.id == s.activeRun.value ==> r.attempt == s.retryAttempt && r.dueAt == s.nextRunAt)
    && (s.retryOrigin.Some? <==> s.retryAttempt > 1)
    && 1 <= s.retryAttempt <= s.maxRetries + 1
    && Stamp(s.nextRunAt) == s.nextRunAt && Stamp(s.Origin()) == s.Origin()
  }

  ghost predicate RunOk(r: Run) {
    r.key == RunKey(r.schedule, r.dueAt) && r.attempt >= 1
  }

  /** A claimed run is held by its schedule. */
  ghost predicate Held(r: Run, ss: seq<Schedule>) {
    exists s :: s in ss && s.id == r.schedule && s.activeRun == Some(r.id)
  }

  ghost predicate InvOn(ss: seq<Schedule>, runs: seq<Run>) {
    && UniqueSchedules(ss)
    && UniqueRuns(runs)
    && (forall s :: s in ss ==> Consistent(s, runs))
    && (forall r :: r in runs ==> RunOk(r) && (r.status == Claimed ==> Held(r, ss)))
  }

  /** The strengthened invariant: the declared one, and a run is claimed exactly
      when it is the active run of its schedule. */
  ghost predicate Inv(c: Catalog) {
    InvOn(c.schedules, c.runs)
  }

  lemma InvIsReadable(c: Catalog)
    requires Inv(c)
    ensures Readable(c)
  {
    forall s | s in c.schedules ensures s.Configured() && LeaseOk(s, c.runs) {
      assert Consistent(s, c.runs);
    }
  }

  lemma ClaimedIffActive(c: Catalog, r: Run)
    requires Inv(c) && r in c.runs
    ensures r.status == Claimed <==> exists s :: s in c.schedules && s.activeRun == Some(r.id)
    ensures forall s :: s in c.schedules && s.activeRun == Some(r.id) ==> s.id == r.schedule
  {
    forall s | s in c.schedules && s.activeRun == Some(r.id)
      ensures r.status == Claimed && s.id == r.schedule
    {
      assert Consistent(s, c.runs);
      var q :| q in c.runs && q.id == r.id && q.schedule == s.id && q.status == Claimed;
      SameRun(c.runs, q, r);
    }
  }

  lemma SameRun(runs: seq<Run>, q: Run, r: Run)
    requires UniqueRuns(runs) && q in runs && r in runs && (q.id == r.id || q.key == r.key)
    ensures q == r
  {
    var i :| 0 <= i < |runs| && runs[i] == q;
    var j :| 0 <= j < |runs| && runs[j] == r;
  }

  lemma SameSchedule(ss: seq<Schedule>, s: Schedule, t: Schedule)
    requires UniqueSchedules(ss) && s in ss && t in ss && s.id == t.id
    ensures s == t
  {
    var i :| 0 <= i < |ss| && ss[i] == s;
    var j :| 0 <= j < |ss| && ss[j] == t;
  }

  /** At most one run of a schedule is claimed at any time. */
  lemma OneClaimPerSchedule(c: Catalog, q: Run, r: Run)
    requires Inv(c) && q in c.runs && r in c.runs
    requires q.status == Claimed && r.status == Claimed && q.schedule == r.schedule
    ensures q == r
  {
    var s :| s in c.schedules && s.id == q.schedule && s.activeRun == Some(q.id);
    var t :| t in c.schedules && t.id == r.schedule && t.activeRun == Some(r.id);
    SameSchedule(c.schedules, s, t);
    SameRun(c.runs, q, r);
  }

  // ------------------------------------------------------ list helpers

  function FindRun(runs: seq<Run>, id: Id): (r: Option<Run>)
    ensures r.Some? ==> r.value in runs && r.value.id == id
    ensures r.None? <==> forall q :: q in runs ==> q.id != id
  {
    Find(runs, (q: Run) => q.id == id)
  }

  function FindKey(runs: seq<Run>, key: RunKey): (r: Option<Run>)
    ensures r.Some? ==> r.value in runs && r.value.key == key
    ensures r.None? <==> forall q :: q in runs ==> q.key != key
  {
    Find(runs, (q: Run) => q.key == key)
  }

  function FindSchedule(ss: seq<Schedule>, id: Id): (r: Option<Schedule>)
    ensures r.Some? ==> r.value in ss && r.value.id == id
    ensures r.None? <==> forall s :: s in ss ==> s.id != id
  {
    Find(ss, (s: Schedule) => s.id == id)
  }

  function ReplaceRun(runs: seq<Run>, id: Id, new': Run): (r: seq<Run>)
    ensures |r| == |runs|
    ensures forall i :: 0 <= i < |runs| ==> r[i] == if runs[i].id == id then new' else runs[i]
  {
    ReplaceWhere(runs, (q: Run) => q.id == id, new')
  }

  function ReplaceSchedule(ss: seq<Schedule>, id: Id, new': Schedule): (r: seq<Schedule>)
    ensures |r| == |ss|
    ensures forall i :: 0 <= i < |ss| ==> r[i] == if ss[i].id == id then new' else ss[i]
  {
    ReplaceWhere(ss, (s: Schedule) => s.id == id, new')
  }

  function LastRuns(runs: seq<Run>): seq<Run> {
    if |runs| <= RETAINED then runs else runs[|runs| - RETAINED..]
  }

  // ------------------------------------------------------ claiming due runs

  datatype Pass = Pass(moment: Time, worker: string, leaseSeconds: int, ids: seq<Id>)

  function LeaseEnd(moment: Time, leaseSeconds: int): Time {
    Stamp(moment + (if leaseSeconds < 30 then 30 else leaseSeconds) * SECOND)
  }

  /** What one turn of the claiming loop yields. */
  datatype Turn = Turn(schedule: Schedule, runs: seq<Run>, claimed: Option<Run>, changed: bool)

  predicate LeaseActive(s: Schedule, moment: Time) {
    s.leaseUntil.Some? && s.leaseUntil.value > moment
  }

  function Expired(r: Run, moment: Time): Run {
    r.(status := Failed, completedAt := Some(Stamp(moment)))
  }

  function NewRun(s: Schedule, id: Id, moment: Time): Run {
    Run(id, s.id, s.profile, RunKey(s.id, s.nextRunAt), s.nextRunAt, Stamp(moment), Claimed, s.retryAttempt, None, None)
  }

  function Leased(s: Schedule, run: Id, p: Pass): Schedule {
    s.(leaseOwner := Some(p.worker), leaseUntil := Some(LeaseEnd(p.moment, p.leaseSeconds)),
       activeRun := Some(run), revision := s.revision + 1)
  }

  function ClaimOne(s: Schedule, runs: seq<Run>, p: Pass, id: Id, daily: DailyRule): Turn
    requires s.Configured()
  {
    if s.activeRun.Some? && !LeaseActive(s, p.moment) then
      var abandoned := FindRun(runs, s.activeRun.value);
      if abandoned.Some? && abandoned.value.status == Claimed then
        Turn(AfterTerminal(s, abandoned.value.attempt, Failed, p.moment, daily),
             ReplaceRun(runs, abandoned.value.id, Expired(abandoned.value, p.moment)), None, true)
      else
        ClaimIdle(Released(s).(revision := s.revision + 1), runs, p, id, daily, true)
    else
      ClaimIdle(s, runs, p, id, daily, false)
  }

  function ClaimIdle(s: Schedule, runs: seq<Run>, p: Pass, id: Id, daily: DailyRule, changed: bool): Turn
    requires s.Configured()
  {
    if !s.enabled || s.nextRunAt > p.moment || LeaseActive(s, p.moment) then
      Turn(s, runs, None, changed)
    else if s.misfire == Skip && p.moment - s.nextRunAt > 300 * SECOND then
      Turn(Advance(s, p.moment, SkippedMisfire, daily), runs, None, true)
    else
      var duplicate := FindKey(runs, RunKey(s.id, s.nextRunAt));
      if duplicate.Some? then
        var d := duplicate.value;
        Turn(AfterTerminal(s, d.attempt, if d.status != Claimed then d.status else Failed, p.moment, daily),
             runs, None, true)
      else
        var run := NewRun(s, id, p.moment);
        Turn(Leased(s, id, p), runs + [run], Some(run), true)
  }

  /** A run as it was launched, with the occurrence it belongs to. */
  datatype Launch = Launch(run: Run, origin: Time)

  datatype Progress = Progress(updated: seq<Schedule>, runs: seq<Run>, launched: seq<Launch>, changed: bool)

  ghost predicate AllConfigured(ss: seq<Schedule>) {
    forall s :: s in ss ==> s.Configured()
  }

  /** The claiming loop after its first `n` schedules. */
  function ClaimFirst(c: Catalog, p: Pass, n: nat, daily: DailyRule): (r: Progress)
    requires n <= |c.schedules| <= |p.ids| && AllConfigured(c.schedules)
    ensures |r.updated| == n
  {
    if n == 0 then Progress([], c.runs, [], false)
    else
      var before := ClaimFirst(c, p, n - 1, daily);
      var t := ClaimOne(c.schedules[n - 1], before.runs, p, p.ids[n - 1], daily);
      Progress(before.updated + [t.schedule], t.runs,
               before.launched
               + (if t.claimed.Some? then [Launch(t.claimed.value, c.schedules[n - 1].Origin())] else []),
               before.changed || t.changed)
  }

  function ClaimAll(c: Catalog, p: Pass, daily: DailyRule): Progress
    requires |c.schedules| <= |p.ids| && AllConfigured(c.schedules)
  {
    ClaimFirst(c, p, |c.schedules|, daily)
  }

  function ClaimDueSpec(c: Catalog, p: Pass, daily: DailyRule): Catalog
    requires |c.schedules| <= |p.ids| && AllConfigured(c.schedules)
  {
    var r := ClaimAll(c, p, daily);
    if r.changed then Catalog(c.revision + 1, r.updated, LastRuns(r.runs)) else c
  }

  // ------------------------------------------------------ the other operations

  function CreateSpec(c: Catalog, s: Schedule): Catalog {
    Catalog(c.revision + 1, c.schedules + [s], c.runs)
  }

  function SetEnabledSpec(c: Catalog, id: Id, enabled: bool): Result<Catalog, Error> {
    match FindSchedule(c.schedules, id)
    case None => Failure(NoSuchSchedule)
    case Some(s) =>
      Success(Catalog(c.revision + 1,
                      ReplaceSchedule(c.schedules, id, s.(enabled := enabled, revision := s.revision + 1)), c.runs))
  }

  predicate Owns(c: Catalog, r: Run, worker: string) {
    var owner := FindSchedule(c.schedules, r.schedule);
    owner.Some? && owner.value.activeRun == Some(r.id) && owner.value.leaseOwner == Some(worker)
  }

  function Renewed(c: Catalog, r: Run, now: Time, leaseSeconds: int): seq<Schedule> {
    var owner := FindSchedule(c.schedules, r.schedule);
    if owner.None? then c.schedules
    else ReplaceSchedule(c.schedules, r.schedule, owner.value.(leaseUntil := Some(LeaseEnd(now, leaseSeconds))))
  }

  function AttachSpec(c: Catalog, run: Id, worker: string, job: string, now: Time, leaseSeconds: int)
    : Result<Catalog, Error>
  {
    var current := FindRun(c.runs, run);
    if current.None? || current.value.status != Claimed then Failure(Conflict)
    else if !Owns(c, current.value, worker) then Failure(Conflict)
    else Success(c.(schedules := Renewed(c, current.value, now, leaseSeconds),
                    runs := ReplaceRun(c.runs, run, current.value.(job := Some(job)))))
  }

  function RenewSpec(c: Catalog, run: Id, worker: string, now: Time, leaseSeconds: int): Option<Catalog> {
    var current := FindRun(c.runs, run);
    if current.None? || current.value.status != Claimed || !Owns(c, current.value, worker) then None
    else Some(c.(schedules := Renewed(c, current.value, now, leaseSeconds)))
  }

  function Completed(r: Run, status: Status, now: Time): Run {
    r.(status := status, completedAt := Some(Stamp(now)))
  }

  /** A late result never moves a schedule another run owns by now. */
  function CompleteOne(s: Schedule, r: Run, status: Status, now: Time, daily: DailyRule): Schedule
    requires s.Configured()
  {
    if s.id == r.schedule && s.activeRun == Some(r.id) then AfterTerminal(s, r.attempt, status, now, daily) else s
  }

  function CompleteEach(ss: seq<Schedule>, r: Run, status: Status, now: Time, daily: DailyRule): (t: seq<Schedule>)
    requires AllConfigured(ss)
    ensures |t| == |ss|
    ensures forall i :: 0 <= i < |ss| ==> t[i] == CompleteOne(ss[i], r, status, now, daily)
  {
    seq(|ss|, i requires 0 <= i < |ss| => CompleteOne(ss[i], r, status, now, daily))
  }

  function CompleteSpec(c: Catalog, run: Id, status: Status, now: Time, daily: DailyRule): Result<Catalog, Error>
    requires AllConfigured(c.schedules)
  {
    if status == Claimed then Failure(InvalidStatus)
    else
      var current := FindRun(c.runs, run);
      if current.None? then Failure(NoSuchRun)
      else if current.value.status != Claimed then Success(c)
      else Success(Catalog(c.revision + 1,
                           CompleteEach(c.schedules, current.value, status, now, daily),
                           ReplaceRun(c.runs, run, Completed(current.value, status, now))))
  }

  // ------------------------------------------------- moves that keep the invariant

  lemma StampFacts(t: Time)
    ensures Stamp(Stamp(t)) == Stamp(t) && Stamp(t) <= t < Stamp(t) + SECOND
  {
  }

  lemma StampOnGrid(base: Time, minutes: int, moment: Time)
    requires Stamp(base) == base && minutes >= 1
    ensures Stamp(NextOnGrid(base, minutes * MINUTE, moment)) == NextOnGrid(base, minutes * MINUTE, moment)
  {
    NextOnGridIsLeast(base, minutes * MINUTE, moment, 0);
    var n: nat :| NextOnGrid(base, minutes * MINUTE, moment) == base + n * (minutes * MINUTE);
    assert n * (minutes * MINUTE) == (n * minutes * 60) * SECOND by {
      assert n * (minutes * MINUTE) == (n * minutes) * MINUTE;
    }
    MultipleKeepsStamp(base, n * minutes * 60);
  }

  lemma MultipleKeepsStamp(t: Time, k: int)
    requires t % SECOND == 0
    ensures (t + k * SECOND) % SECOND == 0
  {
  }

  /** Both ways out of an occurrence leave a consistent schedule without a lease. */
  lemma AdvanceIsConsistent(s: Schedule, runs: seq<Run>, moment: Time, outcome: Outcome, daily: DailyRule)
    requires Resolves(daily)
    requires s.Configured() && Stamp(s.nextRunAt) == s.nextRunAt && Stamp(s.Origin()) == s.Origin()
    ensures Consistent(Advance(s, moment, outcome, daily), runs)
    ensures Advance(s, moment, outcome, daily).id == s.id && Advance(s, moment, outcome, daily).activeRun.None?
    ensures !s.recurrence.Once? ==> moment < Advance(s, moment, outcome, daily).nextRunAt
  {
    match s.recurrence
    case Interval(m) =>
      StampOnGrid(s.Origin(), m, moment);
      NextOnGridIsLeast(s.Origin(), m * MINUTE, moment, 0);
    case _ =>
  }

  lemma AfterTerminalIsConsistent(s: Schedule, runs: seq<Run>, attempt: int, status: Status, moment: Time,
                                  daily: DailyRule)
    requires Resolves(daily)
    requires s.Configured() && Stamp(s.nextRunAt) == s.nextRunAt && Stamp(s.Origin()) == s.Origin()
    requires attempt >= 1
    ensures Consistent(AfterTerminal(s, attempt, status, moment, daily), runs)
    ensures AfterTerminal(s, attempt, status, moment, daily).id == s.id
    ensures AfterTerminal(s, attempt, status, moment, daily).activeRun.None?
    ensures !s.recurrence.Once? ==> moment < AfterTerminal(s, attempt, status, moment, daily).nextRunAt
  {
    StampFacts(moment + s.retryDelay * MINUTE);
    if !Retries(s, attempt, status) {
      AdvanceIsConsistent(s, runs, moment, Ended(status), daily);
    }
  }

  /** A schedule may change in everything but its id and its active run. */
  lemma ScheduleMove(ss: seq<Schedule>, runs: seq<Run>, i: nat, s': Schedule)
    requires InvOn(ss, runs) && i < |ss|
    requires s'.id == ss[i].id && s'.activeRun == ss[i].activeRun && Consistent(s', runs)
    ensures InvOn(ss[i := s'], runs)
  {
    var tt := ss[i := s'];
    forall r | r in runs && r.status == Claimed ensures Held(r, tt) {
      var s :| s in ss && s.id == r.schedule && s.activeRun == Some(r.id);
      HolderStays(ss, i, s', s, r);
    }
  }

  lemma HolderStays(ss: seq<Schedule>, i: nat, s': Schedule, s: Schedule, r: Run)
    requires i < |ss| && s in ss && s.id == r.schedule && s.activeRun == Some(r.id)
    requires s == ss[i] ==> s'.id == s.id && s'.activeRun == s.activeRun
    ensures Held(r, ss[i := s'])
  {
    var tt := ss[i := s'];
    var k :| 0 <= k < |ss| && ss[k] == s;
    assert tt[k] in tt;
    assert tt[i] in tt;
  }

  /** A claimed run ends and its schedule lets go of it. */
  lemma ReleaseMove(ss: seq<Schedule>, runs: seq<Run>, i: nat, s': Schedule, r: Run, r': Run)
    requires InvOn(ss, runs) && i < |ss| && r in runs && ss[i].activeRun == Some(r.id)
    requires r'.id == r.id && r'.key == r.key && r'.schedule == r.schedule && r'.dueAt == r.dueAt
    requires r'.attempt == r.attempt && r'.status != Claimed
    requires s'.id == ss[i].id && s'.activeRun.None? && Consistent(s', ReplaceRun(runs, r.id, r'))
    ensures InvOn(ss[i := s'], ReplaceRun(runs, r.id, r'))
  {
    var tt, rr := ss[i := s'], ReplaceRun(runs, r.id, r');
    ReplaceKeepsUnique(runs, r, r');
    forall t | t in tt ensures Consistent(t, rr) {
      if t != s' {
        var k :| 0 <= k < |tt| && tt[k] == t;
        assert ss[k] in ss && Consistent(t, runs);
        OtherLeaseStays(ss, runs, i, k, r, r');
      }
    }
    forall q | q in rr ensures RunOk(q) && (q.status == Claimed ==> Held(q, tt)) {
      var k :| 0 <= k < |rr| && rr[k] == q;
      assert runs[k] in runs;
      if q.status == Claimed {
        var s :| s in ss && s.id == q.schedule && s.activeRun == Some(q.id);
        HolderStays(ss, i, s', s, q);
      }
    }
  }

  lemma ReplaceKeepsUnique(runs: seq<Run>, r: Run, r': Run)
    requires UniqueRuns(runs) && r in runs && r'.id == r.id && r'.key == r.key
    ensures UniqueRuns(ReplaceRun(runs, r.id, r'))
    ensures forall q :: q in runs && q.id != r.id ==> q in ReplaceRun(runs, r.id, r')
    ensures forall q :: q in ReplaceRun(runs, r.id, r') ==> q == r' || (q in runs && q.id != r.id)
  {
    var rr := ReplaceRun(runs, r.id, r');
    forall k | 0 <= k < |runs| ensures rr[k].id == runs[k].id && rr[k].key == runs[k].key {
      if runs[k].id == r.id { SameRun(runs, runs[k], r); }
    }
    forall q | q in runs && q.id != r.id ensures q in rr {
      var k :| 0 <= k < |runs| && runs[k] == q;
      assert rr[k] == q;
    }
  }

  /** Two schedules never hold the same run. */
  lemma OtherRunIsHeld(ss: seq<Schedule>, runs: seq<Run>, i: nat, k: nat, r: Run)
    requires InvOn(ss, runs) && i < |ss| && k < |ss| && i != k && r in runs && ss[i].activeRun == Some(r.id)
    ensures ss[k].activeRun != Some(r.id)
  {
    assert Consistent(ss[k], runs) && Consistent(ss[i], runs);
    var mine :| mine in runs && mine.id == r.id && mine.schedule == ss[i].id && mine.status == Claimed;
    forall q | q in runs && q.id == r.id ensures q.schedule != ss[k].id {
      SameRun(runs, q, mine);
    }
  }

  lemma OtherLeaseStays(ss: seq<Schedule>, runs: seq<Run>, i: nat, k: nat, r: Run, r': Run)
    requires InvOn(ss, runs) && i < |ss| && k < |ss| && i != k && r in runs && ss[i].activeRun == Some(r.id)
    requires r'.id == r.id && r'.key == r.key
    ensures Consistent(ss[k], ReplaceRun(runs, r.id, r'))
  {
    OtherRunIsHeld(ss, runs, i, k, r);
    ReplaceKeepsUnique(runs, r, r');
    assert Consistent(ss[k], runs);
    hide ReplaceRun, InvOn;
    if ss[k].activeRun.Some? {
      var q :| q in runs && q.id == ss[k].activeRun.value && q.schedule == ss[k].id && q.status == Claimed;
      assert q in ReplaceRun(runs, r.id, r');
    }
  }

  /** A schedule without a lease claims a new run. */
  lemma ClaimMove(ss: seq<Schedule>, runs: seq<Run>, i: nat, s': Schedule, run: Run)
    requires InvOn(ss, runs) && i < |ss| && ss[i].activeRun.None?
    requires run.schedule == ss[i].id == s'.id && RunOk(run) && run.status == Claimed && s'.activeRun == Some(run.id)
    requires forall r :: r in runs ==> r.id != run.id && r.key != run.key
    requires Consistent(s', runs + [run])
    ensures InvOn(ss[i := s'], runs + [run])
  {
    var tt, rr := ss[i := s'], runs + [run];
    forall a, b | 0 <= a < b < |rr| ensures rr[a].id != rr[b].id && rr[a].key != rr[b].key {
      assert rr[a] == runs[a] && runs[a] in runs;
    }
    forall t | t in tt ensures Consistent(t, rr) {
      if t != s' {
        assert Consistent(t, runs);
        if t.activeRun.Some? {
          var q :| q in runs && q.id == t.activeRun.value && q.schedule == t.id && q.status == Claimed;
          assert q in rr;
        }
      }
    }
    forall q | q in rr ensures RunOk(q) && (q.status == Claimed ==> Held(q, tt)) {
      if q in runs {
        if q.status == Claimed {
          var s :| s in ss && s.id == q.schedule && s.activeRun == Some(q.id);
          HolderStays(ss, i, s', s, q);
        }
      } else {
        assert tt[i] in tt;
      }
    }
  }

  /** A claimed run may record its job. */
  lemma RunMove(ss: seq<Schedule>, runs: seq<Run>, r: Run, r': Run)
    requires InvOn(ss, runs) && r in runs
    requires r' == r.(job := r'.job)
    ensures InvOn(ss, ReplaceRun(runs, r.id, r'))
  {
    var rr := ReplaceRun(runs, r.id, r');
    ReplaceKeepsUnique(runs, r, r');
    assert r' in rr by {
      var k :| 0 <= k < |runs| && runs[k] == r;
      assert rr[k] == r';
    }
    forall s | s in ss ensures Consistent(s, rr) {
      assert Consistent(s, runs);
      if s.activeRun.Some? {
        var q :| q in runs && q.id == s.activeRun.value && q.schedule == s.id && q.status == Claimed;
        if q.id == r.id { SameRun(runs, q, r); } else { assert q in rr; }
      }
    }
    forall q | q in rr ensures RunOk(q) && (q.status == Claimed ==> Held(q, ss)) {
      if q == r' { assert RunOk(r); assert r.status == Claimed ==> Held(r, ss); }
    }
  }

  // ------------------------------------------- every operation keeps the invariant

  ghost predicate FreshId(id: Id, runs: seq<Run>) {
    forall r :: r in runs ==> r.id != id
  }

  /** With the invariant, an active run is always there and still claimed, so the
      branch that repairs a stale lease is never taken. */
  lemma ActiveRunIsClaimed(ss: seq<Schedule>, runs: seq<Run>, s: Schedule)
    requires InvOn(ss, runs) && s in ss && s.activeRun.Some?
    ensures var r := FindRun(runs, s.activeRun.value);
            r.Some? && r.value.status == Claimed && r.value.schedule == s.id
            && r.value.attempt == s.retryAttempt && r.value.dueAt == s.nextRunAt
  {
    assert Consistent(s, runs);
    var q :| q in runs && q.id == s.activeRun.value && q.schedule == s.id && q.status == Claimed;
    SameRun(runs, FindRun(runs, s.activeRun.value).value, q);
  }

  lemma ExpiryKeepsInv(ss: seq<Schedule>, runs: seq<Run>, i: nat, p: Pass, id: Id, daily: DailyRule)
    requires InvOn(ss, runs) && i < |ss| && Resolves(daily) && ss[i].Configured()
    requires ss[i].activeRun.Some? && !LeaseActive(ss[i], p.moment)
    ensures var t := ClaimOne(ss[i], runs, p, id, daily);
            && InvOn(ss[i := t.schedule], t.runs)
            && (forall r :: r in t.runs ==> !FreshId(r.id, runs))
  {
    var s := ss[i];
    assert Consistent(s, runs);
    ActiveRunIsClaimed(ss, runs, s);
    var r := FindRun(runs, s.activeRun.value).value;
    var t := ClaimOne(s, runs, p, id, daily);
    AfterTerminalIsConsistent(s, t.runs, r.attempt, Failed, p.moment, daily);
    ReleaseMove(ss, runs, i, t.schedule, r, Expired(r, p.moment));
    ReplaceKeepsUnique(runs, r, Expired(r, p.moment));
  }

  lemma ClaimOneKeepsInv(ss: seq<Schedule>, runs: seq<Run>, i: nat, p: Pass, id: Id, daily: DailyRule)
    requires InvOn(ss, runs) && i < |ss| && FreshId(id, runs) && Resolves(daily) && ss[i].Configured()
    ensures var t := ClaimOne(ss[i], runs, p, id, daily);
            && InvOn(ss[i := t.schedule], t.runs)
            && (forall r :: r in t.runs ==> r.id == id || !FreshId(r.id, runs))
  {
    var s := ss[i];
    assert Consistent(s, runs);
    var t := ClaimOne(s, runs, p, id, daily);
    if s.activeRun.Some? {
      if LeaseActive(s, p.moment) {
        assert ss[i := s] == ss;
      } else {
        ExpiryKeepsInv(ss, runs, i, p, id, daily);
      }
    } else if !s.enabled || s.nextRunAt > p.moment {
      assert ss[i := s] == ss;
    } else if s.misfire == Skip && p.moment - s.nextRunAt > 300 * SECOND {
      AdvanceIsConsistent(s, runs, p.moment, SkippedMisfire, daily);
      ScheduleMove(ss, runs, i, t.schedule);
    } else {
      var d := FindKey(runs, RunKey(s.id, s.nextRunAt));
      if d.Some? {
        assert RunOk(d.value);
        AfterTerminalIsConsistent(s, runs, d.value.attempt,
                                  if d.value.status != Claimed then d.value.status else Failed, p.moment, daily);
        ScheduleMove(ss, runs, i, t.schedule);
      } else {
        var run := NewRun(s, id, p.moment);
        assert run in runs + [run];
        ClaimMove(ss, runs, i, t.schedule, run);
      }
    }
  }

  /** The schedule list while the claiming loop stands before position `n`. */
  function Midway(c: Catalog, r: Progress, n: nat): seq<Schedule>
    requires n <= |c.schedules|
  {
    r.updated + c.schedules[n..]
  }

  ghost predicate FreshIds(c: Catalog, p: Pass) {
    Distinct(p.ids) && |c.schedules| <= |p.ids| && forall i :: i in p.ids ==> FreshId(i, c.runs)
  }

  lemma InvConfigured(c: Catalog)
    requires Inv(c)
    ensures AllConfigured(c.schedules)
  {
    forall s | s in c.schedules ensures s.Configured() { assert Consistent(s, c.runs); }
  }

  /** One turn replaces one schedule of the list. */
  lemma ClaimFirstStep(c: Catalog, p: Pass, n: nat, daily: DailyRule)
    requires AllConfigured(c.schedules) && 0 < n <= |c.schedules| <= |p.ids|
    ensures var before, r := ClaimFirst(c, p, n - 1, daily), ClaimFirst(c, p, n, daily);
            var ss := Midway(c, before, n - 1);
            && |ss| == |c.schedules| && ss[n - 1] == c.schedules[n - 1]
            && var t := ClaimOne(c.schedules[n - 1], before.runs, p, p.ids[n - 1], daily);
               Midway(c, r, n) == ss[n - 1 := t.schedule] && r.runs == t.runs
  {
  }

  lemma {:induction false} ClaimFirstKeepsInv(c: Catalog, p: Pass, n: nat, daily: DailyRule)
    requires Inv(c) && AllConfigured(c.schedules) && n <= |c.schedules| && FreshIds(c, p) && Resolves(daily)
    ensures var r := ClaimFirst(c, p, n, daily);
            && InvOn(Midway(c, r, n), r.runs)
            && (forall q :: q in r.runs ==> q.id in p.ids[..n] || !FreshId(q.id, c.runs))
            && (n < |p.ids| ==> FreshId(p.ids[n], r.runs))
  {
    var r := ClaimFirst(c, p, n, daily);
    if n == 0 {
      assert Midway(c, r, 0) == c.schedules;
      assert n < |p.ids| ==> p.ids[n] in p.ids;
    } else {
      ClaimFirstKeepsInv(c, p, n - 1, daily);
      ClaimFirstStep(c, p, n, daily);
      var before := ClaimFirst(c, p, n - 1, daily);
      ClaimOneKeepsInv(Midway(c, before, n - 1), before.runs, n - 1, p, p.ids[n - 1], daily);
      assert p.ids[..n] == p.ids[..n - 1] + [p.ids[n - 1]];
      forall q | q in r.runs
        ensures q.id in p.ids[..n] || !FreshId(q.id, c.runs)
        ensures n < |p.ids| ==> q.id != p.ids[n]
      {
        if q.id != p.ids[n - 1] {
          var b :| b in before.runs && b.id == q.id;
        }
        assert n < |p.ids| ==> p.ids[n] in p.ids && p.ids[n] !in p.ids[..n];
      }
    }
  }

  /** No run that is still claimed falls out of the retained list. */
  predicate KeepsClaimed(runs: seq<Run>) {
    |runs| > RETAINED ==> forall i :: 0 <= i < |runs| - RETAINED ==> runs[i].status != Claimed
  }

  /** The trimmed catalog can be read again exactly when no claimed run was cut off,
      and then it also has the full invariant. */
  lemma TrimmedIsReadable(c: Catalog, revision: int)
    requires Inv(c)
    ensures KeepsClaimed(c.runs) ==> Inv(Catalog(revision, c.schedules, LastRuns(c.runs)))
    ensures Readable(Catalog(revision, c.schedules, LastRuns(c.runs))) <==> KeepsClaimed(c.runs)
  {
    hide Inv, Readable;
    var trimmed := Catalog(revision, c.schedules, LastRuns(c.runs));
    if KeepsClaimed(c.runs) {
      TrimKeepsInv(c, trimmed);
      InvIsReadable(trimmed);
    } else {
      var k :| 0 <= k < |c.runs| - RETAINED && c.runs[k].status == Claimed;
      CutOffIsUnreadable(c, trimmed, k);
    }
  }

  /** Cutting off a claimed run leaves its schedule with a lease on nothing. */
  lemma CutOffIsUnreadable(c: Catalog, trimmed: Catalog, k: nat)
    requires Inv(c) && k < |c.runs| - RETAINED && c.runs[k].status == Claimed
    requires trimmed.schedules == c.schedules && trimmed.runs == LastRuns(c.runs)
    ensures !Readable(trimmed)
  {
    var r := c.runs[k];
    assert r in c.runs && Held(r, c.schedules);
    var s :| s in c.schedules && s.id == r.schedule && s.activeRun == Some(r.id);
    forall q | q in trimmed.runs ensures q.id != r.id {
      var j :| 0 <= j < |trimmed.runs| && trimmed.runs[j] == q;
      assert trimmed.runs[j] == c.runs[j + (|c.runs| - RETAINED)];
    }
    assert !LeaseOk(s, trimmed.runs);
  }

  lemma TrimKeepsInv(c: Catalog, trimmed: Catalog)
    requires Inv(c) && KeepsClaimed(c.runs)
    requires trimmed.schedules == c.schedules && trimmed.runs == LastRuns(c.runs)
    ensures Inv(trimmed)
  {
    if |c.runs| > RETAINED {
      var cut := |c.runs| - RETAINED;
      forall s | s in trimmed.schedules ensures Consistent(s, trimmed.runs) {
        assert Consistent(s, c.runs);
        if s.activeRun.Some? {
          var q :| q in c.runs && q.id == s.activeRun.value && q.schedule == s.id && q.status == Claimed;
          var k :| 0 <= k < |c.runs| && c.runs[k] == q;
          assert trimmed.runs[k - cut] == q;
        }
      }
    }
  }

  /** Claiming keeps the invariant exactly when no claimed run is trimmed away. */
  lemma ClaimDueKeepsInv(c: Catalog, p: Pass, daily: DailyRule)
    requires Inv(c) && AllConfigured(c.schedules) && FreshIds(c, p) && Resolves(daily)
    ensures var r := ClaimAll(c, p, daily);
            && InvOn(r.updated, r.runs)
            && (!r.changed || KeepsClaimed(r.runs) ==> Inv(ClaimDueSpec(c, p, daily)))
            && (Readable(ClaimDueSpec(c, p, daily)) <==> !r.changed || KeepsClaimed(r.runs))
  {
    ClaimFirstKeepsInv(c, p, |c.schedules|, daily);
    var r := ClaimAll(c, p, daily);
    assert Midway(c, r, |c.schedules|) == r.updated;
    TrimmedIsReadable(Catalog(0, r.updated, r.runs), c.revision + 1);
    InvIsReadable(c);
  }

  lemma CreateKeepsInv(c: Catalog, s: Schedule)
    requires Inv(c) && s.Configured() && FindSchedule(c.schedules, s.id).None?
    requires s.activeRun.None? && s.leaseOwner.None? && s.leaseUntil.None? && s.retryOrigin.None? && s.retryAttempt == 1
    requires Stamp(s.nextRunAt) == s.nextRunAt
    ensures Inv(CreateSpec(c, s))
  {
    var ss := c.schedules + [s];
    forall i, j | 0 <= i < j < |ss| ensures ss[i].id != ss[j].id {
      assert c.schedules[i] in c.schedules;
    }
    forall r | r in c.runs && r.status == Claimed ensures Held(r, ss) {
      var t :| t in c.schedules && t.id == r.schedule && t.activeRun == Some(r.id);
      assert t in ss;
    }
  }

  /** Replacing by id is replacing one position. */
  lemma ReplaceIsUpdate(ss: seq<Schedule>, i: nat, new': Schedule)
    requires UniqueSchedules(ss) && i < |ss|
    ensures ReplaceSchedule(ss, ss[i].id, new') == ss[i := new']
  {
  }

  lemma ReplacedIsThere(ss: seq<Schedule>, s: Schedule, s': Schedule)
    requires s in ss
    ensures s' in ReplaceSchedule(ss, s.id, s')
  {
    var k :| 0 <= k < |ss| && ss[k] == s;
    assert ReplaceSchedule(ss, s.id, s')[k] == s';
  }

  /** A schedule that is there is replaced by one with the same id and active run. */
  lemma ReplacingKeepsInv(c: Catalog, s: Schedule, s': Schedule)
    requires Inv(c) && s in c.schedules
    requires s'.id == s.id && s'.activeRun == s.activeRun && Consistent(s', c.runs)
    ensures InvOn(ReplaceSchedule(c.schedules, s.id, s'), c.runs)
  {
    var i :| 0 <= i < |c.schedules| && c.schedules[i] == s;
    ReplaceIsUpdate(c.schedules, i, s');
    ScheduleMove(c.schedules, c.runs, i, s');
  }


  lemma EnabledIsConsistent(c: Catalog, s: Schedule, s': Schedule)
    requires Inv(c) && s in c.schedules && s' == s.(enabled := s'.enabled, revision := s'.revision)
    ensures Consistent(s', c.runs)
  {
    assert Consistent(s, c.runs);
  }

  lemma SetEnabledKeepsInv(c: Catalog, id: Id, enabled: bool)
    requires Inv(c)
    ensures var r := SetEnabledSpec(c, id, enabled); r.Success? ==> Inv(r.value)
  {
    hide InvOn;
    var s := FindSchedule(c.schedules, id);
    if s.Some? {
      var s' := s.value.(enabled := enabled, revision := s.value.revision + 1);
      EnabledIsConsistent(c, s.value, s');
      ReplacingKeepsInv(c, s.value, s');
    }
  }

  lemma RenewedKeepsInv(c: Catalog, r: Run, worker: string, now: Time, leaseSeconds: int)
    requires Inv(c) && Owns(c, r, worker)
    ensures InvOn(Renewed(c, r, now, leaseSeconds), c.runs)
  {
    var s := FindSchedule(c.schedules, r.schedule).value;
    var s' := s.(leaseUntil := Some(LeaseEnd(now, leaseSeconds)));
    assert Consistent(s, c.runs);
    assert Consistent(s', c.runs);
    ReplacingKeepsInv(c, s, s');
  }

  lemma AttachKeepsInv(c: Catalog, run: Id, worker: string, job: string, now: Time, leaseSeconds: int)
    requires Inv(c)
    ensures var r := AttachSpec(c, run, worker, job, now, leaseSeconds); r.Success? ==> Inv(r.value)
    ensures var r := RenewSpec(c, run, worker, now, leaseSeconds); r.Some? ==> Inv(r.value)
  {
    var current := FindRun(c.runs, run);
    if current.Some? && Owns(c, current.value, worker) {
      var r := current.value;
      RenewedKeepsInv(c, r, worker, now, leaseSeconds);
      RunMove(Renewed(c, r, now, leaseSeconds), c.runs, r, r.(job := Some(job)));
    }
  }

  /** A claimed run is the active run of its schedule, so the branch for late
      results is never taken: completing moves exactly that schedule. */
  lemma CompleteMovesHolder(c: Catalog, r: Run, status: Status, now: Time, daily: DailyRule) returns (i: nat)
    requires Inv(c) && AllConfigured(c.schedules) && r in c.runs && r.status == Claimed
    ensures i < |c.schedules| && c.schedules[i].id == r.schedule && c.schedules[i].activeRun == Some(r.id)
    ensures c.schedules[i].Configured()
    ensures CompleteEach(c.schedules, r, status, now, daily)
            == c.schedules[i := AfterTerminal(c.schedules[i], r.attempt, status, now, daily)]
  {
    assert Held(r, c.schedules);
    var s :| s in c.schedules && s.id == r.schedule && s.activeRun == Some(r.id);
    i :| 0 <= i < |c.schedules| && c.schedules[i] == s;
    assert c.schedules[i] in c.schedules;
  }

  lemma CompleteKeepsInv(c: Catalog, run: Id, status: Status, now: Time, daily: DailyRule)
    requires Inv(c) && AllConfigured(c.schedules) && Resolves(daily)
    ensures var r := CompleteSpec(c, run, status, now, daily); r.Success? ==> Inv(r.value)
  {
    var current := FindRun(c.runs, run);
    if status != Claimed && current.Some? && current.value.status == Claimed {
      var r := current.value;
      var i := CompleteMovesHolder(c, r, status, now, daily);
      assert RunOk(r) && Consistent(c.schedules[i], c.runs);
      AfterTerminalIsConsistent(c.schedules[i], ReplaceRun(c.runs, run, Completed(r, status, now)), r.attempt, status,
                                now, daily);
      ReleaseMove(c.schedules, c.runs, i, AfterTerminal(c.schedules[i], r.attempt, status, now, daily), r,
                  Completed(r, status, now));
    }
  }
}
