/**
 Whole histories of schedule operations (src/founderos_atlas/scheduling.py): any
 sequence of them under a clock that never goes back.  The log keeps every run
 that was ever launched, also those the catalog has trimmed away.
 */
module ScheduleHistory {
  import opened Basics
  import opened Schedules

  datatype Op =
    | Create(schedule: Schedule)
    | SetEnabled(id: Id, enabled: bool)
    | ClaimDue(pass: Pass)
    | Attach(run: Id, worker: string, job: string, now: Time, leaseSeconds: int)
    | Renew(run: Id, worker: string, now: Time, leaseSeconds: int)
    | Complete(run: Id, status: Status, now: Time)

  /** `created` holds every schedule as it was created. */
  datatype World = World(catalog: Catalog, clock: Time, log: seq<Launch>, created: map<Id, Schedule>)

  function NoSchedules(): Catalog { Catalog(0, [], []) }

  function Moment(op: Op, clock: Time): Time {
    match op
    case ClaimDue(p) => p.moment
    case Attach(_, _, _, now, _) => now
    case Renew(_, _, now, _) => now
    case Complete(_, _, now) => now
    case _ => clock
  }

  /** Identifiers are new and the clock does not go back. */
  ghost predicate Admissible(w: World, op: Op) {
    && w.clock <= Moment(op, w.clock)
    && (op.Create? ==>
          && op.schedule.Configured() && op.schedule.id !in w.created
          && op.schedule.activeRun.None? && op.schedule.leaseOwner.None? && op.schedule.leaseUntil.None?
          && op.schedule.retryOrigin.None? && op.schedule.retryAttempt == 1
          && Stamp(op.schedule.nextRunAt) == op.schedule.nextRunAt)
    && (op.ClaimDue? ==> FreshIds(w.catalog, op.pass))
  }

  /** A catalog that cannot be read stays as it is: every operation fails on it. */
  ghost function Step(w: World, op: Op, daily: DailyRule): World
    requires Admissible(w, op)
  {
    if !Readable(w.catalog) then w.(clock := Moment(op, w.clock))
    else
      var c := w.catalog;
      match op
      case Create(s) => w.(catalog := CreateSpec(c, s), created := w.created[s.id := s])
      case SetEnabled(id, enabled) =>
        var r := SetEnabledSpec(c, id, enabled);
        w.(catalog := if r.Success? then r.value else c)
      case ClaimDue(p) =>
        World(ClaimDueSpec(c, p, daily), p.moment, w.log + ClaimAll(c, p, daily).launched, w.created)
      case Attach(run, worker, job, now, leaseSeconds) =>
        var r := AttachSpec(c, run, worker, job, now, leaseSeconds);
        w.(catalog := if r.Success? then r.value else c, clock := now)
      case Renew(run, worker, now, leaseSeconds) =>
        var r := RenewSpec(c, run, worker, now, leaseSeconds);
        w.(catalog := if r.Some? then r.value else c, clock := now)
      case Complete(run, status, now) =>
        var r := CompleteSpec(c, run, status, now, daily);
        w.(catalog := if r.Success? then r.value else c, clock := now)
  }

  /** A history: the worlds before and after each operation, starting empty. */
  ghost predicate History(worlds: seq<World>, ops: seq<Op>, daily: DailyRule) {
    && |worlds| == |ops| + 1
    && worlds[0] == World(NoSchedules(), worlds[0].clock, [], map[])
    && forall i :: 0 <= i < |ops| ==>
         Admissible(worlds[i], ops[i]) && worlds[i + 1] == Step(worlds[i], ops[i], daily)
  }

  // -------------------------------------------------------- what is kept

  ghost predicate Recurring(s: Schedule) {
    !s.recurrence.Once?
  }

  ghost predicate OnGrid(t: Time, base: Time, step: Time) {
    exists k: int :: t == base + k * step
  }

  /** A later occurrence, or a later attempt of the same one. */
  predicate Earlier(origin: Time, attempt: int, origin': Time, attempt': int) {
    origin < origin' || (origin == origin' && attempt < attempt')
  }

  ghost predicate LaunchOk(l: Launch, created: map<Id, Schedule>) {
    && RunOk(l.run)
    && l.run.schedule in created
    && var s := created[l.run.schedule];
       && 1 <= l.run.attempt <= s.maxRetries + 1
       && (s.recurrence.Interval? ==> OnGrid(l.origin, s.nextRunAt, s.recurrence.minutes * MINUTE))
  }

  ghost predicate InOrder(a: Launch, b: Launch) {
    && a.run.dueAt < b.run.dueAt
    && Earlier(a.origin, a.run.attempt, b.origin, b.run.attempt)
  }

  /** Both belong to one schedule, and it is a recurring one. */
  ghost predicate SameRecurring(a: Launch, b: Launch, created: map<Id, Schedule>) {
    a.run.schedule == b.run.schedule && a.run.schedule in created && Recurring(created[a.run.schedule])
  }

  ghost predicate LogOk(log: seq<Launch>, created: map<Id, Schedule>) {
    && (forall l :: l in log ==> LaunchOk(l, created))
    && (forall i, j :: 0 <= i < j < |log| && SameRecurring(log[i], log[j], created) ==> InOrder(log[i], log[j]))
  }

  /** How a schedule stands to its creation, the clock and its launches so far. */
  ghost predicate Follows(s: Schedule, first: Schedule, clock: Time, log: seq<Launch>) {
    && s.recurrence == first.recurrence && s.maxRetries == first.maxRetries
    && (Recurring(s) ==>
          && s.Origin() <= s.nextRunAt
          && (s.activeRun.Some? ==> s.nextRunAt <= clock)
          && (forall l :: l in log && l.run.schedule == s.id ==> Precedes(l, s, clock)))
    && (s.recurrence.Interval? ==> OnGrid(s.Origin(), first.nextRunAt, s.recurrence.minutes * MINUTE))
  }

  ghost predicate Precedes(l: Launch, s: Schedule, clock: Time) {
    && l.run.dueAt <= clock
    && if s.activeRun.None? then
         l.run.dueAt < s.nextRunAt && Earlier(l.origin, l.run.attempt, s.Origin(), s.retryAttempt)
       else
         l.run.dueAt <= s.nextRunAt && Earlier(l.origin, l.run.attempt, s.Origin(), s.retryAttempt + 1)
  }

  /** Every run of the catalog was launched. */
  ghost predicate Recorded(runs: seq<Run>, log: seq<Launch>) {
    forall r :: r in runs ==>
      exists l :: l in log && l.run.key == r.key && l.run.schedule == r.schedule && l.run.dueAt == r.dueAt
  }

  ghost predicate AllFollow(ss: seq<Schedule>, clock: Time, log: seq<Launch>, created: map<Id, Schedule>) {
    forall s :: s in ss ==> s.id in created && Follows(s, created[s.id], clock, log)
  }

  ghost predicate StateOk(ss: seq<Schedule>, runs: seq<Run>, clock: Time, log: seq<Launch>,
                          created: map<Id, Schedule>) {
    && InvOn(ss, runs)
    && LogOk(log, created)
    && AllFollow(ss, clock, log, created)
    && Recorded(runs, log)
  }

  ghost predicate WorldOk(w: World) {
    && LogOk(w.log, w.created)
    && (Readable(w.catalog) ==> StateOk(w.catalog.schedules, w.catalog.runs, w.clock, w.log, w.created))
  }

  // ------------------------------------------------------ one schedule at a time

  lemma ClockMayPass(s: Schedule, first: Schedule, clock: Time, clock': Time, log: seq<Launch>)
    requires Follows(s, first, clock, log) && clock <= clock'
    ensures Follows(s, first, clock', log)
  {
    forall l | l in log && l.run.schedule == s.id && Recurring(s) ensures Precedes(l, s, clock') {
      assert Precedes(l, s, clock);
    }
  }

  lemma GridStep(base: Time, from: Time, minutes: int, moment: Time)
    requires minutes >= 1 && OnGrid(from, base, minutes * MINUTE)
    ensures OnGrid(NextOnGrid(from, minutes * MINUTE, moment), base, minutes * MINUTE)
  {
    var step := minutes * MINUTE;
    NextOnGridIsLeast(from, step, moment, 0);
    var k: int :| from == base + k * step;
    var n: nat :| NextOnGrid(from, step, moment) == from + n * step;
    assert base + k * step + n * step == base + (k + n) * step;
  }

  /** Leaving an occurrence for good moves past everything launched before. */
  lemma AdvanceFollows(s: Schedule, first: Schedule, clock: Time, log: seq<Launch>, moment: Time, outcome: Outcome,
                       daily: DailyRule)
    requires Follows(s, first, clock, log) && clock <= moment && Resolves(daily)
    requires s.Configured() && Stamp(s.nextRunAt) == s.nextRunAt && Stamp(s.Origin()) == s.Origin()
    requires s.nextRunAt <= moment
    ensures Follows(Advance(s, moment, outcome, daily), first, moment, log)
  {
    var s' := Advance(s, moment, outcome, daily);
    AdvanceIsConsistent(s, [], moment, outcome, daily);
    if s.recurrence.Interval? {
      StampOnGrid(s.Origin(), s.recurrence.minutes, moment);
      GridStep(first.nextRunAt, s.Origin(), s.recurrence.minutes, moment);
    }
    forall l | l in log && l.run.schedule == s'.id && Recurring(s') ensures Precedes(l, s', moment) {
      assert Precedes(l, s, clock);
    }
  }

  lemma RetryFollows(s: Schedule, first: Schedule, clock: Time, log: seq<Launch>, status: Status, moment: Time,
                     daily: DailyRule)
    requires Follows(s, first, clock, log) && clock <= moment && s.Configured() && s.activeRun.Some?
    requires Retries(s, s.retryAttempt, status)
    ensures Follows(AfterTerminal(s, s.retryAttempt, status, moment, daily), first, moment, log)
  {
    hide Advance;
    var s' := AfterTerminal(s, s.retryAttempt, status, moment, daily);
    StampFacts(moment + s.retryDelay * MINUTE);
    forall l | l in log && l.run.schedule == s'.id && Recurring(s') ensures Precedes(l, s', moment) {
      assert Precedes(l, s, clock);
    }
  }

  /** Ending the active run of the schedule: a retry of the same occurrence, or an advance. */
  lemma TerminalFollows(s: Schedule, first: Schedule, clock: Time, log: seq<Launch>, status: Status, moment: Time,
                        daily: DailyRule)
    requires Follows(s, first, clock, log) && clock <= moment && Resolves(daily)
    requires s.Configured() && Stamp(s.nextRunAt) == s.nextRunAt && Stamp(s.Origin()) == s.Origin()
    requires s.activeRun.Some?
    ensures Follows(AfterTerminal(s, s.retryAttempt, status, moment, daily), first, moment, log)
  {
    if Retries(s, s.retryAttempt, status) {
      hide Follows;
      RetryFollows(s, first, clock, log, status, moment, daily);
    } else if Recurring(s) {
      hide Follows, Advance;
      AdvanceFollows(s, first, clock, log, moment, Ended(status), daily);
    }
  }

  lemma LogMayGrow(s: Schedule, first: Schedule, clock: Time, log: seq<Launch>, l: Launch)
    requires Follows(s, first, clock, log) && l.run.schedule != s.id
    ensures Follows(s, first, clock, log + [l])
  {
    forall k | k in log + [l] && k.run.schedule == s.id && Recurring(s) ensures Precedes(k, s, clock) {
      assert k in log;
    }
  }

  /** Launching the due run of an idle schedule. */
  lemma LaunchFollows(s: Schedule, first: Schedule, log: seq<Launch>, id: Id, p: Pass)
    requires Follows(s, first, p.moment, log) && s.activeRun.None? && s.nextRunAt <= p.moment
    ensures Follows(Leased(s, id, p), first, p.moment, log + [Launch(NewRun(s, id, p.moment), s.Origin())])
  {
    var s' := Leased(s, id, p);
    var l := Launch(NewRun(s, id, p.moment), s.Origin());
    forall k | k in log + [l] && k.run.schedule == s'.id && Recurring(s') ensures Precedes(k, s', p.moment) {
      if k != l {
        assert k in log && Precedes(k, s, p.moment);
      }
    }
  }

  lemma LaunchKeepsLog(s: Schedule, clock: Time, log: seq<Launch>, created: map<Id, Schedule>, l: Launch)
    requires LogOk(log, created) && s.id in created && Follows(s, created[s.id], clock, log)
    requires s.activeRun.None? && 1 <= s.retryAttempt <= s.maxRetries + 1
    requires l.run.schedule == s.id && l.run.dueAt == s.nextRunAt && l.run.key == RunKey(s.id, s.nextRunAt)
    requires l.run.attempt == s.retryAttempt && l.origin == s.Origin()
    ensures LogOk(log + [l], created)
  {
    var log' := log + [l];
    forall i, j | 0 <= i < j < |log'| && SameRecurring(log'[i], log'[j], created)
      ensures InOrder(log'[i], log'[j])
    {
      if j == |log| {
        assert log'[i] == log[i] && log[i] in log;
        assert Precedes(log[i], s, clock);
      }
    }
  }

  // ------------------------------------------------------ one turn of the claiming loop

  lemma ReplaceFollows(ss: seq<Schedule>, i: nat, s': Schedule, clock: Time, log: seq<Launch>,
                       created: map<Id, Schedule>)
    requires i < |ss| && AllFollow(ss, clock, log, created) && s'.id == ss[i].id
    requires s'.id in created && Follows(s', created[s'.id], clock, log)
    ensures AllFollow(ss[i := s'], clock, log, created)
  {
  }

  ghost function LogAfter(s: Schedule, t: Turn, log: seq<Launch>): seq<Launch> {
    log + (if t.claimed.Some? then [Launch(t.claimed.value, s.Origin())] else [])
  }

  lemma RecordedAfterReplace(runs: seq<Run>, log: seq<Launch>, r: Run, r': Run)
    requires Recorded(runs, log) && UniqueRuns(runs) && r in runs
    requires r'.id == r.id && r'.key == r.key && r'.schedule == r.schedule && r'.dueAt == r.dueAt
    ensures Recorded(ReplaceRun(runs, r.id, r'), log)
  {
    ReplaceKeepsUnique(runs, r, r');
    assert exists l :: l in log && l.run.key == r.key && l.run.schedule == r.schedule && l.run.dueAt == r.dueAt;
  }

  /** For a recurring schedule no earlier run has the due key, so the branch that
      reconciles a duplicate is never taken. */
  lemma NoDuplicate(ss: seq<Schedule>, runs: seq<Run>, clock: Time, log: seq<Launch>, created: map<Id, Schedule>,
                    s: Schedule)
    requires StateOk(ss, runs, clock, log, created) && s in ss && Recurring(s) && s.activeRun.None?
    ensures FindKey(runs, RunKey(s.id, s.nextRunAt)).None?
  {
    forall r | r in runs ensures r.key != RunKey(s.id, s.nextRunAt) {
      assert RunOk(r);
      var l :| l in log && l.run.key == r.key && l.run.schedule == r.schedule && l.run.dueAt == r.dueAt;
      if l.run.schedule == s.id { assert Precedes(l, s, clock); }
    }
  }

  lemma TerminalKeepsId(s: Schedule, attempt: int, status: Status, moment: Time, daily: DailyRule)
    requires s.Configured()
    ensures AfterTerminal(s, attempt, status, moment, daily).id == s.id
  {
  }

  lemma TurnExpires(ss: seq<Schedule>, runs: seq<Run>, i: nat, p: Pass, id: Id, daily: DailyRule,
                    log: seq<Launch>, created: map<Id, Schedule>)
    requires StateOk(ss, runs, p.moment, log, created) && i < |ss| && ss[i].Configured()
    requires ss[i].activeRun.Some? && !LeaseActive(ss[i], p.moment) && Resolves(daily)
    ensures var t := ClaimOne(ss[i], runs, p, id, daily);
            t.claimed.None? && AllFollow(ss[i := t.schedule], p.moment, log, created) && Recorded(t.runs, log)
  {
    var s := ss[i];
    var first := created[s.id];
    assert Consistent(s, runs) && Follows(s, first, p.moment, log);
    ActiveRunIsClaimed(ss, runs, s);
    hide LogOk, Follows, AfterTerminal, Advance;
    var r := FindRun(runs, s.activeRun.value).value;
    var t := ClaimOne(s, runs, p, id, daily);
    TerminalKeepsId(s, r.attempt, Failed, p.moment, daily);
    TerminalFollows(s, first, p.moment, log, Failed, p.moment, daily);
    ReplaceFollows(ss, i, t.schedule, p.moment, log, created);
    RecordedAfterReplace(runs, log, r, Expired(r, p.moment));
  }

  lemma TurnKeepsState(ss: seq<Schedule>, runs: seq<Run>, i: nat, p: Pass, id: Id, daily: DailyRule,
                       log: seq<Launch>, created: map<Id, Schedule>)
    requires StateOk(ss, runs, p.moment, log, created) && i < |ss| && FreshId(id, runs) && Resolves(daily)
    requires ss[i].Configured()
    ensures var t := ClaimOne(ss[i], runs, p, id, daily);
            StateOk(ss[i := t.schedule], t.runs, p.moment, LogAfter(ss[i], t, log), created)
  {
    var s := ss[i];
    var first := created[s.id];
    assert Consistent(s, runs) && Follows(s, first, p.moment, log);
    var t := ClaimOne(s, runs, p, id, daily);
    ClaimOneKeepsInv(ss, runs, i, p, id, daily);
    hide InvOn, LogOk, Follows, AfterTerminal, Advance, FreshId;
    assert LogAfter(s, Turn(t.schedule, t.runs, None, t.changed), log) == log;
    if s.activeRun.Some? {
      if LeaseActive(s, p.moment) {
        assert ss[i := s] == ss;
      } else {
        TurnExpires(ss, runs, i, p, id, daily, log, created);
      }
    } else if !s.enabled || s.nextRunAt > p.moment {
      assert ss[i := s] == ss;
    } else if s.misfire == Skip && p.moment - s.nextRunAt > 300 * SECOND {
      AdvanceFollows(s, first, p.moment, log, p.moment, SkippedMisfire, daily);
      ReplaceFollows(ss, i, t.schedule, p.moment, log, created);
    } else if FindKey(runs, RunKey(s.id, s.nextRunAt)).Some? {
      if Recurring(s) { NoDuplicate(ss, runs, p.moment, log, created, s); }
      ReplaceFollows(ss, i, t.schedule, p.moment, log, created);
    } else {
      TurnLaunches(ss, runs, i, p, id, daily, log, created);
    }
  }

  lemma TurnLaunches(ss: seq<Schedule>, runs: seq<Run>, i: nat, p: Pass, id: Id, daily: DailyRule,
                     log: seq<Launch>, created: map<Id, Schedule>)
    requires StateOk(ss, runs, p.moment, log, created) && i < |ss| && ss[i].Configured()
    requires ClaimOne(ss[i], runs, p, id, daily).claimed == Some(NewRun(ss[i], id, p.moment))
    requires ClaimOne(ss[i], runs, p, id, daily).schedule == Leased(ss[i], id, p)
    requires ClaimOne(ss[i], runs, p, id, daily).runs == runs + [NewRun(ss[i], id, p.moment)]
    requires ss[i].activeRun.None? && ss[i].nextRunAt <= p.moment
    ensures var t := ClaimOne(ss[i], runs, p, id, daily);
            var log' := LogAfter(ss[i], t, log);
            LogOk(log', created) && AllFollow(ss[i := t.schedule], p.moment, log', created) && Recorded(t.runs, log')
  {
    var s := ss[i];
    assert Consistent(s, runs) && Follows(s, created[s.id], p.moment, log);
    var t := ClaimOne(s, runs, p, id, daily);
    var l := Launch(NewRun(s, id, p.moment), s.Origin());
    var log' := LogAfter(s, t, log);
    assert log' == log + [l];
    LaunchKeepsLog(s, p.moment, log, created, l);
    LaunchFollows(s, created[s.id], log, id, p);
    forall u | u in ss[i := t.schedule] ensures u.id in created && Follows(u, created[u.id], p.moment, log') {
      if u != t.schedule {
        var k :| 0 <= k < |ss| && ss[i := t.schedule][k] == u;
        assert ss[k] == u && u in ss && u.id != s.id;
        LogMayGrow(u, created[u.id], p.moment, log, l);
      }
    }
    forall r | r in t.runs
      ensures exists k :: k in log' && k.run.key == r.key && k.run.schedule == r.schedule && k.run.dueAt == r.dueAt
    {
      if r in runs {
        var k :| k in log && k.run.key == r.key && k.run.schedule == r.schedule && k.run.dueAt == r.dueAt;
        assert k in log';
      } else {
        assert l in log';
      }
    }
  }

  // ------------------------------------------------------------- every operation

  lemma AllMayWait(ss: seq<Schedule>, runs: seq<Run>, clock: Time, clock': Time, log: seq<Launch>,
                   created: map<Id, Schedule>)
    requires StateOk(ss, runs, clock, log, created) && clock <= clock'
    ensures StateOk(ss, runs, clock', log, created)
  {
    forall s | s in ss ensures s.id in created && Follows(s, created[s.id], clock', log) {
      ClockMayPass(s, created[s.id], clock, clock', log);
    }
  }

  ghost predicate MidwayOk(c: Catalog, r: Progress, n: nat, moment: Time, log: seq<Launch>, created: map<Id, Schedule>)
    requires n <= |c.schedules|
  {
    StateOk(Midway(c, r, n), r.runs, moment, log + r.launched, created)
  }

  lemma {:induction false} ClaimFirstKeepsState(c: Catalog, p: Pass, n: nat, daily: DailyRule, log: seq<Launch>,
                                                created: map<Id, Schedule>)
    requires StateOk(c.schedules, c.runs, p.moment, log, created) && AllConfigured(c.schedules) && n <= |c.schedules|
    requires FreshIds(c, p) && Resolves(daily)
    ensures MidwayOk(c, ClaimFirst(c, p, n, daily), n, p.moment, log, created)
  {
    var r := ClaimFirst(c, p, n, daily);
    if n == 0 {
      assert Midway(c, r, 0) == c.schedules;
      assert log + [] == log;
    } else {
      ClaimFirstKeepsState(c, p, n - 1, daily, log, created);
      assert Inv(c);
      ClaimFirstKeepsInv(c, p, n - 1, daily);
      ClaimFirstStep(c, p, n, daily);
      var before := ClaimFirst(c, p, n - 1, daily);
      var s := c.schedules[n - 1];
      TurnKeepsState(Midway(c, before, n - 1), before.runs, n - 1, p, p.ids[n - 1], daily, log + before.launched,
                     created);
      var t := ClaimOne(s, before.runs, p, p.ids[n - 1], daily);
      LaunchesAdd(log, before.launched, s, t);
    }
  }

  lemma LaunchesAdd(log: seq<Launch>, launched: seq<Launch>, s: Schedule, t: Turn)
    ensures log + (launched + (if t.claimed.Some? then [Launch(t.claimed.value, s.Origin())] else []))
            == LogAfter(s, t, log + launched)
  {
  }

  lemma ClaimDueKeepsWorld(w: World, p: Pass, daily: DailyRule)
    requires WorldOk(w) && Readable(w.catalog) && Admissible(w, ClaimDue(p)) && Resolves(daily)
    ensures WorldOk(Step(w, ClaimDue(p), daily))
  {
    var c := w.catalog;
    InvConfigured(c);
    AllMayWait(c.schedules, c.runs, w.clock, p.moment, w.log, w.created);
    ClaimFirstKeepsState(c, p, |c.schedules|, daily, w.log, w.created);
    ClaimDueKeepsInv(c, p, daily);
    var r := ClaimAll(c, p, daily);
    assert Midway(c, r, |c.schedules|) == r.updated;
    if !r.changed {
      UnchangedClaimsNothing(c, p, |c.schedules|, daily);
    }
  }

  /** A turn, and so a pass, that reports no change has made none. */
  lemma UnchangedTurn(s: Schedule, runs: seq<Run>, p: Pass, id: Id, daily: DailyRule)
    requires s.Configured()
    ensures var t := ClaimOne(s, runs, p, id, daily); !t.changed ==> t == Turn(s, runs, None, false)
  {
    hide AfterTerminal, Advance, FindRun, FindKey, ReplaceRun;
  }

  lemma {:induction false} UnchangedClaimsNothing(c: Catalog, p: Pass, n: nat, daily: DailyRule)
    requires n <= |c.schedules| <= |p.ids| && AllConfigured(c.schedules)
    requires !ClaimFirst(c, p, n, daily).changed
    ensures ClaimFirst(c, p, n, daily) == Progress(c.schedules[..n], c.runs, [], false)
  {
    if n > 0 {
      UnchangedTurn(c.schedules[n - 1], ClaimFirst(c, p, n - 1, daily).runs, p, p.ids[n - 1], daily);
      hide ClaimOne;
      UnchangedClaimsNothing(c, p, n - 1, daily);
      assert c.schedules[..n] == c.schedules[..n - 1] + [c.schedules[n - 1]];
    } else {
      assert c.schedules[..0] == [];
    }
  }

  lemma CompleteKeepsWorld(w: World, run: Id, status: Status, now: Time, daily: DailyRule)
    requires WorldOk(w) && Readable(w.catalog) && Admissible(w, Complete(run, status, now)) && Resolves(daily)
    ensures WorldOk(Step(w, Complete(run, status, now), daily))
  {
    hide AfterTerminal, Follows, LogOk;
    var c := w.catalog;
    InvConfigured(c);
    CompleteKeepsInv(c, run, status, now, daily);
    AllMayWait(c.schedules, c.runs, w.clock, now, w.log, w.created);
    var current := FindRun(c.runs, run);
    if status != Claimed && current.Some? && current.value.status == Claimed {
      var r := current.value;
      var i := CompleteMovesHolder(c, r, status, now, daily);
      var s := c.schedules[i];
      assert s in c.schedules && Consistent(s, c.runs);
      ActiveRunIsClaimed(c.schedules, c.runs, s);
      TerminalFollows(s, w.created[s.id], now, w.log, status, now, daily);
      TerminalKeepsId(s, r.attempt, status, now, daily);
      ReplaceFollows(c.schedules, i, AfterTerminal(s, r.attempt, status, now, daily), now, w.log, w.created);
      RecordedAfterReplace(c.runs, w.log, r, Completed(r, status, now));
    }
  }

  /** Changing only whether a schedule is enabled, its lease end or its revision. */
  lemma MinorChangeFollows(ss: seq<Schedule>, s: Schedule, s': Schedule, clock: Time, log: seq<Launch>,
                           created: map<Id, Schedule>)
    requires UniqueSchedules(ss) && AllFollow(ss, clock, log, created) && s in ss
    requires s' == s.(enabled := s'.enabled, leaseUntil := s'.leaseUntil, revision := s'.revision)
    ensures AllFollow(ReplaceSchedule(ss, s.id, s'), clock, log, created)
  {
    var i :| 0 <= i < |ss| && ss[i] == s;
    ReplaceIsUpdate(ss, i, s');
    forall l | l in log && l.run.schedule == s'.id && Recurring(s') ensures Precedes(l, s', clock) {
      assert Precedes(l, s, clock);
    }
    assert Follows(s', created[s.id], clock, log);
    ReplaceFollows(ss, i, s', clock, log, created);
  }

  lemma CreateKeepsWorld(w: World, s: Schedule, daily: DailyRule)
    requires WorldOk(w) && Readable(w.catalog) && Admissible(w, Create(s)) && Resolves(daily)
    ensures WorldOk(Step(w, Create(s), daily))
  {
    var c := w.catalog;
    var created := w.created[s.id := s];
    forall t | t in c.schedules ensures t.id in w.created && t.id != s.id {}
    CreateKeepsInv(c, s);
    forall l | l in w.log ensures LaunchOk(l, created) && l.run.schedule != s.id {
      assert LaunchOk(l, w.created);
    }
    assert OnGrid(s.nextRunAt, s.nextRunAt, 0) by { assert s.nextRunAt == s.nextRunAt + 0 * 0; }
    if s.recurrence.Interval? {
      assert s.nextRunAt == s.nextRunAt + 0 * (s.recurrence.minutes * MINUTE);
    }
    assert Follows(s, s, w.clock, w.log);
    forall i, j | 0 <= i < j < |w.log| && SameRecurring(w.log[i], w.log[j], created)
      ensures InOrder(w.log[i], w.log[j])
    {
      assert SameRecurring(w.log[i], w.log[j], w.created);
    }
  }

  lemma LeaseKeepsWorld(w: World, op: Op, daily: DailyRule)
    requires WorldOk(w) && Readable(w.catalog) && Admissible(w, op) && Resolves(daily)
    requires op.Attach? || op.Renew?
    ensures WorldOk(Step(w, op, daily))
  {
    var c := w.catalog;
    var now, run, worker, leaseSeconds := op.now, op.run, op.worker, op.leaseSeconds;
    AllMayWait(c.schedules, c.runs, w.clock, now, w.log, w.created);
    AttachKeepsInv(c, run, worker, if op.Attach? then op.job else "", now, leaseSeconds);
    var current := FindRun(c.runs, run);
    if current.Some? && Owns(c, current.value, worker) {
      var s := FindSchedule(c.schedules, current.value.schedule).value;
      MinorChangeFollows(c.schedules, s, s.(leaseUntil := Some(LeaseEnd(now, leaseSeconds))), now, w.log, w.created);
      if op.Attach? {
        RecordedAfterReplace(c.runs, w.log, current.value, current.value.(job := Some(op.job)));
      }
    }
  }

  lemma SetEnabledKeepsWorld(w: World, id: Id, enabled: bool, daily: DailyRule)
    requires WorldOk(w) && Readable(w.catalog) && Admissible(w, SetEnabled(id, enabled)) && Resolves(daily)
    ensures WorldOk(Step(w, SetEnabled(id, enabled), daily))
  {
    hide InvOn, LogOk, Follows, Recorded;
    var c := w.catalog;
    SetEnabledKeepsInv(c, id, enabled);
    var s := FindSchedule(c.schedules, id);
    if s.Some? {
      MinorChangeFollows(c.schedules, s.value, s.value.(enabled := enabled, revision := s.value.revision + 1),
                         w.clock, w.log, w.created);
    }
  }

  lemma StepKeepsWorld(w: World, op: Op, daily: DailyRule)
    requires WorldOk(w) && Admissible(w, op) && Resolves(daily)
    ensures WorldOk(Step(w, op, daily))
  {
    if Readable(w.catalog) {
      match op
      case Create(s) => CreateKeepsWorld(w, s, daily);
      case SetEnabled(id, enabled) => SetEnabledKeepsWorld(w, id, enabled, daily);
      case ClaimDue(p) => ClaimDueKeepsWorld(w, p, daily);
      case Attach(_, _, _, _, _) => LeaseKeepsWorld(w, op, daily);
      case Renew(_, _, _, _) => LeaseKeepsWorld(w, op, daily);
      case Complete(run, status, now) => CompleteKeepsWorld(w, run, status, now, daily);
    }
  }

  lemma {:induction false} HistoryIsOk(worlds: seq<World>, ops: seq<Op>, daily: DailyRule, n: nat)
    requires History(worlds, ops, daily) && n < |worlds| && Resolves(daily)
    ensures WorldOk(worlds[n])
  {
    if n > 0 {
      HistoryIsOk(worlds, ops, daily, n - 1);
      StepKeepsWorld(worlds[n - 1], ops[n - 1], daily);
    }
  }

  // --------------------------------------------------------------- the theorems

  /** No occurrence of a recurring schedule is ever launched twice: each launch is
      due strictly later than all launches of the schedule before it. */
  lemma NeverLaunchedTwice(worlds: seq<World>, ops: seq<Op>, daily: DailyRule, n: nat, i: nat, j: nat)
    requires History(worlds, ops, daily) && n < |worlds| && Resolves(daily)
    requires i < j < |worlds[n].log|
    requires SameRecurring(worlds[n].log[i], worlds[n].log[j], worlds[n].created)
    ensures worlds[n].log[i].run.dueAt < worlds[n].log[j].run.dueAt
    ensures worlds[n].log[i].run.key != worlds[n].log[j].run.key
  {
    HistoryIsOk(worlds, ops, daily, n);
    assert worlds[n].log[i] in worlds[n].log && worlds[n].log[j] in worlds[n].log;
    assert InOrder(worlds[n].log[i], worlds[n].log[j]);
  }

  /** Interval schedules keep their cadence for ever: every occurrence that is
      launched, whatever its retries, lies on the grid of the first run. */
  lemma CadenceIsKept(worlds: seq<World>, ops: seq<Op>, daily: DailyRule, n: nat, l: Launch)
    requires History(worlds, ops, daily) && n < |worlds| && Resolves(daily)
    requires l in worlds[n].log && l.run.schedule in worlds[n].created
    requires worlds[n].created[l.run.schedule].recurrence.Interval?
    ensures var first := worlds[n].created[l.run.schedule];
            OnGrid(l.origin, first.nextRunAt, first.recurrence.minutes * MINUTE)
  {
    HistoryIsOk(worlds, ops, daily, n);
    assert LaunchOk(l, worlds[n].created);
  }

  /** `picks` are increasing positions of launches of one occurrence of one schedule. */
  ghost predicate SameOccurrence(log: seq<Launch>, picks: seq<nat>, schedule: Id, origin: Time) {
    && (forall k :: 0 <= k < |picks| ==>
          picks[k] < |log| && log[picks[k]].run.schedule == schedule && log[picks[k]].origin == origin)
    && (forall k, m :: 0 <= k < m < |picks| ==> picks[k] < picks[m])
  }

  lemma {:induction false} AttemptsGrow(log: seq<Launch>, created: map<Id, Schedule>, picks: seq<nat>, schedule: Id,
                                        origin: Time, k: nat)
    requires LogOk(log, created) && schedule in created && Recurring(created[schedule])
    requires SameOccurrence(log, picks, schedule, origin) && k < |picks|
    ensures log[picks[k]].run.attempt >= k + 1
  {
    assert log[picks[k]] in log && LaunchOk(log[picks[k]], created);
    if k > 0 {
      AttemptsGrow(log, created, picks, schedule, origin, k - 1);
      assert SameRecurring(log[picks[k - 1]], log[picks[k]], created);
      assert InOrder(log[picks[k - 1]], log[picks[k]]);
    }
  }

  /** One occurrence is launched at most `max_retries + 1` times. */
  lemma RetriesAreBounded(worlds: seq<World>, ops: seq<Op>, daily: DailyRule, n: nat, picks: seq<nat>, schedule: Id,
                          origin: Time)
    requires History(worlds, ops, daily) && n < |worlds| && Resolves(daily)
    requires schedule in worlds[n].created && Recurring(worlds[n].created[schedule])
    requires SameOccurrence(worlds[n].log, picks, schedule, origin)
    ensures |picks| <= worlds[n].created[schedule].maxRetries + 1 || |picks| == 0
  {
    if |picks| > 0 {
      HistoryIsOk(worlds, ops, daily, n);
      AttemptsGrow(worlds[n].log, worlds[n].created, picks, schedule, origin, |picks| - 1);
      assert LaunchOk(worlds[n].log[picks[|picks| - 1]], worlds[n].created);
    }
  }

  /** As long as no pass trims a run that is still claimed, the catalog has the
      lease invariant at every point of the history; once one does, the catalog
      can never be read or changed again. */
  lemma {:induction false} RetentionDecides(worlds: seq<World>, ops: seq<Op>, daily: DailyRule, n: nat)
    requires History(worlds, ops, daily) && n < |worlds| && Resolves(daily)
    ensures (forall i :: 0 <= i < n ==> StepRetains(worlds[i], ops[i], daily)) ==> Inv(worlds[n].catalog)
    ensures n > 0 && !Readable(worlds[n - 1].catalog) ==>
              worlds[n].catalog == worlds[n - 1].catalog && worlds[n].log == worlds[n - 1].log
    ensures n > 0 && Readable(worlds[n - 1].catalog) && !StepRetains(worlds[n - 1], ops[n - 1], daily) ==>
              !Readable(worlds[n].catalog)
  {
    HistoryIsOk(worlds, ops, daily, n);
    if n > 0 {
      RetentionDecides(worlds, ops, daily, n - 1);
      HistoryIsOk(worlds, ops, daily, n - 1);
      var w := worlds[n - 1];
      if Inv(w.catalog) { InvIsReadable(w.catalog); }
      if Readable(w.catalog) {
        InvConfigured(w.catalog);
        StepReadable(w, ops[n - 1], daily);
      }
    }
  }

  /** A claiming pass cuts off no claimed run. */
  ghost predicate StepRetains(w: World, op: Op, daily: DailyRule) {
    op.ClaimDue? && |w.catalog.schedules| <= |op.pass.ids| && AllConfigured(w.catalog.schedules) ==>
      !ClaimAll(w.catalog, op.pass, daily).changed || KeepsClaimed(ClaimAll(w.catalog, op.pass, daily).runs)
  }

  lemma StepReadable(w: World, op: Op, daily: DailyRule)
    requires WorldOk(w) && Readable(w.catalog) && Admissible(w, op) && Resolves(daily)
    requires AllConfigured(w.catalog.schedules)
    ensures Readable(Step(w, op, daily).catalog) <==> StepRetains(w, op, daily)
    ensures StepRetains(w, op, daily) ==> Inv(Step(w, op, daily).catalog)
  {
    var c := w.catalog;
    match op
    case Create(s) => CreateKeepsWorld(w, s, daily); CreateInv(w, s);
    case SetEnabled(id, enabled) => SetEnabledKeepsInv(c, id, enabled); InvIsReadable(Step(w, op, daily).catalog);
    case ClaimDue(p) => ClaimDueKeepsInv(c, p, daily);
    case Attach(run, worker, job, now, leaseSeconds) =>
      AttachKeepsInv(c, run, worker, job, now, leaseSeconds);
      InvIsReadable(Step(w, op, daily).catalog);
    case Renew(run, worker, now, leaseSeconds) =>
      AttachKeepsInv(c, run, worker, "", now, leaseSeconds);
      InvIsReadable(Step(w, op, daily).catalog);
    case Complete(run, status, now) =>
      CompleteKeepsInv(c, run, status, now, daily);
      InvIsReadable(Step(w, op, daily).catalog);
  }

  lemma CreateInv(w: World, s: Schedule)
    requires WorldOk(w) && Readable(w.catalog) && Admissible(w, Create(s))
    ensures Inv(CreateSpec(w.catalog, s)) && Readable(CreateSpec(w.catalog, s))
  {
    forall t | t in w.catalog.schedules ensures t.id != s.id { assert t.id in w.created; }
    CreateKeepsInv(w.catalog, s);
    InvIsReadable(CreateSpec(w.catalog, s));
  }

  // ------------------------------------------------------- runs that have ended

  /** Ended runs are still there, as they were. */
  ghost predicate KeepsEnded(before: seq<Run>, after: seq<Run>) {
    forall r :: r in before && r.status != Claimed ==> r in after
  }

  lemma TurnKeepsEnded(ss: seq<Schedule>, runs: seq<Run>, s: Schedule, p: Pass, id: Id, daily: DailyRule)
    requires InvOn(ss, runs) && s in ss && s.Configured()
    ensures KeepsEnded(runs, ClaimOne(s, runs, p, id, daily).runs)
  {
    if s.activeRun.Some? {
      ActiveRunIsClaimed(ss, runs, s);
      var r := FindRun(runs, s.activeRun.value).value;
      ReplaceKeepsUnique(runs, r, Expired(r, p.moment));
      forall q | q in runs && q.status != Claimed ensures q.id != r.id {
        if q.id == r.id { SameRun(runs, q, r); }
      }
    }
  }

  lemma {:induction false} ClaimFirstKeepsEnded(c: Catalog, p: Pass, n: nat, daily: DailyRule)
    requires Inv(c) && AllConfigured(c.schedules) && n <= |c.schedules| && FreshIds(c, p) && Resolves(daily)
    ensures KeepsEnded(c.runs, ClaimFirst(c, p, n, daily).runs)
  {
    hide ClaimOne, InvOn;
    if n > 0 {
      ClaimFirstKeepsEnded(c, p, n - 1, daily);
      ClaimFirstKeepsInv(c, p, n - 1, daily);
      ClaimFirstStep(c, p, n, daily);
      var before := ClaimFirst(c, p, n - 1, daily);
      var ss := Midway(c, before, n - 1);
      assert ss[n - 1] in ss;
      TurnKeepsEnded(ss, before.runs, ss[n - 1], p, p.ids[n - 1], daily);
    }
  }

  ghost predicate KeepsKeys(runs: seq<Run>, runs': seq<Run>) {
    forall r :: r in runs ==> FindKey(runs', r.key).Some?
  }

  lemma ReplaceKeepsKeys(runs: seq<Run>, a: Run, a': Run)
    requires UniqueRuns(runs) && a in runs && a'.key == a.key
    ensures KeepsKeys(runs, ReplaceRun(runs, a.id, a'))
  {
    hide FindKey, ReplaceRun;
    forall r | r in runs ensures FindKey(ReplaceRun(runs, a.id, a'), r.key).Some? {
      if r.id == a.id { SameRun(runs, r, a); }
      var k :| 0 <= k < |runs| && runs[k] == r;
      assert ReplaceRun(runs, a.id, a')[k].key == r.key;
    }
  }

  lemma AppendKeepsKeys(runs: seq<Run>, run: Run)
    ensures KeepsKeys(runs, runs + [run])
  {
    hide FindKey;
  }

  lemma TurnKeepsKeys(runs: seq<Run>, s: Schedule, p: Pass, id: Id, daily: DailyRule)
    requires UniqueRuns(runs) && s.Configured()
    ensures var t := ClaimOne(s, runs, p, id, daily);
            KeepsKeys(runs, t.runs) && (t.claimed.Some? ==> forall r :: r in runs ==> r.key != t.claimed.value.key)
  {
    hide AfterTerminal, Advance, FindRun, FindKey, ReplaceRun, KeepsKeys, UniqueRuns;
    AppendKeepsKeys(runs, NewRun(s, id, p.moment));
    SameKeepsKeys(runs);
    if s.activeRun.Some? && FindRun(runs, s.activeRun.value).Some? {
      var a := FindRun(runs, s.activeRun.value).value;
      ReplaceKeepsKeys(runs, a, Expired(a, p.moment));
    }
  }

  lemma SameKeepsKeys(runs: seq<Run>)
    ensures KeepsKeys(runs, runs)
  {
    hide FindKey;
  }

  /** No pass launches an occurrence, of any kind of schedule, whose run is still in
      the catalog: a one-time schedule that is enabled again is not run again. */
  lemma {:induction false} RetainedIsNotRelaunched(c: Catalog, p: Pass, n: nat, daily: DailyRule)
    requires Inv(c) && AllConfigured(c.schedules) && n <= |c.schedules| && FreshIds(c, p) && Resolves(daily)
    ensures KeepsKeys(c.runs, ClaimFirst(c, p, n, daily).runs)
    ensures forall l, r :: l in ClaimFirst(c, p, n, daily).launched && r in c.runs ==> l.run.key != r.key
  {
    hide Inv, ClaimOne, InvOn;
    if n > 0 {
      RetainedIsNotRelaunched(c, p, n - 1, daily);
      ClaimFirstKeepsInv(c, p, n - 1, daily);
      var before := ClaimFirst(c, p, n - 1, daily);
      InvUnique(Midway(c, before, n - 1), before.runs);
      TurnKeepsKeys(before.runs, c.schedules[n - 1], p, p.ids[n - 1], daily);
      var t := ClaimOne(c.schedules[n - 1], before.runs, p, p.ids[n - 1], daily);
      forall r | r in c.runs
        ensures FindKey(t.runs, r.key).Some? && (t.claimed.Some? ==> r.key != t.claimed.value.key)
      {
        var q := FindKey(before.runs, r.key).value;
        assert FindKey(t.runs, q.key).Some?;
      }
    }
  }

  lemma InvUnique(ss: seq<Schedule>, runs: seq<Run>)
    requires InvOn(ss, runs)
    ensures UniqueRuns(runs)
  {
  }

  /** A run that succeeded, failed or was cancelled is never rewritten: wherever its
      id is found after an operation, it is the same record. */
  lemma EndedRunsNeverChange(w: World, op: Op, daily: DailyRule, r: Run, q: Run)
    requires WorldOk(w) && Readable(w.catalog) && Admissible(w, op) && Resolves(daily)
    requires r in w.catalog.runs && r.status != Claimed
    requires q in Step(w, op, daily).catalog.runs && q.id == r.id
    ensures q == r
  {
    var c := w.catalog;
    if op.ClaimDue? {
      var p := op.pass;
      InvConfigured(c);
      ClaimFirstKeepsEnded(c, p, |c.schedules|, daily);
      ClaimDueKeepsInv(c, p, daily);
      var all := ClaimAll(c, p, daily);
      if all.changed {
        assert q in all.runs;
        SameRun(all.runs, q, r);
      } else {
        SameRun(c.runs, q, r);
      }
    } else if op.Attach? || op.Complete? {
      var run := op.run;
      var current := FindRun(c.runs, run);
      if current.Some? && r.id == run { SameRun(c.runs, r, current.value); }
      if q in c.runs { SameRun(c.runs, q, r); }
    } else {
      SameRun(c.runs, q, r);
    }
  }

  // ---------------------------------------------------------- leases and pausing

  lemma OtherTurnKeepsRun(ss: seq<Schedule>, runs: seq<Run>, j: nat, i: nat, p: Pass, id: Id, daily: DailyRule, r: Run)
    requires InvOn(ss, runs) && j < |ss| && i < |ss| && i != j && ss[j].Configured()
    requires r in runs && ss[i].activeRun == Some(r.id)
    ensures r in ClaimOne(ss[j], runs, p, id, daily).runs
  {
    var s := ss[j];
    assert s in ss && ss[i] in ss;
    if s.activeRun.Some? {
      ActiveRunIsClaimed(ss, runs, s);
      ActiveRunIsClaimed(ss, runs, ss[i]);
      var other := FindRun(runs, s.activeRun.value).value;
      SameRun(runs, FindRun(runs, r.id).value, r);
      assert other.id != r.id;
      OtherStays(runs, other, Expired(other, p.moment), r);
    }
    hide InvOn, AfterTerminal, Advance, FindRun, FindKey, ReplaceRun;
  }

  lemma OtherStays(runs: seq<Run>, q: Run, q': Run, r: Run)
    requires r in runs && r.id != q.id
    ensures r in ReplaceRun(runs, q.id, q')
  {
    var k :| 0 <= k < |runs| && runs[k] == r;
    assert ReplaceRun(runs, q.id, q')[k] == r;
  }

  /** A claiming pass touches neither a schedule whose lease still runs nor the run
      it holds. */
  lemma {:induction false} LiveLeaseIsSafe(c: Catalog, p: Pass, n: nat, daily: DailyRule, i: nat, r: Run)
    requires Inv(c) && AllConfigured(c.schedules) && n <= |c.schedules| && FreshIds(c, p) && Resolves(daily)
    requires i < |c.schedules| && LeaseActive(c.schedules[i], p.moment)
    requires r in c.runs && c.schedules[i].activeRun == Some(r.id)
    ensures var progress := ClaimFirst(c, p, n, daily);
            Midway(c, progress, n)[i] == c.schedules[i] && r in progress.runs
  {
    var progress := ClaimFirst(c, p, n, daily);
    if n > 0 {
      LiveLeaseIsSafe(c, p, n - 1, daily, i, r);
      ClaimFirstKeepsInv(c, p, n - 1, daily);
      ClaimFirstStep(c, p, n, daily);
      var before := ClaimFirst(c, p, n - 1, daily);
      var ss := Midway(c, before, n - 1);
      if n - 1 != i {
        OtherTurnKeepsRun(ss, before.runs, n - 1, i, p, p.ids[n - 1], daily, r);
      }
    }
  }

  // ------------------------------------------------------ paused schedules

  /** What enables a paused schedule without being asked to: a retry of the run it still
      holds, after that run is reported failed or its lease is found expired. */
  predicate Resumes(s: Schedule, op: Op) {
    && s.activeRun.Some? && s.retryAttempt <= s.maxRetries
    && match op
       case ClaimDue(p) => !LeaseActive(s, p.moment)
       case Complete(run, status, _) => status == Failed && s.activeRun == Some(run)
       case _ => false
  }

  lemma TerminalOfPaused(s: Schedule, attempt: int, status: Status, moment: Time, daily: DailyRule)
    requires s.Configured() && !s.enabled
    ensures AfterTerminal(s, attempt, status, moment, daily).id == s.id
    ensures AfterTerminal(s, attempt, status, moment, daily).enabled <==> Retries(s, attempt, status)
  {
  }

  lemma TurnOfPaused(ss: seq<Schedule>, runs: seq<Run>, s: Schedule, p: Pass, id: Id, daily: DailyRule)
    requires InvOn(ss, runs) && s in ss && !s.enabled && s.Configured()
    ensures var s' := ClaimOne(s, runs, p, id, daily).schedule;
            && s'.id == s.id
            && (s'.enabled <==> Resumes(s, ClaimDue(p)))
            && (s.activeRun.None? ==> s' == s)
  {
    hide AfterTerminal, Advance;
    if s.activeRun.Some? {
      ActiveRunIsClaimed(ss, runs, s);
      TerminalOfPaused(s, FindRun(runs, s.activeRun.value).value.attempt, Failed, p.moment, daily);
    }
  }

  /** A pass treats every schedule once, as it finds it. */
  lemma {:induction false} ClaimFirstAt(c: Catalog, p: Pass, n: nat, daily: DailyRule, i: nat)
    requires AllConfigured(c.schedules) && i < n <= |c.schedules| <= |p.ids|
    ensures ClaimFirst(c, p, n, daily).updated[i]
            == ClaimOne(c.schedules[i], ClaimFirst(c, p, i, daily).runs, p, p.ids[i], daily).schedule
  {
    hide ClaimOne;
    if i < n - 1 { ClaimFirstAt(c, p, n - 1, daily, i); }
  }

  lemma PassOverPaused(c: Catalog, p: Pass, daily: DailyRule, i: nat)
    requires Inv(c) && AllConfigured(c.schedules) && FreshIds(c, p) && Resolves(daily)
    requires i < |c.schedules| && !c.schedules[i].enabled
    ensures var c' := ClaimDueSpec(c, p, daily);
            && |c'.schedules| == |c.schedules| && c'.schedules[i].id == c.schedules[i].id
            && (c'.schedules[i].enabled <==> Resumes(c.schedules[i], ClaimDue(p)))
            && (c.schedules[i].activeRun.None? ==> c'.schedules[i] == c.schedules[i])
  {
    hide ClaimOne, InvOn, Resumes, ClaimFirst;
    var before := ClaimFirst(c, p, i, daily);
    ClaimFirstKeepsInv(c, p, i, daily);
    var ss := Midway(c, before, i);
    assert ss[i] == c.schedules[i] && ss[i] in ss;
    assert ss[i].Configured();
    TurnOfPaused(ss, before.runs, ss[i], p, p.ids[i], daily);
    ClaimFirstAt(c, p, |c.schedules|, daily, i);
    if !ClaimAll(c, p, daily).changed { UnchangedClaimsNothing(c, p, |c.schedules|, daily); }
  }

  lemma CompleteOverPaused(c: Catalog, run: Id, status: Status, now: Time, daily: DailyRule, i: nat)
    requires Inv(c) && AllConfigured(c.schedules) && i < |c.schedules| && !c.schedules[i].enabled
    ensures var r := CompleteSpec(c, run, status, now, daily);
            var c' := if r.Success? then r.value else c;
            && |c'.schedules| == |c.schedules| && c'.schedules[i].id == c.schedules[i].id
            && (c'.schedules[i].enabled <==> Resumes(c.schedules[i], Complete(run, status, now)))
            && (c.schedules[i].activeRun.None? ==> c'.schedules[i] == c.schedules[i])
  {
    hide AfterTerminal, Advance, FindRun, ReplaceRun;
    var s := c.schedules[i];
    assert s in c.schedules && s.Configured();
    if s.activeRun.Some? { ActiveRunIsClaimed(c.schedules, c.runs, s); }
    var r := FindRun(c.runs, run);
    hide InvOn;
    if r.Some? { TerminalOfPaused(s, r.value.attempt, status, now, daily); }
  }

  lemma OtherOpsOverPaused(w: World, op: Op, daily: DailyRule, i: nat)
    requires Readable(w.catalog) && Admissible(w, op) && !op.ClaimDue? && !op.Complete?
    requires i < |w.catalog.schedules| && !w.catalog.schedules[i].enabled
    requires op != SetEnabled(w.catalog.schedules[i].id, true)
    ensures var ss, ss' := w.catalog.schedules, Step(w, op, daily).catalog.schedules;
            && |ss| <= |ss'| && ss'[i].id == ss[i].id && !ss'[i].enabled && ss'[i].activeRun == ss[i].activeRun
  {
    var ss := w.catalog.schedules;
    if op.SetEnabled? || op.Attach? || op.Renew? {
      forall j | 0 <= j < |ss| && ss[j].id == ss[i].id ensures j == i {}
    }
  }

  /** Under any operation but its being enabled, a paused schedule stays paused exactly
      unless the operation ends a run it still holds as failed while retries are left. */
  lemma PausedStaysUnlessRetried(w: World, op: Op, daily: DailyRule, i: nat)
    requires WorldOk(w) && Readable(w.catalog) && Admissible(w, op) && Resolves(daily)
    requires i < |w.catalog.schedules| && !w.catalog.schedules[i].enabled
    requires op != SetEnabled(w.catalog.schedules[i].id, true)
    ensures var ss, ss' := w.catalog.schedules, Step(w, op, daily).catalog.schedules;
            && |ss| <= |ss'| && ss'[i].id == ss[i].id
            && (ss'[i].enabled <==> Resumes(ss[i], op))
            && (ss[i].activeRun.None? ==> ss'[i].activeRun.None?)
  {
    hide InvOn, LogOk, Readable, ClaimDueSpec, CompleteSpec;
    var c := w.catalog;
    InvConfigured(c);
    match op
    case ClaimDue(p) => PassOverPaused(c, p, daily, i);
    case Complete(run, status, now) => CompleteOverPaused(c, run, status, now, daily, i);
    case _ => OtherOpsOverPaused(w, op, daily, i);
  }

  /** So a schedule that is paused while it holds no run stays paused until it is
      enabled, as long as the catalog can be read. */
  lemma {:induction false} PausedIdleStays(worlds: seq<World>, ops: seq<Op>, daily: DailyRule, n: nat, m: nat, i: nat)
    requires History(worlds, ops, daily) && Resolves(daily) && n <= m < |worlds|
    requires forall k :: n <= k < m ==> Readable(worlds[k].catalog)
    requires i < |worlds[n].catalog.schedules|
    requires !worlds[n].catalog.schedules[i].enabled && worlds[n].catalog.schedules[i].activeRun.None?
    requires forall k :: n <= k < m ==> ops[k] != SetEnabled(worlds[n].catalog.schedules[i].id, true)
    ensures var ss, ss' := worlds[n].catalog.schedules, worlds[m].catalog.schedules;
            && i < |ss'| && ss'[i].id == ss[i].id && !ss'[i].enabled && ss'[i].activeRun.None?
  {
    hide WorldOk, Readable, Admissible, Step;
    if n < m {
      PausedIdleStays(worlds, ops, daily, n, m - 1, i);
      HistoryIsOk(worlds, ops, daily, m - 1);
      PausedStaysUnlessRetried(worlds[m - 1], ops[m - 1], daily, i);
    }
  }
}
