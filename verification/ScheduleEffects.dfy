/**
 What schedule operations do (src/founderos_atlas/scheduling.py), told from the catalog
 before and after: when the next run of a schedule is due, and what a pass, a report and
 a renewal write.
 */
module ScheduleEffects {
  import opened Basics
  import opened Schedules
  import opened SchedulePass
  import ScheduleHistory

  // ------------------------------------------------------------ the next run

  /** The whole second an instant lies in; time is counted in microseconds. */
  predicate WholeSecond(t: Time, instant: Time) {
    t % 1_000_000 == 0 && t <= instant < t + 1_000_000
  }

  /** The first instant after the moment on the grid of this base and step. */
  ghost predicate FirstAfter(t: Time, base: Time, step: Time, moment: Time) {
    && moment < t
    && (exists k: nat :: t == base + k * step)
    && forall k: nat :: base + k * step > moment ==> t <= base + k * step
  }

  /** The occurrence a schedule is at: that of the run its retries began with. */
  function Occurrence(s: Schedule): Time {
    match s.retryOrigin
    case Some(t) => t
    case None => s.nextRunAt
  }

  /** The schedule has let go of its run and noted the outcome. */
  predicate LetsGo(s: Schedule, s': Schedule, outcome: Outcome, moment: Time) {
    && s' == s.(nextRunAt := s'.nextRunAt, enabled := s'.enabled, retryAttempt := s'.retryAttempt,
                retryOrigin := s'.retryOrigin, lastRunAt := s'.lastRunAt, lastOutcome := Some(outcome),
                leaseOwner := None, leaseUntil := None, activeRun := None, revision := s.revision + 1)
    && s'.lastRunAt.Some? && WholeSecond(s'.lastRunAt.value, moment)
  }

  /** On to the next occurrence: a one-time schedule has none and is disabled, an interval
      one goes to the first point of its grid after the moment, a daily one to the instant
      its wall-clock time resolves to. */
  ghost predicate MovesOn(s: Schedule, s': Schedule, moment: Time, daily: DailyRule) {
    && s'.retryAttempt == 1 && s'.retryOrigin.None?
    && match s.recurrence
       case Once => !s'.enabled && s'.nextRunAt == s.nextRunAt
       case Interval(minutes) =>
         s'.enabled == s.enabled && FirstAfter(s'.nextRunAt, Occurrence(s), minutes * 60_000_000, moment)
       case Daily => s'.enabled == s.enabled && s'.nextRunAt == daily(s, moment)
  }

  /** The attempt has ended.  A failed one with retries left is followed by the next
      attempt of the same occurrence, due when the retry delay is over; any other is the
      last of its occurrence. */
  ghost predicate Closes(s: Schedule, s': Schedule, attempt: int, status: Status, moment: Time, daily: DailyRule) {
    && LetsGo(s, s', Ended(status), moment)
    && if status == Failed && attempt <= s.maxRetries then
         && s'.enabled && s'.retryAttempt == attempt + 1 && s'.retryOrigin == Some(Occurrence(s))
         && WholeSecond(s'.nextRunAt, moment + s.retryDelay * 60_000_000)
       else MovesOn(s, s', moment, daily)
  }

  lemma AdvanceMovesOn(s: Schedule, moment: Time, outcome: Outcome, daily: DailyRule)
    requires s.Configured() && Resolves(daily) && Stamp(s.Origin()) == s.Origin()
    ensures MovesOn(s, Advance(s, moment, outcome, daily), moment, daily)
    ensures LetsGo(s, Advance(s, moment, outcome, daily), outcome, moment)
  {
    if s.recurrence.Interval? {
      var step := s.recurrence.minutes * MINUTE;
      var next := NextOnGrid(s.Origin(), step, moment);
      StampOnGrid(s.Origin(), s.recurrence.minutes, moment);
      NextOnGridIsLeast(s.Origin(), step, moment, 0);
      forall k: nat | s.Origin() + k * step > moment ensures next <= s.Origin() + k * step {
        NextOnGridIsLeast(s.Origin(), step, moment, k);
      }
    }
  }

  lemma TerminalCloses(s: Schedule, attempt: int, status: Status, moment: Time, daily: DailyRule)
    requires s.Configured() && Resolves(daily) && Stamp(s.Origin()) == s.Origin()
    ensures Closes(s, AfterTerminal(s, attempt, status, moment, daily), attempt, status, moment, daily)
  {
    if Retries(s, attempt, status) {
      hide Advance, MovesOn;
    } else {
      AdvanceMovesOn(s, moment, Ended(status), daily);
    }
  }

  // ------------------------------------------------------------ a report

  /** A run that has ended is answered as it is.  A claimed one gets the reported status
      and the time it ended, its schedule goes on, and nothing else changes. */
  ghost predicate Reported(c: Catalog, c': Catalog, run: Id, status: Status, now: Time, answer: Run, daily: DailyRule) {
    exists q :: q in c.runs && q.id == run &&
      if q.status != Claimed then c' == c && answer == q
      else
        && answer == q.(status := status, completedAt := answer.completedAt)
        && answer.completedAt.Some? && WholeSecond(answer.completedAt.value, now)
        && c'.revision == c.revision + 1
        && |c'.runs| == |c.runs|
        && (forall i :: 0 <= i < |c.runs| ==> c'.runs[i] == if c.runs[i].id == run then answer else c.runs[i])
        && |c'.schedules| == |c.schedules|
        && forall i :: 0 <= i < |c.schedules| ==>
             if c.schedules[i].activeRun == Some(run) then
               Closes(c.schedules[i], c'.schedules[i], q.attempt, status, now, daily)
             else c'.schedules[i] == c.schedules[i]
  }

  lemma CompleteReports(c: Catalog, run: Id, status: Status, now: Time, daily: DailyRule)
    requires Inv(c) && AllConfigured(c.schedules) && Resolves(daily) && status != Claimed
    requires FindRun(c.runs, run).Some?
    ensures var q := FindRun(c.runs, run).value;
            && CompleteSpec(c, run, status, now, daily).Success?
            && Reported(c, CompleteSpec(c, run, status, now, daily).value, run, status, now,
                        if q.status != Claimed then q else Completed(q, status, now), daily)
  {
    hide Closes, AfterTerminal;
    var q := FindRun(c.runs, run).value;
    if q.status == Claimed {
      var c' := CompleteSpec(c, run, status, now, daily).value;
      forall i | 0 <= i < |c.schedules|
        ensures if c.schedules[i].activeRun == Some(run) then
                  Closes(c.schedules[i], c'.schedules[i], q.attempt, status, now, daily)
                else c'.schedules[i] == c.schedules[i]
      {
        var s := c.schedules[i];
        assert s in c.schedules && Consistent(s, c.runs);
        if s.activeRun == Some(run) {
          ActiveRunIsClaimed(c.schedules, c.runs, s);
          TerminalCloses(s, q.attempt, status, now, daily);
        }
      }
    }
  }

  // ------------------------------------------------------------ leases and settings

  /** The worker holds this run, which is still claimed, and its lease now runs from the
      given moment; the run may have been given a job, and nothing else changes. */
  ghost predicate Extended(c: Catalog, c': Catalog, run: Id, worker: string, job: Option<string>, now: Time,
                           seconds: int)
  {
    && c'.revision == c.revision
    && |c'.schedules| == |c.schedules| && |c'.runs| == |c.runs|
    && (exists i, until ::
          && 0 <= i < |c.schedules| && Leases(until, now, seconds)
          && c.schedules[i].activeRun == Some(run) && c.schedules[i].leaseOwner == Some(worker)
          && c'.schedules == c.schedules[i := c.schedules[i].(leaseUntil := Some(until))])
    && (exists q :: q in c.runs && q.id == run && q.status == Claimed)
    && forall i :: 0 <= i < |c.runs| ==>
         c'.runs[i] == if c.runs[i].id == run && job.Some? then c.runs[i].(job := job) else c.runs[i]
  }

  /** No schedule holds this run for the worker. */
  ghost predicate HeldByOther(c: Catalog, run: Id, worker: string) {
    forall s :: s in c.schedules ==> s.activeRun != Some(run) || s.leaseOwner != Some(worker)
  }

  lemma RefusedIsHeldByOther(c: Catalog, run: Id, worker: string, now: Time, seconds: int)
    requires Readable(c) && RenewSpec(c, run, worker, now, seconds).None?
    ensures HeldByOther(c, run, worker)
  {
    forall s | s in c.schedules && s.activeRun == Some(run) ensures s.leaseOwner != Some(worker) {
      assert LeaseOk(s, c.runs);
      var q :| q in c.runs && q.id == run && q.schedule == s.id && q.status == Claimed;
      SameRun(c.runs, q, FindRun(c.runs, run).value);
      SameSchedule(c.schedules, s, FindSchedule(c.schedules, q.schedule).value);
    }
  }

  lemma RenewalExtends(c: Catalog, run: Id, worker: string, job: string, now: Time, seconds: int)
    requires Readable(c)
    ensures var r := RenewSpec(c, run, worker, now, seconds);
            r.Some? ==> Extended(c, r.value, run, worker, None, now, seconds)
    ensures var r := AttachSpec(c, run, worker, job, now, seconds);
            r.Success? ==> Extended(c, r.value, run, worker, Some(job), now, seconds)
  {
    hide LeaseOk;
    var current := FindRun(c.runs, run);
    if current.Some? && current.value.status == Claimed && Owns(c, current.value, worker) {
      var q := current.value;
      var s := FindSchedule(c.schedules, q.schedule).value;
      var i :| 0 <= i < |c.schedules| && c.schedules[i] == s;
      var until := LeaseEnd(now, seconds);
      ReplaceIsUpdate(c.schedules, i, s.(leaseUntil := Some(until)));
      assert Leases(until, now, seconds);
      assert Renewed(c, q, now, seconds) == c.schedules[i := s.(leaseUntil := Some(until))];
      forall k | 0 <= k < |c.runs| && c.runs[k].id == run ensures c.runs[k] == q { SameRun(c.runs, c.runs[k], q); }
    }
  }

  /** Only whether the schedule is enabled, and the two revisions, change. */
  ghost predicate Toggled(c: Catalog, c': Catalog, id: Id, enabled: bool) {
    && c'.revision == c.revision + 1 && c'.runs == c.runs
    && |c'.schedules| == |c.schedules| && (exists s :: s in c.schedules && s.id == id)
    && forall i :: 0 <= i < |c.schedules| ==>
         c'.schedules[i] == if c.schedules[i].id == id then
                              c.schedules[i].(enabled := enabled, revision := c.schedules[i].revision + 1)
                            else c.schedules[i]
  }

  lemma SettingToggles(c: Catalog, id: Id, enabled: bool)
    requires UniqueSchedules(c.schedules)
    ensures var r := SetEnabledSpec(c, id, enabled); r.Success? ==> Toggled(c, r.value, id, enabled)
  {
    var s := FindSchedule(c.schedules, id);
    if s.Some? {
      forall i | 0 <= i < |c.schedules| && c.schedules[i].id == id ensures c.schedules[i] == s.value {
        SameSchedule(c.schedules, c.schedules[i], s.value);
      }
    }
  }

  /** An enabled schedule due at the whole second of its first run, holding no run and at
      its first attempt. */
  predicate Beginning(s: Schedule, firstRunAt: Time) {
    && WholeSecond(s.nextRunAt, firstRunAt) && s.enabled && s.retryAttempt == 1 && s.retryOrigin.None?
    && s.activeRun.None? && s.leaseOwner.None? && s.leaseUntil.None? && s.lastRunAt.None? && s.revision == 1
  }

  // ------------------------------------------------------------ a pass

  /** What a pass makes of one schedule, given the runs there were before the pass. */
  ghost predicate Turned(s: Schedule, s': Schedule, runs: seq<Run>, p: Pass, id: Id, daily: DailyRule) {
    if s.activeRun.Some? then
      if s.leaseUntil.Some? && s.leaseUntil.value > p.moment then s' == s
      else Closes(s, s', s.retryAttempt, Failed, p.moment, daily)
    else if !s.enabled || s.nextRunAt > p.moment then s' == s
    else if s.misfire == Skip && p.moment > s.nextRunAt + 300_000_000 then
      LetsGo(s, s', SkippedMisfire, p.moment) && MovesOn(s, s', p.moment, daily)
    else if exists q :: q in runs && q.key == RunKey(s.id, s.nextRunAt) then
      exists q :: q in runs && q.key == RunKey(s.id, s.nextRunAt)
                  && Closes(s, s', q.attempt, q.status, p.moment, daily)
    else
      && s' == s.(leaseOwner := Some(p.worker), leaseUntil := s'.leaseUntil, activeRun := Some(id),
                  revision := s.revision + 1)
      && s'.leaseUntil.Some? && Leases(s'.leaseUntil.value, p.moment, p.leaseSeconds)
  }

  /** A lease runs for the seconds asked for, and for half a minute at least. */
  predicate Leases(until: Time, moment: Time, seconds: int) {
    WholeSecond(until, moment + (if seconds > 30 then seconds else 30) * 1_000_000)
  }

  /** The run a schedule launches: due when the schedule was, its next attempt, claimed
      now and without a job. */
  predicate LaunchOf(s: Schedule, p: Pass, id: Id, r: Run) {
    && r == Run(id, s.id, s.profile, RunKey(s.id, s.nextRunAt), s.nextRunAt, r.claimedAt, Claimed, s.retryAttempt,
                None, None)
    && WholeSecond(r.claimedAt, p.moment)
  }

  /** A schedule holds this run and has let its lease expire. */
  predicate Lapsed(ss: seq<Schedule>, run: Id, moment: Time) {
    exists s :: s in ss && s.activeRun == Some(run) && !(s.leaseUntil.Some? && s.leaseUntil.value > moment)
  }

  /** `at` are the schedules that launch: enabled, holding no run, due, not skipped as
      misfired, and without a run of this occurrence among those kept. */
  ghost predicate Launching(ss: seq<Schedule>, runs: seq<Run>, moment: Time, at: seq<nat>) {
    && (forall k :: 0 <= k < |at| ==> at[k] < |ss|)
    && (forall j, k :: 0 <= j < k < |at| ==> at[j] < at[k])
    && forall i: nat :: i < |ss| ==> (i in at <==> IsDue(ss[i], runs, moment))
  }

  ghost predicate IsDue(s: Schedule, runs: seq<Run>, moment: Time) {
    && s.activeRun.None? && s.enabled && s.nextRunAt <= moment
    && (s.misfire == Skip ==> moment <= s.nextRunAt + 300_000_000)
    && forall q :: q in runs ==> q.key != RunKey(s.id, s.nextRunAt)
  }

  lemma DueLaunches(s: Schedule, runs: seq<Run>, moment: Time)
    ensures IsDue(s, runs, moment) <==> Launches(s, runs, moment)
  {
  }

  /** The runs there were, those with an expired lease ended as failed, and behind them
      the launched ones in the order of their schedules. */
  ghost predicate RunsPassed(runs: seq<Run>, ss: seq<Schedule>, p: Pass, at: seq<nat>, after: seq<Run>,
                             launched: seq<Run>)
    requires |ss| <= |p.ids| && forall k :: 0 <= k < |at| ==> at[k] < |ss|
  {
    && |launched| == |at| && |after| == |runs| + |launched|
    && (forall i :: 0 <= i < |runs| ==>
          if Lapsed(ss, runs[i].id, p.moment) then
            && after[i] == runs[i].(status := Failed, completedAt := after[i].completedAt)
            && after[i].completedAt.Some? && WholeSecond(after[i].completedAt.value, p.moment)
          else after[i] == runs[i])
    && forall k :: 0 <= k < |at| ==>
         after[|runs| + k] == launched[k] && LaunchOf(ss[at[k]], p, p.ids[at[k]], launched[k])
  }

  // ------------------------------------------------------------ one turn of a pass

  lemma TurnTurns(ss: seq<Schedule>, runs: seq<Run>, s: Schedule, p: Pass, id: Id, daily: DailyRule)
    requires InvOn(ss, runs) && s in ss && s.Configured() && Resolves(daily)
    ensures var s' := ClaimOne(s, runs, p, id, daily).schedule;
            if s.activeRun.None? && s.enabled && s.nextRunAt <= p.moment
               && !(s.misfire == Skip && p.moment > s.nextRunAt + 300_000_000)
               && FindKey(runs, RunKey(s.id, s.nextRunAt)).Some? then
              var q := FindKey(runs, RunKey(s.id, s.nextRunAt)).value;
              q.status != Claimed && Closes(s, s', q.attempt, q.status, p.moment, daily)
            else Turned(s, s', runs, p, id, daily)
  {
    assert Consistent(s, runs);
    if s.activeRun.Some? {
      ActiveRunIsClaimed(ss, runs, s);
      hide InvOn, AfterTerminal, Closes;
      TerminalCloses(s, s.retryAttempt, Failed, p.moment, daily);
    } else if s.enabled && s.nextRunAt <= p.moment {
      var d := FindKey(runs, RunKey(s.id, s.nextRunAt));
      if d.Some? { IdleIsNotClaimed(ss, runs, s, d.value); }
      hide InvOn, AfterTerminal, Advance, Closes, MovesOn, LetsGo;
      AdvanceMovesOn(s, p.moment, SkippedMisfire, daily);
      if d.Some? { TerminalCloses(s, d.value.attempt, d.value.status, p.moment, daily); }
    }
  }

  /** No run of the occurrence an idle schedule is due for is still claimed. */
  lemma IdleIsNotClaimed(ss: seq<Schedule>, runs: seq<Run>, s: Schedule, q: Run)
    requires InvOn(ss, runs) && s in ss && s.activeRun.None? && q in runs && q.key.schedule == s.id
    ensures q.status != Claimed
  {
    assert RunOk(q) && (q.status == Claimed ==> Held(q, ss));
    forall t | t in ss && t.id == q.schedule ensures t.activeRun.None? { SameSchedule(ss, s, t); }
  }

  // ------------------------------------------------------------ the whole pass

  /** How far the claiming loop has come after its first `n` schedules. */
  ghost predicate Along(c: Catalog, r: Progress, p: Pass, n: nat, at: seq<nat>)
    requires n <= |c.schedules| <= |p.ids|
  {
    && Launching(c.schedules[..n], c.runs, p.moment, at)
    && RunsPassed(c.runs, c.schedules[..n], p, at, r.runs, RunsOf(r.launched))
  }

  function RunsOf(launched: seq<Launch>): (runs: seq<Run>)
    ensures |runs| == |launched| && forall k :: 0 <= k < |launched| ==> runs[k] == launched[k].run
  {
    seq(|launched|, i requires 0 <= i < |launched| => launched[i].run)
  }

  lemma LapsedNext(ss: seq<Schedule>, s: Schedule, run: Id, moment: Time)
    ensures Lapsed(ss + [s], run, moment) <==>
            Lapsed(ss, run, moment) || (s.activeRun == Some(run) && !LeaseActive(s, moment))
  {
    if Lapsed(ss, run, moment) {
      var t :| t in ss && t.activeRun == Some(run) && !(t.leaseUntil.Some? && t.leaseUntil.value > moment);
      assert t in ss + [s];
    }
    assert s in ss + [s];
  }

  lemma ExpiryPasses(runs: seq<Run>, ss: seq<Schedule>, s: Schedule, p: Pass, at: seq<nat>, after: seq<Run>,
                     launched: seq<Run>, r: Run)
    requires |ss| < |p.ids| && forall k :: 0 <= k < |at| ==> at[k] < |ss|
    requires RunsPassed(runs, ss, p, at, after, launched) && UniqueRuns(after) && r in after
    requires s.activeRun == Some(r.id) && !LeaseActive(s, p.moment)
    requires forall k :: 0 <= k < |launched| ==> launched[k].id != r.id
    ensures RunsPassed(runs, ss + [s], p, at, ReplaceRun(after, r.id, Expired(r, p.moment)), launched)
  {
    hide LeaseActive, Lapsed;
    var after' := ReplaceRun(after, r.id, Expired(r, p.moment));
    forall i | 0 <= i < |after| && after[i].id == r.id ensures after[i] == r { SameRun(after, after[i], r); }
    StampFacts(p.moment);
    forall i | 0 <= i < |runs| ensures after'[i].id == runs[i].id
      ensures if Lapsed(ss + [s], runs[i].id, p.moment) then
                && after'[i] == runs[i].(status := Failed, completedAt := after'[i].completedAt)
                && after'[i].completedAt.Some? && WholeSecond(after'[i].completedAt.value, p.moment)
              else after'[i] == runs[i]
    {
      LapsedNext(ss, s, runs[i].id, p.moment);
    }
  }

  lemma OtherPasses(runs: seq<Run>, ss: seq<Schedule>, s: Schedule, p: Pass, at: seq<nat>, after: seq<Run>,
                    launched: seq<Run>)
    requires |ss| < |p.ids| && forall k :: 0 <= k < |at| ==> at[k] < |ss|
    requires RunsPassed(runs, ss, p, at, after, launched) && (s.activeRun.Some? ==> LeaseActive(s, p.moment))
    ensures RunsPassed(runs, ss + [s], p, at, after, launched)
  {
    hide LeaseActive, Lapsed;
    forall i | 0 <= i < |runs|
      ensures Lapsed(ss + [s], runs[i].id, p.moment) <==> Lapsed(ss, runs[i].id, p.moment)
    {
      LapsedNext(ss, s, runs[i].id, p.moment);
    }
  }

  lemma LaunchPasses(runs: seq<Run>, ss: seq<Schedule>, s: Schedule, p: Pass, at: seq<nat>, after: seq<Run>,
                     launched: seq<Run>)
    requires |ss| < |p.ids| && forall k :: 0 <= k < |at| ==> at[k] < |ss|
    requires RunsPassed(runs, ss, p, at, after, launched) && s.activeRun.None?
    ensures var run := NewRun(s, p.ids[|ss|], p.moment);
            RunsPassed(runs, ss + [s], p, at + [|ss|], after + [run], launched + [run])
  {
    OtherPasses(runs, ss, s, p, at, after, launched);
    hide Lapsed;
    StampFacts(p.moment);
  }

  lemma LaunchingNext(ss: seq<Schedule>, s: Schedule, runs: seq<Run>, moment: Time, at: seq<nat>)
    requires Launching(ss, runs, moment, at)
    ensures Launching(ss + [s], runs, moment, if Launches(s, runs, moment) then at + [|ss|] else at)
  {
    hide Launches, IsDue;
    DueLaunches(s, runs, moment);
    forall i: nat | i < |ss + [s]|
      ensures i in (if Launches(s, runs, moment) then at + [|ss|] else at) <==> IsDue((ss + [s])[i], runs, moment)
    {
    }
  }

  lemma AlongNext(c: Catalog, p: Pass, n: nat, daily: DailyRule, at: seq<nat>) returns (at': seq<nat>)
    requires Inv(c) && AllConfigured(c.schedules) && n < |c.schedules| && FreshIds(c, p) && Resolves(daily)
    requires Along(c, ClaimFirst(c, p, n, daily), p, n, at)
    ensures Along(c, ClaimFirst(c, p, n + 1, daily), p, n + 1, at')
  {
    hide InvOn, ClaimOne, Grown, Launches, IsDue, Launching, RunsPassed, LeaseActive, FreshId;
    var s := c.schedules[n];
    var before := ClaimFirst(c, p, n, daily);
    ClaimFirstKeepsInv(c, p, n, daily);
    PassGrows(c, p, n, daily);
    var ss := Midway(c, before, n);
    assert ss[n] == s && c.schedules[..n + 1] == c.schedules[..n] + [s];
    TurnIs(ss, before.runs, s, p, p.ids[n], daily);
    EarlierIdsDiffer(c, n);
    SameDuplicate(c, c.schedules[..n], before.runs, p, s);
    LaunchingNext(c.schedules[..n], s, c.runs, p.moment, at);
    AtIsBounded(c.schedules[..n], c.runs, p.moment, at);
    at' := if Launches(s, c.runs, p.moment) then at + [n] else at;
    LaunchesIdle(s, c.runs, p.moment);
    if s.activeRun.Some? && !LeaseActive(s, p.moment) {
      ActiveRunIsClaimed(ss, before.runs, s);
      ActiveRunIsClaimed(c.schedules, c.runs, s);
      var r := FindRun(before.runs, s.activeRun.value).value;
      FoundIsOld(c.runs, r.id);
      LaunchedAreFresh(c, before, p, n, at, r.id);
      UniqueHere(ss, before.runs);
      ExpiryPasses(c.runs, c.schedules[..n], s, p, at, before.runs, RunsOf(before.launched), r);
    } else if Launches(s, c.runs, p.moment) {
      LaunchPasses(c.runs, c.schedules[..n], s, p, at, before.runs, RunsOf(before.launched));
    } else {
      OtherPasses(c.runs, c.schedules[..n], s, p, at, before.runs, RunsOf(before.launched));
    }
    LaunchedNext(c, p, n, daily);
  }

  lemma AtIsBounded(ss: seq<Schedule>, runs: seq<Run>, moment: Time, at: seq<nat>)
    requires Launching(ss, runs, moment, at)
    ensures forall k :: 0 <= k < |at| ==> at[k] < |ss|
  {
  }

  lemma LaunchesIdle(s: Schedule, runs: seq<Run>, moment: Time)
    ensures Launches(s, runs, moment) ==> s.activeRun.None?
  {
  }

  lemma UniqueHere(ss: seq<Schedule>, runs: seq<Run>)
    requires InvOn(ss, runs)
    ensures UniqueRuns(runs)
  {
  }

  lemma EarlierIdsDiffer(c: Catalog, n: nat)
    requires Inv(c) && n < |c.schedules|
    ensures forall t :: t in c.schedules[..n] ==> t.id != c.schedules[n].id
  {
  }

  lemma FoundIsOld(runs: seq<Run>, id: Id)
    ensures FindRun(runs, id).Some? ==> !FreshId(id, runs)
  {
  }

  /** Nothing launched in the pass has the identifier of a run that was there before. */
  lemma LaunchedAreFresh(c: Catalog, before: Progress, p: Pass, n: nat, at: seq<nat>, id: Id)
    requires n <= |c.schedules| <= |p.ids| && forall k :: 0 <= k < |at| ==> at[k] < n
    requires RunsPassed(c.runs, c.schedules[..n], p, at, before.runs, RunsOf(before.launched))
    requires FreshIds(c, p) && !FreshId(id, c.runs)
    ensures forall k :: 0 <= k < |before.launched| ==> RunsOf(before.launched)[k].id != id
  {
    forall k | 0 <= k < |before.launched| ensures RunsOf(before.launched)[k].id != id {
      assert p.ids[at[k]] in p.ids;
    }
  }

  lemma LaunchedNext(c: Catalog, p: Pass, n: nat, daily: DailyRule)
    requires AllConfigured(c.schedules) && n < |c.schedules| <= |p.ids|
    ensures var t := ClaimOne(c.schedules[n], ClaimFirst(c, p, n, daily).runs, p, p.ids[n], daily);
            && ClaimFirst(c, p, n + 1, daily).runs == t.runs
            && var launched := RunsOf(ClaimFirst(c, p, n, daily).launched);
               RunsOf(ClaimFirst(c, p, n + 1, daily).launched)
               == if t.claimed.Some? then launched + [t.claimed.value] else launched
  {
    hide ClaimOne;
  }

  lemma {:induction false} PassRuns(c: Catalog, p: Pass, n: nat, daily: DailyRule) returns (at: seq<nat>)
    requires Inv(c) && AllConfigured(c.schedules) && n <= |c.schedules| && FreshIds(c, p) && Resolves(daily)
    ensures Along(c, ClaimFirst(c, p, n, daily), p, n, at)
  {
    if n == 0 {
      at := [];
    } else {
      hide Along;
      at := PassRuns(c, p, n - 1, daily);
      at := AlongNext(c, p, n - 1, daily, at);
    }
  }

  // ------------------------------------------------------------ what a pass leaves

  /** A run of the occurrence an idle schedule is due for, found on the way, was there
      before and is as it was. */
  lemma DuplicateIsOld(c: Catalog, r: Progress, p: Pass, n: nat, at: seq<nat>, q: Run)
    requires Inv(c) && n < |c.schedules| <= |p.ids| && Along(c, r, p, n, at)
    requires Grown(c, c.schedules[..n], r.runs, p)
    requires c.schedules[n].activeRun.None? && q in r.runs && q.key.schedule == c.schedules[n].id
    ensures q in c.runs
  {
    var s := c.schedules[n];
    EarlierIdsDiffer(c, n);
    var j :| 0 <= j < |r.runs| && r.runs[j] == q;
    assert !BelongsTo(r.runs[j], c.schedules[..n]);
    assert c.runs[j] in c.runs && c.runs[j].key == q.key;
    IdleIsNotClaimed(c.schedules, c.runs, s, c.runs[j]);
    NotClaimedNotLapsed(c, n, c.runs[j], p.moment);
  }

  lemma NotClaimedNotLapsed(c: Catalog, n: nat, q: Run, moment: Time)
    requires Inv(c) && n <= |c.schedules| && q in c.runs && q.status != Claimed
    ensures !Lapsed(c.schedules[..n], q.id, moment)
  {
    forall s | s in c.schedules[..n] ensures s.activeRun != Some(q.id) {
      assert s in c.schedules;
      if s.activeRun == Some(q.id) {
        ActiveRunIsClaimed(c.schedules, c.runs, s);
        SameRun(c.runs, q, FindRun(c.runs, q.id).value);
      }
    }
  }

  /** Every schedule is turned as its own fields and the runs before the pass say. */
  lemma PassTurns(c: Catalog, p: Pass, daily: DailyRule, i: nat)
    requires Inv(c) && AllConfigured(c.schedules) && i < |c.schedules| && FreshIds(c, p) && Resolves(daily)
    ensures Turned(c.schedules[i], ClaimAll(c, p, daily).updated[i], c.runs, p, p.ids[i], daily)
  {
    hide InvOn, ClaimOne, Grown, Along, Closes, LetsGo, MovesOn, Leases;
    var s := c.schedules[i];
    var before := ClaimFirst(c, p, i, daily);
    ClaimFirstKeepsInv(c, p, i, daily);
    PassGrows(c, p, i, daily);
    var at := PassRuns(c, p, i, daily);
    var ss := Midway(c, before, i);
    assert ss[i] == s;
    TurnTurns(ss, before.runs, s, p, p.ids[i], daily);
    ScheduleHistory.ClaimFirstAt(c, p, |c.schedules|, daily, i);
    EarlierIdsDiffer(c, i);
    var key := RunKey(s.id, s.nextRunAt);
    SameKey(c, c.schedules[..i], before.runs, p, s);
    if s.activeRun.None? && FindKey(before.runs, key).Some? {
      DuplicateIsOld(c, before, p, i, at, FindKey(before.runs, key).value);
    }
  }

  lemma SameKey(c: Catalog, done: seq<Schedule>, runs: seq<Run>, p: Pass, s: Schedule)
    requires Grown(c, done, runs, p) && forall t :: t in done ==> t.id != s.id
    ensures var key := RunKey(s.id, s.nextRunAt);
            FindKey(runs, key).Some? <==> FindKey(c.runs, key).Some?
  {
    SameDuplicate(c, done, runs, p, s.(activeRun := None, enabled := true, misfire := RunOnce));
  }

  function Retained(runs: seq<Run>): seq<Run> {
    if |runs| <= 1000 then runs else runs[|runs| - 1000..]
  }

  /** What a pass does to a catalog, and what it returns. */
  ghost predicate Passed(c: Catalog, c': Catalog, p: Pass, returned: seq<Run>, daily: DailyRule)
    requires |c.schedules| <= |p.ids|
  {
    && |c'.schedules| == |c.schedules|
    && (forall i :: 0 <= i < |c.schedules| ==>
          Turned(c.schedules[i], c'.schedules[i], c.runs, p, p.ids[i], daily))
    && (exists at, after ::
          && Launching(c.schedules, c.runs, p.moment, at)
          && RunsPassed(c.runs, c.schedules, p, at, after, returned)
          && c'.runs == if AnyTouched(c.schedules, p.moment) then Retained(after) else c.runs)
    && c'.revision == if AnyTouched(c.schedules, p.moment) then c.revision + 1 else c.revision
  }

  lemma ClaimDuePasses(c: Catalog, p: Pass, daily: DailyRule)
    requires Inv(c) && AllConfigured(c.schedules) && FreshIds(c, p) && Resolves(daily)
    ensures Passed(c, ClaimDueSpec(c, p, daily), p, RunsOf(ClaimAll(c, p, daily).launched), daily)
  {
    hide InvOn, Grown, Turned, Launching, RunsPassed, Touched, ClaimFirst;
    var all := ClaimAll(c, p, daily);
    assert c.schedules[..|c.schedules|] == c.schedules;
    PassGrows(c, p, |c.schedules|, daily);
    var at := PassRuns(c, p, |c.schedules|, daily);
    if !all.changed { ScheduleHistory.UnchangedClaimsNothing(c, p, |c.schedules|, daily); }
    forall i | 0 <= i < |c.schedules|
      ensures Turned(c.schedules[i], ClaimDueSpec(c, p, daily).schedules[i], c.runs, p, p.ids[i], daily)
    {
      PassTurns(c, p, daily, i);
    }
    AtIsBounded(c.schedules, c.runs, p.moment, at);
    assert Launching(c.schedules, c.runs, p.moment, at)
           && RunsPassed(c.runs, c.schedules, p, at, all.runs, RunsOf(all.launched));
  }
}
