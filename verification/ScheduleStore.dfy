/**
 The schedule store (src/founderos_atlas/scheduling.py): each operation reads the
 whole catalog file, refuses one that breaks the declared invariant, and writes
 the catalog back.
 */
module ScheduleStoring {
  import opened Basics
  import opened Schedules
  import opened ScheduleEffects

  class ScheduleStore {
    /** The contents of schedules.json. */
    var file: Catalog
    const daily: DailyRule

    constructor (daily: DailyRule)
      ensures file == Catalog(0, [], []) && Inv(file) && this.daily == daily
    {
      file := Catalog(0, [], []);
      this.daily := daily;
    }

    /** `described` says whether name, profile, time zone and daily time pass their
        checks. */
    method CreateSchedule(id: Id, profile: string, recurrence: Recurrence, firstRunAt: Time,
                          misfire: Misfire, maxRetries: int, retryDelay: int, described: bool)
      returns (r: Result<Schedule, Error>)
      requires FindSchedule(file.schedules, id).None?
      modifies this
      ensures var s := NewSchedule(id, profile, recurrence, firstRunAt, misfire, maxRetries, retryDelay);
              && r == (if !described || !s.Configured() then Failure(InvalidSchedule)
                       else if !Readable(old(file)) then Failure(Corrupt)
                       else Success(s))
              && file == (if r.Success? then CreateSpec(old(file), s) else old(file))
      ensures r.Success? ==>
                && file == old(file).(revision := old(file).revision + 1, schedules := old(file).schedules + [r.value])
                && Beginning(r.value, firstRunAt)
                && r.value.id == id && r.value.profile == profile && r.value.recurrence == recurrence
                && r.value.misfire == misfire && r.value.maxRetries == maxRetries && r.value.retryDelay == retryDelay
      ensures r.Success? && old(Inv(file)) ==> Inv(file)
    {
      var s := NewSchedule(id, profile, recurrence, firstRunAt, misfire, maxRetries, retryDelay);
      if !described || !s.Configured() { return Failure(InvalidSchedule); }
      if !Readable(file) { return Failure(Corrupt); }
      StampFacts(firstRunAt);
      if Inv(file) { CreateKeepsInv(file, s); }
      file := Catalog(file.revision + 1, file.schedules + [s], file.runs);
      r := Success(s);
    }

    method SetEnabled(id: Id, enabled: bool) returns (r: Result<Schedule, Error>)
      modifies this
      ensures r.Failure? ==> file == old(file)
      ensures !Readable(old(file)) ==> r == Failure(Corrupt)
      ensures Readable(old(file)) ==>
                match SetEnabledSpec(old(file), id, enabled)
                case Success(c) => file == c && r.Success? && r.value in file.schedules && r.value.enabled == enabled
                case Failure(e) => r == Failure(e)
      ensures r.Success? ==> Toggled(old(file), file, id, enabled)
      ensures r.Success? && old(Inv(file)) ==> Inv(file)
    {
      if !Readable(file) { return Failure(Corrupt); }
      SettingToggles(file, id, enabled);
      hide Readable, InvOn, Toggled;
      var current := FindSchedule(file.schedules, id);
      if current.None? { return Failure(NoSuchSchedule); }
      if Inv(file) { SetEnabledKeepsInv(file, id, enabled); }
      var updated := current.value.(enabled := enabled, revision := current.value.revision + 1);
      ReplacedIsThere(file.schedules, current.value, updated);
      file := Catalog(file.revision + 1, ReplaceSchedule(file.schedules, id, updated), file.runs);
      r := Success(updated);
    }

    /** Claims every due schedule once.  The written catalog can be read again
        exactly when the trimming to the last runs cut off no claimed one. */
    method ClaimDue(p: Pass) returns (r: Result<seq<Run>, Error>)
      requires FreshIds(file, p)
      requires Resolves(daily)
      modifies this
      ensures r.Failure? <==> !Readable(old(file))
      ensures r.Failure? ==> file == old(file) && r.error == Corrupt
      ensures r.Success? ==>
                && AllConfigured(old(file).schedules)
                && file == ClaimDueSpec(old(file), p, daily)
                && r.value == RunsOf(ClaimAll(old(file), p, daily).launched)
      ensures r.Success? && old(Inv(file)) ==>
                var all := ClaimAll(old(file), p, daily);
                (Readable(file) <==> !all.changed || KeepsClaimed(all.runs)) && (Readable(file) ==> Inv(file))
      ensures r.Success? && old(Inv(file)) ==> Passed(old(file), file, p, r.value, daily)
    {
      if !Readable(file) { return Failure(Corrupt); }
      hide Passed, InvOn;
      if Inv(file) {
        ClaimDueKeepsInv(file, p, daily);
        ClaimDuePasses(file, p, daily);
      }
      var updated, runs, claimed, changed := ClaimEach(file, p);
      if changed {
        file := Catalog(file.revision + 1, updated, LastRuns(runs));
      }
      r := Success(claimed);
    }

    /** The claiming loop. */
    method ClaimEach(c: Catalog, p: Pass)
      returns (updated: seq<Schedule>, runs: seq<Run>, claimed: seq<Run>, changed: bool)
      requires |c.schedules| <= |p.ids| && AllConfigured(c.schedules)
      ensures updated == ClaimAll(c, p, daily).updated && runs == ClaimAll(c, p, daily).runs
      ensures changed == ClaimAll(c, p, daily).changed && claimed == RunsOf(ClaimAll(c, p, daily).launched)
    {
      updated, runs, claimed, changed := [], c.runs, [], false;
      ghost var progress := ClaimFirst(c, p, 0, daily);
      for i := 0 to |c.schedules|
        invariant progress == ClaimFirst(c, p, i, daily)
        invariant updated == progress.updated && runs == progress.runs && changed == progress.changed
        invariant claimed == RunsOf(progress.launched)
      {
        var turn := ClaimTurn(c.schedules[i], runs, p, p.ids[i]);
        runs := turn.runs;
        updated := updated + [turn.schedule];
        changed := changed || turn.changed;
        var more := if turn.claimed.Some? then [Launch(turn.claimed.value, c.schedules[i].Origin())] else [];
        RunsOfAppend(progress.launched, more);
        if turn.claimed.Some? {
          claimed := claimed + [turn.claimed.value];
        }
        progress := ClaimFirst(c, p, i + 1, daily);
      }
    }

    /** The body of the claiming loop for one schedule. */
    method ClaimTurn(s: Schedule, runs0: seq<Run>, p: Pass, id: Id) returns (turn: Turn)
      requires s.Configured()
      ensures turn == ClaimOne(s, runs0, p, id, daily)
    {
      hide FindRun, FindKey, ReplaceRun, AfterTerminal, Advance;
      var schedule, runs, changed := s, runs0, false;
      var leaseActive := schedule.leaseUntil.Some? && schedule.leaseUntil.value > p.moment;
      if schedule.activeRun.Some? && !leaseActive {
        var abandoned := FindRun(runs, schedule.activeRun.value);
        if abandoned.Some? && abandoned.value.status == Claimed {
          var recovered := abandoned.value.(status := Failed, completedAt := Some(Stamp(p.moment)));
          runs := ReplaceRun(runs, recovered.id, recovered);
          return Turn(AfterTerminal(schedule, abandoned.value.attempt, Failed, p.moment, daily), runs, None, true);
        }
        schedule := schedule.(leaseOwner := None, leaseUntil := None, activeRun := None,
                              revision := schedule.revision + 1);
        changed := true;
      }
      if !schedule.enabled || schedule.nextRunAt > p.moment || leaseActive {
        return Turn(schedule, runs, None, changed);
      }
      if schedule.misfire == Skip && p.moment - schedule.nextRunAt > 300 * SECOND {
        return Turn(Advance(schedule, p.moment, SkippedMisfire, daily), runs, None, true);
      }
      var key := RunKey(schedule.id, schedule.nextRunAt);
      var duplicate := FindKey(runs, key);
      if duplicate.Some? {
        var d := duplicate.value;
        var status := if d.status != Claimed then d.status else Failed;
        return Turn(AfterTerminal(schedule, d.attempt, status, p.moment, daily), runs, None, true);
      }
      var run := Run(id, schedule.id, schedule.profile, key, schedule.nextRunAt, Stamp(p.moment), Claimed,
                     schedule.retryAttempt, None, None);
      turn := Turn(Leased(schedule, id, p), runs + [run], Some(run), true);
    }

    method AttachJob(run: Id, worker: string, job: string, now: Time, leaseSeconds: int) returns (r: Result<Run, Error>)
      modifies this
      ensures r.Failure? ==> file == old(file)
      ensures !Readable(old(file)) ==> r == Failure(Corrupt)
      ensures Readable(old(file)) ==>
                match AttachSpec(old(file), run, worker, job, now, leaseSeconds)
                case Success(c) => file == c && r.Success? && r.value.id == run && r.value.job == Some(job)
                case Failure(e) => r == Failure(e)
      ensures r.Success? ==> Extended(old(file), file, run, worker, Some(job), now, leaseSeconds)
      ensures r.Success? && old(Inv(file)) ==> Inv(file)
    {
      if !Readable(file) { return Failure(Corrupt); }
      if Inv(file) { AttachKeepsInv(file, run, worker, job, now, leaseSeconds); }
      RenewalExtends(file, run, worker, job, now, leaseSeconds);
      hide Extended, InvOn, Readable;
      var current := FindRun(file.runs, run);
      if current.None? || current.value.status != Claimed { return Failure(Conflict); }
      if !Owns(file, current.value, worker) { return Failure(Conflict); }
      var attached := current.value.(job := Some(job));
      file := file.(schedules := Renewed(file, current.value, now, leaseSeconds),
                    runs := ReplaceRun(file.runs, run, attached));
      r := Success(attached);
    }

    method RenewLease(run: Id, worker: string, now: Time, leaseSeconds: int) returns (r: Result<bool, Error>)
      modifies this
      ensures !Readable(old(file)) ==> r == Failure(Corrupt) && file == old(file)
      ensures Readable(old(file)) ==>
                match RenewSpec(old(file), run, worker, now, leaseSeconds)
                case Some(c) => file == c && r == Success(true)
                case None => file == old(file) && r == Success(false)
      ensures r == Success(false) ==> HeldByOther(old(file), run, worker)
      ensures r == Success(true) ==> Extended(old(file), file, run, worker, None, now, leaseSeconds)
      ensures r.Success? && old(Inv(file)) ==> Inv(file)
    {
      if !Readable(file) { return Failure(Corrupt); }
      if Inv(file) { AttachKeepsInv(file, run, worker, "", now, leaseSeconds); }
      RenewalExtends(file, run, worker, "", now, leaseSeconds);
      if RenewSpec(file, run, worker, now, leaseSeconds).None? {
        RefusedIsHeldByOther(file, run, worker, now, leaseSeconds);
      }
      hide HeldByOther, Extended, InvOn, Readable;
      var current := FindRun(file.runs, run);
      if current.None? || current.value.status != Claimed { return Success(false); }
      if !Owns(file, current.value, worker) { return Success(false); }
      file := file.(schedules := Renewed(file, current.value, now, leaseSeconds));
      r := Success(true);
    }

    method CompleteRun(run: Id, status: Status, now: Time) returns (r: Result<Run, Error>)
      requires Resolves(daily)
      modifies this
      ensures r.Failure? ==> file == old(file)
      ensures status == Claimed ==> r == Failure(InvalidStatus)
      ensures status != Claimed && !Readable(old(file)) ==> r == Failure(Corrupt)
      ensures status != Claimed && Readable(old(file)) ==>
                && AllConfigured(old(file).schedules)
                && match CompleteSpec(old(file), run, status, now, daily)
                   case Success(c) => file == c && r.Success? && r.value.id == run && r.value.status != Claimed
                   case Failure(e) => r == Failure(e)
      ensures r.Success? && old(Inv(file)) ==> Inv(file)
      ensures r.Success? && old(Inv(file)) ==> Reported(old(file), file, run, status, now, r.value, daily)
    {
      if status == Claimed { return Failure(InvalidStatus); }
      if !Readable(file) { return Failure(Corrupt); }
      hide Reported, InvOn;
      if Inv(file) {
        CompleteKeepsInv(file, run, status, now, daily);
        if FindRun(file.runs, run).Some? { CompleteReports(file, run, status, now, daily); }
      }
      var c;
      c, r := CompleteIn(file, run, status, now);
      file := c;
    }

    /** The change to a readable catalog. */
    method CompleteIn(c: Catalog, run: Id, status: Status, now: Time) returns (c': Catalog, r: Result<Run, Error>)
      requires status != Claimed && AllConfigured(c.schedules)
      ensures match CompleteSpec(c, run, status, now, daily)
              case Success(done) => c' == done && r.Success? && r.value.id == run && r.value.status != Claimed
              case Failure(e) => c' == c && r == Failure(e)
      ensures r.Success? ==>
                && FindRun(c.runs, run).Some?
                && var q := FindRun(c.runs, run).value;
                   r.value == if q.status != Claimed then q else Completed(q, status, now)
    {
      var found := FindRun(c.runs, run);
      if found.None? { return c, Failure(NoSuchRun); }
      var current := found.value;
      if current.status != Claimed { return c, Success(current); }
      var completed := current.(status := status, completedAt := Some(Stamp(now)));
      var updated := CompleteSchedules(c.schedules, current, status, now);
      c' := Catalog(c.revision + 1, updated, ReplaceRun(c.runs, run, completed));
      r := Success(completed);
    }

    /** The loop over the schedules when a run completes. */
    method CompleteSchedules(schedules: seq<Schedule>, current: Run, status: Status, now: Time)
      returns (updated: seq<Schedule>)
      requires AllConfigured(schedules)
      ensures updated == CompleteEach(schedules, current, status, now, daily)
    {
      updated := [];
      for i := 0 to |schedules|
        invariant |updated| == i
        invariant forall k :: 0 <= k < i ==> updated[k] == CompleteOne(schedules[k], current, status, now, daily)
      {
        var schedule := schedules[i];
        if schedule.id != current.schedule {
          updated := updated + [schedule];
        } else if schedule.activeRun != Some(current.id) {
          updated := updated + [schedule];
        } else {
          updated := updated + [AfterTerminal(schedule, current.attempt, status, now, daily)];
        }
      }
    }
  }

  lemma RunsOfAppend(a: seq<Launch>, b: seq<Launch>)
    ensures RunsOf(a + b) == RunsOf(a) + RunsOf(b)
  {
  }
}
