/**
 What a claiming pass does to the retained runs (src/founderos_atlas/scheduling.py),
 told from the catalog it starts with: how many runs it adds, which claims it ends, and
 so whether the catalog it writes can be read again.
 */
module SchedulePass {
  import opened Basics
  import opened Schedules

  /** A turn that changes its schedule: a lease is found expired, or the schedule is due. */
  predicate Touched(s: Schedule, moment: Time) {
    || (s.activeRun.Some? && !LeaseActive(s, moment))
    || (s.activeRun.None? && s.enabled && s.nextRunAt <= moment)
  }

  /** A turn that launches: enabled, idle, due, not skipped as misfired, and no retained
      run has the due key. */
  predicate Launches(s: Schedule, runs: seq<Run>, moment: Time) {
    && s.activeRun.None? && s.enabled && s.nextRunAt <= moment
    && !(s.misfire == Skip && moment - s.nextRunAt > 300 * SECOND)
    && FindKey(runs, RunKey(s.id, s.nextRunAt)).None?
  }

  function LaunchCount(ss: seq<Schedule>, runs: seq<Run>, moment: Time): nat {
    if ss == [] then 0
    else
      LaunchCount(ss[..|ss| - 1], runs, moment) + (if Launches(ss[|ss| - 1], runs, moment) then 1 else 0)
  }

  predicate AnyTouched(ss: seq<Schedule>, moment: Time) {
    exists s :: s in ss && Touched(s, moment)
  }

  /** The run is claimed, and none of the schedules has let the lease on it expire. */
  predicate StaysClaimed(r: Run, ss: seq<Schedule>, moment: Time) {
    r.status == Claimed && forall s :: s in ss && s.activeRun == Some(r.id) ==> LeaseActive(s, moment)
  }

  // ------------------------------------------------------------ one turn

  /** The runs after a turn, told from the schedule and the runs it found. */
  function RunsAfter(s: Schedule, runs: seq<Run>, p: Pass, id: Id): seq<Run> {
    if s.activeRun.Some? && !LeaseActive(s, p.moment) then
      match FindRun(runs, s.activeRun.value)
      case Some(r) => ReplaceRun(runs, r.id, Expired(r, p.moment))
      case None => runs
    else if Launches(s, runs, p.moment) then runs + [NewRun(s, id, p.moment)]
    else runs
  }

  lemma TurnIs(ss: seq<Schedule>, runs: seq<Run>, s: Schedule, p: Pass, id: Id, daily: DailyRule)
    requires InvOn(ss, runs) && s in ss && s.Configured()
    ensures ClaimOne(s, runs, p, id, daily).runs == RunsAfter(s, runs, p, id)
    ensures ClaimOne(s, runs, p, id, daily).changed <==> Touched(s, p.moment)
    ensures ClaimOne(s, runs, p, id, daily).claimed ==
            if Launches(s, runs, p.moment) then Some(NewRun(s, id, p.moment)) else None
  {
    assert Consistent(s, runs);
    if s.activeRun.Some? { ActiveRunIsClaimed(ss, runs, s); }
    hide AfterTerminal, Advance, InvOn;
  }

  // ------------------------------------------------------------ the whole pass

  /** The first runs are those of before, some of them ended; the rest was launched. */
  ghost predicate Grown(c: Catalog, done: seq<Schedule>, runs: seq<Run>, p: Pass) {
    && |runs| == |c.runs| + LaunchCount(done, c.runs, p.moment)
    && (forall i :: 0 <= i < |c.runs| ==>
          && runs[i].id == c.runs[i].id && runs[i].key == c.runs[i].key
          && (runs[i].status == Claimed <==> StaysClaimed(c.runs[i], done, p.moment)))
    && (forall i :: |c.runs| <= i < |runs| ==>
          && runs[i].status == Claimed && FreshId(runs[i].id, c.runs) && BelongsTo(runs[i], done))
  }

  ghost predicate BelongsTo(r: Run, ss: seq<Schedule>) {
    exists s :: s in ss && s.id == r.key.schedule
  }

  /** No run launched earlier in the pass has the due key of a later schedule. */
  lemma SameDuplicate(c: Catalog, done: seq<Schedule>, runs: seq<Run>, p: Pass, s: Schedule)
    requires Grown(c, done, runs, p) && forall t :: t in done ==> t.id != s.id
    ensures Launches(s, runs, p.moment) <==> Launches(s, c.runs, p.moment)
  {
    var key := RunKey(s.id, s.nextRunAt);
    forall i | 0 <= i < |c.runs| ensures runs[i].key == c.runs[i].key && runs[i] in runs && c.runs[i] in c.runs {}
    if d :| d in runs && d.key == key {
      var i :| 0 <= i < |runs| && runs[i] == d;
      assert i < |c.runs|;
    }
    if d :| d in c.runs && d.key == key {
      var i :| 0 <= i < |c.runs| && c.runs[i] == d;
      assert runs[i] in runs && runs[i].key == key;
    }
  }

  lemma ExpiryGrows(c: Catalog, done: seq<Schedule>, runs: seq<Run>, p: Pass, s: Schedule, r: Run)
    requires Grown(c, done, runs, p) && UniqueRuns(runs) && r in runs && !FreshId(r.id, c.runs)
    requires s.activeRun == Some(r.id) && !LeaseActive(s, p.moment)
    ensures Grown(c, done + [s], ReplaceRun(runs, r.id, Expired(r, p.moment)), p)
  {
    hide FindKey, LeaseActive;
    var after := ReplaceRun(runs, r.id, Expired(r, p.moment));
    assert (done + [s])[..|done|] == done;
    forall i | 0 <= i < |runs| && runs[i].id == r.id ensures runs[i] == r { SameRun(runs, runs[i], r); }
    forall i | 0 <= i < |c.runs|
      ensures after[i].status == Claimed <==> StaysClaimed(c.runs[i], done + [s], p.moment)
    {
      ExpiryEnds(c.runs[i], done, s, p.moment);
    }
    forall i | |c.runs| <= i < |after| ensures BelongsTo(after[i], done + [s]) { StillBelongs(after[i], done, s); }
  }

  lemma ExpiryEnds(r: Run, done: seq<Schedule>, s: Schedule, moment: Time)
    requires s.activeRun.Some? && !LeaseActive(s, moment)
    ensures StaysClaimed(r, done + [s], moment) <==> StaysClaimed(r, done, moment) && s.activeRun.value != r.id
  {
    assert s in done + [s];
  }

  lemma StillBelongs(r: Run, ss: seq<Schedule>, s: Schedule)
    requires BelongsTo(r, ss) || r.key.schedule == s.id
    ensures BelongsTo(r, ss + [s])
  {
    assert s in ss + [s];
    if t :| t in ss && t.id == r.key.schedule { assert t in ss + [s]; }
  }

  lemma OtherTurnGrows(c: Catalog, done: seq<Schedule>, runs: seq<Run>, p: Pass, s: Schedule, id: Id)
    requires Grown(c, done, runs, p) && FreshId(id, c.runs) && (s.activeRun.Some? ==> LeaseActive(s, p.moment))
    requires forall t :: t in done ==> t.id != s.id
    ensures Grown(c, done + [s], RunsAfter(s, runs, p, id), p)
  {
    var after := RunsAfter(s, runs, p, id);
    SameDuplicate(c, done, runs, p, s);
    assert (done + [s])[..|done|] == done;
    forall i | 0 <= i < |c.runs|
      ensures StaysClaimed(c.runs[i], done + [s], p.moment) <==> StaysClaimed(c.runs[i], done, p.moment)
    {
    }
    forall i | |c.runs| <= i < |after| ensures BelongsTo(after[i], done + [s]) { StillBelongs(after[i], done, s); }
  }

  lemma TurnGrows(c: Catalog, before: Progress, n: nat, p: Pass, id: Id)
    requires Inv(c) && n < |c.schedules| && |before.updated| == n
    requires InvOn(Midway(c, before, n), before.runs) && Grown(c, c.schedules[..n], before.runs, p)
    requires FreshId(id, c.runs)
    ensures Grown(c, c.schedules[..n + 1], RunsAfter(c.schedules[n], before.runs, p, id), p)
  {
    hide Grown;
    var s := c.schedules[n];
    assert c.schedules[..n + 1] == c.schedules[..n] + [s];
    if s.activeRun.Some? && !LeaseActive(s, p.moment) {
      assert Midway(c, before, n)[n] == s;
      ActiveRunIsClaimed(Midway(c, before, n), before.runs, s);
      ActiveRunIsClaimed(c.schedules, c.runs, s);
      ExpiryGrows(c, c.schedules[..n], before.runs, p, s, FindRun(before.runs, s.activeRun.value).value);
    } else {
      OtherTurnGrows(c, c.schedules[..n], before.runs, p, s, id);
    }
  }

  lemma {:induction false} PassGrows(c: Catalog, p: Pass, n: nat, daily: DailyRule)
    requires Inv(c) && AllConfigured(c.schedules) && n <= |c.schedules| && FreshIds(c, p) && Resolves(daily)
    ensures var r := ClaimFirst(c, p, n, daily);
            && Grown(c, c.schedules[..n], r.runs, p)
            && (r.changed <==> AnyTouched(c.schedules[..n], p.moment))
  {
    if n == 0 {
      NothingGrown(c, p);
    } else {
      hide Grown, InvOn, Touched;
      PassGrows(c, p, n - 1, daily);
      ClaimFirstKeepsInv(c, p, n - 1, daily);
      ClaimFirstStep(c, p, n, daily);
      var before := ClaimFirst(c, p, n - 1, daily);
      var s := c.schedules[n - 1];
      assert Midway(c, before, n - 1)[n - 1] == s;
      TurnIs(Midway(c, before, n - 1), before.runs, s, p, p.ids[n - 1], daily);
      assert p.ids[n - 1] in p.ids;
      TurnGrows(c, before, n - 1, p, p.ids[n - 1]);
      TouchedNext(c.schedules, n - 1, p.moment);
    }
  }

  lemma NothingGrown(c: Catalog, p: Pass)
    ensures Grown(c, [], c.runs, p)
  {
  }

  lemma TouchedNext(ss: seq<Schedule>, n: nat, moment: Time)
    requires n < |ss|
    ensures AnyTouched(ss[..n + 1], moment) <==> AnyTouched(ss[..n], moment) || Touched(ss[n], moment)
  {
    hide Touched;
    assert ss[..n + 1] == ss[..n] + [ss[n]];
  }

  /** What a pass cuts off, told from the catalog it is called on: it launches more runs
      than are kept, or a claimed run with a live lease is too far back. */
  ghost predicate CutsClaimed(c: Catalog, moment: Time) {
    var launched := LaunchCount(c.schedules, c.runs, moment);
    || launched > RETAINED
    || exists i :: 0 <= i < |c.runs| && i < |c.runs| + launched - RETAINED
                   && StaysClaimed(c.runs[i], c.schedules, moment)
  }

  lemma GrownKeepsClaimed(c: Catalog, runs: seq<Run>, p: Pass)
    requires Grown(c, c.schedules, runs, p)
    ensures KeepsClaimed(runs) <==> !CutsClaimed(c, p.moment)
  {
    var launched := LaunchCount(c.schedules, c.runs, p.moment);
    if launched > RETAINED {
      assert runs[|c.runs|].status == Claimed;
    } else {
      forall i | 0 <= i < |runs| - RETAINED
        ensures runs[i].status == Claimed <==> StaysClaimed(c.runs[i], c.schedules, p.moment)
      {
      }
    }
  }

  /** A pass makes the catalog unreadable exactly when it changes anything and, by what
      the catalog held before, cuts off a claimed run. */
  lemma PassIsUnreadableIff(c: Catalog, p: Pass, daily: DailyRule)
    requires Inv(c) && AllConfigured(c.schedules) && FreshIds(c, p) && Resolves(daily)
    ensures !Readable(ClaimDueSpec(c, p, daily)) <==> AnyTouched(c.schedules, p.moment) && CutsClaimed(c, p.moment)
  {
    hide Inv, InvOn, Readable, Grown, KeepsClaimed, CutsClaimed, ClaimDueSpec, ClaimFirst;
    assert c.schedules[..|c.schedules|] == c.schedules;
    PassGrows(c, p, |c.schedules|, daily);
    GrownKeepsClaimed(c, ClaimAll(c, p, daily).runs, p);
    ClaimDueKeepsInv(c, p, daily);
  }
}
