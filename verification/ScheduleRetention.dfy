/**
 A history in which a claimed run is trimmed away (src/founderos_atlas/scheduling.py:646-650):
 one long run of "a" is still under way while "b" runs every minute, a thousand times.
 */
module ScheduleRetention {
  import opened Basics
  import opened Schedules
  import opened ScheduleHistory

  /** Different identifiers for the runs of "b", apart from "long" and "spare". */
  function Name(k: nat): (id: Id)
    ensures |id| == k + 8
  {
    seq(k + 8, _ => 'r')
  }

  /** A lease of some thirty years. */
  const LONG := 1_000_000_000

  function ScheduleA(): Schedule { NewSchedule("a", "p", Once, 0, RunOnce, 0, 1) }
  function ScheduleB(): Schedule { NewSchedule("b", "p", Interval(1), 0, RunOnce, 0, 1) }

  function PassAt(k: nat): Pass {
    Pass(k * MINUTE, "w", LONG, [if k == 0 then "long" else "spare", Name(k)])
  }

  function LeasedA(): Schedule { Leased(ScheduleA(), "long", PassAt(0)) }

  function RunA(): Run { NewRun(ScheduleA(), "long", 0) }

  /** "b" as it waits for its run number `k`. */
  predicate Waits(s: Schedule, k: nat) {
    && s.id == "b" && s.recurrence == Interval(1) && s.enabled && s.misfire == RunOnce
    && s.maxRetries == 0 && s.retryDelay == 1
    && s.nextRunAt == k * MINUTE && s.activeRun.None? && s.leaseUntil.None?
    && s.retryAttempt == 1 && s.retryOrigin.None?
  }

  predicate EndedB(r: Run, k: nat) {
    r.id == Name(k) && r.schedule == "b" && r.key == RunKey("b", k * MINUTE) && r.status == Succeeded
  }

  /** After `k` runs of "b": the run of "a" is the oldest and still claimed. */
  ghost predicate Busy(c: Catalog, k: nat) {
    && |c.schedules| == 2 && c.schedules[0] == LeasedA() && Waits(c.schedules[1], k)
    && |c.runs| == k + 1 && c.runs[0] == RunA()
    && forall j :: 1 <= j < |c.runs| ==> EndedB(c.runs[j], j - 1)
  }

  /** "b" is claimed once more. */
  ghost predicate Claiming(c: Catalog, c': Catalog, k: nat) {
    && |c.schedules| == 2 && |c'.schedules| == 2 && c'.schedules[0] == LeasedA()
    && c'.schedules[1] == Leased(c.schedules[1], Name(k), PassAt(k))
    && c'.runs == c.runs + [NewRun(c.schedules[1], Name(k), k * MINUTE)]
  }

  lemma NotYetRun(c: Catalog, k: nat)
    requires Busy(c, k)
    ensures FindKey(c.runs, RunKey("b", k * MINUTE)).None?
    ensures forall r :: r in c.runs ==> r.id != Name(k) && r.id != "spare"
  {
    forall r | r in c.runs ensures r.key != RunKey("b", k * MINUTE) && r.id != Name(k) && r.id != "spare" {
      var j :| 0 <= j < |c.runs| && c.runs[j] == r;
      if j > 0 { assert EndedB(c.runs[j], j - 1); }
    }
  }

  lemma BTurn(c: Catalog, runs: seq<Run>, k: nat, daily: DailyRule)
    requires Busy(c, k) && runs == c.runs
    ensures c.schedules[1].Configured()
    ensures ClaimOne(c.schedules[1], runs, PassAt(k), Name(k), daily)
            == var run := NewRun(c.schedules[1], Name(k), k * MINUTE);
               Turn(Leased(c.schedules[1], Name(k), PassAt(k)), runs + [run], Some(run), true)
  {
    NotYetRun(c, k);
  }

  lemma ATurn(runs: seq<Run>, k: nat, daily: DailyRule)
    requires 0 < k <= RETAINED
    ensures LeasedA().Configured()
    ensures ClaimOne(LeasedA(), runs, PassAt(k), "spare", daily) == Turn(LeasedA(), runs, None, false)
  {
  }

  /** The pass at minute `k` claims "b" and leaves "a" alone. */
  lemma PassClaims(c: Catalog, k: nat, daily: DailyRule)
    requires Busy(c, k) && 0 < k <= RETAINED
    ensures AllConfigured(c.schedules) && |c.schedules| <= |PassAt(k).ids|
    ensures var r := ClaimAll(c, PassAt(k), daily);
            r.changed && Claiming(c, Catalog(0, r.updated, r.runs), k)
  {
    hide ClaimOne, LeasedA;
    ATurn(c.runs, k, daily);
    BTurn(c, c.runs, k, daily);
    var p := PassAt(k);
    var zero := ClaimFirst(c, p, 0, daily);
    assert ClaimFirst(c, p, 1, daily) == Progress([LeasedA()], c.runs, [], false);
    assert ClaimAll(c, p, daily) == ClaimFirst(c, p, 2, daily);
  }

  /** Its run succeeds at once, and "b" waits for the next minute. */
  lemma RunSucceeds(c: Catalog, c': Catalog, k: nat, daily: DailyRule)
    requires Busy(c, k) && Claiming(c, c', k) && AllConfigured(c'.schedules)
    ensures var r := CompleteSpec(c', Name(k), Succeeded, k * MINUTE, daily);
            r.Success? && Busy(r.value, k + 1)
  {
    NotYetRun(c, k);
    var run := NewRun(c.schedules[1], Name(k), k * MINUTE);
    assert c'.runs[|c.runs|] == run && run in c'.runs;
    assert FindRun(c'.runs, Name(k)).value == run;
    NextMinute(c'.schedules[1], k, daily);
    var r := CompleteSpec(c', Name(k), Succeeded, k * MINUTE, daily).value;
    forall j | 1 <= j < |r.runs| ensures EndedB(r.runs[j], j - 1) {
      if j < |c.runs| { assert EndedB(c.runs[j], j - 1); }
    }
  }

  lemma NextMinute(s: Schedule, k: nat, daily: DailyRule)
    requires s.Configured() && Waits(Released(s), k)
    ensures Waits(AfterTerminal(s, 1, Succeeded, k * MINUTE, daily), k + 1)
  {
    assert NextOnGrid(k * MINUTE, MINUTE, k * MINUTE) == (k + 1) * MINUTE;
    MultipleKeepsStamp(0, (k + 1) * 60);
  }

  // ------------------------------------------------------ the history

  /** Where the history stands after `k` runs of "b". */
  ghost predicate Stands(w: World, k: nat) {
    Busy(w.catalog, k) && Inv(w.catalog) && w.clock <= k * MINUTE
  }

  lemma Extend(worlds: seq<World>, ops: seq<Op>, op: Op, daily: DailyRule)
    requires History(worlds, ops, daily) && Admissible(worlds[|ops|], op)
    ensures History(worlds + [Step(worlds[|ops|], op, daily)], ops + [op], daily)
  {
    hide Admissible, Step;
    var worlds', ops' := worlds + [Step(worlds[|ops|], op, daily)], ops + [op];
    forall i | 0 <= i < |ops'|
      ensures Admissible(worlds'[i], ops'[i]) && worlds'[i + 1] == Step(worlds'[i], ops'[i], daily)
    {
      if i < |ops| { assert worlds'[i] == worlds[i] && worlds'[i + 1] == worlds[i + 1]; }
    }
  }

  lemma PassIsFresh(c: Catalog, k: nat)
    requires Busy(c, k) && k > 0
    ensures FreshIds(c, PassAt(k))
  {
    NotYetRun(c, k);
    assert "spare" != Name(k) by { assert |"spare"| != |Name(k)|; }
  }

  /** One more minute: a pass and the end of its run. */
  lemma OneMinute(w: World, k: nat, daily: DailyRule) returns (w1: World, w2: World)
    requires Stands(w, k) && 0 < k && k + 1 < RETAINED && Resolves(daily)
    ensures Admissible(w, ClaimDue(PassAt(k))) && w1 == Step(w, ClaimDue(PassAt(k)), daily)
    ensures Admissible(w1, Complete(Name(k), Succeeded, k * MINUTE))
    ensures w2 == Step(w1, Complete(Name(k), Succeeded, k * MINUTE), daily)
    ensures Stands(w2, k + 1)
  {
    hide Busy, Claiming, InvOn, Readable, ClaimDueSpec, CompleteSpec, ClaimAll;
    var c, p := w.catalog, PassAt(k);
    PassIsFresh(c, k);
    PassClaims(c, k, daily);
    InvIsReadable(c);
    w1 := Step(w, ClaimDue(p), daily);
    PassIsUntrimmed(c, k, daily);
    InvConfigured(w1.catalog);
    InvIsReadable(w1.catalog);
    RunSucceeds(c, w1.catalog, k, daily);
    CompleteKeepsInv(w1.catalog, Name(k), Succeeded, k * MINUTE, daily);
    w2 := Step(w1, Complete(Name(k), Succeeded, k * MINUTE), daily);
  }

  /** Up to a thousand runs nothing is trimmed. */
  lemma PassIsUntrimmed(c: Catalog, k: nat, daily: DailyRule)
    requires Busy(c, k) && Inv(c) && 0 < k && k + 1 < RETAINED && Resolves(daily)
    ensures AllConfigured(c.schedules) && |c.schedules| <= |PassAt(k).ids|
    ensures Claiming(c, ClaimDueSpec(c, PassAt(k), daily), k) && Inv(ClaimDueSpec(c, PassAt(k), daily))
  {
    hide InvOn, ClaimOne, ClaimFirst, LeasedA;
    PassIsFresh(c, k);
    PassClaims(c, k, daily);
    ClaimDueKeepsInv(c, PassAt(k), daily);
    assert |ClaimAll(c, PassAt(k), daily).runs| == k + 2;
  }

  function Beginning(): seq<Op> {
    [Create(ScheduleA()), Create(ScheduleB()), ClaimDue(PassAt(0)), Complete(Name(0), Succeeded, 0)]
  }

  lemma BothClaimed(c: Catalog, daily: DailyRule)
    requires c == Catalog(2, [ScheduleA(), ScheduleB()], [])
    ensures AllConfigured(c.schedules) && |c.schedules| <= |PassAt(0).ids|
    ensures var bRun := NewRun(ScheduleB(), Name(0), 0);
            ClaimDueSpec(c, PassAt(0), daily)
            == Catalog(3, [LeasedA(), Leased(ScheduleB(), Name(0), PassAt(0))], [RunA(), bRun])
  {
    hide ClaimOne;
    var p := PassAt(0);
    AFirst(daily);
    BFirst(daily);
    assert ClaimFirst(c, p, 0, daily).runs == [];
    var one := ClaimFirst(c, p, 1, daily);
    assert one.updated == [LeasedA()] && one.runs == [RunA()] && one.changed;
    assert ClaimAll(c, p, daily) == ClaimFirst(c, p, 2, daily);
  }

  lemma AFirst(daily: DailyRule)
    ensures ScheduleA().Configured()
    ensures ClaimOne(ScheduleA(), [], PassAt(0), "long", daily) == Turn(LeasedA(), [RunA()], Some(RunA()), true)
  {
    assert [] + [RunA()] == [RunA()];
  }

  lemma BFirst(daily: DailyRule)
    ensures ScheduleB().Configured()
    ensures var bRun := NewRun(ScheduleB(), Name(0), 0);
            ClaimOne(ScheduleB(), [RunA()], PassAt(0), Name(0), daily)
            == Turn(Leased(ScheduleB(), Name(0), PassAt(0)), [RunA(), bRun], Some(bRun), true)
  {
    assert FindKey([RunA()], RunKey("b", 0)).None?;
  }

  lemma FirstEnds(c: Catalog, daily: DailyRule)
    requires var bRun := NewRun(ScheduleB(), Name(0), 0);
             c == Catalog(3, [LeasedA(), Leased(ScheduleB(), Name(0), PassAt(0))], [RunA(), bRun])
    ensures AllConfigured(c.schedules)
    ensures var r := CompleteSpec(c, Name(0), Succeeded, 0, daily); r.Success? && Busy(r.value, 1)
  {
    var bRun := NewRun(ScheduleB(), Name(0), 0);
    assert RunA().id != Name(0) by { assert |RunA().id| != |Name(0)|; }
    assert c.runs[1] == bRun && FindRun(c.runs, Name(0)).value == bRun;
    NextMinute(c.schedules[1], 0, daily);
  }

  lemma CreateStep(w: World, s: Schedule, daily: DailyRule) returns (w': World)
    requires Inv(w.catalog) && (s == ScheduleA() || s == ScheduleB()) && s.id !in w.created
    requires FindSchedule(w.catalog.schedules, s.id).None?
    ensures Admissible(w, Create(s)) && w' == Step(w, Create(s), daily)
    ensures w'.catalog == CreateSpec(w.catalog, s) && Inv(w'.catalog)
    ensures w'.clock == w.clock && w'.created == w.created[s.id := s]
  {
    InvIsReadable(w.catalog);
    CreateKeepsInv(w.catalog, s);
    hide InvOn, Readable;
    w' := Step(w, Create(s), daily);
  }

  /** Both schedules are created and claimed, and the first run of "b" ends. */
  lemma Begins(daily: DailyRule) returns (worlds: seq<World>)
    requires Resolves(daily)
    ensures History(worlds, Beginning(), daily) && Stands(worlds[4], 1)
  {
    hide Stands, Step, Admissible, Inv;
    var w0 := World(NoSchedules(), 0, [], map[]);
    assert Inv(w0.catalog) by { NothingIsInv(); }
    var w1 := CreateStep(w0, ScheduleA(), daily);
    var w2 := CreateStep(w1, ScheduleB(), daily);
    var w3, w4 := FirstMinute(w2, daily);
    worlds := [w0, w1, w2, w3, w4];
  }

  lemma NothingIsInv()
    ensures Inv(NoSchedules())
  {
  }

  lemma FirstMinute(w2: World, daily: DailyRule) returns (w3: World, w4: World)
    requires w2.catalog == Catalog(2, [ScheduleA(), ScheduleB()], []) && w2.clock == 0
    requires Inv(w2.catalog) && Resolves(daily)
    ensures Admissible(w2, Beginning()[2]) && w3 == Step(w2, Beginning()[2], daily)
    ensures Admissible(w3, Beginning()[3]) && w4 == Step(w3, Beginning()[3], daily) && Stands(w4, 1)
  {
    hide Busy, InvOn, Readable, ClaimDueSpec, CompleteSpec, ClaimAll;
    InvIsReadable(w2.catalog);
    assert "long" != Name(0) by { assert |"long"| != |Name(0)|; }
    BothClaimed(w2.catalog, daily);
    InvConfigured(w2.catalog);
    w3 := Step(w2, Beginning()[2], daily);
    ClaimDueKeepsInv(w2.catalog, PassAt(0), daily);
    TwoRuns(w2.catalog, daily);
    FirstEnds(w3.catalog, daily);
    InvIsReadable(w3.catalog);
    CompleteKeepsInv(w3.catalog, Name(0), Succeeded, 0, daily);
    w4 := Step(w3, Beginning()[3], daily);
  }

  lemma TwoRuns(c: Catalog, daily: DailyRule)
    requires c == Catalog(2, [ScheduleA(), ScheduleB()], []) && AllConfigured(c.schedules)
    ensures |ClaimAll(c, PassAt(0), daily).runs| <= RETAINED
  {
    BothClaimed(c, daily);
  }

  lemma {:induction false} BusyFor(k: nat, daily: DailyRule) returns (worlds: seq<World>, ops: seq<Op>)
    requires 0 < k < RETAINED && Resolves(daily)
    ensures History(worlds, ops, daily) && Stands(worlds[|ops|], k)
    decreases k
  {
    hide Stands, Admissible, Step;
    if k == 1 {
      worlds := Begins(daily);
      ops := Beginning();
    } else {
      worlds, ops := BusyFor(k - 1, daily);
      var w1, w2 := OneMinute(worlds[|ops|], k - 1, daily);
      Extend(worlds, ops, ClaimDue(PassAt(k - 1)), daily);
      worlds, ops := worlds + [w1], ops + [ClaimDue(PassAt(k - 1))];
      Extend(worlds, ops, Complete(Name(k - 1), Succeeded, (k - 1) * MINUTE), daily);
      worlds, ops := worlds + [w2], ops + [Complete(Name(k - 1), Succeeded, (k - 1) * MINUTE)];
    }
  }

  /** The pass after a thousand runs trims the claimed one: from then on the catalog
      cannot be read. */
  lemma PassCanTrimClaimed(daily: DailyRule) returns (worlds: seq<World>, ops: seq<Op>)
    requires Resolves(daily)
    ensures History(worlds, ops, daily) && ops != [] && ops[|ops| - 1].ClaimDue?
    ensures Inv(worlds[|ops| - 1].catalog) && !Readable(worlds[|ops|].catalog)
  {
    hide Busy, InvOn, Readable, ClaimDueSpec, ClaimAll, Admissible;
    var k := RETAINED - 1;
    worlds, ops := BusyFor(k, daily);
    var w, p := worlds[|ops|], PassAt(k);
    PassIsFresh(w.catalog, k);
    assert Admissible(w, ClaimDue(p)) by { LatePass(w, k); }
    Extend(worlds, ops, ClaimDue(p), daily);
    InvIsReadable(w.catalog);
    PassClaims(w.catalog, k, daily);
    ClaimDueKeepsInv(w.catalog, p, daily);
    FirstIsClaimed(w.catalog, k, daily);
    worlds, ops := worlds + [Step(w, ClaimDue(p), daily)], ops + [ClaimDue(p)];
  }

  lemma LatePass(w: World, k: nat)
    requires w.clock <= k * MINUTE && FreshIds(w.catalog, PassAt(k))
    ensures Admissible(w, ClaimDue(PassAt(k)))
  {
  }

  lemma FirstIsClaimed(c: Catalog, k: nat, daily: DailyRule)
    requires Busy(c, k) && k == RETAINED - 1
    ensures AllConfigured(c.schedules) && |c.schedules| <= |PassAt(k).ids|
    ensures var r := ClaimAll(c, PassAt(k), daily); r.changed && !KeepsClaimed(r.runs)
  {
    PassClaims(c, k, daily);
    var r := ClaimAll(c, PassAt(k), daily);
    assert r.runs[0] == RunA() && |r.runs| == RETAINED + 1;
  }
}
