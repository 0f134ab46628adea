/**
 What holds of change plans over any sequence of lifecycle operations
 (src/founderos_atlas/compass/lifecycle.py).
 */
module PlanHistory {
  import opened Basics
  import opened PlanLifecycle

  datatype Op =
    | DoReorder(id: string, direction: int)
    | DoSetDependencies(id: string, depends: seq<string>, group: Option<string>)
    | DoUpdateReadiness(readiness: Readiness)
    | DoAnalyse
    | DoSubmit
    | DoDecide(approve: bool, reason: string)
    | DoSchedule(windowStart: string, windowEnd: string)
    | DoRecordCheck(post: bool, check: string, passed: bool)
    | DoStart
    | DoCheckpoint(change: string, mark: Mark, note: string)
    | DoComplete
    | DoFail(note: string)
    | DoRollback(note: string)
    | DoCancel(reason: string)

  function Try(p: Plan, op: Op): Result<Plan, Refusal> {
    match op
    case DoReorder(id, direction) => Reorder(p, id, direction)
    case DoSetDependencies(id, depends, group) => SetDependencies(p, id, depends, group)
    case DoUpdateReadiness(u) => UpdateReadiness(p, u)
    case DoAnalyse => Analyse(p)
    case DoSubmit => SubmitForReview(p)
    case DoDecide(approve, reason) => DecideReview(p, approve, reason)
    case DoSchedule(windowStart, windowEnd) => Schedule(p, windowStart, windowEnd)
    case DoRecordCheck(post, check, passed) => RecordCheck(p, post, check, passed)
    case DoStart => StartExecution(p)
    case DoCheckpoint(change, mark, note) => CheckpointChange(p, change, mark, note)
    case DoComplete => Complete(p)
    case DoFail(note) => Fail(p, note)
    case DoRollback(note) => Rollback(p, note)
    case DoCancel(reason) => Cancel(p, reason)
  }

  /** A refused operation leaves the plan as it was. */
  function Next(p: Plan, op: Op): Plan {
    match Try(p, op)
    case Success(q) => q
    case Failure(_) => p
  }

  // ------------------------------------------------------------ what a plan owes

  predicate Reviewed(s: Status) {
    s == InReview || s == Approved || s == Scheduled || s == Running || s == Completed || s == Failed || s == RolledBack
  }

  predicate Agreed(s: Status) {
    Reviewed(s) && s != InReview
  }

  predicate Executed(s: Status) {
    s == Running || s == Completed || s == Failed || s == RolledBack
  }

  ghost predicate Settled(p: Plan) {
    && (forall i :: 0 <= i < |p.changes| ==> ChangeSettled(p, i))
    && (forall i :: 0 <= i < |p.postChecks| ==> p.postChecks[i].status == Passed)
  }

  ghost predicate ChangeSettled(p: Plan, i: nat)
    requires i < |p.changes|
  {
    p.changes[i].id in Marks(p.log) && Marks(p.log)[p.changes[i].id] in {Done, Skipped}
  }

  predicate EndsWith(p: Plan, h: Happening) {
    p.log != [] && p.log[|p.log| - 1] == h
  }

  /** The evidence each status stands for. */
  ghost predicate Evidenced(p: Plan) {
    && (Executed(p.status) ==> Started in p.log)
    && (p.status == Completed ==> Settled(p) && EndsWith(p, Ended))
    && (p.status == Failed ==> exists why :: EndsWith(p, FailedWith(why)) && Strip(why) != "")
    && (p.status == RolledBack ==>
          && (exists what :: EndsWith(p, RestoredWith(what)) && Strip(what) != "")
          && exists why :: FailedWith(why) in p.log && Strip(why) != "")
  }

  ghost predicate PlanOk(p: Plan) {
    && UniqueIds(p.changes)
    && (Reviewed(p.status) ==> p.changes != [] && Problems(p.changes) == [])
    && (Agreed(p.status) ==> p.approved == Some(true))
    && Evidenced(p)
  }

  // ------------------------------------------------------------ edits

  lemma {:induction false} IndexIsFirst(changes: seq<Change>, id: string)
    ensures match IndexOf(changes, id)
            case None => forall i :: 0 <= i < |changes| ==> changes[i].id != id
            case Some(i) => i < |changes| && changes[i].id == id && forall j :: 0 <= j < i ==> changes[j].id != id
  {
    if changes != [] { IndexIsFirst(changes[1..], id); }
  }

  lemma {:induction false} RewiredAt(changes: seq<Change>, id: string, depends: seq<string>, group: Option<string>)
    ensures var r := Rewired(changes, id, depends, group);
            |r| == |changes| && forall i :: 0 <= i < |r| ==>
              r[i] == if changes[i].id == id then changes[i].(depends := depends, group := group) else changes[i]
  {
    if changes != [] { RewiredAt(changes[1..], id, depends, group); }
  }

  lemma SwappedIsUnique(changes: seq<Change>, i: nat, j: nat)
    requires i < |changes| && j < |changes| && UniqueIds(changes)
    ensures UniqueIds(Swapped(changes, i, j))
  {
  }

  lemma SwapFacts(changes: seq<Change>, i: nat, j: nat)
    requires i < |changes| && j < |changes| && UniqueIds(changes)
    ensures var s := Swapped(changes, i, j);
            && multiset(s) == multiset(changes) && UniqueIds(s)
            && IndexOf(s, changes[i].id) == Some(j)
            && Swapped(s, j, i) == changes
  {
    var s := Swapped(changes, i, j);
    SwappedIsUnique(changes, i, j);
    hide IndexOf;
    IndexIsFirst(s, changes[i].id);
    assert s[j].id == changes[i].id;
    hide UniqueIds;
    assert Swapped(s, j, i) == changes;
  }

  /** A move exchanges two neighbours and nothing else; moving back undoes it exactly
      when the order it would restore is valid. */
  lemma ReorderIsUndone(p: Plan, id: string, direction: int)
    requires UniqueIds(p.changes) && direction != 0
    requires Reorder(p, id, direction).Success? && Reorder(p, id, direction).value.changes != p.changes
    ensures var q := Reorder(p, id, direction).value;
            var back := Reorder(q, id, -direction);
            && multiset(q.changes) == multiset(p.changes) && UniqueIds(q.changes)
            && (back.Success? <==> Problems(p.changes) == [])
            && (back.Success? ==> back.value.changes == p.changes)
  {
    hide Problems, UniqueIds, IndexOf, Swapped;
    IndexIsFirst(p.changes, id);
    var i := IndexOf(p.changes, id).value;
    SwapFacts(p.changes, i, i + (if direction > 0 then 1 else -1));
  }

  lemma EditKeepsOk(p: Plan, op: Op)
    requires PlanOk(p) && (op.DoReorder? || op.DoSetDependencies?)
    ensures PlanOk(Next(p, op))
  {
    hide Problems, Evidenced;
    match op
    case DoReorder(id, direction) => IndexIsFirst(p.changes, id); EditedIsOk(p, op);
    case DoSetDependencies(id, depends, group) =>
      RewiredAt(p.changes, id, Wanted(depends, id), GroupNamed(group));
      EditedIsOk(p, op);
  }

  lemma EditedIsOk(p: Plan, op: Op)
    requires op.DoReorder? || op.DoSetDependencies?
    ensures Next(p, op) == p || (Next(p, op).status == Draft && Evidenced(Next(p, op)))
  {
    hide Problems;
  }

  // ------------------------------------------------------------ marks and checks

  lemma {:induction false} MarksOnlyGrowBy(log: seq<Happening>, h: Happening)
    ensures Marks(log + [h]) == if h.Marked? && h.change != "" then Marks(log)[h.change := h.mark] else Marks(log)
  {
    assert (log + [h])[..|log|] == log;
  }

  /** Entry `i` is the last of its change, and says `mark`. */
  predicate LastMark(log: seq<Happening>, i: nat, c: string, mark: Mark)
    requires i < |log|
  {
    log[i] == Marked(c, mark) && forall j :: i < j < |log| ==> !IsMark(log[j], c)
  }

  /** The mark of a change is the last one logged for it. */
  lemma {:induction false} MarkIsLatest(log: seq<Happening>, c: string)
    requires c != ""
    ensures c in Marks(log) <==> exists i :: 0 <= i < |log| && IsMark(log[i], c)
    ensures c in Marks(log) ==> exists i :: 0 <= i < |log| && LastMark(log, i, c, Marks(log)[c])
  {
    if log != [] {
      var n := |log| - 1;
      MarkIsLatest(log[..n], c);
      if IsMark(log[n], c) {
        assert LastMark(log, n, c, Marks(log)[c]);
      } else {
        if i :| 0 <= i < n && IsMark(log[i], c) { assert IsMark(log[..n][i], c); }
        if c in Marks(log) {
          var i :| 0 <= i < n && LastMark(log[..n], i, c, Marks(log)[c]);
          forall j | i < j < |log| ensures !IsMark(log[j], c) { if j < n { assert !IsMark(log[..n][j], c); } }
          assert LastMark(log, i, c, Marks(log)[c]);
        }
      }
    }
  }

  predicate IsMark(h: Happening, c: string) {
    h.Marked? && h.change == c
  }

  predicate NoneFailed(marks: map<string, Mark>) {
    forall c :: c in marks ==> marks[c] != NotDone
  }

  /** A plan completes exactly when it runs, the latest mark of every change is done
      or skipped, no mark says otherwise, and every post-check has passed. */
  lemma CompleteIff(p: Plan)
    ensures Complete(p).Success? <==> p.status == Running && Settled(p) && NoneFailed(Marks(p.log))
  {
    var marks := Marks(p.log);
    hide Marks;
    assert NoneFailed(marks) <==> !exists c :: c in marks && marks[c] == NotDone;
    if Complete(p).Success? {
      forall i | 0 <= i < |p.changes| ensures ChangeSettled(p, i) {
        assert p.changes[i].id in marks && marks[p.changes[i].id] != NotDone;
      }
      forall i | 0 <= i < |p.postChecks| ensures p.postChecks[i].status == Passed {
        assert !Any(p.postChecks, Pending) && !Any(p.postChecks, CheckFailed);
      }
    }
    if p.status == Running && Settled(p) && NoneFailed(marks) {
      forall i | 0 <= i < |p.changes| ensures p.changes[i].id in marks { assert ChangeSettled(p, i); }
      assert !Any(p.postChecks, Pending) && !Any(p.postChecks, CheckFailed);
    }
  }

  // ------------------------------------------------------------ every operation

  lemma CompleteKeepsOk(p: Plan)
    requires PlanOk(p) && Complete(p).Success?
    ensures PlanOk(Complete(p).value)
  {
    hide Problems, UniqueIds;
    CompleteIff(p);
    var q := Complete(p).value;
    MarksOnlyGrowBy(p.log, Ended);
    forall i | 0 <= i < |q.changes| ensures ChangeSettled(q, i) { assert ChangeSettled(p, i); }
  }

  lemma ExecutionKeepsOk(p: Plan, op: Op)
    requires PlanOk(p)
    requires op.DoRecordCheck? || op.DoStart? || op.DoCheckpoint? || op.DoFail? || op.DoRollback? || op.DoCancel?
    ensures PlanOk(Next(p, op))
  {
    hide Problems, UniqueIds, Settled, Marks, Strip, Any, HasCheck, Noted, IndexOf;
    var q := Next(p, op);
    if q != p {
      assert q.log[..|p.log|] == p.log && forall h :: h in p.log ==> h in q.log;
      match op
      case DoFail(note) => assert EndsWith(q, FailedWith(note));
      case DoRollback(note) =>
        assert EndsWith(q, RestoredWith(note));
        var why :| EndsWith(p, FailedWith(why)) && Strip(why) != "";
        assert FailedWith(why) in q.log;
      case _ =>
    }
  }

  lemma ReviewKeepsOk(p: Plan, op: Op)
    requires PlanOk(p)
    requires op.DoUpdateReadiness? || op.DoAnalyse? || op.DoSubmit? || op.DoDecide? || op.DoSchedule?
    ensures PlanOk(Next(p, op))
  {
    hide Problems, UniqueIds, Settled, Strip, NonBlank, NewChecks;
  }

  lemma StepKeepsOk(p: Plan, op: Op)
    requires PlanOk(p)
    ensures PlanOk(Next(p, op))
  {
    hide PlanOk, Try;
    if op.DoReorder? || op.DoSetDependencies? {
      EditKeepsOk(p, op);
    } else if op.DoComplete? {
      CompleteStep(p);
    } else if op.DoUpdateReadiness? || op.DoAnalyse? || op.DoSubmit? || op.DoDecide? || op.DoSchedule? {
      ReviewKeepsOk(p, op);
    } else {
      ExecutionKeepsOk(p, op);
    }
  }

  lemma CompleteStep(p: Plan)
    requires PlanOk(p)
    ensures PlanOk(Next(p, DoComplete))
  {
    hide PlanOk, Complete;
    if Complete(p).Success? { CompleteKeepsOk(p); }
  }

  // ------------------------------------------------------------ histories

  ghost predicate History(plans: seq<Plan>, ops: seq<Op>) {
    && |plans| == |ops| + 1
    && UniqueIds(plans[0].changes) && plans[0].status == Draft && plans[0].log == []
    && forall i :: 0 <= i < |ops| ==> plans[i + 1] == Next(plans[i], ops[i])
  }

  /** Over every history: what is in review or beyond has a valid order, what is
      approved or beyond was approved, and what is over has the evidence for it. */
  lemma {:induction false} HistoryIsOk(plans: seq<Plan>, ops: seq<Op>, n: nat)
    requires History(plans, ops) && n <= |ops|
    ensures PlanOk(plans[n])
    ensures Reviewed(plans[n].status) ==> OrderValid(plans[n].changes)
  {
    hide PlanOk, Next, OrderValid, Problems;
    if n == 0 {
      DraftIsOk(plans[0]);
    } else {
      HistoryIsOk(plans, ops, n - 1);
      StepKeepsOk(plans[n - 1], ops[n - 1]);
    }
    OkIsOrdered(plans[n]);
  }

  lemma DraftIsOk(p: Plan)
    requires UniqueIds(p.changes) && p.status == Draft
    ensures PlanOk(p)
  {
  }

  lemma OkIsOrdered(p: Plan)
    requires PlanOk(p)
    ensures Reviewed(p.status) ==> OrderValid(p.changes)
  {
    hide Problems, OrderValid;
    NoProblemsIff(p.changes);
  }

  /** The log only ever grows at its end. */
  lemma {:induction false} LogOnlyGrows(plans: seq<Plan>, ops: seq<Op>, n: nat, m: nat)
    requires History(plans, ops) && n <= m <= |ops|
    ensures plans[n].log <= plans[m].log
  {
    hide Next;
    if n < m {
      LogOnlyGrows(plans, ops, n, m - 1);
      StepGrowsLog(plans[m - 1], ops[m - 1]);
    }
  }

  lemma StepGrowsLog(p: Plan, op: Op)
    ensures p.log <= Next(p, op).log
  {
    hide Problems, Marks, IndexOf, Any, HasCheck, Noted, Swapped, Rewired, Strip, Wanted, NonBlank, NewChecks;
  }

  /** From review on the changes are frozen until the plan is a draft again. */
  lemma ChangesAreFrozen(p: Plan, op: Op)
    requires p.status != Draft && p.status != Analysed
    ensures Next(p, op).changes == p.changes
  {
    hide Problems, Marks, IndexOf, Any, HasCheck, Noted, Swapped, Rewired, Strip, Wanted, NonBlank, NewChecks;
  }

  /** A finished plan stays exactly as it is. */
  lemma {:induction false} FinishedIsFinal(plans: seq<Plan>, ops: seq<Op>, n: nat, m: nat)
    requires History(plans, ops) && n <= m <= |ops| && Terminal(plans[n].status)
    ensures plans[m] == plans[n]
  {
    hide Next;
    if n < m {
      FinishedIsFinal(plans, ops, n, m - 1);
      FinishedRefuses(plans[m - 1], ops[m - 1]);
    }
  }

  lemma FinishedRefuses(p: Plan, op: Op)
    requires Terminal(p.status)
    ensures Next(p, op) == p
  {
    hide Problems, Marks, IndexOf, Any, HasCheck, Noted, Swapped, Rewired, Strip, Wanted, NonBlank, NewChecks;
  }

  // ------------------------------------------------------------ readiness

  lemma {:induction false} SomeNonBlank(items: seq<string>)
    ensures NonBlank(items) != [] <==> exists i :: 0 <= i < |items| && Strip(items[i]) != ""
  {
    if items != [] { SomeNonBlank(items[1..]); }
  }

  predicate AnyText(items: seq<(string, string)>) {
    exists i :: 0 <= i < |items| && Strip(items[i].1) != ""
  }

  lemma {:induction false} SomeNewChecks(items: seq<(string, string)>)
    ensures NewChecks(items) != [] <==> AnyText(items)
  {
    if items != [] {
      SomeNewChecks(items[1..]);
      if AnyText(items) && Strip(items[0].1) == "" {
        var i :| 0 <= i < |items| && Strip(items[i].1) != "";
        assert Strip(items[1..][i - 1].1) != "";
      }
    }
  }

  /** Readiness can be withdrawn after it was examined: an update during review keeps
      the plan prepared exactly when none of its fields is blank. */
  lemma ReviewEditKeepsReadinessIff(p: Plan, u: Readiness)
    requires p.status == InReview && Prepared(p)
    ensures UpdateReadiness(p, u).Success?
    ensures Prepared(UpdateReadiness(p, u).value) <==>
            && (u.rollbackPlan.Some? ==> Strip(u.rollbackPlan.value) != "")
            && (u.criteria.Some? ==> exists i :: 0 <= i < |u.criteria.value| && Strip(u.criteria.value[i]) != "")
            && (u.preChecks.Some? ==> AnyText(u.preChecks.value))
            && (u.postChecks.Some? ==> AnyText(u.postChecks.value))
  {
    if u.criteria.Some? { SomeNonBlank(u.criteria.value); }
    if u.preChecks.Some? { SomeNewChecks(u.preChecks.value); }
    if u.postChecks.Some? { SomeNewChecks(u.postChecks.value); }
  }

  /** So a plan can be approved without a rollback plan and without checks. */
  lemma ApprovedUnprepared(p: Plan)
    requires p.status == Analysed && Prepared(p)
    ensures var blank := DoUpdateReadiness(Readiness(Some(""), None, Some([]), Some([]), None, None));
            var q := Next(Next(Next(p, DoSubmit), blank), DoDecide(true, ""));
            q.status == Approved && q.rollbackPlan == "" && q.preChecks == [] && q.postChecks == []
  {
    hide Prepared;
    assert Strip("") == "" && NewChecks([]) == [];
    var q1 := Next(p, DoSubmit);
    assert q1 == p.(status := InReview);
    var q2 := Next(q1, DoUpdateReadiness(Readiness(Some(""), None, Some([]), Some([]), None, None)));
    assert q2 == q1.(rollbackPlan := "", preChecks := [], postChecks := []);
  }
}
