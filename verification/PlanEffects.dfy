/**
 When the operations of the plan lifecycle go through and what they change
 (src/founderos_atlas/compass/lifecycle.py), told from the plan before and after.
 */
module PlanEffects {
  import opened Basics
  import opened PlanLifecycle
  import opened PlanHistory
  import ChangeOrdering

  /** Execution starts exactly from a scheduled plan whose pre-checks have all passed. */
  lemma StartsIff(p: Plan)
    ensures StartExecution(p).Success? <==>
            p.status == Scheduled && forall i :: 0 <= i < |p.preChecks| ==> p.preChecks[i].status == Passed
    ensures StartExecution(p).Success? ==> StartExecution(p).value == p.(status := Running, log := p.log + [Started])
  {
    if StartExecution(p).Success? {
      forall i | 0 <= i < |p.preChecks| ensures p.preChecks[i].status == Passed {
        assert !Any(p.preChecks, CheckFailed) && !Any(p.preChecks, Pending);
      }
    }
  }

  /** The checks with this identifier are noted as passed or failed; their texts, and all
      others, stay. */
  ghost predicate NotedIn(checks: seq<Check>, checks': seq<Check>, id: string, passed: bool) {
    && |checks'| == |checks|
    && forall i :: 0 <= i < |checks| ==>
         checks'[i] == if checks[i].id != id then checks[i]
                       else Check(id, checks[i].text, if passed then Passed else CheckFailed)
  }

  lemma {:induction false} NotedIsNotedIn(checks: seq<Check>, id: string, passed: bool)
    ensures NotedIn(checks, Noted(checks, id, passed), id, passed)
  {
    if checks != [] { NotedIsNotedIn(checks[1..], id, passed); }
  }

  ghost predicate Names(checks: seq<Check>, id: string) {
    exists c :: c in checks && c.id == id
  }

  lemma NamesIff(checks: seq<Check>, id: string)
    ensures HasCheck(checks, id) <==> Names(checks, id)
  {
  }

  /** A check is noted while the plan runs, and a pre-check also while it is scheduled;
      exactly the named check of the named list gets the outcome, and the log the entry. */
  lemma CheckIsNoted(p: Plan, post: bool, id: string, passed: bool)
    ensures RecordCheck(p, post, id, passed).Success? <==>
            && (p.status == Running || (p.status == Scheduled && !post))
            && if post then Names(p.postChecks, id) else Names(p.preChecks, id)
    ensures RecordCheck(p, post, id, passed).Success? ==>
              var q := RecordCheck(p, post, id, passed).value;
              && q == p.(preChecks := q.preChecks, postChecks := q.postChecks, log := p.log + [CheckNoted(id, passed)])
              && (if post then q.preChecks == p.preChecks && NotedIn(p.postChecks, q.postChecks, id, passed)
                  else q.postChecks == p.postChecks && NotedIn(p.preChecks, q.preChecks, id, passed))
  {
    NotedIsNotedIn(p.preChecks, id, passed);
    NotedIsNotedIn(p.postChecks, id, passed);
    NamesIff(p.preChecks, id);
    NamesIff(p.postChecks, id);
    hide Noted, NotedIn, HasCheck, Names;
  }

  /** Review is asked for from the analysed status, with changes in a valid order, a
      rollback plan, success criteria and both kinds of checks. */
  lemma SubmitsIff(p: Plan)
    requires UniqueIds(p.changes)
    ensures SubmitForReview(p).Success? <==>
            && p.status == Analysed && OrderValid(p.changes)
            && |p.changes| > 0 && |p.rollbackPlan| > 0 && |p.criteria| > 0 && |p.preChecks| > 0 && |p.postChecks| > 0
    ensures SubmitForReview(p).Success? ==> SubmitForReview(p).value == p.(status := InReview)
  {
    NoProblemsIff(p.changes);
    hide Problems, OrderValid;
  }

  /** A review is decided once, for or, with a reason, against; a refused plan is a draft
      again. */
  lemma DecidesIff(p: Plan, approve: bool, reason: string)
    ensures DecideReview(p, approve, reason).Success? <==> p.status == InReview && (approve || Strip(reason) != "")
    ensures DecideReview(p, approve, reason).Success? ==>
              DecideReview(p, approve, reason).value
              == if approve then p.(status := Approved, approved := Some(true))
                 else p.(status := Draft, approved := Some(false))
  {
    hide Strip;
  }

  /** An approved plan is scheduled for a window that begins before it ends. */
  lemma SchedulesIff(p: Plan, windowStart: string, windowEnd: string)
    ensures var r := Schedule(p, windowStart, windowEnd);
            && (r.Success? <==>
                  && p.status == Approved && Strip(windowStart) != ""
                  && ChangeOrdering.DictionaryBefore(Strip(windowStart), Strip(windowEnd)))
            && (r.Success? ==>
                  r.value == p.(status := Scheduled, windowStart := Strip(windowStart), windowEnd := Strip(windowEnd)))
  {
    ChangeOrdering.StringLessIff(Strip(windowStart), Strip(windowEnd));
    hide Strip;
  }

  /** A mark is logged while the plan runs, for one of its changes; that a change was not
      done needs a note. */
  lemma MarksIff(p: Plan, id: string, mark: Mark, note: string)
    ensures var r := CheckpointChange(p, id, mark, note);
            && (r.Success? <==>
                  && p.status == Running && (exists i :: 0 <= i < |p.changes| && p.changes[i].id == id)
                  && (mark == NotDone ==> Strip(note) != ""))
            && (r.Success? ==> r.value == p.(log := p.log + [Marked(id, mark)]))
  {
    IndexIsFirst(p.changes, id);
    hide IndexOf, Strip;
  }

  /** A running plan fails, a failed one is rolled back, and any that is not over is
      cancelled; each asks for an explanation and logs it, as a completed one its end. */
  lemma EndsIff(p: Plan, note: string)
    ensures Fail(p, note).Success? <==> p.status == Running && Strip(note) != ""
    ensures Fail(p, note).Success? ==> Fail(p, note).value == p.(status := Failed, log := p.log + [FailedWith(note)])
    ensures Complete(p).Success? ==> Complete(p).value == p.(status := Completed, log := p.log + [Ended])
    ensures Rollback(p, note).Success? <==> p.status == Failed && Strip(note) != ""
    ensures Rollback(p, note).Success? ==>
              Rollback(p, note).value == p.(status := RolledBack, log := p.log + [RestoredWith(note)])
    ensures Cancel(p, note).Success? <==> p.status !in {Completed, RolledBack, Cancelled} && Strip(note) != ""
    ensures Cancel(p, note).Success? ==>
              Cancel(p, note).value == p.(status := Cancelled, log := p.log + [CancelledWith(note)])
  {
    hide Strip;
  }

  // ------------------------------------------------------------ edits

  function Stripped(texts: seq<string>): (r: seq<string>)
    ensures |r| == |texts| && forall i :: 0 <= i < |texts| ==> r[i] == Strip(texts[i])
  {
    seq(|texts|, i requires 0 <= i < |texts| => Strip(texts[i]))
  }

  /** `wanted` is what remains of the texts when they are stripped and the blank ones and
      the change itself are left out. */
  ghost predicate Cleaned(texts: seq<string>, id: string, at: seq<nat>, wanted: seq<string>) {
    Filters(Stripped(texts), text => text != "" && text != id, at, wanted)
  }

  lemma {:induction false} WantedIsCleaned(texts: seq<string>, id: string) returns (at: seq<nat>)
    ensures Cleaned(texts, id, at, Wanted(texts, id))
  {
    hide Strip;
    if texts == [] {
      at := [];
    } else {
      hide Filters;
      assert Stripped(texts)[1..] == Stripped(texts[1..]);
      var later := WantedIsCleaned(texts[1..], id);
      at := FiltersMore(Stripped(texts), text => text != "" && text != id, later, Wanted(texts[1..], id));
    }
  }

  /** Dependencies are edited before review only, name changes of the plan, and must leave
      a valid order; the named change gets them and its group, and the plan is a draft. */
  lemma DependenciesAreSet(p: Plan, id: string, depends: seq<string>, group: Option<string>) returns (at: seq<nat>)
    requires UniqueIds(p.changes) && SetDependencies(p, id, depends, group).Success?
    ensures var q := SetDependencies(p, id, depends, group).value;
            && p.status in {Draft, Analysed} && q == p.(changes := q.changes, status := Draft)
            && |q.changes| == |p.changes| && OrderValid(q.changes)
            && forall i :: 0 <= i < |p.changes| ==>
                 if p.changes[i].id != id then q.changes[i] == p.changes[i]
                 else
                   && q.changes[i] == p.changes[i].(depends := q.changes[i].depends, group := q.changes[i].group)
                   && Cleaned(depends, id, at, q.changes[i].depends)
                   && q.changes[i].group == (if group.None? || Strip(group.value) == "" then None
                                             else Some(Strip(group.value)))
  {
    at := WantedIsCleaned(depends, id);
    RewiredAt(p.changes, id, Wanted(depends, id), GroupNamed(group));
    NoProblemsIff(SetDependencies(p, id, depends, group).value.changes);
    hide Problems, OrderValid, Strip, Wanted, Rewired, Cleaned, IndexOf;
  }

  /** A move exchanges the change with its neighbour on the side asked for, if there is
      one and the order allows it. */
  lemma ReorderMoves(p: Plan, id: string, direction: int)
    requires UniqueIds(p.changes) && Reorder(p, id, direction).Success?
    ensures p.status in {Draft, Analysed}
    ensures exists i :: 0 <= i < |p.changes| && p.changes[i].id == id
                        && MovedBy(p, Reorder(p, id, direction).value, i, if direction > 0 then 1 else -1)
  {
    IndexIsFirst(p.changes, id);
    var i: int := IndexOf(p.changes, id).value;
    hide IndexOf, Problems;
    assert MovedBy(p, Reorder(p, id, direction).value, i, if direction > 0 then 1 else -1);
  }

  ghost predicate MovedBy(p: Plan, q: Plan, i: int, shift: int)
    requires 0 <= i < |p.changes|
  {
    var j := i + shift;
    if !(0 <= j < |p.changes|) then q == p
    else
      && q == p.(changes := q.changes, status := Draft)
      && |q.changes| == |p.changes| && q.changes[i] == p.changes[j] && q.changes[j] == p.changes[i]
      && forall k :: 0 <= k < |p.changes| && k != i && k != j ==> q.changes[k] == p.changes[k]
  }

  function Offered(items: seq<(string, string)>): (r: seq<Check>)
    ensures |r| == |items|
    ensures forall i :: 0 <= i < |items| ==> r[i] == Check(items[i].0, Strip(items[i].1), Pending)
  {
    seq(|items|, i requires 0 <= i < |items| => Check(items[i].0, Strip(items[i].1), Pending))
  }

  /** The new checks are those whose texts are not blank, stripped, and all are pending. */
  ghost predicate Opened(items: seq<(string, string)>, at: seq<nat>, checks: seq<Check>) {
    Filters(Offered(items), (check: Check) => check.text != "", at, checks)
  }

  lemma {:induction false} NewChecksAreOpened(items: seq<(string, string)>) returns (at: seq<nat>)
    ensures Opened(items, at, NewChecks(items))
  {
    hide Strip;
    if items == [] {
      at := [];
    } else {
      hide Filters;
      assert Offered(items)[1..] == Offered(items[1..]);
      var later := NewChecksAreOpened(items[1..]);
      at := FiltersMore(Offered(items), (check: Check) => check.text != "", later, NewChecks(items[1..]));
    }
  }

  lemma {:induction false} NonBlankAreKept(items: seq<string>) returns (at: seq<nat>)
    ensures Filters(Stripped(items), text => text != "", at, NonBlank(items))
  {
    hide Strip;
    if items == [] {
      at := [];
    } else {
      hide Filters;
      assert Stripped(items)[1..] == Stripped(items[1..]);
      var later := NonBlankAreKept(items[1..]);
      at := FiltersMore(Stripped(items), text => text != "", later, NonBlank(items[1..]));
    }
  }

  /** The criteria are the texts that are not blank, stripped. */
  ghost predicate Kept(items: seq<string>, at: seq<nat>, texts: seq<string>) {
    Filters(Stripped(items), text => text != "", at, texts)
  }

  /** Until review is decided the readiness fields can be replaced, each for itself; new
      checks begin as pending. */
  lemma ReadinessIsSet(p: Plan, u: Readiness) returns (pre: seq<nat>, post: seq<nat>, criteria: seq<nat>)
    ensures UpdateReadiness(p, u).Success? <==> p.status in {Draft, Analysed, InReview}
    ensures UpdateReadiness(p, u).Success? ==>
              var q := UpdateReadiness(p, u).value;
              && q == p.(rollbackPlan := q.rollbackPlan, criteria := q.criteria, preChecks := q.preChecks,
                         postChecks := q.postChecks, windowStart := q.windowStart, windowEnd := q.windowEnd)
              && q.rollbackPlan == (match u.rollbackPlan case Some(text) => Strip(text) case None => p.rollbackPlan)
              && (match u.criteria case Some(items) => Kept(items, criteria, q.criteria)
                                   case None => q.criteria == p.criteria)
              && q.windowStart == (match u.windowStart case Some(text) => text case None => p.windowStart)
              && q.windowEnd == (match u.windowEnd case Some(text) => text case None => p.windowEnd)
              && (match u.preChecks case Some(items) => Opened(items, pre, q.preChecks)
                                    case None => q.preChecks == p.preChecks)
              && (match u.postChecks case Some(items) => Opened(items, post, q.postChecks)
                                     case None => q.postChecks == p.postChecks)
  {
    pre, post, criteria := [], [], [];
    if u.criteria.Some? { criteria := NonBlankAreKept(u.criteria.value); }
    if u.preChecks.Some? { pre := NewChecksAreOpened(u.preChecks.value); }
    if u.postChecks.Some? { post := NewChecksAreOpened(u.postChecks.value); }
    hide Strip, NonBlank, NewChecks, Opened, Filters;
  }
}
