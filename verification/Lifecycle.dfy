/**
 The change plan lifecycle (src/founderos_atlas/compass/lifecycle.py): order
 validation, edits, transitions and the evidence each of them asks for.
 */
module PlanLifecycle {
  import opened Basics
  import ChangeIdentity
  import ChangeOrdering

  datatype Change = Change(id: string, depends: seq<string>, group: Option<string>)

  datatype Status =
    | Draft | Analysed | InReview | Approved | Scheduled | Running | Completed | Failed | RolledBack | Cancelled

  datatype CheckStatus = Pending | Passed | CheckFailed

  datatype Check = Check(id: string, text: string, status: CheckStatus)

  datatype Mark = Done | NotDone | Skipped

  datatype Happening =
    | Started | Ended | FailedWith(why: string) | RestoredWith(what: string) | CancelledWith(reason: string)
    | CheckNoted(check: string, passed: bool)
    | Marked(change: string, mark: Mark)

  datatype Plan = Plan(
    status: Status, changes: seq<Change>, rollbackPlan: string, criteria: seq<string>,
    preChecks: seq<Check>, postChecks: seq<Check>, approved: Option<bool>,
    windowStart: string, windowEnd: string, log: seq<Happening>)

  datatype Refusal =
    | WrongStatus | NotReady | BrokenOrder | UnknownChange | UnknownCheck | TextMissing | BadWindow
    | ChecksOpen | ChecksFailed | ChangesOpen | ChangesFailed

  function Strip(s: string): string { ChangeIdentity.Strip(s) }

  // ------------------------------------------------------------ order

  /** Where a change stands; the last one counts when an identifier repeats. */
  function PositionOf(changes: seq<Change>, id: string): (r: Option<nat>)
    ensures r.Some? <==> exists i :: 0 <= i < |changes| && changes[i].id == id
    ensures r.Some? ==> r.value < |changes| && changes[r.value].id == id
    ensures r.Some? ==> forall j :: r.value < j < |changes| ==> changes[j].id != id
  {
    if changes == [] then None
    else if changes[|changes| - 1].id == id then Some(|changes| - 1)
    else PositionOf(changes[..|changes| - 1], id)
  }

  predicate Grouped(g: Option<string>) { g.Some? && g.value != "" }

  predicate Together(changes: seq<Change>, i: nat, j: nat)
    requires i < |changes| && j < |changes|
  {
    Grouped(changes[i].group) && changes[i].group == changes[j].group
  }

  datatype Problem = NotInPlan(change: string, needed: string) | TooEarly(change: string, needed: string)

  function ProblemOf(changes: seq<Change>, c: string, needed: string): seq<Problem> {
    var p, q := PositionOf(changes, needed), PositionOf(changes, c);
    if p.None? then [NotInPlan(c, needed)]
    else if q.Some? && p.value >= q.value && !Together(changes, p.value, q.value) then [TooEarly(c, needed)]
    else []
  }

  function ProblemsWith(changes: seq<Change>, c: string, needs: seq<string>): seq<Problem> {
    if needs == [] then []
    else ProblemsWith(changes, c, needs[..|needs| - 1]) + ProblemOf(changes, c, needs[|needs| - 1])
  }

  function ProblemsUpTo(changes: seq<Change>, k: nat): seq<Problem>
    requires k <= |changes|
  {
    if k == 0 then []
    else ProblemsUpTo(changes, k - 1) + ProblemsWith(changes, changes[k - 1].id, changes[k - 1].depends)
  }

  function Problems(changes: seq<Change>): seq<Problem> {
    ProblemsUpTo(changes, |changes|)
  }

  ghost predicate Indexed(changes: seq<Change>, position: map<string, nat>, groups: map<string, Option<string>>) {
    && (forall c :: c in position <==> PositionOf(changes, c).Some?)
    && (forall c :: c in position ==>
          c in groups && position[c] == PositionOf(changes, c).value && groups[c] == changes[position[c]].group)
  }

  /** Position and group of every change, later entries replacing earlier ones. */
  method Index(changes: seq<Change>) returns (position: map<string, nat>, groups: map<string, Option<string>>)
    ensures Indexed(changes, position, groups)
  {
    position, groups := map[], map[];
    for i := 0 to |changes|
      invariant Indexed(changes[..i], position, groups)
    {
      assert changes[..i + 1][..i] == changes[..i];
      position, groups := position[changes[i].id := i], groups[changes[i].id := changes[i].group];
    }
    assert changes[..|changes|] == changes;
  }

  method CheckNeed(changes: seq<Change>, position: map<string, nat>, groups: map<string, Option<string>>, c: string,
                   needed: string)
    returns (problems: seq<Problem>)
    requires Indexed(changes, position, groups) && c in position
    ensures problems == ProblemOf(changes, c, needed)
  {
    if needed !in position { return [NotInPlan(c, needed)]; }
    if position[needed] >= position[c] && !(Grouped(groups[needed]) && groups[needed] == groups[c]) {
      return [TooEarly(c, needed)];
    }
    return [];
  }

  method CheckNeeds(changes: seq<Change>, position: map<string, nat>, groups: map<string, Option<string>>, c: string,
                    needs: seq<string>)
    returns (problems: seq<Problem>)
    requires Indexed(changes, position, groups) && c in position
    ensures problems == ProblemsWith(changes, c, needs)
  {
    hide Indexed, ProblemOf;
    problems := [];
    for j := 0 to |needs|
      invariant problems == ProblemsWith(changes, c, needs[..j])
    {
      assert needs[..j + 1][..j] == needs[..j];
      var found := CheckNeed(changes, position, groups, c, needs[j]);
      problems := problems + found;
    }
    assert needs[..|needs|] == needs;
  }

  /** Problems with the execution order; none when it is valid. */
  method ValidateOrder(changes: seq<Change>) returns (problems: seq<Problem>)
    ensures problems == Problems(changes)
  {
    hide PositionOf, ProblemsWith;
    problems := [];
    var position, groups := Index(changes);
    assert forall i :: 0 <= i < |changes| ==> changes[i].id in position;
    hide Indexed;
    for i := 0 to |changes|
      invariant problems == ProblemsUpTo(changes, i)
    {
      var found := CheckNeeds(changes, position, groups, changes[i].id, changes[i].depends);
      problems := problems + found;
    }
  }

  predicate UniqueIds(changes: seq<Change>) {
    forall i, j :: 0 <= i < j < |changes| ==> changes[i].id != changes[j].id
  }

  ghost predicate MetBy(changes: seq<Change>, i: nat, needed: string, j: nat)
    requires i < |changes|
  {
    j < |changes| && changes[j].id == needed && (j < i || Together(changes, i, j))
  }

  ghost predicate Met(changes: seq<Change>, i: nat, needed: string)
    requires i < |changes|
  {
    exists j: nat :: MetBy(changes, i, needed, j)
  }

  /** Everything a change needs is in the plan and runs before it, or with it. */
  ghost predicate OrderValid(changes: seq<Change>) {
    forall i, needed :: 0 <= i < |changes| && needed in changes[i].depends ==> Met(changes, i, needed)
  }

  lemma {:induction false} NoProblemsWith(changes: seq<Change>, c: string, needs: seq<string>)
    ensures ProblemsWith(changes, c, needs) == [] <==> forall n :: n in needs ==> ProblemOf(changes, c, n) == []
  {
    hide ProblemOf;
    if needs != [] {
      NoProblemsWith(changes, c, needs[..|needs| - 1]);
      assert needs == needs[..|needs| - 1] + [needs[|needs| - 1]];
    }
  }

  lemma {:induction false} NoProblemsUpTo(changes: seq<Change>, k: nat)
    requires k <= |changes|
    ensures ProblemsUpTo(changes, k) == [] <==>
              forall i :: 0 <= i < k ==> ProblemsWith(changes, changes[i].id, changes[i].depends) == []
  {
    hide ProblemsWith;
    if k > 0 { NoProblemsUpTo(changes, k - 1); }
  }

  lemma OneNeed(changes: seq<Change>, i: nat, n: string)
    requires UniqueIds(changes) && i < |changes|
    ensures ProblemOf(changes, changes[i].id, n) == [] <==> Met(changes, i, n)
  {
    hide PositionOf;
    assert PositionOf(changes, changes[i].id) == Some(i);
    if PositionOf(changes, n).Some? {
      var j := PositionOf(changes, n).value;
      assert MetBy(changes, i, n, j) <==> ProblemOf(changes, changes[i].id, n) == [];
    }
  }

  /** Validation finds nothing exactly when the order is valid. */
  lemma NoProblemsIff(changes: seq<Change>)
    requires UniqueIds(changes)
    ensures Problems(changes) == [] <==> OrderValid(changes)
  {
    hide ProblemOf, ProblemsWith, Met, ProblemsUpTo;
    NoProblemsUpTo(changes, |changes|);
    forall i, n | 0 <= i < |changes| ensures ProblemOf(changes, changes[i].id, n) == [] <==> Met(changes, i, n) {
      OneNeed(changes, i, n);
    }
    forall i | 0 <= i < |changes|
      ensures ProblemsWith(changes, changes[i].id, changes[i].depends) == [] <==>
              forall n :: n in changes[i].depends ==> Met(changes, i, n)
    {
      NoProblemsWith(changes, changes[i].id, changes[i].depends);
    }
  }

  // ------------------------------------------------------------ edits

  function IndexOf(changes: seq<Change>, id: string): Option<nat> {
    if changes == [] then None
    else if changes[0].id == id then Some(0)
    else if IndexOf(changes[1..], id).Some? then Some(IndexOf(changes[1..], id).value + 1)
    else None
  }

  function Swapped(changes: seq<Change>, i: nat, j: nat): seq<Change>
    requires i < |changes| && j < |changes|
  {
    changes[i := changes[j]][j := changes[i]]
  }

  /** Moves one change up or down by one place. */
  function Reorder(p: Plan, id: string, direction: int): Result<Plan, Refusal> {
    if p.status != Draft && p.status != Analysed then Failure(WrongStatus)
    else
      var index := IndexOf(p.changes, id);
      if index.None? then Failure(UnknownChange)
      else
        var target := index.value + (if direction > 0 then 1 else -1);
        if !(0 <= target < |p.changes|) || index.value >= |p.changes| then Success(p)
        else
          var changes := Swapped(p.changes, index.value, target);
          if Problems(changes) != [] then Failure(BrokenOrder)
          else Success(p.(changes := changes, status := Draft))
  }

  function Wanted(depends: seq<string>, id: string): seq<string> {
    if depends == [] then []
    else
      var item := Strip(depends[0]);
      (if item != "" && item != id then [item] else []) + Wanted(depends[1..], id)
  }

  function Rewired(changes: seq<Change>, id: string, depends: seq<string>, group: Option<string>): seq<Change> {
    if changes == [] then []
    else [if changes[0].id == id then changes[0].(depends := depends, group := group) else changes[0]]
         + Rewired(changes[1..], id, depends, group)
  }

  function GroupNamed(group: Option<string>): Option<string> {
    if group.None? || Strip(group.value) == "" then None else Some(Strip(group.value))
  }

  function SetDependencies(p: Plan, id: string, depends: seq<string>, group: Option<string>): Result<Plan, Refusal> {
    if p.status != Draft && p.status != Analysed then Failure(WrongStatus)
    else
      var wanted := Wanted(depends, id);
      if exists w :: w in wanted && IndexOf(p.changes, w).None? then Failure(UnknownChange)
      else
        var changes := Rewired(p.changes, id, wanted, GroupNamed(group));
        if Problems(changes) != [] then Failure(BrokenOrder)
        else Success(p.(changes := changes, status := Draft))
  }

  // ------------------------------------------------------------ readiness

  function NonBlank(items: seq<string>): seq<string> {
    if items == [] then []
    else (if Strip(items[0]) != "" then [Strip(items[0])] else []) + NonBlank(items[1..])
  }

  /** New checks, pending, for the texts that are not blank; identifiers come from
      outside. */
  function NewChecks(items: seq<(string, string)>): seq<Check> {
    if items == [] then []
    else
      var text := Strip(items[0].1);
      (if text != "" then [Check(items[0].0, text, Pending)] else []) + NewChecks(items[1..])
  }

  /** The readiness fields to change; None leaves a field as it is. */
  datatype Readiness = Readiness(
    rollbackPlan: Option<string>, criteria: Option<seq<string>>,
    preChecks: Option<seq<(string, string)>>, postChecks: Option<seq<(string, string)>>,
    windowStart: Option<string>, windowEnd: Option<string>)

  function UpdateReadiness(p: Plan, u: Readiness): Result<Plan, Refusal> {
    if p.status != Draft && p.status != Analysed && p.status != InReview then Failure(WrongStatus)
    else Success(p.(
      rollbackPlan := if u.rollbackPlan.Some? then Strip(u.rollbackPlan.value) else p.rollbackPlan,
      criteria := if u.criteria.Some? then NonBlank(u.criteria.value) else p.criteria,
      preChecks := if u.preChecks.Some? then NewChecks(u.preChecks.value) else p.preChecks,
      postChecks := if u.postChecks.Some? then NewChecks(u.postChecks.value) else p.postChecks,
      windowStart := if u.windowStart.Some? then u.windowStart.value else p.windowStart,
      windowEnd := if u.windowEnd.Some? then u.windowEnd.value else p.windowEnd))
  }

  /** Everything review asks for, but for the status. */
  predicate Prepared(p: Plan) {
    && p.changes != [] && p.rollbackPlan != "" && p.criteria != []
    && p.preChecks != [] && p.postChecks != [] && Problems(p.changes) == []
  }

  // ------------------------------------------------------------ transitions

  function Analyse(p: Plan): Result<Plan, Refusal> {
    if p.status != Draft then Failure(WrongStatus) else Success(p.(status := Analysed))
  }

  function SubmitForReview(p: Plan): Result<Plan, Refusal> {
    if p.status != Analysed || !Prepared(p) then Failure(NotReady) else Success(p.(status := InReview))
  }

  function DecideReview(p: Plan, approve: bool, reason: string): Result<Plan, Refusal> {
    if p.status != InReview then Failure(WrongStatus)
    else if !approve && Strip(reason) == "" then Failure(TextMissing)
    else Success(p.(status := if approve then Approved else Draft, approved := Some(approve)))
  }

  function Schedule(p: Plan, windowStart: string, windowEnd: string): Result<Plan, Refusal> {
    var start, end := Strip(windowStart), Strip(windowEnd);
    if p.status != Approved then Failure(WrongStatus)
    else if start == "" || end == "" || !ChangeOrdering.StringLess(start, end) then Failure(BadWindow)
    else Success(p.(status := Scheduled, windowStart := start, windowEnd := end))
  }

  function Noted(checks: seq<Check>, id: string, passed: bool): seq<Check> {
    if checks == [] then []
    else [if checks[0].id == id then checks[0].(status := if passed then Passed else CheckFailed) else checks[0]]
         + Noted(checks[1..], id, passed)
  }

  predicate HasCheck(checks: seq<Check>, id: string) {
    exists i :: 0 <= i < |checks| && checks[i].id == id
  }

  function RecordCheck(p: Plan, post: bool, id: string, passed: bool): Result<Plan, Refusal> {
    if p.status != Running && (post || p.status != Scheduled) then Failure(WrongStatus)
    else if !HasCheck(if post then p.postChecks else p.preChecks, id) then Failure(UnknownCheck)
    else
      var log := p.log + [CheckNoted(id, passed)];
      if post then Success(p.(postChecks := Noted(p.postChecks, id, passed), log := log))
      else Success(p.(preChecks := Noted(p.preChecks, id, passed), log := log))
  }

  predicate Any(checks: seq<Check>, status: CheckStatus) {
    exists i :: 0 <= i < |checks| && checks[i].status == status
  }

  function StartExecution(p: Plan): Result<Plan, Refusal> {
    if p.status != Scheduled then Failure(WrongStatus)
    else if Any(p.preChecks, CheckFailed) then Failure(ChecksFailed)
    else if Any(p.preChecks, Pending) then Failure(ChecksOpen)
    else Success(p.(status := Running, log := p.log + [Started]))
  }

  function CheckpointChange(p: Plan, id: string, mark: Mark, note: string): Result<Plan, Refusal> {
    if p.status != Running then Failure(WrongStatus)
    else if IndexOf(p.changes, id).None? then Failure(UnknownChange)
    else if mark == NotDone && Strip(note) == "" then Failure(TextMissing)
    else Success(p.(log := p.log + [Marked(id, mark)]))
  }

  /** The latest mark of every change that has one. */
  function Marks(log: seq<Happening>): map<string, Mark> {
    if log == [] then map[]
    else
      var e := log[|log| - 1];
      var m := Marks(log[..|log| - 1]);
      if e.Marked? && e.change != "" then m[e.change := e.mark] else m
  }

  method ChangeCheckpoints(log: seq<Happening>) returns (outcomes: map<string, Mark>)
    ensures outcomes == Marks(log)
  {
    outcomes := map[];
    for i := 0 to |log|
      invariant outcomes == Marks(log[..i])
    {
      assert log[..i + 1][..i] == log[..i];
      match log[i]
      case Marked(change, mark) => if change != "" { outcomes := outcomes[change := mark]; }
      case _ =>
    }
    assert log[..|log|] == log;
  }

  function Complete(p: Plan): Result<Plan, Refusal> {
    var marks := Marks(p.log);
    if p.status != Running then Failure(WrongStatus)
    else if exists i :: 0 <= i < |p.changes| && p.changes[i].id !in marks then Failure(ChangesOpen)
    else if exists c :: c in marks && marks[c] == NotDone then Failure(ChangesFailed)
    else if Any(p.postChecks, Pending) then Failure(ChecksOpen)
    else if Any(p.postChecks, CheckFailed) then Failure(ChecksFailed)
    else Success(p.(status := Completed, log := p.log + [Ended]))
  }

  function Fail(p: Plan, note: string): Result<Plan, Refusal> {
    if p.status != Running then Failure(WrongStatus)
    else if Strip(note) == "" then Failure(TextMissing)
    else Success(p.(status := Failed, log := p.log + [FailedWith(note)]))
  }

  function Rollback(p: Plan, note: string): Result<Plan, Refusal> {
    if p.status != Failed then Failure(WrongStatus)
    else if Strip(note) == "" then Failure(TextMissing)
    else Success(p.(status := RolledBack, log := p.log + [RestoredWith(note)]))
  }

  predicate Terminal(s: Status) {
    s == Completed || s == RolledBack || s == Cancelled
  }

  function Cancel(p: Plan, reason: string): Result<Plan, Refusal> {
    if Terminal(p.status) then Failure(WrongStatus)
    else if Strip(reason) == "" then Failure(TextMissing)
    else Success(p.(status := Cancelled, log := p.log + [CancelledWith(reason)]))
  }
}
