/**
 The runtime services as they change their repositories in place
 (src/founderos_runtime): every method writes step by step, puts the saved
 repositories back when a later step fails, and is proved to have the effect and
 the answer of the operation on values in ProjectRuntime.
 */
module RuntimeStore {
  import opened Basics
  import opened ProjectRuntime

  // ------------------------------------------------------------ guards in order

  predicate AllHold(checks: seq<Check>) {
    forall i :: 0 <= i < |checks| ==> checks[i].passed
  }

  /** Guards that hold leave the outcome to the guards after them. */
  lemma {:induction false} PassedPrefix(done: seq<Check>, rest: seq<Check>)
    requires AllHold(done)
    ensures Results(done + rest) == Results(done) + Results(rest)
    ensures FirstFailure(done + rest) == FirstFailure(rest)
  {
    if done == [] {
      assert done + rest == rest;
    } else {
      assert (done + rest)[1..] == done[1..] + rest;
      PassedPrefix(done[1..], rest);
    }
  }

  lemma NothingFailed(checks: seq<Check>)
    requires AllHold(checks)
    ensures FirstFailure(checks) == None
  {
    PassedPrefix(checks, []);
    assert checks + [] == checks;
  }

  lemma PassedNext(done: seq<Check>, c: Check, rest: seq<Check>)
    requires AllHold(done)
    ensures Results(done + [c] + rest) ==
            Results(done) + [GuardResult(c.guard, c.passed)] + (if c.passed then Results(rest) else [])
    ensures FirstFailure(done + [c] + rest) == if c.passed then FirstFailure(rest) else Some(c.code)
  {
    assert done + [c] + rest == done + ([c] + rest);
    PassedPrefix(done, [c] + rest);
    assert ([c] + rest)[1..] == rest;
  }

  // ------------------------------------------------------------ references of a project

  datatype RefKey = RefKey(id: Id, version: Option<string>)

  function KeyOf(r: Ref): RefKey { RefKey(r.id, r.version) }

  ghost function Keys(refs: seq<Ref>): set<RefKey> {
    set r | r in refs :: KeyOf(r)
  }

  /** Completed references keep what was there, in place; gain every key that is
      asked for; and never name an artifact version twice that was not there twice. */
  lemma {:induction false} AddRefsIsUnion(known: seq<Ref>, refs: seq<Ref>)
    ensures known <= AddRefs(known, refs)
    ensures Keys(AddRefs(known, refs)) == Keys(known) + Keys(refs)
    ensures (forall i, j :: 0 <= i < j < |known| ==> KeyOf(known[i]) != KeyOf(known[j])) ==>
            var r := AddRefs(known, refs); forall i, j :: 0 <= i < j < |r| ==> KeyOf(r[i]) != KeyOf(r[j])
    decreases |refs|
  {
    if refs != [] {
      assert Keys(refs) == {KeyOf(refs[0])} + Keys(refs[1..]) by {
        assert refs == [refs[0]] + refs[1..];
      }
      if k :| k in known && k.id == refs[0].id && k.version == refs[0].version {
        assert KeyOf(k) == KeyOf(refs[0]);
        AddRefsIsUnion(known, refs[1..]);
      } else {
        assert KeyOf(refs[0]) !in Keys(known);
        AddRefsIsUnion(known + [refs[0]], refs[1..]);
      }
    }
  }

  // ------------------------------------------------------------ replay

  lemma {:induction false} ReplayStopsAtError(events: seq<Event>, i: nat)
    requires i <= |events| && ReplayAll(events[..i]).Failure?
    ensures ReplayAll(events) == ReplayAll(events[..i])
  {
    if i < |events| {
      assert events[..|events| - 1][..i] == events[..i];
      ReplayStopsAtError(events[..|events| - 1], i);
    } else {
      assert events[..i] == events;
    }
  }

  /** Deriving the summary of one event stream. */
  method ReplayProjectEvents(events: seq<Event>) returns (r: Result<Summary, ReplayError>)
    ensures r == Replay(events)
  {
    var summary: Option<Summary> := None;
    for i := 0 to |events|
      invariant ReplayAll(events[..i]) == Success(summary)
    {
      var e := events[i];
      assert events[..i + 1][..i] == events[..i];
      ghost var turn := ReplayOne(summary, e, i + 1);
      if turn.Failure? { ReplayStopsAtError(events, i + 1); }
      if e.sequence != i + 1 { return Failure(Gap); }
      if e.body.ProjectCreated? {
        if summary.Some? { return Failure(DuplicateCreated); }
        summary := Some(Summary(e.body.state, e.body.revision, e.sequence));
      } else if summary.None? {
        return Failure(NotCreated);
      } else if e.body.TransitionApplied? {
        if e.body.from != summary.value.state { return Failure(StateMismatch); }
        summary := Some(Summary(e.body.to, e.body.revision, e.sequence));
      } else if e.body.ProjectUpdated? {
        summary := Some(summary.value.(revision := e.body.revision, lastEvent := e.sequence));
      }
    }
    assert events[..|events|] == events;
    r := if summary.None? then Failure(EmptyStream) else Success(summary.value);
  }

  // ------------------------------------------------------------ the repositories

  /** The repositories and the correlation caches.  Where a method asks that a record
      is stored under its own identifier, HistoryKeepsKeys says that it always is. */
  class Runtime {
    var projects: map<Id, Project>
    var events: map<Id, Event>
    var streams: map<Id, seq<Id>>
    var transitions: map<Id, Transition>
    var workflows: map<Id, Workflow>
    var workflowRuns: map<Id, WorkflowRun>
    var agentRuns: map<Id, AgentRun>
    var artifacts: map<Id, Artifact>
    var evaluations: map<Id, Evaluation>
    var decisions: map<Id, Decision>
    var approvals: map<Id, Approval>
    var created: map<string, Id>
    var correlations: map<(Id, string), Id>

    function Value(): Store
      reads this
    {
      Store(projects, events, streams, transitions, workflows, workflowRuns, agentRuns, artifacts,
            evaluations, decisions, approvals, created, correlations)
    }

    constructor ()
      ensures Value() == Store(map[], map[], map[], map[], map[], map[], map[], map[], map[], map[], map[], map[],
                               map[])
    {
      projects, events, streams, transitions := map[], map[], map[], map[];
      workflows, workflowRuns, agentRuns := map[], map[], map[];
      artifacts, evaluations, decisions, approvals := map[], map[], map[], map[];
      created, correlations := map[], map[];
    }

    // ---------------------------------------------------------- repository steps

    method InsertProject(p: Project) returns (error: Option<Error>)
      modifies this`projects
      ensures error == if p.id in old(projects) then Some(Duplicate) else None
      ensures projects == if error.Some? then old(projects) else old(projects)[p.id := p]
    {
      if p.id in projects { return Some(Duplicate); }
      projects := projects[p.id := p];
      return None;
    }

    method InsertTransition(t: Transition) returns (error: Option<Error>)
      modifies this`transitions
      ensures error == if t.id in old(transitions) then Some(Duplicate) else None
      ensures transitions == if error.Some? then old(transitions) else old(transitions)[t.id := t]
    {
      if t.id in transitions { return Some(Duplicate); }
      transitions := transitions[t.id := t];
      return None;
    }

    /** A record is replaced by its next revision only. */
    method ReplaceProject(p: Project, expected: int) returns (error: Option<Error>)
      modifies this`projects
      ensures error == if p.id !in old(projects) then Some(NotFound)
                       else if old(projects)[p.id].revision != expected || p.revision != expected + 1 then
                         Some(RevisionConflict)
                       else None
      ensures projects == if error.Some? then old(projects) else old(projects)[p.id := p]
    {
      if p.id !in projects { return Some(NotFound); }
      if projects[p.id].revision != expected || p.revision != projects[p.id].revision + 1 {
        return Some(RevisionConflict);
      }
      projects := projects[p.id := p];
      return None;
    }

    method ReplaceWorkflowRun(r: WorkflowRun, expected: int) returns (error: Option<Error>)
      modifies this`workflowRuns
      ensures error == if r.id !in old(workflowRuns) then Some(NotFound)
                       else if old(workflowRuns)[r.id].revision != expected || r.revision != expected + 1 then
                         Some(RevisionConflict)
                       else None
      ensures workflowRuns == if error.Some? then old(workflowRuns) else old(workflowRuns)[r.id := r]
    {
      if r.id !in workflowRuns { return Some(NotFound); }
      if workflowRuns[r.id].revision != expected || r.revision != workflowRuns[r.id].revision + 1 {
        return Some(RevisionConflict);
      }
      workflowRuns := workflowRuns[r.id := r];
      return None;
    }

    method ReplaceAgentRun(r: AgentRun, expected: int) returns (error: Option<Error>)
      modifies this`agentRuns
      ensures error == if r.id !in old(agentRuns) then Some(NotFound)
                       else if old(agentRuns)[r.id].revision != expected || r.revision != expected + 1 then
                         Some(RevisionConflict)
                       else None
      ensures agentRuns == if error.Some? then old(agentRuns) else old(agentRuns)[r.id := r]
    {
      if r.id !in agentRuns { return Some(NotFound); }
      if agentRuns[r.id].revision != expected || r.revision != agentRuns[r.id].revision + 1 {
        return Some(RevisionConflict);
      }
      agentRuns := agentRuns[r.id := r];
      return None;
    }

    /** Streams are append-only and have no gaps: an event must carry the next
        sequence number of its project and a new identifier. */
    method AppendEvent(e: Event) returns (error: Option<Error>)
      modifies this`events, this`streams
      ensures error == if e.sequence != old(NextSequence(Value(), e.project)) then Some(RevisionConflict)
                       else if e.id in old(events) then Some(Duplicate)
                       else None
      ensures Value() == if error.Some? then old(Value()) else Appended(old(Value()), e)
    {
      var stream := if e.project in streams then streams[e.project] else [];
      if e.sequence != |stream| + 1 { return Some(RevisionConflict); }
      if e.id in events { return Some(Duplicate); }
      events := events[e.id := e];
      streams := streams[e.project := stream + [e.id]];
      return None;
    }

    method NextEvent(id: Id, project: Id, body: Body) returns (e: Event)
      ensures e == BuildEvent(Value(), id, project, body)
    {
      var stream := if project in streams then streams[project] else [];
      e := Event(id, project, |stream| + 1, body);
    }

    // ---------------------------------------------------------- projects

    method CommitNew(p: Project, e: Event) returns (error: Option<Error>)
      requires e.sequence == NextSequence(Value(), e.project)
      modifies this`projects, this`events, this`streams
      ensures error == if p.id in old(projects) || e.id in old(events) then Some(Duplicate) else None
      ensures Value() == if error.Some? then old(Value())
                         else Appended(old(Value()), e).(projects := old(projects)[p.id := p])
    {
      var savedProjects, savedEvents, savedStreams := projects, events, streams;
      error := InsertProject(p);
      if error.None? { error := AppendEvent(e); }
      if error.Some? {
        projects, events, streams := savedProjects, savedEvents, savedStreams;
      }
    }

    method Create(correlation: string, id: Id, event: Id, valid: bool) returns (r: Result<Project, Error>)
      modifies this
      ensures Outcome(Value(), r) == CreateProject(old(Value()), correlation, id, event, valid)
    {
      if correlation in created {
        var known := created[correlation];
        return if known in projects then Success(projects[known]) else Failure(NotFound);
      }
      if !valid { return Failure(SchemaInvalid); }
      var project := NewProject(id);
      var e := NextEvent(event, id, ProjectCreated(NoProject, 1));
      var error := CommitNew(project, e);
      if error.Some? { return Failure(error.value); }
      created := created[correlation := id];
      return Success(project);
    }

    /** The project's next revision and its event are written together or not at all. */
    method CommitProject(p: Project, expected: int, e: Event) returns (error: Option<Error>)
      requires p.id in projects && p.revision == projects[p.id].revision + 1
      requires e.sequence == NextSequence(Value(), e.project)
      modifies this`projects, this`events, this`streams
      ensures error == if old(projects)[p.id].revision != expected then Some(RevisionConflict)
                       else if e.id in old(events) then Some(Duplicate) else None
      ensures Value() == if error.Some? then old(Value())
                         else Appended(old(Value()), e).(projects := old(projects)[p.id := p])
    {
      var savedProjects, savedEvents, savedStreams := projects, events, streams;
      error := ReplaceProject(p, expected);
      if error.None? { error := AppendEvent(e); }
      if error.Some? {
        projects, events, streams := savedProjects, savedEvents, savedStreams;
      }
    }

    method Update(id: Id, expected: int, nextAction: Option<string>, event: Id, valid: bool)
      returns (r: Result<Project, Error>)
      requires id in projects ==> projects[id].id == id
      modifies this
      ensures Outcome(Value(), r) == UpdateDetails(old(Value()), id, expected, nextAction, event, valid)
    {
      if id !in projects { return Failure(NotFound); }
      var project := projects[id].(revision := projects[id].revision + 1);
      if nextAction.Some? { project := project.(nextAction := nextAction.value); }
      var e := NextEvent(event, id, ProjectUpdated(project.revision));
      project := project.(lastEvent := e.sequence);
      if !valid { return Failure(SchemaInvalid); }
      hide Appended, NextSequence;
      var error := CommitProject(project, expected, e);
      if error.Some? { return Failure(error.value); }
      return Success(project);
    }

    // ---------------------------------------------------------- guards

    method CheckWorkflow(cmd: Command, req: Requirement) returns (passed: bool)
      ensures passed == WorkflowReady(Value(), cmd, req)
    {
      if cmd.workflowRun.None? { return false; }
      var ref := cmd.workflowRun.value;
      if !WorkflowRunResolves(Value(), ref, cmd.project) { return false; }
      return workflowRuns[ref.id].status in req.workflowStatuses;
    }

    method CheckArtifacts(cmd: Command, req: Requirement) returns (passed: bool)
      ensures passed == ArtifactsApproved(Value(), cmd, req)
    {
      var approved: set<string> := {};
      for i := 0 to |cmd.artifacts|
        invariant forall j :: 0 <= j < i ==> ArtifactResolves(Value(), cmd.artifacts[j], cmd.project)
        invariant forall t :: t in approved <==>
                    exists j :: 0 <= j < i && Offers(artifacts[cmd.artifacts[j].id], t)
      {
        if !ArtifactResolves(Value(), cmd.artifacts[i], cmd.project) { return false; }
        var a := artifacts[cmd.artifacts[i].id];
        if a.approved { approved := approved + {a.kind}; }
      }
      passed := req.artifactTypes <= approved;
      if passed {
        forall t | t in req.artifactTypes
          ensures exists r :: r in cmd.artifacts && artifacts[r.id].approved && artifacts[r.id].kind == t
        {
          var j :| 0 <= j < |cmd.artifacts| && Offers(artifacts[cmd.artifacts[j].id], t);
          assert cmd.artifacts[j] in cmd.artifacts;
        }
      }
    }

    method CheckEvaluations(cmd: Command) returns (passed: bool)
      ensures passed == EvaluationsPass(Value(), cmd)
    {
      for i := 0 to |cmd.evaluations|
        invariant forall j :: 0 <= j < i ==> EvaluationResolves(Value(), cmd.evaluations[j], cmd.project)
      {
        if !EvaluationResolves(Value(), cmd.evaluations[i], cmd.project) { return false; }
      }
      passed := cmd.evaluations != [] && forall r :: r in cmd.evaluations ==>
                  var e := evaluations[r.id];
                  e.completed && e.pass && (e.confidence.Some? ==> e.confidence.value >= 0.70);
    }

    method CheckDecisions(cmd: Command) returns (passed: bool)
      ensures passed == DecisionsApproved(Value(), cmd)
    {
      for i := 0 to |cmd.decisions|
        invariant forall j :: 0 <= j < i ==> DecisionResolves(Value(), cmd.decisions[j], cmd.project)
      {
        if !DecisionResolves(Value(), cmd.decisions[i], cmd.project) { return false; }
      }
      passed := cmd.decisions != [] && forall r :: r in cmd.decisions ==> decisions[r.id].approved;
    }

    method CheckApprovals(cmd: Command, now: int) returns (passed: bool)
      ensures passed == ApprovalsGranted(Value(), cmd, now)
    {
      for i := 0 to |cmd.approvals|
        invariant forall j :: 0 <= j < i ==> ApprovalResolves(Value(), cmd.approvals[j], cmd.project)
      {
        if !ApprovalResolves(Value(), cmd.approvals[i], cmd.project) { return false; }
      }
      passed := cmd.approvals != [];
      for i := 0 to |cmd.approvals|
        invariant passed ==
                  (cmd.approvals != [] && forall j :: 0 <= j < i ==> Current(approvals[cmd.approvals[j].id], now))
      {
        var a := approvals[cmd.approvals[i].id];
        passed := passed && a.status == Granted && (a.expiresAt.Some? ==> a.expiresAt.value > now) && a.byHuman;
      }
      assert passed ==> forall r :: r in cmd.approvals ==> Current(approvals[r.id], now);
      assert !passed && cmd.approvals != [] ==> exists r :: r in cmd.approvals && !Current(approvals[r.id], now);
    }

    /** Notes the result of one guard; evaluation goes on only when it holds. */
    method Guard(results: seq<GuardResult>, c: Check, ghost done: seq<Check>, ghost rest: seq<Check>)
      returns (after: seq<GuardResult>, failed: bool)
      requires AllHold(done) && results == Results(done)
      ensures failed == !c.passed
      ensures failed ==> after == Results(done + [c] + rest) && FirstFailure(done + [c] + rest) == Some(c.code)
      ensures !failed ==> AllHold(done + [c]) && after == Results(done + [c])
    {
      PassedNext(done, c, rest);
      PassedNext(done, c, []);
      assert done + [c] + [] == done + [c];
      return results + [GuardResult(c.guard, c.passed)], !c.passed;
    }

    method GuardIf(wanted: bool, results: seq<GuardResult>, c: Check, ghost done: seq<Check>, ghost part: seq<Check>,
                   ghost rest: seq<Check>)
      returns (after: seq<GuardResult>, failed: bool)
      requires AllHold(done) && results == Results(done)
      requires part == if wanted then [c] else []
      ensures failed ==> after == Results(done + part + rest) && FirstFailure(done + part + rest) == Some(c.code)
      ensures !failed ==> AllHold(done + part) && after == Results(done + part)
    {
      if wanted {
        after, failed := Guard(results, c, done, rest);
      } else {
        assert done + part == done;
        after, failed := results, false;
      }
    }

    method EvaluateState(cmd: Command, now: int) returns (results: seq<GuardResult>, code: Option<Code>)
      requires cmd.project in projects
      ensures code.Some? ==> code == FirstFailure(Checks(Value(), cmd, now))
      ensures code.Some? ==> results == Results(Checks(Value(), cmd, now))
      ensures var first := Checks(Value(), cmd, now)[..4];
              code.None? ==> AllHold(first) && results == Results(first) && Route(cmd.from, cmd.to).Some?
    {
      assert Results([]) == [] && AllHold([]);
      hide Route, EvidenceChecks, Results, FirstFailure;
      var p, route := projects[cmd.project], Route(cmd.from, cmd.to);
      ghost var all := Checks(Value(), cmd, now);
      ghost var rest := all[4..];
      ghost var a, v, m, t := all[0], all[1], all[2], all[3];
      assert all == [a, v, m, t] + rest && all[..4] == [a, v, m, t];
      assert t == Check(TransitionAllowed, route.Some?, InvalidTransition);
      FourParts(a, v, m, t, rest);
      hide *;
      var failed;
      results, failed := Guard([], Check(ProjectActive, p.active, ProjectNotActive), [], [v, m, t] + rest);
      if failed { return results, Some(ProjectNotActive); }
      results, failed := Guard(results, Check(RevisionMatches, p.revision == cmd.expected, StaleRevision), [a],
                               [m, t] + rest);
      if failed { return results, Some(StaleRevision); }
      results, failed := Guard(results, Check(StateMatches, p.state == cmd.from, InvalidTransition), [a, v],
                               [t] + rest);
      if failed { return results, Some(InvalidTransition); }
      results, failed := Guard(results, Check(TransitionAllowed, route.Some?, InvalidTransition), [a, v, m], rest);
      return results, if failed then Some(InvalidTransition) else None;
    }

    /** What the route asks to have been produced. */
    method EvaluateProduced(cmd: Command, req: Requirement, ghost rest: seq<Check>)
      returns (results: seq<GuardResult>, code: Option<Code>)
      ensures var part := ProducedChecks(Value(), cmd, req);
              && (code.Some? ==> results == Results(part + rest) && FirstFailure(part + rest) == code)
              && (code.None? ==> AllHold(part) && results == Results(part))
    {
      assert Results([]) == [];
      ghost var s := Value();
      ghost var w := If(req.workflowStatuses != {}, Check(WorkflowSucceeded, WorkflowReady(s, cmd, req), GuardFailed));
      ghost var a := If(req.artifactTypes != {}, Check(ArtifactStatus, ArtifactsApproved(s, cmd, req), GuardFailed));
      assert ProducedChecks(s, cmd, req) == w + a;
      hide Results, FirstFailure, WorkflowReady, ArtifactsApproved, ProducedChecks;
      var failed, passed := false, true;
      if req.workflowStatuses != {} { passed := CheckWorkflow(cmd, req); }
      results, failed := GuardIf(req.workflowStatuses != {}, [], Check(WorkflowSucceeded, passed, GuardFailed), [], w,
                                 a + rest);
      assert [] + w + (a + rest) == w + a + rest && [] + w == w;
      if failed { return results, Some(GuardFailed); }
      if req.artifactTypes != {} { passed := CheckArtifacts(cmd, req); }
      results, failed := GuardIf(req.artifactTypes != {}, results, Check(ArtifactStatus, passed, GuardFailed), w, a,
                                 rest);
      return results, if failed then Some(GuardFailed) else None;
    }

    /** What the route asks to have been judged. */
    method EvaluateJudged(cmd: Command, req: Requirement, now: int)
      returns (results: seq<GuardResult>, code: Option<Code>)
      ensures results == Results(JudgedChecks(Value(), cmd, req, now))
      ensures code == FirstFailure(JudgedChecks(Value(), cmd, req, now))
    {
      assert Results([]) == [];
      ghost var s := Value();
      ghost var e := If(req.evaluation, Check(EvaluationPassed, EvaluationsPass(s, cmd), GuardFailed));
      ghost var d := If(req.decision, Check(DecisionRecorded, DecisionsApproved(s, cmd), GuardFailed));
      ghost var p := If(req.approval, Check(ApprovalGranted, ApprovalsGranted(s, cmd, now), ApprovalMissing));
      assert JudgedChecks(s, cmd, req, now) == e + d + p;
      hide Results, FirstFailure, EvaluationsPass, DecisionsApproved, ApprovalsGranted, JudgedChecks;
      var failed, passed := false, true;
      if req.evaluation { passed := CheckEvaluations(cmd); }
      results, failed := GuardIf(req.evaluation, [], Check(EvaluationPassed, passed, GuardFailed), [], e, d + p);
      assert [] + e + (d + p) == e + d + p && [] + e == e;
      if failed { return results, Some(GuardFailed); }
      if req.decision { passed := CheckDecisions(cmd); }
      results, failed := GuardIf(req.decision, results, Check(DecisionRecorded, passed, GuardFailed), e, d, p);
      if failed { return results, Some(GuardFailed); }
      if req.approval { passed := CheckApprovals(cmd, now); }
      results, failed := GuardIf(req.approval, results, Check(ApprovalGranted, passed, ApprovalMissing), e + d, p, []);
      assert e + d + p + [] == e + d + p;
      if failed { return results, Some(ApprovalMissing); }
      NothingFailed(e + d + p);
      return results, None;
    }

    /** Each kind of evidence is looked at only when the route asks for it. */
    method EvaluateEvidence(cmd: Command, req: Requirement, now: int)
      returns (results: seq<GuardResult>, code: Option<Code>)
      ensures code == FirstFailure(EvidenceChecks(Value(), cmd, req, now))
      ensures results == Results(EvidenceChecks(Value(), cmd, req, now))
    {
      ghost var produced, judged := ProducedChecks(Value(), cmd, req), JudgedChecks(Value(), cmd, req, now);
      assert EvidenceChecks(Value(), cmd, req, now) == produced + judged;
      hide *;
      results, code := EvaluateProduced(cmd, req, judged);
      if code.Some? { return; }
      PassedPrefix(produced, judged);
      var more;
      more, code := EvaluateJudged(cmd, req, now);
      results := results + more;
    }

    method Evaluate(cmd: Command, now: int) returns (results: seq<GuardResult>, code: Option<Code>)
      requires cmd.project in projects
      ensures code == FirstFailure(Checks(Value(), cmd, now))
      ensures results == Results(Checks(Value(), cmd, now))
    {
      hide Route, EvidenceChecks, Results, FirstFailure;
      ghost var all := Checks(Value(), cmd, now);
      results, code := EvaluateState(cmd, now);
      if code.Some? { return; }
      ChecksSplit(Value(), cmd, now);
      var more;
      var route := Route(cmd.from, cmd.to);
      hide *;
      more, code := EvaluateEvidence(cmd, route.value, now);
      PassedPrefix(all[..4], all[4..]);
      results := results + more;
    }

    // ---------------------------------------------------------- transitions

    /** References of the command that are not yet known, each once, at the end. */
    method CompletedRefs(completed: seq<Ref>, refs: seq<Ref>) returns (r: seq<Ref>)
      ensures r == AddRefs(completed, refs)
    {
      r := completed;
      var known := set k | k in completed :: KeyOf(k);
      for i := 0 to |refs|
        invariant known == Keys(r)
        invariant AddRefs(completed, refs) == AddRefs(r, refs[i..])
      {
        if KeyOf(refs[i]) !in known {
          r, known := r + [refs[i]], known + {KeyOf(refs[i])};
        }
      }
    }

    method MovedProject(cmd: Command, sequence: int) returns (p: Project)
      requires cmd.project in projects
      ensures p == Moved(Value(), projects[cmd.project], cmd, sequence)
    {
      var current := projects[cmd.project];
      var completed := CompletedRefs(current.completed, cmd.artifacts);
      p := current.(state := cmd.to, revision := current.revision + 1, lastEvent := sequence,
                    nextAction := "Continue from " + StageName(cmd.to), completed := completed);
      if cmd.artifacts != [] {
        p := p.(pending := StillPending(Value(), p.pending, cmd.artifacts));
      }
    }

    /** Inserts, appends and, for an applied transition, replaces, up to the first that
        fails. */
    method WriteDecision(t: Transition, e: Event, project: Option<Project>) returns (error: Option<Error>)
      requires e.sequence == NextSequence(Value(), e.project)
      requires project.Some? ==>
                 && project.value.id in projects
                 && projects[project.value.id].revision + 1 == project.value.revision
      modifies this`projects, this`transitions, this`events, this`streams
      ensures error == if t.id in old(transitions) || e.id in old(events) then Some(Duplicate) else None
      ensures error.None? ==>
                Value() == Appended(old(Value()), e).(
                  transitions := old(transitions)[t.id := t],
                  projects := if project.None? then old(projects)
                              else old(projects)[project.value.id := project.value])
    {
      error := InsertTransition(t);
      if error.Some? { return; }
      error := AppendEvent(e);
      if error.Some? || project.None? { return; }
      error := ReplaceProject(project.value, project.value.revision - 1);
    }

    /** When one of the writes fails every repository is put back. */
    method CommitDecision(t: Transition, e: Event, project: Option<Project>) returns (error: Option<Error>)
      requires e.sequence == NextSequence(Value(), e.project)
      requires project.Some? ==>
                 && project.value.id in projects
                 && projects[project.value.id].revision + 1 == project.value.revision
      modifies this`projects, this`transitions, this`events, this`streams
      ensures error == if t.id in old(transitions) || e.id in old(events) then Some(Duplicate) else None
      ensures Value() == if error.Some? then old(Value())
                         else Appended(old(Value()), e).(
                           transitions := old(transitions)[t.id := t],
                           projects := if project.None? then old(projects)
                                       else old(projects)[project.value.id := project.value])
    {
      hide Appended, NextSequence;
      var savedProjects, savedTransitions := projects, transitions;
      var savedEvents, savedStreams := events, streams;
      error := WriteDecision(t, e, project);
      if error.Some? {
        projects, transitions, events, streams := savedProjects, savedTransitions, savedEvents, savedStreams;
      }
    }

    /** Record and event of a refused transition, written together or not at all. */
    method Reject(cmd: Command, t: Transition, event: Id, valid: bool) returns (r: Result<Transition, Error>)
      requires cmd.project in projects && t.verdict.Rejected?
      requires t.project == cmd.project && t.correlation == cmd.correlation
      modifies this
      ensures Outcome(Value(), r) == Decide(old(Value()), cmd, t, event, valid)
    {
      if !valid { return Failure(SchemaInvalid); }
      var e := NextEvent(event, cmd.project, TransitionRejected(cmd.from, cmd.to, t.verdict.code));
      var error := CommitDecision(t, e, None);
      if error.Some? { return Failure(error.value); }
      correlations := correlations[(cmd.project, cmd.correlation) := t.id];
      return Success(t);
    }

    /** Record, event and project change of an applied transition, written together
        or not at all. */
    method Apply(cmd: Command, t: Transition, event: Id, valid: bool) returns (r: Result<Transition, Error>)
      requires cmd.project in projects && projects[cmd.project].id == cmd.project
      requires projects[cmd.project].revision == cmd.expected
      requires t.verdict == Applied(cmd.expected + 1) && t.project == cmd.project && t.correlation == cmd.correlation
      modifies this
      ensures Outcome(Value(), r) == Decide(old(Value()), cmd, t, event, valid)
    {
      var e := NextEvent(event, cmd.project, TransitionApplied(cmd.from, cmd.to, cmd.expected + 1));
      if !ArtifactsResolve(Value(), cmd) { return Failure(BadReference); }
      var project := MovedProject(cmd, e.sequence);
      assert project.id == cmd.project && project.revision == cmd.expected + 1;
      hide Moved, ArtifactsResolve, Results, Route;
      if !valid { return Failure(SchemaInvalid); }
      var error := CommitDecision(t, e, Some(project));
      if error.Some? { return Failure(error.value); }
      correlations := correlations[(cmd.project, cmd.correlation) := t.id];
      return Success(t);
    }

    method Transition(cmd: Command, id: Id, event: Id, now: int, valid: bool) returns (r: Result<Transition, Error>)
      requires cmd.project in projects ==> projects[cmd.project].id == cmd.project
      modifies this
      ensures Outcome(Value(), r) == Transit(old(Value()), cmd, id, event, now, valid)
    {
      var key := (cmd.project, cmd.correlation);
      if key in correlations {
        var known := correlations[key];
        return if known in transitions then Success(transitions[known]) else Failure(NotFound);
      }
      if cmd.project !in projects { return Failure(NotFound); }
      var results, code := Evaluate(cmd, now);
      if code.Some? {
        r := Reject(cmd, RecordOf(cmd, id, results, Rejected(code.value)), event, valid);
      } else {
        AppliedRevision(Value(), cmd, now);
        r := Apply(cmd, RecordOf(cmd, id, results, Applied(cmd.expected + 1)), event, valid);
      }
    }

    // ---------------------------------------------------------- runs

    /** The run's next revision and its event are written together or not at all. */
    method CommitWorkflowRun(run: WorkflowRun, expected: int, e: Event) returns (error: Option<Error>)
      requires run.id in workflowRuns && run.revision == workflowRuns[run.id].revision + 1
      requires e.sequence == NextSequence(Value(), e.project)
      modifies this`workflowRuns, this`events, this`streams
      ensures error == if old(workflowRuns)[run.id].revision != expected then Some(RevisionConflict)
                       else if e.id in old(events) then Some(Duplicate) else None
      ensures Value() == if error.Some? then old(Value())
                         else Appended(old(Value()), e).(workflowRuns := old(workflowRuns)[run.id := run])
    {
      var savedRuns, savedEvents, savedStreams := workflowRuns, events, streams;
      error := ReplaceWorkflowRun(run, expected);
      if error.None? { error := AppendEvent(e); }
      if error.Some? {
        workflowRuns, events, streams := savedRuns, savedEvents, savedStreams;
      }
    }

    /** An announced status is written with its event, any other for itself. */
    method WriteWorkflowRun(run: WorkflowRun, expected: int, event: Id) returns (error: Option<Error>)
      requires run.id in workflowRuns && run.revision == workflowRuns[run.id].revision + 1
      modifies this`workflowRuns, this`events, this`streams
      ensures error == StatusRefused(true, false, true, old(workflowRuns)[run.id].revision != expected,
                                     Announced(run.status) && event in old(events))
      ensures Value() == if error.Some? then old(Value())
                         else Announcing(old(Value()), run.status, event, run.project, run.id).(
                           workflowRuns := old(workflowRuns)[run.id := run])
    {
      hide Announced, Appended;
      if Announced(run.status) {
        var e := NextEvent(event, run.project, RunChanged(run.id, run.status));
        error := CommitWorkflowRun(run, expected, e);
      } else {
        error := ReplaceWorkflowRun(run, expected);
      }
    }

    method SetWorkflowRunStatus(id: Id, status: RunStatus, expected: int, details: bool, event: Id, valid: bool)
      returns (r: Result<WorkflowRun, Error>)
      requires id in workflowRuns ==> workflowRuns[id].id == id
      modifies this
      ensures Outcome(Value(), r) == SetWorkflowStatus(old(Value()), id, status, expected, details, event, valid)
    {
      hide WorkflowAllowed, Announced, Announcing;
      if id !in workflowRuns { return Failure(NotFound); }
      var run := workflowRuns[id];
      if !WorkflowAllowed(run.status, status) { return Failure(NotAllowed); }
      run := run.(status := status, revision := run.revision + 1);
      if status == Failed && !details { return Failure(FailureMissing); }
      if !valid { return Failure(SchemaInvalid); }
      var error := WriteWorkflowRun(run, expected, event);
      if error.Some? { return Failure(error.value); }
      return Success(run);
    }

    /** The run's next revision and its event are written together or not at all. */
    method CommitAgentRun(run: AgentRun, expected: int, e: Event) returns (error: Option<Error>)
      requires run.id in agentRuns && run.revision == agentRuns[run.id].revision + 1
      requires e.sequence == NextSequence(Value(), e.project)
      modifies this`agentRuns, this`events, this`streams
      ensures error == if old(agentRuns)[run.id].revision != expected then Some(RevisionConflict)
                       else if e.id in old(events) then Some(Duplicate) else None
      ensures Value() == if error.Some? then old(Value())
                         else Appended(old(Value()), e).(agentRuns := old(agentRuns)[run.id := run])
    {
      var savedRuns, savedEvents, savedStreams := agentRuns, events, streams;
      error := ReplaceAgentRun(run, expected);
      if error.None? { error := AppendEvent(e); }
      if error.Some? {
        agentRuns, events, streams := savedRuns, savedEvents, savedStreams;
      }
    }

    /** An announced status is written with its event, any other for itself. */
    method WriteAgentRun(run: AgentRun, expected: int, event: Id) returns (error: Option<Error>)
      requires run.id in agentRuns && run.revision == agentRuns[run.id].revision + 1
      modifies this`agentRuns, this`events, this`streams
      ensures error == StatusRefused(true, false, true, old(agentRuns)[run.id].revision != expected,
                                     Announced(run.status) && event in old(events))
      ensures Value() == if error.Some? then old(Value())
                         else Announcing(old(Value()), run.status, event, run.project, run.id).(
                           agentRuns := old(agentRuns)[run.id := run])
    {
      hide Announced, Appended;
      if Announced(run.status) {
        var e := NextEvent(event, run.project, RunChanged(run.id, run.status));
        error := CommitAgentRun(run, expected, e);
      } else {
        error := ReplaceAgentRun(run, expected);
      }
    }

    method SetOneAgentRunStatus(id: Id, status: RunStatus, expected: int, details: Option<bool>, event: Id, valid: bool)
      returns (r: Result<AgentRun, Error>)
      requires id in agentRuns ==> agentRuns[id].id == id
      modifies this`agentRuns, this`events, this`streams
      ensures Outcome(Value(), r) == SetAgentStatusOnly(old(Value()), id, status, expected, details, event, valid)
    {
      hide AgentAllowed, Announced, Announcing;
      if id !in agentRuns { return Failure(NotFound); }
      var run := agentRuns[id];
      if !AgentAllowed(run.status, status) { return Failure(NotAllowed); }
      run := run.(status := status, revision := run.revision + 1);
      if status == Failed {
        if details.None? { return Failure(FailureMissing); }
        run := run.(retryable := details.value);
      }
      if !valid { return Failure(SchemaInvalid); }
      var error := WriteAgentRun(run, expected, event);
      if error.Some? { return Failure(error.value); }
      return Success(run);
    }

    /** The last allowed failure of an agent run fails its workflow run as well. */
    method SetAgentRunStatus(id: Id, status: RunStatus, expected: int, details: Option<bool>,
                             correlation: string, event: Id, cascade: Id, valid: bool)
      returns (r: Result<AgentRun, Error>)
      requires id in agentRuns ==> agentRuns[id].id == id
      requires forall w :: w in workflowRuns ==> workflowRuns[w].id == w
      modifies this
      ensures Outcome(Value(), r) ==
              SetAgentStatus(old(Value()), id, status, expected, details, correlation, event, cascade, valid)
    {
      r := SetOneAgentRunStatus(id, status, expected, details, event, StatusValid(status, correlation, valid));
      if r.Failure? || status != Failed { return; }
      var a := r.value;
      if !WorkflowRunResolves(Value(), a.workflowRun, a.project) { return Failure(BadReference); }
      var w := workflowRuns[a.workflowRun.id];
      if !WorkflowResolves(Value(), w.workflow) { return Failure(BadReference); }
      if a.attempt >= workflows[w.workflow.id].maxAttempts && !Terminal(w.status) {
        var second := SetWorkflowRunStatus(w.id, Failed, w.revision, true, cascade,
                                           StatusValid(Failed, Derived(correlation), true));
        if second.Failure? { return Failure(second.error); }
      }
    }

    method StartWorkflowRun(project: Ref, workflow: Ref, entry: Stage, attempt: int, id: Id, valid: bool)
      returns (r: Result<WorkflowRun, Error>)
      modifies this`workflowRuns
      ensures Outcome(Value(), r) == CreateWorkflowRun(old(Value()), project, workflow, entry, attempt, id, valid)
    {
      hide WorkflowResolves, ProjectResolves;
      if project.id !in projects { return Failure(NotFound); }
      var p := projects[project.id];
      if !ProjectResolves(Value(), project) { return Failure(BadReference); }
      if !WorkflowResolves(Value(), workflow) { return Failure(BadReference); }
      if !p.active || p.state != entry { return Failure(NotAllowed); }
      if !valid { return Failure(SchemaInvalid); }
      if id in workflowRuns { return Failure(Duplicate); }
      var run := WorkflowRun(id, 1, project.id, workflow, Queued, entry, attempt);
      workflowRuns := workflowRuns[id := run];
      return Success(run);
    }

    method StartAgentRun(project: Id, workflowRun: Ref, attempt: int, id: Id, valid: bool)
      returns (r: Result<AgentRun, Error>)
      modifies this`agentRuns
      ensures Outcome(Value(), r) == CreateAgentRun(old(Value()), project, workflowRun, attempt, id, valid)
    {
      if project !in projects { return Failure(NotFound); }
      if !WorkflowRunResolves(Value(), workflowRun, project) { return Failure(BadReference); }
      var status := workflowRuns[workflowRun.id].status;
      if !status.Running? && !status.WaitingForInput? { return Failure(NotAllowed); }
      if !valid { return Failure(SchemaInvalid); }
      if id in agentRuns { return Failure(Duplicate); }
      var run := AgentRun(id, 1, project, workflowRun, Queued, attempt, false);
      agentRuns := agentRuns[id := run];
      return Success(run);
    }

    method Retry(failed: Id, id: Id, valid: bool) returns (r: Result<AgentRun, Error>)
      modifies this`agentRuns
      ensures Outcome(Value(), r) == RetryAgentRun(old(Value()), failed, id, valid)
    {
      if failed !in agentRuns { return Failure(NotFound); }
      var f := agentRuns[failed];
      if f.status != Failed || !f.retryable { return Failure(NotAllowed); }
      r := StartAgentRun(f.project, f.workflowRun, f.attempt + 1, id, valid);
    }

    // ---------------------------------------------------------- evidence records

    method Insert(ev: Evidence) returns (error: Option<Error>)
      requires !ev.ApproveArtifact? && !ev.DecideApproval?
      modifies this`workflows, this`artifacts, this`evaluations, this`decisions, this`approvals
      ensures Wrote(old(Value()), Inserted(old(Value()), ev), error, Value())
    {
      match ev {
        case NewArtifact(a) =>
          if a.id in artifacts { return Some(Duplicate); }
          artifacts := artifacts[a.id := a];
        case NewEvaluation(e) =>
          if e.id in evaluations { return Some(Duplicate); }
          evaluations := evaluations[e.id := e];
        case RequestApproval(a) =>
          if a.id in approvals { return Some(Duplicate); }
          approvals := approvals[a.id := a];
        case NewDecision(d) =>
          if d.id in decisions { return Some(Duplicate); }
          decisions := decisions[d.id := d];
        case NewWorkflow(w) =>
          if w.id in workflows { return Some(Duplicate); }
          workflows := workflows[w.id := w];
      }
      return None;
    }

    method Write(ev: Evidence, valid: bool) returns (error: Option<Error>)
      modifies this`workflows, this`artifacts, this`evaluations, this`decisions, this`approvals
      ensures Wrote(old(Value()), Recorded(old(Value()), ev, valid), error, Value())
    {
      if ev.ApproveArtifact? {
        if ev.artifact !in artifacts { return Some(NotFound); }
        var a := artifacts[ev.artifact];
        if !valid { return Some(SchemaInvalid); }
        artifacts := artifacts[ev.artifact := a.(approved := true, revision := a.revision + 1)];
        return None;
      }
      if ev.DecideApproval? {
        if !ev.byHuman { return Some(NotAllowed); }
        if ev.approval !in approvals { return Some(NotFound); }
        var a := approvals[ev.approval];
        if a.status != Pending { return Some(NotAllowed); }
        if !valid { return Some(SchemaInvalid); }
        approvals := approvals[ev.approval := a.(status := Granted, byHuman := true, revision := a.revision + 1)];
        return None;
      }
      if !valid { return Some(SchemaInvalid); }
      error := Insert(ev);
    }

    /** The record is written first and stays when its event is not valid or cannot be
        appended. */
    method Record(ev: Evidence, event: Id, valid: bool, eventValid: bool) returns (r: Result<(), Error>)
      modifies this
      ensures Outcome(Value(), r) == RecordEvidence(old(Value()), ev, event, valid, eventValid)
    {
      if AlreadyGranted(Value(), ev) { return Success(()); }
      var owner := OwnerOf(Value(), ev);
      EventsStay(Value(), ev, valid);
      hide Recorded, OwnerOf, AlreadyGranted;
      var error := Write(ev, valid);
      if error.Some? { return Failure(error.value); }
      if owner.None? { return Success(()); }
      var e := NextEvent(event, owner.value, Lifecycle("evidence"));
      if !eventValid { return Failure(SchemaInvalid); }
      error := AppendEvent(e);
      return if error.Some? then Failure(error.value) else Success(());
    }
  }

  /** What a record change leaves behind: the changed repositories, or the error and
      all as before. */
  predicate Wrote(before: Store, change: Result<Store, Error>, error: Option<Error>, after: Store) {
    match change
    case Failure(x) => error == Some(x) && after == before
    case Success(s) => error == None && after == s
  }

  lemma EventsStay(s: Store, ev: Evidence, valid: bool)
    ensures Recorded(s, ev, valid).Success? ==> Recorded(s, ev, valid).value.events == s.events
  {
  }

  lemma FourParts(a: Check, v: Check, m: Check, t: Check, rest: seq<Check>)
    ensures [] + [a] + ([v, m, t] + rest) == [a, v, m, t] + rest && [] + [a] == [a]
    ensures [a] + [v] + ([m, t] + rest) == [a, v, m, t] + rest && [a] + [v] == [a, v]
    ensures [a, v] + [m] + ([t] + rest) == [a, v, m, t] + rest && [a, v] + [m] == [a, v, m]
    ensures [a, v, m] + [t] == [a, v, m, t]
  {
  }

  lemma ChecksSplit(s: Store, cmd: Command, now: int)
    requires cmd.project in s.projects && Route(cmd.from, cmd.to).Some?
    ensures Checks(s, cmd, now)[4..] == EvidenceChecks(s, cmd, Route(cmd.from, cmd.to).value, now)
    ensures Checks(s, cmd, now) == Checks(s, cmd, now)[..4] + Checks(s, cmd, now)[4..]
  {
    hide Route, EvidenceChecks;
  }

  lemma AppliedRevision(s: Store, cmd: Command, now: int)
    requires cmd.project in s.projects && FirstFailure(Checks(s, cmd, now)).None?
    ensures s.projects[cmd.project].revision == cmd.expected
  {
    hide Route, EvidenceChecks;
  }

  predicate Offers(a: Artifact, kind: string) {
    a.approved && a.kind == kind
  }

  predicate Current(a: Approval, now: int) {
    a.status == Granted && a.byHuman && (a.expiresAt.Some? ==> a.expiresAt.value > now)
  }
}
