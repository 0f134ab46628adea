/**
 Event streams, replay, routes and guards of the project aggregate
 (src/founderos_runtime): what each operation does to the events, and that stored
 projects stay what their events replay to.
 */
module RuntimeEvents {
  import opened Basics
  import opened ProjectRuntime

  // ------------------------------------------------------------ streams and replay

  lemma {:induction false} EventsOfFrame(events: map<Id, Event>, e: Event, ids: seq<Id>)
    requires e.id !in events && forall i :: i in ids ==> i in events
    ensures EventsOf(events[e.id := e], ids) == EventsOf(events, ids)
    ensures |EventsOf(events, ids)| == |ids|
  {
    if ids != [] {
      EventsOfFrame(events, e, ids[..|ids| - 1]);
    }
  }

  lemma StreamIds(s: Store, p: Id)
    requires StreamsOk(s)
    ensures forall i :: i in Stream(s, p) ==> i in s.events
  {
    forall i | i in Stream(s, p) ensures i in s.events {
      var k :| 0 <= k < |s.streams[p]| && s.streams[p][k] == i;
      assert EventAt(s, p, k);
    }
  }

  /** An event built for a project lands at the end of that stream and nowhere else. */
  lemma AppendStream(s: Store, id: Id, p: Id, body: Body)
    requires StreamsOk(s) && id !in s.events
    ensures var e := BuildEvent(s, id, p, body);
            && StreamsOk(Appended(s, e))
            && e.sequence == |ForProject(s, p)| + 1
            && ForProject(Appended(s, e), p) == ForProject(s, p) + [e]
            && forall q :: q != p ==> ForProject(Appended(s, e), q) == ForProject(s, q)
  {
    var e := BuildEvent(s, id, p, body);
    var s' := Appended(s, e);
    forall q, k | q in s'.streams && 0 <= k < |s'.streams[q]| ensures EventAt(s', q, k) {
      if q in s.streams && k < |s.streams[q]| { assert EventAt(s, q, k); }
    }
    StreamIds(s, p);
    EventsOfFrame(s.events, e, Stream(s, p));
    assert Stream(s', p)[..|Stream(s', p)| - 1] == Stream(s, p);
    forall q | q != p ensures ForProject(s', q) == ForProject(s, q) {
      StreamIds(s, q);
      EventsOfFrame(s.events, e, Stream(s, q));
    }
  }

  lemma ReplayAppend(events: seq<Event>, e: Event)
    ensures ReplayAll(events + [e]) ==
            match ReplayAll(events)
            case Failure(x) => Failure(x)
            case Success(sum) => ReplayOne(sum, e, |events| + 1)
  {
    assert (events + [e])[..|events|] == events;
  }

  predicate Quiet(b: Body) {
    b.TransitionRejected? || b.RunChanged? || b.Lifecycle?
  }

  /** What a body does to the summary of an existing project. */
  predicate Carries(before: Summary, b: Body, sequence: int, after: Summary) {
    match b
    case ProjectCreated(_, _) => false
    case ProjectUpdated(revision) => after == Summary(before.state, revision, sequence)
    case TransitionApplied(from, to, revision) => from == before.state && after == Summary(to, revision, sequence)
    case _ => after == before
  }

  /** One more event changes what a stream replays to as its body says. */
  lemma CarriesOver(events: seq<Event>, e: Event, before: Summary, after: Summary, strict: bool)
    requires Replay(events).Success? && Tells(Replay(events).value, before, strict)
    requires e.sequence == |events| + 1 && Carries(before, e.body, e.sequence, after)
    ensures Replay(events + [e]).Success? && Tells(Replay(events + [e]).value, after, strict)
  {
    ReplayAppend(events, e);
  }

  lemma SameStreams(s: Store, s': Store)
    requires s'.events == s.events && s'.streams == s.streams
    ensures forall q :: ForProject(s', q) == ForProject(s, q)
  {
  }

  /** Appending one event and changing the one project it belongs to accordingly. */
  lemma AppendKeepsReplay(s: Store, id: Id, p: Id, body: Body, projects: map<Id, Project>, strict: bool)
    requires StreamsOk(s) && ReplayOk(s, strict) && id !in s.events
    requires forall q :: q in projects && q != p ==> q in s.projects && projects[q] == s.projects[q]
    requires p in projects ==>
               && p in s.projects && projects[p].id == p
               && Carries(SummaryOf(s.projects[p]), body, NextSequence(s, p), SummaryOf(projects[p]))
    ensures StreamsOk(Appended(s, BuildEvent(s, id, p, body)).(projects := projects))
    ensures ReplayOk(Appended(s, BuildEvent(s, id, p, body)).(projects := projects), strict)
  {
    hide Replay, ForProject, EventsOf, Carries, Tells;
    var e := BuildEvent(s, id, p, body);
    AppendStream(s, id, p, body);
    var s' := Appended(s, e).(projects := projects);
    assert forall q :: ForProject(s', q) == ForProject(Appended(s, e), q) by { SameStreams(Appended(s, e), s'); }
    forall q, k | q in s'.streams && 0 <= k < |s'.streams[q]| ensures EventAt(s', q, k) {
      assert EventAt(Appended(s, e), q, k);
    }
    forall q | q in projects ensures ProjectReplays(s', q, strict) {
      assert ProjectReplays(s, q, strict);
      if q == p { CarriesOver(ForProject(s, p), e, SummaryOf(s.projects[p]), SummaryOf(projects[p]), strict); }
    }
  }

  lemma SameEventsReplay(s: Store, s': Store, strict: bool)
    requires StreamsOk(s) && ReplayOk(s, strict)
    requires s'.events == s.events && s'.streams == s.streams && s'.projects == s.projects
    ensures StreamsOk(s') && ReplayOk(s', strict)
  {
    forall q, k | q in s'.streams && 0 <= k < |s'.streams[q]| ensures EventAt(s', q, k) {
      assert EventAt(s, q, k);
    }
    forall q | q in s'.projects ensures ProjectReplays(s', q, strict) { assert ProjectReplays(s, q, strict); }
  }

  lemma {:induction false} ReplayNeedsEvents(events: seq<Event>)
    ensures ReplayAll(events) == Success(None) <==> events == []
  {
    if events != [] { ReplayNeedsEvents(events[..|events| - 1]); }
  }

  lemma CreatedStream(s: Store, correlation: string, id: Id, event: Id)
    requires StreamsOk(s) && event !in s.events
    ensures var s' := WithProject(s, correlation, id, event);
            && StreamsOk(s')
            && Replay(ForProject(s', id)) ==
                 (if Stream(s, id) == [] then Success(SummaryOf(NewProject(id)))
                  else if ReplayAll(ForProject(s, id)).Failure? then Failure(ReplayAll(ForProject(s, id)).error)
                  else Failure(DuplicateCreated))
            && (forall q :: q != id ==> ForProject(s', q) == ForProject(s, q))
  {
    var e := BuildEvent(s, event, id, ProjectCreated(NoProject, 1));
    AppendStream(s, event, id, e.body);
    var s' := WithProject(s, correlation, id, event);
    forall q, k | q in s'.streams && 0 <= k < |s'.streams[q]| ensures EventAt(s', q, k) {
      assert EventAt(Appended(s, e), q, k);
    }
    ReplayAppend(ForProject(s, id), e);
    ReplayNeedsEvents(ForProject(s, id));
    StreamIds(s, id);
    EventsOfFrame(s.events, e, Stream(s, id));
    assert ForProject(s', id) == ForProject(s, id) + [e];
  }

  /** Creating a project keeps the replay invariant exactly when no event was ever
      appended for its identifier. */
  lemma CreateKeepsReplayIff(s: Store, correlation: string, id: Id, event: Id, strict: bool)
    requires StreamsOk(s) && ReplayOk(s, strict) && id !in s.projects && event !in s.events
    ensures StreamsOk(WithProject(s, correlation, id, event))
    ensures ReplayOk(WithProject(s, correlation, id, event), strict) <==> Stream(s, id) == []
  {
    hide Replay, ForProject, WithProject;
    var s' := WithProject(s, correlation, id, event);
    CreatedStream(s, correlation, id, event);
    CreateFrame(s, correlation, id, event);
    assert id in s'.projects && s'.projects[id] == NewProject(id);
    if Stream(s, id) == [] {
      forall q | q in s'.projects ensures ProjectReplays(s', q, strict) {
        if q != id { assert ProjectReplays(s, q, strict); }
      }
    } else {
      assert !ProjectReplays(s', id, strict);
    }
  }

  // ------------------------------------------------------------ routes

  predicate BodyOk(b: Body) {
    && (b.ProjectCreated? ==> b.state == NoProject)
    && (b.TransitionApplied? ==> Route(b.from, b.to).Some?)
  }

  ghost predicate RoutesOk(s: Store) {
    forall e :: e in s.events ==> BodyOk(s.events[e].body)
  }

  function Moves(events: seq<Event>): seq<(Stage, Stage)> {
    if events == [] then []
    else
      Moves(events[..|events| - 1]) +
      (match events[|events| - 1].body
       case TransitionApplied(from, to, _) => [(from, to)]
       case _ => [])
  }

  /** The moves lead from `start` to `end`, each along the route table. */
  predicate RoutePath(moves: seq<(Stage, Stage)>, start: Stage, end: Stage) {
    if moves == [] then start == end
    else
      var last := moves[|moves| - 1];
      last.1 == end && Route(last.0, last.1).Some? && RoutePath(moves[..|moves| - 1], start, last.0)
  }

  lemma {:induction false} ReplayFollowsRoutes(events: seq<Event>)
    requires ReplayAll(events).Success? && forall e :: e in events ==> BodyOk(e.body)
    ensures match ReplayAll(events).value
            case None => events == []
            case Some(sum) => RoutePath(Moves(events), NoProject, sum.state)
  {
    hide Route;
    if events != [] {
      var before := events[..|events| - 1];
      var e := events[|events| - 1];
      ReplayFollowsRoutes(before);
      assert e in events;
      if e.body.TransitionApplied? {
        assert Moves(events)[..|Moves(events)| - 1] == Moves(before);
      } else {
        assert Moves(events) == Moves(before);
        if e.body.ProjectCreated? { assert before == [] by { ReplayNeedsEvents(before); } }
      }
    }
  }

  lemma {:induction false} EventsOfMembers(events: map<Id, Event>, ids: seq<Id>)
    ensures forall e :: e in EventsOf(events, ids) ==> exists i :: i in events && events[i] == e
  {
    if ids != [] { EventsOfMembers(events, ids[..|ids| - 1]); }
  }

  /** The applied transitions in the stream of a stored project form a path of the
      route table from the initial state to the state it is stored with. */
  lemma ProjectFollowsRoutes(s: Store, p: Id)
    requires StreamsOk(s) && ReplayOk(s, true) && RoutesOk(s) && p in s.projects
    ensures RoutePath(Moves(ForProject(s, p)), NoProject, s.projects[p].state)
  {
    assert ProjectReplays(s, p, true);
    EventsOfMembers(s.events, Stream(s, p));
    ReplayFollowsRoutes(ForProject(s, p));
  }

  // ------------------------------------------------------------ guards

  /** All guards passed, or all but the last. */
  predicate AllPassed(guards: seq<GuardResult>) {
    forall i :: 0 <= i < |guards| ==> guards[i].passed
  }

  predicate TransitionOk(t: Transition) {
    match t.verdict
    case Applied(_) => AllPassed(t.guards) && Route(t.from, t.to).Some?
    case Rejected(_) => t.guards != [] && !t.guards[|t.guards| - 1].passed && AllPassed(t.guards[..|t.guards| - 1])
  }

  lemma {:induction false} ResultsShape(checks: seq<Check>)
    ensures FirstFailure(checks).None? <==> forall i :: 0 <= i < |checks| ==> checks[i].passed
    ensures FirstFailure(checks).None? ==> AllPassed(Results(checks)) && |Results(checks)| == |checks|
    ensures FirstFailure(checks).Some? ==>
              var r := Results(checks); r != [] && !r[|r| - 1].passed && AllPassed(r[..|r| - 1])
  {
    if checks != [] {
      ResultsShape(checks[1..]);
      var r, rest := Results(checks), Results(checks[1..]);
      if checks[0].passed {
        forall i | 0 <= i < |checks| && FirstFailure(checks).None? ensures checks[i].passed {
          if i > 0 { assert checks[1..][i - 1].passed; }
        }
        if FirstFailure(checks).Some? {
          assert r[..|r| - 1] == [r[0]] + rest[..|rest| - 1];
        }
      }
    }
  }

  lemma ChecksBegin(s: Store, cmd: Command, now: int)
    requires cmd.project in s.projects
    ensures var c := Checks(s, cmd, now);
            && |c| >= 4
            && c[2] == Check(StateMatches, s.projects[cmd.project].state == cmd.from, InvalidTransition)
            && c[3] == Check(TransitionAllowed, Route(cmd.from, cmd.to).Some?, InvalidTransition)
            && (Route(cmd.from, cmd.to).Some? ==> c[4..] == EvidenceChecks(s, cmd, Route(cmd.from, cmd.to).value, now))
  {
    var route := Route(cmd.from, cmd.to);
    if route.Some? {
      var head := Checks(s, cmd, now)[..4];
      assert Checks(s, cmd, now) == head + EvidenceChecks(s, cmd, route.value, now);
    }
  }

  /** A transition is applied only with the evidence its route asks for: an applied
      transition on a route that needs approval has current human approvals of this
      project, and so for evaluations, decisions, artifacts and the workflow run. */
  lemma AppliedNeedsEvidence(s: Store, cmd: Command, id: Id, event: Id, now: int, valid: bool)
    requires (cmd.project, cmd.correlation) !in s.correlations
    requires var r := Transit(s, cmd, id, event, now, valid).result; r.Success? && r.value.verdict.Applied?
    ensures cmd.project in s.projects && s.projects[cmd.project].active
    ensures s.projects[cmd.project].state == cmd.from && s.projects[cmd.project].revision == cmd.expected
    ensures Route(cmd.from, cmd.to).Some?
    ensures var req := Route(cmd.from, cmd.to).value;
            && (req.workflowStatuses != {} ==> WorkflowReady(s, cmd, req))
            && (req.artifactTypes != {} ==> ArtifactsApproved(s, cmd, req))
            && (req.evaluation ==> EvaluationsPass(s, cmd))
            && (req.decision ==> DecisionsApproved(s, cmd))
            && (req.approval ==> ApprovalsGranted(s, cmd, now))
  {
    var checks := Checks(s, cmd, now);
    ResultsShape(checks);
    ChecksBegin(s, cmd, now);
    assert checks[0].passed && checks[1].passed && checks[2].passed && checks[3].passed;
    var evidence := EvidenceChecks(s, cmd, Route(cmd.from, cmd.to).value, now);
    forall i | 0 <= i < |evidence| ensures evidence[i].passed {
      assert checks[4..][i] == checks[i + 4];
    }
    EvidencePasses(s, cmd, Route(cmd.from, cmd.to).value, now);
  }

  lemma EvidencePasses(s: Store, cmd: Command, req: Requirement, now: int)
    requires forall c :: c in EvidenceChecks(s, cmd, req, now) ==> c.passed
    ensures req.workflowStatuses != {} ==> WorkflowReady(s, cmd, req)
    ensures req.artifactTypes != {} ==> ArtifactsApproved(s, cmd, req)
    ensures req.evaluation ==> EvaluationsPass(s, cmd)
    ensures req.decision ==> DecisionsApproved(s, cmd)
    ensures req.approval ==> ApprovalsGranted(s, cmd, now)
  {
    var all := EvidenceChecks(s, cmd, req, now);
    assert req.workflowStatuses != {} ==> Check(WorkflowSucceeded, WorkflowReady(s, cmd, req), GuardFailed) in all;
    assert req.artifactTypes != {} ==> Check(ArtifactStatus, ArtifactsApproved(s, cmd, req), GuardFailed) in all;
    assert req.evaluation ==> Check(EvaluationPassed, EvaluationsPass(s, cmd), GuardFailed) in all;
    assert req.decision ==> Check(DecisionRecorded, DecisionsApproved(s, cmd), GuardFailed) in all;
    assert req.approval ==> Check(ApprovalGranted, ApprovalsGranted(s, cmd, now), ApprovalMissing) in all;
  }

  /** Streams have no gaps, stored projects replay and, when `strict`, every event is one
      the route table allows. */
  ghost predicate EventsOk(s: Store, strict: bool) {
    StreamsOk(s) && ReplayOk(s, strict) && (strict ==> RoutesOk(s))
  }

  // ------------------------------------------------------- operations and events

  lemma SameEventsOk(s: Store, s': Store, strict: bool)
    requires EventsOk(s, strict) && s'.events == s.events && s'.streams == s.streams && s'.projects == s.projects
    ensures EventsOk(s', strict)
  {
    SameEventsReplay(s, s', strict);
  }

  /** One event was appended and the project it belongs to changed with it. */
  lemma EventKeepsEvents(s: Store, event: Id, p: Id, body: Body, s': Store, strict: bool)
    requires EventsOk(s, strict) && event !in s.events && BodyOk(body)
    requires s'.events == Appended(s, BuildEvent(s, event, p, body)).events
    requires s'.streams == Appended(s, BuildEvent(s, event, p, body)).streams
    requires forall q :: q in s'.projects && q != p ==> q in s.projects && s'.projects[q] == s.projects[q]
    requires p in s'.projects ==>
               && p in s.projects && s'.projects[p].id == p
               && Carries(SummaryOf(s.projects[p]), body, NextSequence(s, p), SummaryOf(s'.projects[p]))
    ensures EventsOk(s', strict)
  {
    var mid := Appended(s, BuildEvent(s, event, p, body)).(projects := s'.projects);
    AppendKeepsReplay(s, event, p, body, s'.projects, strict);
    assert strict ==> RoutesOk(mid);
    SameEventsOk(mid, s', strict);
  }

  lemma QuietKeepsEvents(s: Store, event: Id, p: Id, body: Body, s': Store, strict: bool)
    requires EventsOk(s, strict) && event !in s.events && Quiet(body)
    requires s'.events == Appended(s, BuildEvent(s, event, p, body)).events
    requires s'.streams == Appended(s, BuildEvent(s, event, p, body)).streams
    requires s'.projects == s.projects
    ensures EventsOk(s', strict)
  {
    if p in s.projects { assert s.projects[p].id == p; }
    EventKeepsEvents(s, event, p, body, s', strict);
  }

  /** A call that stores a new project under an identifier that has events already. */
  predicate CreatesOverEvents(s: Store, correlation: string, id: Id, event: Id, valid: bool) {
    correlation !in s.created && valid && id !in s.projects && event !in s.events && Stream(s, id) != []
  }

  lemma CreateKeepsEvents(s: Store, correlation: string, id: Id, event: Id, valid: bool, strict: bool)
    requires EventsOk(s, strict)
    ensures EventsOk(CreateProject(s, correlation, id, event, valid).store, strict) <==>
            !CreatesOverEvents(s, correlation, id, event, valid)
  {
    hide ReplayOk, StreamsOk, Route;
    if correlation !in s.created && valid && id !in s.projects && event !in s.events {
      CreateKeepsReplayIff(s, correlation, id, event, strict);
      assert strict ==> RoutesOk(WithProject(s, correlation, id, event));
    }
  }

  lemma UpdateKeepsEvents(s: Store, id: Id, expected: int, nextAction: Option<string>, event: Id, valid: bool,
                          strict: bool)
    requires EventsOk(s, strict)
    ensures EventsOk(UpdateDetails(s, id, expected, nextAction, event, valid).store, strict)
  {
    if id in s.projects && event !in s.events {
      assert s.projects[id].id == id;
      CommitUpdate(s, id, nextAction, event, strict);
    }
  }

  lemma CommitUpdate(s: Store, id: Id, nextAction: Option<string>, event: Id, strict: bool)
    requires EventsOk(s, strict) && id in s.projects && s.projects[id].id == id && event !in s.events
    ensures EventsOk(WithUpdate(s, id, nextAction, event), strict)
  {
    hide EventsOk;
    EventKeepsEvents(s, event, id, ProjectUpdated(s.projects[id].revision + 1), WithUpdate(s, id, nextAction, event),
                     strict);
  }

  lemma CommitDecision(s: Store, cmd: Command, t: Transition, event: Id, strict: bool)
    requires EventsOk(s, strict) && cmd.project in s.projects && s.projects[cmd.project].id == cmd.project
    requires event !in s.events
    requires t.verdict.Applied? ==>
               && s.projects[cmd.project].state == cmd.from && Route(cmd.from, cmd.to).Some?
               && t.verdict.revision == s.projects[cmd.project].revision + 1
    ensures EventsOk(WithDecision(s, cmd, t, event), strict)
  {
    hide EventsOk, Route, AddRefs, StillPending;
    EventKeepsEvents(s, event, cmd.project, DecisionEvent(cmd, t.verdict), WithDecision(s, cmd, t, event), strict);
  }

  /** An applied verdict means the project is in the state the route starts from. */
  lemma AppliedIsRouted(s: Store, cmd: Command, now: int)
    requires cmd.project in s.projects && VerdictOf(s, cmd, now).Applied?
    ensures s.projects[cmd.project].state == cmd.from && Route(cmd.from, cmd.to).Some?
  {
    hide Route, EvidenceChecks;
    var checks := Checks(s, cmd, now);
    ResultsShape(checks);
    ChecksBegin(s, cmd, now);
    assert checks[2].passed && checks[3].passed;
  }

  lemma TransitKeepsEvents(s: Store, cmd: Command, id: Id, event: Id, now: int, valid: bool, strict: bool)
    requires EventsOk(s, strict)
    ensures EventsOk(Transit(s, cmd, id, event, now, valid).store, strict)
  {
    hide Route, Checks, WithDecision;
    if cmd.project in s.projects && event !in s.events {
      assert s.projects[cmd.project].id == cmd.project;
      if VerdictOf(s, cmd, now).Applied? { AppliedIsRouted(s, cmd, now); }
      CommitDecision(s, cmd, RecordOf(cmd, id, Results(Checks(s, cmd, now)), VerdictOf(s, cmd, now)), event, strict);
    }
  }

  /** Announcing a run status leaves everything but the events alone. */
  lemma AnnouncingFrame(s: Store, status: RunStatus, event: Id, project: Id, run: Id, strict: bool)
    requires EventsOk(s, strict) && (Announced(status) ==> event !in s.events)
    ensures var s' := Announcing(s, status, event, project, run);
            && EventsOk(s', strict) && OnlyEventsChange(s, s')
            && (forall e :: e in s'.events ==> e == event || e in s.events)
  {
    hide EventsOk;
    var s' := Announcing(s, status, event, project, run);
    if Announced(status) {
      QuietKeepsEvents(s, event, project, RunChanged(run, status), s', strict);
    }
  }

  ghost predicate OnlyEventsChange(s: Store, s': Store) {
    Framed(s, s') && s'.projects == s.projects
    && s'.workflows == s.workflows && s'.workflowRuns == s.workflowRuns && s'.agentRuns == s.agentRuns
  }

  lemma WorkflowStatusKeepsEvents(s: Store, id: Id, status: RunStatus, expected: int, details: bool, event: Id,
                                  valid: bool, strict: bool)
    requires EventsOk(s, strict)
    ensures EventsOk(SetWorkflowStatus(s, id, status, expected, details, event, valid).store, strict)
  {
    hide EventsOk, Announcing;
    if id in s.workflowRuns && (Announced(status) ==> event !in s.events) {
      var mid := Announcing(s, status, event, s.workflowRuns[id].project, id);
      AnnouncingFrame(s, status, event, s.workflowRuns[id].project, id, strict);
      SameEventsOk(mid, WithWorkflowStatus(s, id, status, event), strict);
    }
  }

  lemma AgentStatusOnlyKeepsEvents(s: Store, id: Id, status: RunStatus, expected: int, details: Option<bool>,
                                   event: Id, valid: bool, strict: bool)
    requires EventsOk(s, strict)
    ensures EventsOk(SetAgentStatusOnly(s, id, status, expected, details, event, valid).store, strict)
  {
    hide EventsOk, Announcing;
    if id in s.agentRuns && (Announced(status) ==> event !in s.events) {
      var mid := Announcing(s, status, event, s.agentRuns[id].project, id);
      AnnouncingFrame(s, status, event, s.agentRuns[id].project, id, strict);
      SameEventsOk(mid, WithAgentStatus(s, id, status, details.Some? && details.value, event), strict);
    }
  }

  lemma CascadeKeepsEvents(s: Store, a: AgentRun, correlation: string, event: Id, strict: bool)
    requires EventsOk(s, strict)
    ensures EventsOk(Cascade(s, a, correlation, event).store, strict)
  {
    hide EventsOk, SetWorkflowStatus, StatusValid;
    if a.workflowRun.id in s.workflowRuns {
      var w := s.workflowRuns[a.workflowRun.id];
      WorkflowStatusKeepsEvents(s, w.id, Failed, w.revision, true, event,
                                StatusValid(Failed, Derived(correlation), true), strict);
    }
  }

  lemma EvidenceKeepsEvents(s: Store, ev: Evidence, event: Id, valid: bool, eventValid: bool, strict: bool)
    requires EventsOk(s, strict)
    ensures EventsOk(RecordEvidence(s, ev, event, valid, eventValid).store, strict)
  {
    hide Recorded, EventsOk;
    RecordedFrame(s, ev, valid);
    if Recorded(s, ev, valid).Success? {
      var s1 := Recorded(s, ev, valid).value;
      SameEventsOk(s, s1, strict);
      var owner := OwnerOf(s, ev);
      if owner.Some? && event !in s.events {
        QuietKeepsEvents(s1, event, owner.value, Lifecycle("evidence"),
                         Appended(s1, BuildEvent(s1, event, owner.value, Lifecycle("evidence"))), strict);
      }
    }
  }

  // ------------------------------------------------------- what operations leave alone

  /** Every project and run is stored under its own identifier. */
  ghost predicate Keyed(s: Store) {
    && (forall p :: p in s.projects ==> s.projects[p].id == p)
    && (forall w :: w in s.workflowRuns ==> s.workflowRuns[w].id == w)
    && (forall a :: a in s.agentRuns ==> s.agentRuns[a].id == a)
  }

  /** Decided transitions, their keys and the created projects are untouched, and records
      stay under their own identifiers. */
  ghost predicate SameDecided(s: Store, s': Store) {
    && s'.transitions == s.transitions && s'.correlations == s.correlations
    && s'.created == s.created && s'.projects.Keys == s.projects.Keys
    && (Keyed(s) ==> Keyed(s'))
  }

  /** The artifacts are untouched as well. */
  ghost predicate Framed(s: Store, s': Store) {
    SameDecided(s, s') && s'.artifacts == s.artifacts
  }

  lemma AppendedFrame(s: Store, e: Event)
    ensures OnlyEventsChange(s, Appended(s, e))
  {
  }

  /** A record change touches no project, run or event, and a workflow only by adding
      it. */
  ghost predicate RecordsOnly(s: Store, s': Store, ev: Evidence) {
    && SameDecided(s, s') && s'.projects == s.projects
    && s'.events == s.events && s'.streams == s.streams
    && s'.workflowRuns == s.workflowRuns && s'.agentRuns == s.agentRuns
    && (if ev.NewWorkflow? then
          && ev.newWorkflow.id !in s.workflows
          && s'.workflows == s.workflows[ev.newWorkflow.id := ev.newWorkflow]
        else s'.workflows == s.workflows)
  }

  lemma InsertedFrame(s: Store, ev: Evidence)
    requires !ev.ApproveArtifact? && !ev.DecideApproval?
    ensures Inserted(s, ev).Success? ==> RecordsOnly(s, Inserted(s, ev).value, ev)
  {
  }

  lemma RecordedFrame(s: Store, ev: Evidence, valid: bool)
    ensures Recorded(s, ev, valid).Success? ==> RecordsOnly(s, Recorded(s, ev, valid).value, ev)
  {
    hide Inserted;
    if !ev.ApproveArtifact? && !ev.DecideApproval? { InsertedFrame(s, ev); }
  }

  lemma WorkflowRunFrame(s: Store, project: Ref, workflow: Ref, entry: Stage, attempt: int, id: Id, valid: bool)
    ensures var s' := CreateWorkflowRun(s, project, workflow, entry, attempt, id, valid).store;
            Framed(s, s') && s'.events == s.events && s'.streams == s.streams && s'.projects == s.projects
  {
    hide WorkflowResolves, ProjectResolves, Framed;
    FramedSelf(s);
    MoreWorkflowRuns(s, WorkflowRun(id, 1, project.id, workflow, Queued, entry, attempt));
  }

  lemma MoreWorkflowRuns(s: Store, run: WorkflowRun)
    ensures Framed(s, s.(workflowRuns := s.workflowRuns[run.id := run]))
  {
  }

  lemma AgentRunFrame(s: Store, project: Id, workflowRun: Ref, attempt: int, id: Id, valid: bool)
    ensures var s' := CreateAgentRun(s, project, workflowRun, attempt, id, valid).store;
            Framed(s, s') && s'.events == s.events && s'.streams == s.streams && s'.projects == s.projects
  {
    hide WorkflowRunResolves, Framed;
    FramedSelf(s);
    MoreAgentRuns(s, AgentRun(id, 1, project, workflowRun, Queued, attempt, false));
  }

  lemma MoreAgentRuns(s: Store, run: AgentRun)
    ensures Framed(s, s.(agentRuns := s.agentRuns[run.id := run]))
  {
  }

  lemma RetryFrame(s: Store, failed: Id, id: Id, valid: bool)
    ensures var s' := RetryAgentRun(s, failed, id, valid).store;
            Framed(s, s') && s'.events == s.events && s'.streams == s.streams && s'.projects == s.projects
  {
    hide CreateAgentRun;
    if failed in s.agentRuns {
      var f := s.agentRuns[failed];
      AgentRunFrame(s, f.project, f.workflowRun, f.attempt + 1, id, valid);
    }
  }

  lemma WithUpdateFrame(s: Store, id: Id, nextAction: Option<string>, event: Id)
    requires id in s.projects
    ensures Framed(s, WithUpdate(s, id, nextAction, event))
  {
    hide NextSequence, Appended;
    AppendedFrame(s, BuildEvent(s, event, id, ProjectUpdated(s.projects[id].revision + 1)));
  }

  lemma UpdateFrame(s: Store, id: Id, expected: int, nextAction: Option<string>, event: Id, valid: bool)
    ensures Framed(s, UpdateDetails(s, id, expected, nextAction, event, valid).store)
  {
    hide WithUpdate, Framed, Updated;
    FramedSelf(s);
    if id in s.projects { WithUpdateFrame(s, id, nextAction, event); }
  }

  lemma AnnouncingKeeps(s: Store, status: RunStatus, event: Id, project: Id, run: Id)
    ensures OnlyEventsChange(s, Announcing(s, status, event, project, run))
  {
    hide Appended;
    AppendedFrame(s, BuildEvent(s, event, project, RunChanged(run, status)));
  }

  lemma WithWorkflowStatusFrame(s: Store, id: Id, status: RunStatus, event: Id)
    requires id in s.workflowRuns
    ensures Framed(s, WithWorkflowStatus(s, id, status, event))
  {
    hide Announcing;
    AnnouncingKeeps(s, status, event, s.workflowRuns[id].project, id);
  }

  lemma WithAgentStatusFrame(s: Store, id: Id, status: RunStatus, event: Id, retryable: bool)
    requires id in s.agentRuns
    ensures Framed(s, WithAgentStatus(s, id, status, retryable, event))
  {
    hide Announcing;
    AnnouncingKeeps(s, status, event, s.agentRuns[id].project, id);
  }

  lemma WorkflowStatusFrame(s: Store, id: Id, status: RunStatus, expected: int, details: bool, event: Id, valid: bool)
    ensures Framed(s, SetWorkflowStatus(s, id, status, expected, details, event, valid).store)
  {
    hide WithWorkflowStatus, StatusRefused, Framed, WorkflowAllowed;
    FramedSelf(s);
    if id in s.workflowRuns { WithWorkflowStatusFrame(s, id, status, event); }
  }

  lemma AgentStatusOnlyFrame(s: Store, id: Id, status: RunStatus, expected: int, details: Option<bool>, event: Id,
                             valid: bool)
    ensures Framed(s, SetAgentStatusOnly(s, id, status, expected, details, event, valid).store)
  {
    hide WithAgentStatus, StatusRefused, Framed, AgentAllowed;
    FramedSelf(s);
    if id in s.agentRuns { WithAgentStatusFrame(s, id, status, event, details.Some? && details.value); }
  }

  lemma FramedSelf(s: Store)
    ensures Framed(s, s)
  {
  }

  lemma AgentStatusFrame(s: Store, id: Id, status: RunStatus, expected: int, details: Option<bool>,
                         correlation: string, event: Id, cascade: Id, valid: bool)
    ensures Framed(s, SetAgentStatus(s, id, status, expected, details, correlation, event, cascade, valid).store)
  {
    hide SetAgentStatusOnly, SetWorkflowStatus, StatusValid;
    var ok := StatusValid(status, correlation, valid);
    AgentStatusOnlyFrame(s, id, status, expected, details, event, ok);
    var first := SetAgentStatusOnly(s, id, status, expected, details, event, ok);
    if first.result.Success? && first.result.value.workflowRun.id in first.store.workflowRuns {
      var w := first.store.workflowRuns[first.result.value.workflowRun.id];
      WorkflowStatusFrame(first.store, w.id, Failed, w.revision, true, cascade,
                          StatusValid(Failed, Derived(correlation), true));
    }
  }

  /** Every artifact is one of before, with its address and digest. */
  ghost predicate SameArtifacts(s: Store, s': Store) {
    forall a :: a in s'.artifacts ==>
      && a in s.artifacts
      && s'.artifacts[a].uri == s.artifacts[a].uri && s'.artifacts[a].digest == s.artifacts[a].digest
  }

  lemma RecordedArtifacts(s: Store, ev: Evidence, valid: bool)
    requires Recorded(s, ev, valid).Success?
    ensures var s' := Recorded(s, ev, valid).value;
            if ev.NewArtifact? then
              ev.newArtifact.id !in s.artifacts && s'.artifacts == s.artifacts[ev.newArtifact.id := ev.newArtifact]
            else SameArtifacts(s, s')
  {
  }

  /** Appending the event of an evidence call leaves what the record change did. */
  lemma EvidenceOnlyAppends(s: Store, ev: Evidence, event: Id, valid: bool, eventValid: bool)
    ensures var o := RecordEvidence(s, ev, event, valid, eventValid);
            if Recorded(s, ev, valid).Success? then
              o.store == s || OnlyEventsChange(Recorded(s, ev, valid).value, o.store)
            else o.store == s
    ensures ev.NewArtifact? && Recorded(s, ev, valid).Success? ==>
              OnlyEventsChange(Recorded(s, ev, valid).value, RecordEvidence(s, ev, event, valid, eventValid).store)
    ensures RecordEvidence(s, ev, event, valid, eventValid).result.Success? ==>
              AlreadyGranted(s, ev) || Recorded(s, ev, valid).Success?
  {
    hide Recorded, Appended, Framed;
    if Recorded(s, ev, valid).Success? {
      var s1 := Recorded(s, ev, valid).value;
      OnlyEventsSelf(s1);
      if OwnerOf(s, ev).Some? {
        AppendedFrame(s1, BuildEvent(s1, event, OwnerOf(s, ev).value, Lifecycle("evidence")));
      }
    }
  }

  lemma OnlyEventsSelf(s: Store)
    ensures OnlyEventsChange(s, s)
  {
  }

  lemma EvidenceFrame(s: Store, ev: Evidence, event: Id, valid: bool, eventValid: bool)
    ensures var o := RecordEvidence(s, ev, event, valid, eventValid);
            && SameDecided(s, o.store)
            && (!ev.NewArtifact? ==> SameArtifacts(s, o.store))
            && (ev.NewArtifact? && o.result.Success? ==>
                  && ev.newArtifact.id !in s.artifacts
                  && o.store.artifacts == s.artifacts[ev.newArtifact.id := ev.newArtifact])
  {
    hide Recorded, RecordEvidence, Keyed;
    RecordedFrame(s, ev, valid);
    EvidenceOnlyAppends(s, ev, event, valid, eventValid);
    if Recorded(s, ev, valid).Success? { RecordedArtifacts(s, ev, valid); }
  }

  lemma CreateFrame(s: Store, correlation: string, id: Id, event: Id)
    ensures var s' := WithProject(s, correlation, id, event);
            && s'.transitions == s.transitions && s'.correlations == s.correlations
            && s'.created == s.created[correlation := id] && s'.projects == s.projects[id := NewProject(id)]
            && s'.artifacts == s.artifacts && (Keyed(s) ==> Keyed(s'))
  {
    hide Appended;
    AppendedFrame(s, BuildEvent(s, event, id, ProjectCreated(NoProject, 1)));
  }
}
