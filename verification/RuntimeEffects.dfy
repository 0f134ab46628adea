/**
 What the service calls of the runtime change (src/founderos_runtime), told field by
 field from the stores before and after: what a transition asks for and decides, what it
 does to its project, and what a run or an evidence record is afterwards.
 */
module RuntimeEffects {
  import opened Basics
  import opened ProjectRuntime
  import opened RuntimeEvents
  import opened RuntimeHistory

  /** The new event, with the next number of its project, ends the project's stream. */
  ghost predicate Appends(s: Store, s': Store, project: Id, event: Id, body: Body) {
    && event !in s.events
    && s'.events == s.events[event := Event(event, project, |Stream(s, project)| + 1, body)]
    && s'.streams == s.streams[project := Stream(s, project) + [event]]
  }

  // ------------------------------------------------------------ references of a project

  /** The list has a reference to the same version of the same artifact. */
  ghost predicate Named(r: Ref, refs: seq<Ref>) {
    exists x :: x in refs && x.id == r.id && x.version == r.version
  }

  lemma NamedAlike(r: Ref, known: seq<Ref>, first: Ref, between: seq<Ref>)
    requires Named(first, known)
    ensures Named(r, known + ([first] + between)) <==> Named(r, known + between)
  {
    if x :| x in known + ([first] + between) && x.id == r.id && x.version == r.version {
      if x == first {
        var y :| y in known && y.id == first.id && y.version == first.version;
        assert y in known + between;
      } else {
        assert x in known + between;
      }
    }
    if x :| x in known + between && x.id == r.id && x.version == r.version {
      assert x in known + ([first] + between);
    }
  }

  /** `all` is `known` and behind it what stands in `refs` at these positions: the
      references not named before. */
  ghost predicate AddedAt(known: seq<Ref>, refs: seq<Ref>, at: seq<nat>, all: seq<Ref>) {
    && known <= all && Selects(refs, at, all[|known|..])
    && forall k: nat :: k < |refs| ==> (k in at <==> !Named(refs[k], known + refs[..k]))
  }

  lemma KnownFirst(known: seq<Ref>, refs: seq<Ref>, later: seq<nat>, all: seq<Ref>)
    requires refs != [] && Named(refs[0], known) && AddedAt(known, refs[1..], later, all)
    ensures AddedAt(known, refs, Shifted(later), all)
  {
    hide Named, Selects;
    SelectsMore(refs, later, all[|known|..]);
    forall k: nat | k < |refs| ensures k in Shifted(later) <==> !Named(refs[k], known + refs[..k]) {
      if k == 0 {
        assert known + refs[..0] == known;
      } else {
        assert refs[..k] == [refs[0]] + refs[1..][..k - 1] && refs[k] == refs[1..][k - 1];
        NamedAlike(refs[k], known, refs[0], refs[1..][..k - 1]);
      }
    }
  }

  lemma NewFirst(known: seq<Ref>, refs: seq<Ref>, later: seq<nat>, all: seq<Ref>)
    requires refs != [] && !Named(refs[0], known) && AddedAt(known + [refs[0]], refs[1..], later, all)
    ensures AddedAt(known, refs, [0] + Shifted(later), all)
  {
    hide Named, Selects;
    SelectsMore(refs, later, all[|known| + 1..]);
    assert all[|known|..] == [refs[0]] + all[|known| + 1..];
    forall k: nat | k < |refs| ensures k in [0] + Shifted(later) <==> !Named(refs[k], known + refs[..k]) {
      if k == 0 {
        assert known + refs[..0] == known && ([0] + Shifted(later))[0] == 0;
      } else {
        assert known + refs[..k] == known + [refs[0]] + refs[1..][..k - 1] && refs[k] == refs[1..][k - 1];
      }
    }
  }

  lemma {:induction false} AddedAreSelected(known: seq<Ref>, refs: seq<Ref>) returns (at: seq<nat>)
    ensures AddedAt(known, refs, at, AddRefs(known, refs))
    decreases |refs|
  {
    if refs == [] {
      at := [];
    } else {
      hide AddedAt;
      if Named(refs[0], known) {
        var later := AddedAreSelected(known, refs[1..]);
        at := Shifted(later);
        KnownFirst(known, refs, later, AddRefs(known, refs[1..]));
      } else {
        var later := AddedAreSelected(known + [refs[0]], refs[1..]);
        at := [0] + Shifted(later);
        NewFirst(known, refs, later, AddRefs(known + [refs[0]], refs[1..]));
      }
    }
  }

  /** The kind is one of the artifacts the command refers to. */
  ghost predicate Delivers(s: Store, refs: seq<Ref>, kind: string) {
    exists r :: r in refs && r.id in s.artifacts && s.artifacts[r.id].kind == kind
  }

  lemma {:induction false} PendingAreSelected(s: Store, pending: seq<string>, refs: seq<Ref>) returns (at: seq<nat>)
    ensures Filters(pending, kind => !Delivers(s, refs, kind), at, StillPending(s, pending, refs))
  {
    if pending == [] {
      at := [];
    } else {
      hide Filters;
      var later := PendingAreSelected(s, pending[1..], refs);
      at := FiltersMore(pending, kind => !Delivers(s, refs, kind), later, StillPending(s, pending[1..], refs));
    }
  }

  lemma {:induction false} AllSelected<T(!new)>(xs: seq<T>) returns (at: seq<nat>)
    ensures Filters(xs, x => true, at, xs)
  {
    if xs == [] {
      at := [];
    } else {
      var later := AllSelected(xs[1..]);
      hide Filters;
      at := FiltersMore(xs, x => true, later, xs[1..]);
      assert xs == [xs[0]] + xs[1..];
    }
  }

  // ------------------------------------------------------------ transitions

  /** An applied transition adds to its project exactly the references it did not have,
      behind those it had and in the order of the command, each version once; strikes
      from what is pending exactly the kinds it delivers; moves it on one revision; and
      changes nothing else of it and no other project. */
  lemma AppliedMovesProject(s: Store, cmd: Command, id: Id, event: Id, now: int, valid: bool)
    returns (added: seq<nat>, left: seq<nat>)
    requires (cmd.project, cmd.correlation) !in s.correlations
    requires var r := Transit(s, cmd, id, event, now, valid).result; r.Success? && r.value.verdict.Applied?
    ensures var s' := Transit(s, cmd, id, event, now, valid).store;
            && cmd.project in s.projects && s'.projects.Keys == s.projects.Keys
            && (forall p :: p in s.projects && p != cmd.project ==> s'.projects[p] == s.projects[p])
            && var p, q := s.projects[cmd.project], s'.projects[cmd.project];
               && AddedAt(p.completed, cmd.artifacts, added, q.completed)
               && Filters(p.pending, kind => !Delivers(s, cmd.artifacts, kind), left, q.pending)
               && q.state == cmd.to && q.revision == p.revision + 1 && q.lastEvent == |Stream(s, cmd.project)| + 1
               && q.nextAction == "Continue from " + StageName(cmd.to) && q.id == p.id && q.active == p.active
  {
    hide StageName, Checks, Route, AddRefs, StillPending, Results, FirstFailure, ArtifactsResolve, Selects, Appended,
      AddedAt;
    var p := s.projects[cmd.project];
    added := AddedAreSelected(p.completed, cmd.artifacts);
    left := PendingAreSelected(s, p.pending, cmd.artifacts);
    if cmd.artifacts == [] {
      left := AllSelected(p.pending);
    }
    var t := Transit(s, cmd, id, event, now, valid).result.value;
    DecisionFrame(s, cmd, t, event);
  }

  // ------------------------------------------------------------ what is decided

  /** A reference to a record of this project with this version and revision. */
  predicate Owned(project: Id, owner: Id, ref: Ref, version: Option<string>, revision: Option<int>) {
    && owner == project
    && (ref.version.Some? ==> ref.version == version) && (ref.revision.Some? ==> ref.revision == revision)
  }

  /** The command names a run of its project in one of these statuses. */
  predicate RunStands(s: Store, cmd: Command, statuses: set<RunStatus>) {
    match cmd.workflowRun
    case None => false
    case Some(x) =>
      && x.id in s.workflowRuns
      && var r := s.workflowRuns[x.id];
         r.status in statuses && Owned(cmd.project, r.project, x, None, Some(r.revision))
  }

  /** All artifacts are of its project, and each of these kinds is among the approved. */
  ghost predicate ArtifactsStand(s: Store, cmd: Command, kinds: set<string>) {
    && (forall x :: x in cmd.artifacts ==>
          && x.id in s.artifacts
          && var a := s.artifacts[x.id]; Owned(cmd.project, a.project, x, Some(a.version), Some(a.revision)))
    && forall kind :: kind in kinds ==>
         exists x :: x in cmd.artifacts && x.id in s.artifacts
                     && s.artifacts[x.id].approved && s.artifacts[x.id].kind == kind
  }

  /** There are evaluations, all of its project, completed and passed, none with a
      confidence below seven tenths. */
  predicate EvaluationsStand(s: Store, cmd: Command) {
    && |cmd.evaluations| > 0
    && forall x :: x in cmd.evaluations ==>
         && x.id in s.evaluations
         && var e := s.evaluations[x.id];
            e.completed && e.pass && Owned(cmd.project, e.project, x, None, None)
            && !(e.confidence.Some? && e.confidence.value * 10.0 < 7.0)
  }

  /** There are decisions, all of its project and approved. */
  predicate DecisionsStand(s: Store, cmd: Command) {
    && |cmd.decisions| > 0
    && forall x :: x in cmd.decisions ==>
         && x.id in s.decisions
         && var d := s.decisions[x.id];
            d.approved && Owned(cmd.project, d.project, x, Some(d.version), Some(d.revision))
  }

  /** There are approvals, all of its project, granted by a human and not expired. */
  predicate Consented(s: Store, cmd: Command, now: int) {
    && |cmd.approvals| > 0
    && forall x :: x in cmd.approvals ==>
         && x.id in s.approvals
         && var a := s.approvals[x.id];
            a.status == Granted && a.byHuman && Owned(cmd.project, a.project, x, None, Some(a.revision))
            && !(a.expiresAt.Some? && a.expiresAt.value <= now)
  }

  ghost predicate GatesOpen(s: Store, cmd: Command, req: Requirement) {
    && (req.workflowStatuses == {} || RunStands(s, cmd, req.workflowStatuses))
    && (req.artifactTypes == {} || ArtifactsStand(s, cmd, req.artifactTypes))
    && (!req.evaluation || EvaluationsStand(s, cmd))
    && (!req.decision || DecisionsStand(s, cmd))
  }

  lemma GuardsMean(s: Store, cmd: Command, req: Requirement, now: int)
    ensures WorkflowReady(s, cmd, req) <==> RunStands(s, cmd, req.workflowStatuses)
    ensures EvaluationsPass(s, cmd) <==> EvaluationsStand(s, cmd)
    ensures DecisionsApproved(s, cmd) <==> DecisionsStand(s, cmd)
    ensures ApprovalsGranted(s, cmd, now) <==> Consented(s, cmd, now)
  {
  }

  lemma ArtifactGuardMeans(s: Store, cmd: Command, req: Requirement)
    ensures ArtifactsApproved(s, cmd, req) <==> ArtifactsStand(s, cmd, req.artifactTypes)
  {
    assert ArtifactsResolve(s, cmd) <==>
           forall x :: x in cmd.artifacts ==>
             && x.id in s.artifacts
             && var a := s.artifacts[x.id]; Owned(cmd.project, a.project, x, Some(a.version), Some(a.revision));
  }

  lemma {:induction false} FirstFailureOf(a: seq<Check>, b: seq<Check>)
    ensures FirstFailure(a + b) == if FirstFailure(a).Some? then FirstFailure(a) else FirstFailure(b)
  {
    if a == [] {
      assert a + b == b;
    } else {
      assert (a + b)[1..] == a[1..] + b;
      FirstFailureOf(a[1..], b);
    }
  }

  lemma EvidenceFails(s: Store, cmd: Command, req: Requirement, now: int)
    ensures FirstFailure(EvidenceChecks(s, cmd, req, now)) ==
            if !GatesOpen(s, cmd, req) then Some(GuardFailed)
            else if req.approval && !Consented(s, cmd, now) then Some(ApprovalMissing)
            else None
  {
    GuardsMean(s, cmd, req, now);
    ArtifactGuardMeans(s, cmd, req);
    hide WorkflowReady, RunStands, EvaluationsPass, EvaluationsStand, DecisionsApproved, DecisionsStand,
      ApprovalsGranted, Consented, ArtifactsApproved, ArtifactsStand;
    var run := If(req.workflowStatuses != {}, Check(WorkflowSucceeded, WorkflowReady(s, cmd, req), GuardFailed));
    var made := If(req.artifactTypes != {}, Check(ArtifactStatus, ArtifactsApproved(s, cmd, req), GuardFailed));
    var judged := If(req.evaluation, Check(EvaluationPassed, EvaluationsPass(s, cmd), GuardFailed));
    var decided := If(req.decision, Check(DecisionRecorded, DecisionsApproved(s, cmd), GuardFailed));
    var agreed := If(req.approval, Check(ApprovalGranted, ApprovalsGranted(s, cmd, now), ApprovalMissing));
    FirstFailureOf(run, made);
    FirstFailureOf(judged, decided);
    FirstFailureOf(judged + decided, agreed);
    FirstFailureOf(run + made, judged + decided + agreed);
  }

  lemma ChecksFail(s: Store, cmd: Command, now: int)
    requires cmd.project in s.projects
    ensures var p := s.projects[cmd.project];
            FirstFailure(Checks(s, cmd, now)) ==
              if !p.active then Some(ProjectNotActive)
              else if p.revision != cmd.expected then Some(StaleRevision)
              else if p.state != cmd.from || Route(cmd.from, cmd.to).None? then Some(InvalidTransition)
              else FirstFailure(EvidenceChecks(s, cmd, Route(cmd.from, cmd.to).value, now))
  {
    hide Route, EvidenceChecks;
    var p := s.projects[cmd.project];
    var route := Route(cmd.from, cmd.to);
    var a, b := Check(ProjectActive, p.active, ProjectNotActive),
                Check(RevisionMatches, p.revision == cmd.expected, StaleRevision);
    var c, d := Check(StateMatches, p.state == cmd.from, InvalidTransition),
                Check(TransitionAllowed, route.Some?, InvalidTransition);
    var rest := if route.Some? then EvidenceChecks(s, cmd, route.value, now) else [];
    assert Checks(s, cmd, now) == [a, b, c, d] + rest;
    assert [a, b, c, d] == [a] + ([b] + ([c] + [d]));
    FirstFailureOf([a, b, c, d], rest);
    FirstFailureOf([a], [b] + ([c] + [d]));
    FirstFailureOf([b], [c] + [d]);
    FirstFailureOf([c], [d]);
  }

  /** What is decided about a new command, in the order in which it is asked: a transition
      is applied exactly when its project is active, at the revision and in the state the
      command expects, the route is there, and everything the route asks for stands; and
      only the first route asks for no approval. */
  lemma VerdictIs(s: Store, cmd: Command, id: Id, event: Id, now: int, valid: bool)
    requires (cmd.project, cmd.correlation) !in s.correlations
    requires Transit(s, cmd, id, event, now, valid).result.Success?
    ensures cmd.project in s.projects
    ensures var p := s.projects[cmd.project];
            Transit(s, cmd, id, event, now, valid).result.value.verdict ==
              if !p.active then Rejected(ProjectNotActive)
              else if p.revision != cmd.expected then Rejected(StaleRevision)
              else if p.state != cmd.from || Route(cmd.from, cmd.to).None? then Rejected(InvalidTransition)
              else
                var req := Route(cmd.from, cmd.to).value;
                if !GatesOpen(s, cmd, req) then Rejected(GuardFailed)
                else if cmd.from != NoProject && !Consented(s, cmd, now) then Rejected(ApprovalMissing)
                else Applied(p.revision + 1)
    ensures var t := Transit(s, cmd, id, event, now, valid).result.value;
            t == Transition(id, cmd.project, cmd.from, cmd.to, t.guards, t.verdict, cmd.correlation)
  {
    hide Checks, Route, Results, WithDecision, ArtifactsResolve, GatesOpen, Consented;
    ChecksFail(s, cmd, now);
    OnlyFirstUnapproved(cmd.from, cmd.to);
    if Route(cmd.from, cmd.to).Some? { EvidenceFails(s, cmd, Route(cmd.from, cmd.to).value, now); }
  }

  /** A decision is logged as it was made, for the route that was asked for, and touches
      nothing but the records of decisions, the project and its stream. */
  lemma DecisionIsLogged(s: Store, cmd: Command, id: Id, event: Id, now: int, valid: bool)
    requires (cmd.project, cmd.correlation) !in s.correlations
    requires Transit(s, cmd, id, event, now, valid).result.Success?
    ensures var s' := Transit(s, cmd, id, event, now, valid).store;
            && s' == s.(projects := s'.projects, events := s'.events, streams := s'.streams,
                        transitions := s'.transitions, correlations := s'.correlations)
            && Appends(s, s', cmd.project, event,
                       match Transit(s, cmd, id, event, now, valid).result.value.verdict
                       case Applied(revision) => TransitionApplied(cmd.from, cmd.to, revision)
                       case Rejected(code) => TransitionRejected(cmd.from, cmd.to, code))
  {
    hide Checks, Route, Results, FirstFailure, ArtifactsResolve, MovedProjects;
  }

  lemma OnlyFirstUnapproved(from: Stage, to: Stage)
    ensures Route(from, to).Some? ==> (Route(from, to).value.approval <==> from != NoProject)
  {
  }

  // ------------------------------------------------------------ projects and runs

  /** A new project is active, in the initial state, at the first revision, and has no
      references and nothing pending. */
  lemma CreatedProject(s: Store, correlation: string, id: Id, event: Id, valid: bool)
    requires correlation !in s.created && CreateProject(s, correlation, id, event, valid).result.Success?
    ensures var o := CreateProject(s, correlation, id, event, valid);
            && valid && id !in s.projects
            && o.store == s.(projects := s.projects[id := o.result.value], created := s.created[correlation := id],
                             events := o.store.events, streams := o.store.streams)
            && Appends(s, o.store, id, event, ProjectCreated(NoProject, 1))
            && var p := o.result.value;
               p.id == id && p.active && p.state == NoProject && p.revision == 1 && p.lastEvent == 1
               && p.completed == [] && p.pending == [] && p.nextAction == "Begin founder setup"
  {
  }

  /** An update is taken only at the expected revision and changes the next action, if one
      is given, and the counters. */
  lemma UpdatedProject(s: Store, id: Id, expected: int, nextAction: Option<string>, event: Id, valid: bool)
    requires UpdateDetails(s, id, expected, nextAction, event, valid).result.Success?
    ensures var o := UpdateDetails(s, id, expected, nextAction, event, valid);
            && id in s.projects && s.projects[id].revision == expected
            && o.store == s.(projects := s.projects[id := o.result.value],
                             events := o.store.events, streams := o.store.streams)
            && Appends(s, o.store, id, event, ProjectUpdated(expected + 1))
            && var p, q := s.projects[id], o.result.value;
               q == p.(revision := expected + 1, lastEvent := |Stream(s, id)| + 1, nextAction := q.nextAction)
               && q.nextAction == (match nextAction case Some(text) => text case None => p.nextAction)
  {
  }

  /** A retry of a run goes through exactly when it failed retryably, its workflow run is
      still there, of its project and taking agents, and the new identifier is unused; it
      is queued as the next attempt of the same run of the same project. */
  lemma RetryIsNextAttempt(s: Store, failed: Id, id: Id, valid: bool)
    ensures var o := RetryAgentRun(s, failed, id, valid);
            && (o.result.Success? <==>
                  && failed in s.agentRuns
                  && var f := s.agentRuns[failed];
                     && f.status == Failed && f.retryable && f.project in s.projects && valid && id !in s.agentRuns
                     && f.workflowRun.id in s.workflowRuns
                     && var w := s.workflowRuns[f.workflowRun.id];
                        Owned(f.project, w.project, f.workflowRun, None, Some(w.revision))
                        && w.status in {Running, WaitingForInput})
            && (o.result.Success? ==>
                  && o.store == s.(agentRuns := s.agentRuns[id := o.result.value])
                  && (var f, r := s.agentRuns[failed], o.result.value;
                      r.attempt == f.attempt + 1 && r.status == Queued && r.workflowRun == f.workflowRun
                      && r.project == f.project && r.id == id && r.revision == 1 && !r.retryable))
            && (o.result.Failure? ==> o.store == s)
  {
  }

  /** A run of a workflow is started exactly for an active project in the state it enters
      from; it is queued. */
  lemma WorkflowRunStarts(s: Store, project: Ref, workflow: Ref, entry: Stage, attempt: int, id: Id, valid: bool)
    ensures var o := CreateWorkflowRun(s, project, workflow, entry, attempt, id, valid);
            && (o.result.Success? <==>
                  && project.id in s.projects && workflow.id in s.workflows && valid && id !in s.workflowRuns
                  && (project.version.None? && project.revision in {None, Some(s.projects[project.id].revision)})
                  && (workflow.revision.None? && workflow.version in {None, Some(s.workflows[workflow.id].version)})
                  && s.projects[project.id].active && s.projects[project.id].state == entry)
            && (o.result.Success? ==>
                  && o.result.value == WorkflowRun(id, 1, project.id, workflow, Queued, entry, attempt)
                  && o.store == s.(workflowRuns := s.workflowRuns[id := o.result.value]))
            && (o.result.Failure? ==> o.store == s)
  {
  }

  /** An agent is started exactly in a workflow run of the project that runs or waits for
      input; its own run is queued. */
  lemma AgentRunStarts(s: Store, project: Id, workflowRun: Ref, attempt: int, id: Id, valid: bool)
    ensures var o := CreateAgentRun(s, project, workflowRun, attempt, id, valid);
            && (o.result.Success? <==>
                  && project in s.projects && workflowRun.id in s.workflowRuns && valid && id !in s.agentRuns
                  && var w := s.workflowRuns[workflowRun.id];
                     Owned(project, w.project, workflowRun, None, Some(w.revision))
                     && w.status in {Running, WaitingForInput})
            && (o.result.Success? ==>
                  && o.result.value == AgentRun(id, 1, project, workflowRun, Queued, attempt, false)
                  && o.store == s.(agentRuns := s.agentRuns[id := o.result.value]))
            && (o.result.Failure? ==> o.store == s)
  {
  }

  /** The event of a run is appended exactly for the statuses that are announced. */
  ghost predicate Announces(s: Store, s': Store, project: Id, run: Id, status: RunStatus, event: Id) {
    if status in {Running, Succeeded, Failed} then Appends(s, s', project, event, RunChanged(run, status))
    else s'.events == s.events && s'.streams == s.streams
  }

  /** A status change of a workflow run is taken only at the expected revision, and never
      from a final status; it alters the status and the revision of that run, and
      appends the event. */
  lemma WorkflowStatusIsStored(s: Store, id: Id, status: RunStatus, expected: int, details: bool, event: Id,
                               valid: bool)
    requires SetWorkflowStatus(s, id, status, expected, details, event, valid).result.Success?
    ensures var o := SetWorkflowStatus(s, id, status, expected, details, event, valid);
            && id in s.workflowRuns && s.workflowRuns[id].revision == expected
            && s.workflowRuns[id].status !in {Succeeded, Failed, Cancelled}
            && (status == Failed ==> details)
            && o.result.value == s.workflowRuns[id].(status := status, revision := expected + 1)
            && o.store == s.(workflowRuns := s.workflowRuns[id := o.result.value],
                             events := o.store.events, streams := o.store.streams)
            && Announces(s, o.store, s.workflowRuns[id].project, id, status, event)
  {
  }

  /** The same for an agent run; a failure also says whether it may be retried. */
  lemma AgentStatusIsStored(s: Store, id: Id, status: RunStatus, expected: int, details: Option<bool>, event: Id,
                            valid: bool)
    requires SetAgentStatusOnly(s, id, status, expected, details, event, valid).result.Success?
    ensures var o := SetAgentStatusOnly(s, id, status, expected, details, event, valid);
            && id in s.agentRuns && s.agentRuns[id].revision == expected
            && s.agentRuns[id].status in {Queued, Running} && (status == Failed ==> details.Some?)
            && (var r := s.agentRuns[id];
                o.result.value == r.(status := status, revision := expected + 1,
                                     retryable := if status == Failed then details.value else r.retryable))
            && o.store == s.(agentRuns := s.agentRuns[id := o.result.value],
                             events := o.store.events, streams := o.store.streams)
            && Announces(s, o.store, s.agentRuns[id].project, id, status, event)
  {
  }

  // ------------------------------------------------------------ evidence records

  /** What a lifecycle service writes besides the record. */
  ghost predicate Logged(s: Store, s': Store, project: Id, event: Id) {
    Appends(s, s', project, event, Lifecycle("evidence"))
  }

  /** Approving an artifact alters that record and appends an event to its project. */
  lemma ArtifactIsApproved(s: Store, id: Id, event: Id, valid: bool, eventValid: bool)
    requires RecordEvidence(s, ApproveArtifact(id), event, valid, eventValid).result.Success?
    ensures var s' := RecordEvidence(s, ApproveArtifact(id), event, valid, eventValid).store;
            && id in s.artifacts && Logged(s, s', s.artifacts[id].project, event)
            && s' == s.(artifacts := s.artifacts[id := s.artifacts[id].(approved := true,
                                                                       revision := s.artifacts[id].revision + 1)],
                        events := s'.events, streams := s'.streams)
  {
  }

  /** Only a human grants an approval, and only a pending one; granting it again changes
      nothing. */
  lemma ApprovalIsGranted(s: Store, id: Id, human: bool, event: Id, valid: bool, eventValid: bool)
    requires RecordEvidence(s, DecideApproval(id, human), event, valid, eventValid).result.Success?
    ensures var s' := RecordEvidence(s, DecideApproval(id, human), event, valid, eventValid).store;
            && human && id in s.approvals
            && (s.approvals[id].status == Granted ==> s' == s)
            && (s.approvals[id].status != Granted ==>
                  && s.approvals[id].status == Pending && Logged(s, s', s.approvals[id].project, event)
                  && s' == s.(approvals := s.approvals[id := s.approvals[id].(status := Granted, byHuman := true,
                                                                             revision := s.approvals[id].revision + 1)],
                              events := s'.events, streams := s'.streams))
  {
  }

  /** A new record is stored under an identifier that was unused, and an event appended to
      its project; a workflow belongs to none. */
  lemma RecordIsNew(s: Store, ev: Evidence, event: Id, valid: bool, eventValid: bool)
    requires !ev.ApproveArtifact? && !ev.DecideApproval?
    requires RecordEvidence(s, ev, event, valid, eventValid).result.Success?
    ensures var s' := RecordEvidence(s, ev, event, valid, eventValid).store;
            match ev
            case NewArtifact(a) =>
              && a.id !in s.artifacts && Logged(s, s', a.project, event)
              && s' == s.(artifacts := s.artifacts[a.id := a], events := s'.events, streams := s'.streams)
            case NewEvaluation(e) =>
              && e.id !in s.evaluations && Logged(s, s', e.project, event)
              && s' == s.(evaluations := s.evaluations[e.id := e], events := s'.events, streams := s'.streams)
            case RequestApproval(a) =>
              && a.id !in s.approvals && Logged(s, s', a.project, event)
              && s' == s.(approvals := s.approvals[a.id := a], events := s'.events, streams := s'.streams)
            case NewDecision(d) =>
              && d.id !in s.decisions && Logged(s, s', d.project, event)
              && s' == s.(decisions := s.decisions[d.id := d], events := s'.events, streams := s'.streams)
            case NewWorkflow(w) =>
              w.id !in s.workflows && s' == s.(workflows := s.workflows[w.id := w])
            case _ => true
  {
  }
}
