/**
 What holds after any sequence of runtime operations (src/founderos_runtime): stored
 projects are what their events replay to, transitions follow the route table, retries
 repeat nothing, and exhausted agent runs end their workflow run.
 */
module RuntimeHistory {
  import opened Basics
  import opened ProjectRuntime
  import opened RuntimeEvents
  import opened RuntimeRuns

  // ------------------------------------------------------------ operations

  /** The calls of the services.  Every identifier is given and may collide with stored
      ones; `valid` is the outcome of schema validation. */
  datatype Op =
    | OpCreate(correlation: string, id: Id, event: Id, valid: bool)
    | OpUpdate(id: Id, expected: int, nextAction: Option<string>, event: Id, valid: bool)
    | OpTransit(cmd: Command, id: Id, event: Id, now: int, valid: bool)
    | OpWorkflowRun(project: Ref, workflow: Ref, entry: Stage, attempt: int, id: Id, valid: bool)
    | OpAgentRun(owner: Id, workflowRun: Ref, attempt: int, id: Id, valid: bool)
    | OpRetry(failed: Id, id: Id, valid: bool)
    | OpWorkflowStatus(id: Id, status: RunStatus, expected: int, details: bool, event: Id, valid: bool)
    | OpAgentStatus(id: Id, status: RunStatus, expected: int, failure: Option<bool>, correlation: string, event: Id,
                    cascade: Id, valid: bool)
    | OpEvidence(evidence: Evidence, event: Id, valid: bool, eventValid: bool)

  /** Empty repositories and caches. */
  function NothingStored(): Store {
    Store(map[], map[], map[], map[], map[], map[], map[], map[], map[], map[], map[], map[], map[])
  }

  function Step(s: Store, op: Op): Store {
    match op
    case OpCreate(correlation, id, event, valid) => CreateProject(s, correlation, id, event, valid).store
    case OpUpdate(id, expected, nextAction, event, valid) =>
      UpdateDetails(s, id, expected, nextAction, event, valid).store
    case OpTransit(cmd, id, event, now, valid) => Transit(s, cmd, id, event, now, valid).store
    case OpWorkflowRun(project, workflow, entry, attempt, id, valid) =>
      CreateWorkflowRun(s, project, workflow, entry, attempt, id, valid).store
    case OpAgentRun(owner, workflowRun, attempt, id, valid) =>
      CreateAgentRun(s, owner, workflowRun, attempt, id, valid).store
    case OpRetry(failed, id, valid) => RetryAgentRun(s, failed, id, valid).store
    case OpWorkflowStatus(id, status, expected, details, event, valid) =>
      SetWorkflowStatus(s, id, status, expected, details, event, valid).store
    case OpAgentStatus(id, status, expected, failure, correlation, event, cascade, valid) =>
      SetAgentStatus(s, id, status, expected, failure, correlation, event, cascade, valid).store
    case OpEvidence(evidence, event, valid, eventValid) => RecordEvidence(s, evidence, event, valid, eventValid).store
  }

  ghost predicate RecordsOk(s: Store) {
    && (forall t :: t in s.transitions ==> TransitionOk(s.transitions[t]))
    && (forall c :: c in s.created ==> s.created[c] in s.projects)
    && (forall k :: k in s.correlations ==> s.correlations[k] in s.transitions)
  }

  /** The one way to break replay: a project created under an identifier that has
      events already. */
  predicate BreaksReplay(s: Store, op: Op) {
    op.OpCreate? && CreatesOverEvents(s, op.correlation, op.id, op.event, op.valid)
  }

  /** The one way to leave an exhausted run in an open workflow run: its last failure is
      stored, and the cascade is refused. */
  ghost predicate BreaksRuns(s: Store, op: Op) {
    op.OpAgentStatus? &&
    LeavesOpen(s, op.id, op.status, op.expected, op.failure, op.correlation, op.event, op.cascade, op.valid)
  }

  /** The two ways to get an attempt beyond what a workflow allows. */
  ghost predicate BreaksBounds(s: Store, op: Op) {
    || (op.OpAgentRun? && Overruns(s, op.owner, op.workflowRun, op.attempt, op.id, op.valid))
    || (op.OpEvidence? && AllowsNothing(s, op.evidence, op.valid))
  }

  /** Each operation keeps the replay invariant exactly unless it is that creation. */
  lemma StepKeepsEvents(s: Store, op: Op, strict: bool)
    requires EventsOk(s, strict)
    ensures EventsOk(Step(s, op), strict) <==> !BreaksReplay(s, op)
  {
    hide EventsOk, CreateProject, UpdateDetails, Transit, SetWorkflowStatus, SetAgentStatusOnly, Cascade,
      RecordEvidence, CreateWorkflowRun, CreateAgentRun, RetryAgentRun, CreatesOverEvents;
    match op
    case OpCreate(correlation, id, event, valid) => CreateKeepsEvents(s, correlation, id, event, valid, strict);
    case OpUpdate(id, expected, nextAction, event, valid) =>
      UpdateKeepsEvents(s, id, expected, nextAction, event, valid, strict);
    case OpTransit(cmd, id, event, now, valid) => TransitKeepsEvents(s, cmd, id, event, now, valid, strict);
    case OpWorkflowRun(project, workflow, entry, attempt, id, valid) =>
      WorkflowRunFrame(s, project, workflow, entry, attempt, id, valid);
      SameEventsOk(s, Step(s, op), strict);
    case OpAgentRun(owner, workflowRun, attempt, id, valid) =>
      AgentRunFrame(s, owner, workflowRun, attempt, id, valid);
      SameEventsOk(s, Step(s, op), strict);
    case OpRetry(failed, id, valid) =>
      RetryFrame(s, failed, id, valid);
      SameEventsOk(s, Step(s, op), strict);
    case OpWorkflowStatus(id, status, expected, details, event, valid) =>
      WorkflowStatusKeepsEvents(s, id, status, expected, details, event, valid, strict);
    case OpAgentStatus(id, status, expected, failure, correlation, event, cascade, valid) =>
      var ok := StatusValid(status, correlation, valid);
      AgentStatusOnlyKeepsEvents(s, id, status, expected, failure, event, ok, strict);
      var first := SetAgentStatusOnly(s, id, status, expected, failure, event, ok);
      if first.result.Success? && status == Failed {
        CascadeKeepsEvents(first.store, first.result.value, correlation, cascade, strict);
      }
    case OpEvidence(evidence, event, valid, eventValid) =>
      EvidenceKeepsEvents(s, evidence, event, valid, eventValid, strict);
  }

  /** Each operation keeps the run invariant exactly unless it is that failure, and
      with it the bound on attempts unless it is one of those two. */
  lemma StepKeepsRuns(s: Store, op: Op, bounded: bool)
    requires RunsOk(s, bounded)
    ensures RunsOk(Step(s, op), bounded) <==> !BreaksRuns(s, op) && (bounded ==> !BreaksBounds(s, op))
  {
    hide RunsOk, CreateProject, UpdateDetails, Transit, SetWorkflowStatus, SetAgentStatusOnly, SetAgentStatus,
      RecordEvidence, CreateWorkflowRun, CreateAgentRun, RetryAgentRun, LeavesOpen, Overruns, AllowsNothing;
    match op
    case OpCreate(correlation, id, event, valid) => CreateKeepsRuns(s, correlation, id, event, valid, bounded);
    case OpUpdate(id, expected, nextAction, event, valid) =>
      UpdateKeepsRuns(s, id, expected, nextAction, event, valid, bounded);
    case OpTransit(cmd, id, event, now, valid) => TransitKeepsRuns(s, cmd, id, event, now, valid, bounded);
    case OpWorkflowRun(project, workflow, entry, attempt, id, valid) =>
      WorkflowRunKeepsRuns(s, project, workflow, entry, attempt, id, valid, bounded);
    case OpAgentRun(owner, workflowRun, attempt, id, valid) =>
      CreateAgentRunKeepsRuns(s, owner, workflowRun, attempt, id, valid, bounded);
    case OpRetry(failed, id, valid) => RetryKeepsRuns(s, failed, id, valid, bounded);
    case OpWorkflowStatus(id, status, expected, details, event, valid) =>
      WorkflowStatusStepKeepsRuns(s, id, status, expected, details, event, valid, bounded);
    case OpAgentStatus(id, status, expected, failure, correlation, event, cascade, valid) =>
      AgentStatusSettles(s, id, status, expected, failure, correlation, event, cascade, valid, bounded);
    case OpEvidence(evidence, event, valid, eventValid) =>
      EvidenceKeepsRuns(s, evidence, event, valid, eventValid, bounded);
  }

  // ------------------------------------------------------- operations and records

  lemma SameRecords(s: Store, s': Store)
    requires RecordsOk(s) && SameDecided(s, s')
    ensures RecordsOk(s')
  {
  }

  lemma DecisionFrame(s: Store, cmd: Command, t: Transition, event: Id)
    requires cmd.project in s.projects
    ensures var s' := WithDecision(s, cmd, t, event);
            && s'.transitions == s.transitions[t.id := t]
            && s'.correlations == s.correlations[(cmd.project, cmd.correlation) := t.id]
            && s'.created == s.created && s'.projects.Keys == s.projects.Keys
            && s'.artifacts == s.artifacts && (Keyed(s) ==> Keyed(s'))
  {
    hide Appended, AddRefs, StillPending;
    AppendedFrame(s, BuildEvent(s, event, cmd.project, DecisionEvent(cmd, t.verdict)));
  }

  lemma DecidedIsGuarded(s: Store, cmd: Command, id: Id, now: int)
    requires cmd.project in s.projects
    ensures TransitionOk(RecordOf(cmd, id, Results(Checks(s, cmd, now)), VerdictOf(s, cmd, now)))
  {
    hide Checks, Route, Results, FirstFailure;
    var checks := Checks(s, cmd, now);
    ResultsShape(checks);
    if VerdictOf(s, cmd, now).Applied? { AppliedIsRouted(s, cmd, now); }
  }

  lemma TransitKeepsRecords(s: Store, cmd: Command, id: Id, event: Id, now: int, valid: bool)
    requires RecordsOk(s)
    ensures RecordsOk(Transit(s, cmd, id, event, now, valid).store)
  {
    hide Checks, Route, TransitionOk, VerdictOf, WithDecision, Results, ArtifactsResolve;
    if cmd.project in s.projects {
      var t := RecordOf(cmd, id, Results(Checks(s, cmd, now)), VerdictOf(s, cmd, now));
      DecidedIsGuarded(s, cmd, id, now);
      DecisionFrame(s, cmd, t, event);
    }
  }

  lemma CreateKeepsRecords(s: Store, correlation: string, id: Id, event: Id, valid: bool)
    requires RecordsOk(s)
    ensures RecordsOk(CreateProject(s, correlation, id, event, valid).store)
  {
    hide Route, WithProject, TransitionOk;
    CreateFrame(s, correlation, id, event);
  }

  lemma StepKeepsRecords(s: Store, op: Op)
    requires RecordsOk(s)
    ensures RecordsOk(Step(s, op))
  {
    hide RecordsOk, CreateProject, Transit, UpdateDetails, SetWorkflowStatus, SetAgentStatus, RecordEvidence,
      CreateWorkflowRun, CreateAgentRun, RetryAgentRun;
    match op
    case OpCreate(correlation, id, event, valid) => CreateKeepsRecords(s, correlation, id, event, valid);
    case OpTransit(cmd, id, event, now, valid) => TransitKeepsRecords(s, cmd, id, event, now, valid);
    case _ =>
      StepFrame(s, op);
      SameRecords(s, Step(s, op));
  }

  lemma StepFrame(s: Store, op: Op)
    requires !op.OpCreate? && !op.OpTransit?
    ensures SameDecided(s, Step(s, op))
    ensures !op.OpEvidence? ==> Step(s, op).artifacts == s.artifacts
  {
    hide UpdateDetails, SetWorkflowStatus, SetAgentStatus, RecordEvidence, CreateWorkflowRun, CreateAgentRun,
      RetryAgentRun, CreateProject, Transit, Keyed;
    match op
    case OpUpdate(id, expected, nextAction, event, valid) => UpdateFrame(s, id, expected, nextAction, event, valid);
    case OpWorkflowRun(project, workflow, entry, attempt, id, valid) =>
      WorkflowRunFrame(s, project, workflow, entry, attempt, id, valid);
    case OpAgentRun(owner, workflowRun, attempt, id, valid) => AgentRunFrame(s, owner, workflowRun, attempt, id, valid);
    case OpRetry(failed, id, valid) => RetryFrame(s, failed, id, valid);
    case OpWorkflowStatus(id, status, expected, details, event, valid) =>
      WorkflowStatusFrame(s, id, status, expected, details, event, valid);
    case OpAgentStatus(id, status, expected, failure, correlation, event, cascade, valid) =>
      AgentStatusFrame(s, id, status, expected, failure, correlation, event, cascade, valid);
    case OpEvidence(evidence, event, valid, eventValid) => EvidenceFrame(s, evidence, event, valid, eventValid);
  }

  /** Decided transitions and their keys stay. */
  ghost predicate KeepsDecisions(s: Store, s': Store) {
    && (forall t :: t in s.transitions ==> t in s'.transitions && s'.transitions[t] == s.transitions[t])
    && (forall k :: k in s.correlations ==> k in s'.correlations && s'.correlations[k] == s.correlations[k])
  }

  lemma TransitFrame(s: Store, cmd: Command, id: Id, event: Id, now: int, valid: bool)
    ensures var s' := Transit(s, cmd, id, event, now, valid).store;
            && KeepsDecisions(s, s') && s'.projects.Keys == s.projects.Keys
            && s'.artifacts == s.artifacts && (Keyed(s) ==> Keyed(s'))
  {
    hide Checks, VerdictOf, WithDecision, Results, ArtifactsResolve, Keyed;
    if cmd.project in s.projects {
      DecisionFrame(s, cmd, RecordOf(cmd, id, Results(Checks(s, cmd, now)), VerdictOf(s, cmd, now)), event);
    }
  }

  lemma CreateProjectFrame(s: Store, correlation: string, id: Id, event: Id, valid: bool)
    ensures var s' := CreateProject(s, correlation, id, event, valid).store;
            && KeepsDecisions(s, s') && s.projects.Keys <= s'.projects.Keys
            && s'.artifacts == s.artifacts && (Keyed(s) ==> Keyed(s'))
            && (CreatesOverEvents(s, correlation, id, event, valid) ==> id !in s.projects && id in s'.projects)
  {
    hide WithProject, Keyed;
    CreateFrame(s, correlation, id, event);
  }

  /** What every call leaves alone: decisions, and projects, stay; records stay under their
      own identifiers; artifacts change only with an evidence call. */
  lemma StepKeeps(s: Store, op: Op)
    ensures var s' := Step(s, op);
            && KeepsDecisions(s, s') && s.projects.Keys <= s'.projects.Keys && (Keyed(s) ==> Keyed(s'))
            && (!op.OpEvidence? ==> s'.artifacts == s.artifacts)
            && (BreaksReplay(s, op) ==> op.id !in s.projects && op.id in s'.projects)
  {
    hide Transit, CreateProject, UpdateDetails, SetWorkflowStatus, SetAgentStatus, RecordEvidence,
      CreateWorkflowRun, CreateAgentRun, RetryAgentRun, Keyed, CreatesOverEvents;
    match op
    case OpCreate(correlation, id, event, valid) => CreateProjectFrame(s, correlation, id, event, valid);
    case OpTransit(cmd, id, event, now, valid) => TransitFrame(s, cmd, id, event, now, valid);
    case _ => StepFrame(s, op);
  }

  // ------------------------------------------------------------ histories

  /** Any calls one after the other, from empty repositories. */
  ghost predicate History(stores: seq<Store>, ops: seq<Op>) {
    && |stores| == |ops| + 1 && stores[0] == NothingStored()
    && forall i :: 0 <= i < |ops| ==> stores[i + 1] == Step(stores[i], ops[i])
  }

  ghost predicate AllReplay(stores: seq<Store>, n: nat)
    requires n < |stores|
  {
    forall m :: 0 <= m <= n ==> EventsOk(stores[m], true)
  }

  ghost predicate AllSettled(stores: seq<Store>, n: nat, bounded: bool)
    requires n < |stores|
  {
    forall m :: 0 <= m <= n ==> RunsOk(stores[m], bounded)
  }

  ghost predicate NoneBreaksReplay(stores: seq<Store>, ops: seq<Op>, n: nat)
    requires n <= |ops| < |stores|
  {
    forall i :: 0 <= i < n ==> !BreaksReplay(stores[i], ops[i])
  }

  ghost predicate NoneBreaksRuns(stores: seq<Store>, ops: seq<Op>, n: nat, bounded: bool)
    requires n <= |ops| < |stores|
  {
    forall i :: 0 <= i < n ==> !BreaksRuns(stores[i], ops[i]) && (bounded ==> !BreaksBounds(stores[i], ops[i]))
  }

  lemma EmptyIsOk()
    ensures EventsOk(NothingStored(), true) && RecordsOk(NothingStored()) && RunsOk(NothingStored(), true)
  {
  }

  /** After any history every stored transition is guarded and routed, and the
      correlation caches name stored records. */
  lemma {:induction false} HistoryKeepsRecords(stores: seq<Store>, ops: seq<Op>, n: nat)
    requires History(stores, ops) && n < |stores|
    ensures RecordsOk(stores[n])
  {
    hide Step, RecordsOk;
    if n == 0 {
      EmptyIsOk();
    } else {
      HistoryKeepsRecords(stores, ops, n - 1);
      StepKeepsRecords(stores[n - 1], ops[n - 1]);
    }
  }

  /** Stored projects are exactly what their events replay to, at all times of a history,
      exactly when no project was created under an identifier that had events. */
  lemma {:induction false} HistoryReplaysIff(stores: seq<Store>, ops: seq<Op>, n: nat)
    requires History(stores, ops) && n < |stores|
    ensures AllReplay(stores, n) <==> NoneBreaksReplay(stores, ops, n)
  {
    hide Step, EventsOk, BreaksReplay;
    if n == 0 {
      EmptyIsOk();
    } else {
      HistoryReplaysIff(stores, ops, n - 1);
      assert AllReplay(stores, n) <==> AllReplay(stores, n - 1) && EventsOk(stores[n], true);
      assert NoneBreaksReplay(stores, ops, n) <==>
             NoneBreaksReplay(stores, ops, n - 1) && !BreaksReplay(stores[n - 1], ops[n - 1]);
      if AllReplay(stores, n - 1) { StepKeepsEvents(stores[n - 1], ops[n - 1], true); }
    }
  }

  /** No failed agent run without attempts left is in an open workflow run, at all times
      of a history, exactly when no cascade was refused for such a run; and attempts stay
      within what the workflow allows exactly when, besides, none was started beyond. */
  lemma {:induction false} HistorySettlesIff(stores: seq<Store>, ops: seq<Op>, n: nat, bounded: bool)
    requires History(stores, ops) && n < |stores|
    ensures AllSettled(stores, n, bounded) <==> NoneBreaksRuns(stores, ops, n, bounded)
  {
    hide Step, RunsOk, BreaksRuns, BreaksBounds;
    if n == 0 {
      EmptyRunsOk(bounded);
    } else {
      HistorySettlesIff(stores, ops, n - 1, bounded);
      assert AllSettled(stores, n, bounded) <==> AllSettled(stores, n - 1, bounded) && RunsOk(stores[n], bounded);
      assert NoneBreaksRuns(stores, ops, n, bounded) <==>
             && NoneBreaksRuns(stores, ops, n - 1, bounded)
             && !BreaksRuns(stores[n - 1], ops[n - 1]) && (bounded ==> !BreaksBounds(stores[n - 1], ops[n - 1]));
      if AllSettled(stores, n - 1, bounded) { StepKeepsRuns(stores[n - 1], ops[n - 1], bounded); }
    }
  }

  lemma EmptyRunsOk(bounded: bool)
    ensures RunsOk(NothingStored(), bounded)
  {
  }

  // ------------------------------------------------------------ records under their own names

  /** Over every history projects and runs are stored under their own identifiers,
      which is what the services rely on when they replace a record. */
  lemma {:induction false} HistoryKeepsKeys(stores: seq<Store>, ops: seq<Op>, n: nat)
    requires History(stores, ops) && n < |stores|
    ensures Keyed(stores[n])
  {
    hide Step, Keyed;
    if n == 0 {
      EmptyIsKeyed();
    } else {
      HistoryKeepsKeys(stores, ops, n - 1);
      StepKeeps(stores[n - 1], ops[n - 1]);
    }
  }

  lemma EmptyIsKeyed()
    ensures Keyed(NothingStored())
  {
  }

  /** At any point of a history a stored project lies on a route path from the start. */
  lemma HistoryFollowsRoutes(stores: seq<Store>, ops: seq<Op>, n: nat, p: Id)
    requires History(stores, ops) && n < |stores| && p in stores[n].projects && NoneBreaksReplay(stores, ops, n)
    ensures Replay(ForProject(stores[n], p)) == Success(SummaryOf(stores[n].projects[p]))
    ensures RoutePath(Moves(ForProject(stores[n], p)), NoProject, stores[n].projects[p].state)
  {
    HistoryReplaysIff(stores, ops, n);
    assert AllReplay(stores, n) && EventsOk(stores[n], true);
    assert ProjectReplays(stores[n], p, true);
    ProjectFollowsRoutes(stores[n], p);
  }

  // ------------------------------------------------------------ atomicity and repetition

  /** A transition call that fails changes nothing, and neither does a repeated one. */
  lemma FailedTransitChangesNothing(s: Store, cmd: Command, id: Id, event: Id, now: int, valid: bool)
    ensures var o := Transit(s, cmd, id, event, now, valid);
            o.result.Failure? || (cmd.project, cmd.correlation) in s.correlations ==> o.store == s
  {
    hide Checks, WithDecision, VerdictOf;
  }

  /** One that succeeds for a new key commits record, cache entry, event and project
      change together. */
  lemma TransitCommitsTogether(s: Store, cmd: Command, id: Id, event: Id, now: int, valid: bool)
    requires StreamsOk(s) && (cmd.project, cmd.correlation) !in s.correlations
    requires Transit(s, cmd, id, event, now, valid).result.Success?
    ensures var s' := Transit(s, cmd, id, event, now, valid).store;
            var t := Transit(s, cmd, id, event, now, valid).result.value;
            && id !in s.transitions && s'.transitions == s.transitions[id := t]
            && s'.correlations == s.correlations[(cmd.project, cmd.correlation) := id]
            && ForProject(s', cmd.project)
               == ForProject(s, cmd.project) + [Event(event, cmd.project, |ForProject(s, cmd.project)| + 1,
                                                      DecisionEvent(cmd, t.verdict))]
            && cmd.project in s.projects && cmd.project in s'.projects
            && (t.verdict.Rejected? ==> s'.projects == s.projects)
            && (t.verdict.Applied? ==>
                  SummaryOf(s'.projects[cmd.project])
                  == Summary(cmd.to, s.projects[cmd.project].revision + 1, |ForProject(s', cmd.project)|))
  {
    hide Checks, StreamsOk, AddRefs, StillPending, Results, FirstFailure, EventsOf;
    var t := Transit(s, cmd, id, event, now, valid).result.value;
    DecisionFrame(s, cmd, t, event);
    AppendStream(s, event, cmd.project, DecisionEvent(cmd, t.verdict));
    var mid := Appended(s, BuildEvent(s, event, cmd.project, DecisionEvent(cmd, t.verdict)));
    assert ForProject(WithDecision(s, cmd, t, event), cmd.project) == ForProject(mid, cmd.project);
  }

  lemma {:induction false} HistoryKeepsDecisions(stores: seq<Store>, ops: seq<Op>, n: nat, m: nat)
    requires History(stores, ops) && n <= m < |stores|
    ensures KeepsDecisions(stores[n], stores[m])
  {
    hide Step;
    if n < m {
      HistoryKeepsDecisions(stores, ops, n, m - 1);
      StepKeeps(stores[m - 1], ops[m - 1]);
    }
  }

  /** Once a correlation key is decided, repeating it at any later point returns the
      same record and changes nothing, whatever the repeated command says. */
  lemma RepeatChangesNothing(stores: seq<Store>, ops: seq<Op>, n: nat, m: nat, cmd: Command, id: Id, event: Id,
                             now: int, valid: bool)
    requires History(stores, ops) && n <= m < |stores|
    requires (cmd.project, cmd.correlation) in stores[n].correlations
    ensures var key := (cmd.project, cmd.correlation);
            stores[n].correlations[key] in stores[n].transitions &&
            Transit(stores[m], cmd, id, event, now, valid)
            == Outcome(stores[m], Success(stores[n].transitions[stores[n].correlations[key]]))
  {
    HistoryKeepsRecords(stores, ops, n);
    HistoryKeepsDecisions(stores, ops, n, m);
  }

  // ------------------------------------------------------------ where it can break

  /** A lifecycle event for a project that does not exist leaves a stream behind;
      creating that project afterwards yields one that cannot be replayed. */
  lemma PhantomStreamBreaksReplay(p: Id, correlation: string)
    ensures var ev := NewEvaluation(Evaluation("evl", p, true, true, None));
            var s1 := RecordEvidence(NothingStored(), ev, "evt1", true, true).store;
            var s2 := CreateProject(s1, correlation, p, "evt2", true).store;
            EventsOk(s1, true) && p in s2.projects && !EventsOk(s2, true)
  {
    hide ReplayOk, StreamsOk, EventsOk;
    var ev := NewEvaluation(Evaluation("evl", p, true, true, None));
    EmptyIsOk();
    StepKeepsEvents(NothingStored(), OpEvidence(ev, "evt1", true, true), true);
    var s1 := RecordEvidence(NothingStored(), ev, "evt1", true, true).store;
    assert Stream(s1, p) == ["evt1"] && s1.events.Keys == {"evt1"};
    CreateKeepsEvents(s1, correlation, p, "evt2", true, true);
  }

  /** The part of a store that the run services look at. */
  ghost predicate Shows(s: Store, workflowRuns: map<Id, WorkflowRun>, agentRuns: map<Id, AgentRun>, events: set<Id>) {
    && s.workflows == map["w" := Workflow("w", "1", 1)]
    && "p" in s.projects && s.projects["p"].active && s.projects["p"].state == NoProject
    && s.workflowRuns == workflowRuns && s.agentRuns == agentRuns && s.events.Keys == events
  }

  lemma AnnouncingShows(s: Store, workflowRuns: map<Id, WorkflowRun>, agentRuns: map<Id, AgentRun>, events: set<Id>,
                        event: Id, run: Id)
    requires Shows(s, workflowRuns, agentRuns, events)
    ensures Shows(Announcing(s, Running, event, "p", run), workflowRuns, agentRuns, events + {event})
  {
    hide Announcing, Framed;
    AnnouncingAdds(s, Running, event, "p", run);
    AnnouncingKeeps(s, Running, event, "p", run);
  }

  function TheRun(status: RunStatus, revision: int): WorkflowRun {
    WorkflowRun("r", revision, "p", Ref("w", None, None), status, NoProject, 1)
  }

  /** An agent run whose reference may name the revision its workflow run had then. */
  function TheAgent(status: RunStatus, revision: int, pin: Option<int>): AgentRun {
    AgentRun("a", revision, "p", Ref("r", None, pin), status, 1, false)
  }

  /** One workflow with one attempt; its run is started, gets an agent, and waits. */
  function Setup(pin: Option<int>): seq<Op> {
    [OpEvidence(NewWorkflow(Workflow("w", "1", 1)), "", true, true),
     OpCreate("c", "p", "e1", true),
     OpWorkflowRun(Ref("p", None, None), Ref("w", None, None), NoProject, 1, "r", true),
     OpWorkflowStatus("r", Running, 1, false, "e2", true),
     OpAgentRun("p", Ref("r", None, pin), 1, "a", true),
     OpAgentStatus("a", Running, 1, None, "c", "e3", "", true),
     OpWorkflowStatus("r", WaitingForInput, 2, false, "", true)]
  }

  lemma SetupProject() returns (s1: Store, s2: Store)
    ensures s1 == Step(NothingStored(), OpEvidence(NewWorkflow(Workflow("w", "1", 1)), "", true, true))
    ensures s2 == Step(s1, OpCreate("c", "p", "e1", true))
    ensures Shows(s2, map[], map[], {"e1"})
  {
    hide UpdateDetails, Transit, CreateWorkflowRun, CreateAgentRun, RetryAgentRun, SetWorkflowStatus,
      SetAgentStatus;
    s1 := RecordEvidence(NothingStored(), NewWorkflow(Workflow("w", "1", 1)), "", true, true).store;
    assert s1 == NothingStored().(workflows := map["w" := Workflow("w", "1", 1)]);
    s2 := CreateProject(s1, "c", "p", "e1", true).store;
  }

  lemma SetupQueued(s: Store) returns (s': Store)
    requires Shows(s, map[], map[], {"e1"})
    ensures s' == Step(s, OpWorkflowRun(Ref("p", None, None), Ref("w", None, None), NoProject, 1, "r", true))
    ensures Shows(s', map["r" := TheRun(Queued, 1)], map[], {"e1"})
  {
    hide CreateProject, UpdateDetails, Transit, CreateAgentRun, RetryAgentRun, SetWorkflowStatus, SetAgentStatus,
      RecordEvidence;
    s' := CreateWorkflowRun(s, Ref("p", None, None), Ref("w", None, None), NoProject, 1, "r", true).store;
  }

  lemma SetupRuns(s: Store) returns (s': Store)
    requires Shows(s, map["r" := TheRun(Queued, 1)], map[], {"e1"})
    ensures s' == Step(s, OpWorkflowStatus("r", Running, 1, false, "e2", true))
    ensures Shows(s', map["r" := TheRun(Running, 2)], map[], {"e1", "e2"})
  {
    hide CreateProject, UpdateDetails, Transit, CreateWorkflowRun, CreateAgentRun, RetryAgentRun, SetAgentStatus,
      RecordEvidence, Announcing;
    AnnouncingShows(s, map["r" := TheRun(Queued, 1)], map[], {"e1"}, "e2", "r");
    s' := SetWorkflowStatus(s, "r", Running, 1, false, "e2", true).store;
  }

  lemma SetupAgent(s: Store, pin: Option<int>) returns (s': Store)
    requires pin in {None, Some(2)} && Shows(s, map["r" := TheRun(Running, 2)], map[], {"e1", "e2"})
    ensures s' == Step(s, OpAgentRun("p", Ref("r", None, pin), 1, "a", true))
    ensures Shows(s', map["r" := TheRun(Running, 2)], map["a" := TheAgent(Queued, 1, pin)], {"e1", "e2"})
  {
    hide CreateProject, UpdateDetails, Transit, CreateWorkflowRun, RetryAgentRun, SetWorkflowStatus,
      SetAgentStatus, RecordEvidence;
    s' := CreateAgentRun(s, "p", Ref("r", None, pin), 1, "a", true).store;
  }

  lemma AgentStarts(s: Store, pin: Option<int>)
    requires Shows(s, map["r" := TheRun(Running, 2)], map["a" := TheAgent(Queued, 1, pin)], {"e1", "e2"})
    ensures SetAgentStatus(s, "a", Running, 1, None, "c", "e3", "", true).store
            == WithAgentStatus(s, "a", Running, false, "e3")
  {
    hide Cascade, WithAgentStatus;
  }

  lemma AgentStarted(s: Store, pin: Option<int>)
    requires Shows(s, map["r" := TheRun(Running, 2)], map["a" := TheAgent(Queued, 1, pin)], {"e1", "e2"})
    ensures "a" in s.agentRuns
    ensures Shows(WithAgentStatus(s, "a", Running, false, "e3"), map["r" := TheRun(Running, 2)],
                  map["a" := TheAgent(Running, 2, pin)], {"e1", "e2", "e3"})
  {
    hide Announcing;
    AnnouncingShows(s, map["r" := TheRun(Running, 2)], map["a" := TheAgent(Queued, 1, pin)], {"e1", "e2"}, "e3", "a");
    OneEntry(s.agentRuns, "a", TheAgent(Queued, 1, pin), TheAgent(Running, 2, pin));
  }

  lemma OneEntry<T>(m: map<Id, T>, k: Id, before: T, after: T)
    requires m == map[k := before]
    ensures m[k := after] == map[k := after]
  {
  }

  lemma SetupAgentRuns(s: Store, pin: Option<int>) returns (s': Store)
    requires Shows(s, map["r" := TheRun(Running, 2)], map["a" := TheAgent(Queued, 1, pin)], {"e1", "e2"})
    ensures s' == Step(s, OpAgentStatus("a", Running, 1, None, "c", "e3", "", true))
    ensures Shows(s', map["r" := TheRun(Running, 2)], map["a" := TheAgent(Running, 2, pin)], {"e1", "e2", "e3"})
  {
    hide Shows, CreateProject, UpdateDetails, Transit, CreateWorkflowRun, CreateAgentRun, RetryAgentRun,
      SetWorkflowStatus, SetAgentStatus, RecordEvidence, WithAgentStatus;
    AgentStarted(s, pin);
    AgentStarts(s, pin);
    s' := SetAgentStatus(s, "a", Running, 1, None, "c", "e3", "", true).store;
  }

  lemma SetupWaits(s: Store, pin: Option<int>) returns (s': Store)
    requires Shows(s, map["r" := TheRun(Running, 2)], map["a" := TheAgent(Running, 2, pin)], {"e1", "e2", "e3"})
    ensures s' == Step(s, OpWorkflowStatus("r", WaitingForInput, 2, false, "", true))
    ensures Waits(s', pin)
  {
    hide CreateProject, UpdateDetails, Transit, CreateWorkflowRun, CreateAgentRun, RetryAgentRun, SetAgentStatus,
      RecordEvidence;
    s' := SetWorkflowStatus(s, "r", WaitingForInput, 2, false, "", true).store;
  }

  /** How things stand after the setup. */
  ghost predicate Waits(s: Store, pin: Option<int>) {
    Shows(s, map["r" := TheRun(WaitingForInput, 3)], map["a" := TheAgent(Running, 2, pin)], {"e1", "e2", "e3"})
  }

  lemma SetupHistory(pin: Option<int>) returns (stores: seq<Store>)
    requires pin in {None, Some(2)}
    ensures History(stores, Setup(pin)) && |stores| == 8 && Waits(stores[7], pin) && RunsOk(stores[7], false)
  {
    hide RunsOk, Shows, Waits, Step, NothingStored;
    var s1, s2 := SetupProject();
    var s3 := SetupQueued(s2);
    var s4 := SetupRuns(s3);
    var s5 := SetupAgent(s4, pin);
    var s6 := SetupAgentRuns(s5, pin);
    var s7 := SetupWaits(s6, pin);
    stores := [NothingStored(), s1, s2, s3, s4, s5, s6, s7];
    SetupKeepsRuns(stores, pin, 7);
  }

  lemma {:induction false} SetupKeepsRuns(stores: seq<Store>, pin: Option<int>, n: nat)
    requires n <= 7 && History(stores, Setup(pin))
    ensures RunsOk(stores[n], false)
  {
    hide RunsOk, Step;
    if n == 0 {
      EmptyRunsOk(false);
    } else {
      SetupKeepsRuns(stores, pin, n - 1);
      StepKeepsRuns(stores[n - 1], Setup(pin)[n - 1], false);
      assert !BreaksRuns(stores[n - 1], Setup(pin)[n - 1]);
    }
  }

  /** The only attempt fails for good. */
  function LastFailure(correlation: string): Op {
    OpAgentStatus("a", Failed, 2, Some(false), correlation, "e4", "e5", true)
  }

  /** The call is refused with `error`, its failure is stored, and the workflow run
      waits on. */
  ghost predicate LeftOpen(s: Store, correlation: string, error: Error) {
    var o := SetAgentStatus(s, "a", Failed, 2, Some(false), correlation, "e4", "e5", true);
    && o.result == Failure(error)
    && "a" in o.store.agentRuns && o.store.agentRuns["a"].status == Failed
    && "r" in o.store.workflowRuns && o.store.workflowRuns["r"].status == WaitingForInput
    && !RunsOk(o.store, false)
  }

  lemma LastFailureLeavesOpen(s: Store, pin: Option<int>, correlation: string)
    requires RunsOk(s, false) && Waits(s, pin) && CorrelationFits(correlation)
    requires pin == Some(2) || (pin == None && |correlation| > LONGEST)
    ensures LeftOpen(s, correlation, if pin == None then SchemaInvalid else BadReference)
  {
    hide RunsOk, SetAgentStatus;
    FailureIsCascadedIff(s, "a", 2, Some(false), correlation, "e4", "e5", true);
    assert Owed(s, s.agentRuns["a"]);
  }

  /** An agent run started with a reference to the revision its workflow run had then
      cannot end that run once it has moved on. */
  lemma PinnedReferenceStopsCascade(correlation: string) returns (stores: seq<Store>, ops: seq<Op>)
    requires CorrelationFits(correlation)
    ensures History(stores, ops) && |ops| == 8 && ops[7] == LastFailure(correlation)
    ensures RunsOk(stores[7], false) && LeftOpen(stores[7], correlation, BadReference)
  {
    hide Step, RunsOk, Shows, LeftOpen;
    var before := SetupHistory(Some(2));
    LastFailureLeavesOpen(before[7], Some(2), correlation);
    stores := before + [Step(before[7], LastFailure(correlation))];
    ops := Setup(Some(2)) + [LastFailure(correlation)];
  }

  /** Neither can one whose failure is reported under a correlation identifier that the
      event contract takes, but not with what the cascade adds to it. */
  lemma LongCorrelationStopsCascade(correlation: string) returns (stores: seq<Store>, ops: seq<Op>)
    requires LONGEST < |correlation| <= MAX_CORRELATION
    ensures History(stores, ops) && |ops| == 8 && ops[7] == LastFailure(correlation)
    ensures RunsOk(stores[7], false) && LeftOpen(stores[7], correlation, SchemaInvalid)
  {
    hide Step, RunsOk, Shows, LeftOpen;
    var before := SetupHistory(None);
    LastFailureLeavesOpen(before[7], None, correlation);
    stores := before + [Step(before[7], LastFailure(correlation))];
    ops := Setup(None) + [LastFailure(correlation)];
  }
}
