/**
 The event-sourced project aggregate (src/founderos_runtime): repositories, the
 guarded state machine, run lifecycles, and what each service operation does to
 all of them.  Identifiers come from outside and may collide with existing ones.
 */
module ProjectRuntime {
  import opened Basics

  type Id = string

  // ------------------------------------------------------------ the route table

  datatype Stage =
    | NoProject | FounderSetup | FounderBriefComplete | DiscoveryRunning | OpportunitySelected
    | ValidationRunning | ValidationPassed | ProductDesignRunning | PrdComplete | ArchitectureRunning
    | ArchitectureComplete | AiDesignRunning | AiArchitectureComplete | DevelopmentPlanning | SprintReady
    | MvpBuilding | QaRunning | ReadyForBeta | LaunchRunning | CustomersAcquired | CeoReview | Scaling
    | Unknown(name: string)

  function StageName(stage: Stage): string {
    match stage
    case NoProject => "NO_PROJECT"
    case FounderSetup => "FOUNDER_SETUP"
    case FounderBriefComplete => "FOUNDER_BRIEF_COMPLETE"
    case DiscoveryRunning => "DISCOVERY_RUNNING"
    case OpportunitySelected => "OPPORTUNITY_SELECTED"
    case ValidationRunning => "VALIDATION_RUNNING"
    case ValidationPassed => "VALIDATION_PASSED"
    case ProductDesignRunning => "PRODUCT_DESIGN_RUNNING"
    case PrdComplete => "PRD_COMPLETE"
    case ArchitectureRunning => "ARCHITECTURE_RUNNING"
    case ArchitectureComplete => "ARCHITECTURE_COMPLETE"
    case AiDesignRunning => "AI_DESIGN_RUNNING"
    case AiArchitectureComplete => "AI_ARCHITECTURE_COMPLETE"
    case DevelopmentPlanning => "DEVELOPMENT_PLANNING"
    case SprintReady => "SPRINT_READY"
    case MvpBuilding => "MVP_BUILDING"
    case QaRunning => "QA_RUNNING"
    case ReadyForBeta => "READY_FOR_BETA"
    case LaunchRunning => "LAUNCH_RUNNING"
    case CustomersAcquired => "CUSTOMERS_ACQUIRED"
    case CeoReview => "CEO_REVIEW"
    case Scaling => "SCALING"
    case Unknown(name) => name
  }

  datatype RunStatus = Queued | Running | WaitingForInput | WaitingForApproval | Succeeded | Failed | Cancelled

  datatype Requirement = Requirement(
    artifactTypes: set<string>,
    workflowStatuses: set<RunStatus>,
    evaluation: bool,
    decision: bool,
    approval: bool)

  function Start(): Requirement { Requirement({}, {Running}, false, false, true) }

  function Route(from: Stage, to: Stage): Option<Requirement> {
    match (from, to)
    case (NoProject, FounderSetup) => Some(Requirement({}, {Queued, Running}, false, false, false))
    case (FounderSetup, FounderBriefComplete) => Some(Requirement({"founder_brief"}, {Succeeded}, true, false, true))
    case (FounderBriefComplete, DiscoveryRunning) => Some(Start())
    case (DiscoveryRunning, OpportunitySelected) =>
      Some(Requirement({"opportunity_report"}, {Succeeded}, false, true, true))
    case (OpportunitySelected, ValidationRunning) => Some(Start())
    case (ValidationRunning, ValidationPassed) =>
      Some(Requirement({"validation_report"}, {Succeeded}, true, false, true))
    case (ValidationRunning, DiscoveryRunning) => Some(Requirement({}, {}, false, true, true))
    case (ValidationPassed, ProductDesignRunning) => Some(Start())
    case (ProductDesignRunning, PrdComplete) => Some(Requirement({"prd"}, {Succeeded}, false, true, true))
    case (PrdComplete, ArchitectureRunning) => Some(Start())
    case (ArchitectureRunning, ArchitectureComplete) =>
      Some(Requirement({"architecture", "database_design", "api_specification", "security_model"}, {Succeeded}, false,
                       false, true))
    case (ArchitectureComplete, AiDesignRunning) => Some(Start())
    case (AiDesignRunning, AiArchitectureComplete) =>
      Some(Requirement({"ai_architecture", "evaluation_plan"}, {Succeeded}, false, false, true))
    case (AiArchitectureComplete, DevelopmentPlanning) => Some(Start())
    case (DevelopmentPlanning, SprintReady) =>
      Some(Requirement({"sprint_plan", "implementation_backlog"}, {Succeeded}, false, false, true))
    case (SprintReady, MvpBuilding) => Some(Requirement({}, {}, false, false, true))
    case (MvpBuilding, QaRunning) => Some(Start())
    case (QaRunning, ReadyForBeta) => Some(Requirement({}, {Succeeded}, true, false, true))
    case (ReadyForBeta, LaunchRunning) =>
      Some(Requirement({"beta_launch_plan", "gtm_plan", "sales_playbook", "support_plan"}, {}, false, false, true))
    case (LaunchRunning, CustomersAcquired) => Some(Requirement({"customer_evidence"}, {}, false, true, true))
    case (CustomersAcquired, CeoReview) => Some(Start())
    case (CeoReview, Scaling) => Some(Requirement({"ceo_review"}, {Succeeded}, false, true, true))
    case _ => None
  }

  // ------------------------------------------------------------ records

  datatype Ref = Ref(id: Id, version: Option<string>, revision: Option<int>)

  datatype Project = Project(
    id: Id, revision: int, active: bool, state: Stage, lastEvent: int,
    completed: seq<Ref>, pending: seq<string>, nextAction: string)

  datatype Body =
    | ProjectCreated(state: Stage, revision: int)
    | ProjectUpdated(revision: int)
    | TransitionApplied(from: Stage, to: Stage, revision: int)
    | TransitionRejected(from: Stage, to: Stage, code: Code)
    | RunChanged(run: Id, status: RunStatus)
    | Lifecycle(name: string)

  datatype Event = Event(id: Id, project: Id, sequence: int, body: Body)

  datatype Guard =
    | ProjectActive | RevisionMatches | StateMatches | TransitionAllowed
    | WorkflowSucceeded | ArtifactStatus | EvaluationPassed | DecisionRecorded | ApprovalGranted

  datatype Code = ProjectNotActive | StaleRevision | InvalidTransition | GuardFailed | ApprovalMissing

  datatype GuardResult = GuardResult(guard: Guard, passed: bool)

  datatype Verdict = Applied(revision: int) | Rejected(code: Code)

  datatype Transition = Transition(
    id: Id, project: Id, from: Stage, to: Stage, guards: seq<GuardResult>, verdict: Verdict, correlation: string)

  datatype Workflow = Workflow(id: Id, version: string, maxAttempts: int)

  datatype WorkflowRun = WorkflowRun(
    id: Id, revision: int, project: Id, workflow: Ref, status: RunStatus, entryState: Stage, attempt: int)

  datatype AgentRun = AgentRun(
    id: Id, revision: int, project: Id, workflowRun: Ref, status: RunStatus, attempt: int, retryable: bool)

  datatype Artifact = Artifact(
    id: Id, project: Id, version: string, revision: int, kind: string, approved: bool, uri: string, digest: string)

  datatype Evaluation = Evaluation(id: Id, project: Id, completed: bool, pass: bool, confidence: Option<real>)

  datatype Decision = Decision(id: Id, project: Id, version: string, revision: int, approved: bool)

  datatype ApprovalStatus = Pending | Granted | Refused

  datatype Approval = Approval(
    id: Id, project: Id, revision: int, status: ApprovalStatus, byHuman: bool, expiresAt: Option<int>)

  /** All repositories, and the correlation caches of the two services. */
  datatype Store = Store(
    projects: map<Id, Project>,
    events: map<Id, Event>,
    streams: map<Id, seq<Id>>,
    transitions: map<Id, Transition>,
    workflows: map<Id, Workflow>,
    workflowRuns: map<Id, WorkflowRun>,
    agentRuns: map<Id, AgentRun>,
    artifacts: map<Id, Artifact>,
    evaluations: map<Id, Evaluation>,
    decisions: map<Id, Decision>,
    approvals: map<Id, Approval>,
    created: map<string, Id>,
    correlations: map<(Id, string), Id>)

  datatype Error = NotFound | Duplicate | RevisionConflict | BadReference | SchemaInvalid | NotAllowed | FailureMissing

  /** The store after an operation, and what the caller gets. */
  datatype Outcome<T> = Outcome(store: Store, result: Result<T, Error>)

  // ------------------------------------------------------------ event streams

  function Stream(s: Store, p: Id): seq<Id> {
    if p in s.streams then s.streams[p] else []
  }

  function NextSequence(s: Store, p: Id): int {
    |Stream(s, p)| + 1
  }

  function BuildEvent(s: Store, id: Id, p: Id, body: Body): Event {
    Event(id, p, NextSequence(s, p), body)
  }

  /** Appending an event whose id is new. */
  function Appended(s: Store, e: Event): Store {
    s.(events := s.events[e.id := e], streams := s.streams[e.project := Stream(s, e.project) + [e.id]])
  }

  ghost predicate StreamsOk(s: Store) {
    forall p, k :: p in s.streams && 0 <= k < |s.streams[p]| ==> EventAt(s, p, k)
  }

  ghost predicate EventAt(s: Store, p: Id, k: int)
    requires p in s.streams && 0 <= k < |s.streams[p]|
  {
    var id := s.streams[p][k];
    id in s.events && s.events[id].project == p && s.events[id].sequence == k + 1 && s.events[id].id == id
  }

  function EventsOf(events: map<Id, Event>, ids: seq<Id>): seq<Event> {
    if ids == [] then []
    else
      EventsOf(events, ids[..|ids| - 1]) +
      (if ids[|ids| - 1] in events then [events[ids[|ids| - 1]]] else [])
  }

  function ForProject(s: Store, p: Id): seq<Event> {
    EventsOf(s.events, Stream(s, p))
  }

  // ------------------------------------------------------------ replay

  datatype Summary = Summary(state: Stage, revision: int, lastEvent: int)

  datatype ReplayError = Gap | DuplicateCreated | NotCreated | StateMismatch | EmptyStream

  /** One turn of the replay loop; `n` is the sequence number it expects. */
  function ReplayOne(sum: Option<Summary>, e: Event, n: int): Result<Option<Summary>, ReplayError> {
    if e.sequence != n then Failure(Gap)
    else if e.body.ProjectCreated? then
      if sum.Some? then Failure(DuplicateCreated)
      else Success(Some(Summary(e.body.state, e.body.revision, e.sequence)))
    else if sum.None? then Failure(NotCreated)
    else
      match e.body
      case TransitionApplied(from, to, revision) =>
        if from != sum.value.state then Failure(StateMismatch)
        else Success(Some(Summary(to, revision, e.sequence)))
      case ProjectUpdated(revision) => Success(Some(Summary(sum.value.state, revision, e.sequence)))
      case _ => Success(sum)
  }

  function ReplayAll(events: seq<Event>): Result<Option<Summary>, ReplayError> {
    if events == [] then Success(None)
    else
      match ReplayAll(events[..|events| - 1])
      case Failure(e) => Failure(e)
      case Success(sum) => ReplayOne(sum, events[|events| - 1], |events|)
  }

  function Replay(events: seq<Event>): Result<Summary, ReplayError> {
    match ReplayAll(events)
    case Failure(e) => Failure(e)
    case Success(None) => Failure(EmptyStream)
    case Success(Some(sum)) => Success(sum)
  }

  /** What a stored project says of itself in replay terms. */
  function SummaryOf(p: Project): Summary {
    Summary(p.state, p.revision, p.lastEvent)
  }

  /** A stored project is what replaying its events gives; `strict` asks for the number
      of its last event as well, which a load does not look at. */
  ghost predicate ProjectReplays(s: Store, p: Id, strict: bool)
    requires p in s.projects
  {
    && s.projects[p].id == p
    && var r := Replay(ForProject(s, p));
       r.Success? && Tells(r.value, SummaryOf(s.projects[p]), strict)
  }

  predicate Tells(sum: Summary, stored: Summary, strict: bool) {
    sum.state == stored.state && sum.revision == stored.revision && (strict ==> sum.lastEvent == stored.lastEvent)
  }

  ghost predicate ReplayOk(s: Store, strict: bool) {
    forall p :: p in s.projects ==> ProjectReplays(s, p, strict)
  }

  // ------------------------------------------------------------ creating and updating

  function NewProject(id: Id): Project {
    Project(id, 1, true, NoProject, 1, [], [], "Begin founder setup")
  }

  function WithProject(s: Store, correlation: string, id: Id, event: Id): Store {
    Appended(s, BuildEvent(s, event, id, ProjectCreated(NoProject, 1))).(
      projects := s.projects[id := NewProject(id)], created := s.created[correlation := id])
  }

  function CreateProject(s: Store, correlation: string, id: Id, event: Id, valid: bool): Outcome<Project> {
    if correlation in s.created then
      if s.created[correlation] in s.projects then Outcome(s, Success(s.projects[s.created[correlation]]))
      else Outcome(s, Failure(NotFound))
    else if !valid then Outcome(s, Failure(SchemaInvalid))
    else if id in s.projects || event in s.events then Outcome(s, Failure(Duplicate))
    else Outcome(WithProject(s, correlation, id, event), Success(NewProject(id)))
  }

  function Updated(s: Store, id: Id, nextAction: Option<string>): Project
    requires id in s.projects
  {
    var p := s.projects[id];
    p.(revision := p.revision + 1, lastEvent := NextSequence(s, id),
       nextAction := if nextAction.Some? then nextAction.value else p.nextAction)
  }

  function WithUpdate(s: Store, id: Id, nextAction: Option<string>, event: Id): Store
    requires id in s.projects
  {
    Appended(s, BuildEvent(s, event, id, ProjectUpdated(s.projects[id].revision + 1))).(
      projects := s.projects[id := Updated(s, id, nextAction)])
  }

  function UpdateDetails(s: Store, id: Id, expected: int, nextAction: Option<string>, event: Id, valid: bool)
    : Outcome<Project>
  {
    if id !in s.projects then Outcome(s, Failure(NotFound))
    else if !valid then Outcome(s, Failure(SchemaInvalid))
    else if s.projects[id].revision != expected then Outcome(s, Failure(RevisionConflict))
    else if event in s.events then Outcome(s, Failure(Duplicate))
    else Outcome(WithUpdate(s, id, nextAction, event), Success(Updated(s, id, nextAction)))
  }

  // ------------------------------------------------------------ guards

  datatype Command = Command(
    project: Id, from: Stage, to: Stage, expected: int, correlation: string,
    workflowRun: Option<Ref>, artifacts: seq<Ref>, evaluations: seq<Ref>, decisions: seq<Ref>, approvals: seq<Ref>)

  predicate Fits(ref: Ref, version: Option<string>, revision: Option<int>, owner: Id, project: Id) {
    && (ref.version.Some? ==> version == ref.version)
    && (ref.revision.Some? ==> revision == ref.revision)
    && owner == project
  }

  predicate WorkflowRunResolves(s: Store, ref: Ref, project: Id) {
    ref.id in s.workflowRuns &&
    var r := s.workflowRuns[ref.id];
    Fits(ref, None, Some(r.revision), r.project, project)
  }

  predicate ArtifactResolves(s: Store, ref: Ref, project: Id) {
    ref.id in s.artifacts &&
    var r := s.artifacts[ref.id];
    Fits(ref, Some(r.version), Some(r.revision), r.project, project)
  }

  predicate EvaluationResolves(s: Store, ref: Ref, project: Id) {
    ref.id in s.evaluations && Fits(ref, None, None, s.evaluations[ref.id].project, project)
  }

  predicate DecisionResolves(s: Store, ref: Ref, project: Id) {
    ref.id in s.decisions &&
    var r := s.decisions[ref.id];
    Fits(ref, Some(r.version), Some(r.revision), r.project, project)
  }

  predicate ApprovalResolves(s: Store, ref: Ref, project: Id) {
    ref.id in s.approvals &&
    var r := s.approvals[ref.id];
    Fits(ref, None, Some(r.revision), r.project, project)
  }

  predicate WorkflowReady(s: Store, cmd: Command, req: Requirement) {
    && cmd.workflowRun.Some?
    && WorkflowRunResolves(s, cmd.workflowRun.value, cmd.project)
    && s.workflowRuns[cmd.workflowRun.value.id].status in req.workflowStatuses
  }

  predicate ArtifactsResolve(s: Store, cmd: Command) {
    forall r :: r in cmd.artifacts ==> ArtifactResolves(s, r, cmd.project)
  }

  predicate ArtifactsApproved(s: Store, cmd: Command, req: Requirement) {
    && ArtifactsResolve(s, cmd)
    && forall t :: t in req.artifactTypes ==>
         exists r :: r in cmd.artifacts && s.artifacts[r.id].approved && s.artifacts[r.id].kind == t
  }

  predicate EvaluationsPass(s: Store, cmd: Command) {
    && cmd.evaluations != []
    && forall r :: r in cmd.evaluations ==>
         && EvaluationResolves(s, r, cmd.project)
         && var e := s.evaluations[r.id];
            e.completed && e.pass && (e.confidence.Some? ==> e.confidence.value >= 0.70)
  }

  predicate DecisionsApproved(s: Store, cmd: Command) {
    && cmd.decisions != []
    && forall r :: r in cmd.decisions ==> DecisionResolves(s, r, cmd.project) && s.decisions[r.id].approved
  }

  predicate ApprovalsGranted(s: Store, cmd: Command, now: int) {
    && cmd.approvals != []
    && forall r :: r in cmd.approvals ==>
         && ApprovalResolves(s, r, cmd.project)
         && var a := s.approvals[r.id];
            a.status == Granted && a.byHuman && (a.expiresAt.Some? ==> a.expiresAt.value > now)
  }

  datatype Check = Check(guard: Guard, passed: bool, code: Code)

  /** All guards that apply to the command, in the order they are evaluated. */
  function Checks(s: Store, cmd: Command, now: int): seq<Check>
    requires cmd.project in s.projects
  {
    var p := s.projects[cmd.project];
    var route := Route(cmd.from, cmd.to);
    [Check(ProjectActive, p.active, ProjectNotActive),
     Check(RevisionMatches, p.revision == cmd.expected, StaleRevision),
     Check(StateMatches, p.state == cmd.from, InvalidTransition),
     Check(TransitionAllowed, route.Some?, InvalidTransition)]
    + (if route.Some? then EvidenceChecks(s, cmd, route.value, now) else [])
  }

  function If(wanted: bool, c: Check): seq<Check> { if wanted then [c] else [] }

  function ProducedChecks(s: Store, cmd: Command, req: Requirement): seq<Check> {
    If(req.workflowStatuses != {}, Check(WorkflowSucceeded, WorkflowReady(s, cmd, req), GuardFailed))
    + If(req.artifactTypes != {}, Check(ArtifactStatus, ArtifactsApproved(s, cmd, req), GuardFailed))
  }

  function JudgedChecks(s: Store, cmd: Command, req: Requirement, now: int): seq<Check> {
    If(req.evaluation, Check(EvaluationPassed, EvaluationsPass(s, cmd), GuardFailed))
    + If(req.decision, Check(DecisionRecorded, DecisionsApproved(s, cmd), GuardFailed))
    + If(req.approval, Check(ApprovalGranted, ApprovalsGranted(s, cmd, now), ApprovalMissing))
  }

  function EvidenceChecks(s: Store, cmd: Command, req: Requirement, now: int): seq<Check> {
    ProducedChecks(s, cmd, req) + JudgedChecks(s, cmd, req, now)
  }

  /** The results recorded: evaluation stops at the first guard that fails. */
  function Results(checks: seq<Check>): seq<GuardResult> {
    if checks == [] then []
    else if checks[0].passed then [GuardResult(checks[0].guard, true)] + Results(checks[1..])
    else [GuardResult(checks[0].guard, false)]
  }

  function FirstFailure(checks: seq<Check>): Option<Code> {
    if checks == [] then None
    else if checks[0].passed then FirstFailure(checks[1..])
    else Some(checks[0].code)
  }

  // ------------------------------------------------------------ transitions

  function AddRefs(known: seq<Ref>, refs: seq<Ref>): seq<Ref>
    decreases |refs|
  {
    if refs == [] then known
    else if exists k :: k in known && k.id == refs[0].id && k.version == refs[0].version then AddRefs(known, refs[1..])
    else AddRefs(known + [refs[0]], refs[1..])
  }

  function StillPending(s: Store, pending: seq<string>, refs: seq<Ref>): seq<string> {
    if pending == [] then []
    else
      (if exists r :: r in refs && r.id in s.artifacts && s.artifacts[r.id].kind == pending[0] then []
       else [pending[0]])
      + StillPending(s, pending[1..], refs)
  }

  function Moved(s: Store, p: Project, cmd: Command, sequence: int): Project {
    p.(state := cmd.to, revision := p.revision + 1, lastEvent := sequence,
       completed := AddRefs(p.completed, cmd.artifacts),
       pending := if cmd.artifacts != [] then StillPending(s, p.pending, cmd.artifacts) else p.pending,
       nextAction := "Continue from " + StageName(cmd.to))
  }

  function RecordOf(cmd: Command, id: Id, guards: seq<GuardResult>, verdict: Verdict): Transition {
    Transition(id, cmd.project, cmd.from, cmd.to, guards, verdict, cmd.correlation)
  }

  /** What the guards decide: the code of the first that fails, or nothing. */
  function VerdictOf(s: Store, cmd: Command, now: int): Verdict
    requires cmd.project in s.projects
  {
    match FirstFailure(Checks(s, cmd, now))
    case Some(code) => Rejected(code)
    case None => Applied(s.projects[cmd.project].revision + 1)
  }

  function DecisionEvent(cmd: Command, verdict: Verdict): Body {
    match verdict
    case Rejected(code) => TransitionRejected(cmd.from, cmd.to, code)
    case Applied(revision) => TransitionApplied(cmd.from, cmd.to, revision)
  }

  function MovedProjects(s: Store, cmd: Command, verdict: Verdict): map<Id, Project>
    requires cmd.project in s.projects
  {
    if verdict.Rejected? then s.projects
    else s.projects[cmd.project := Moved(s, s.projects[cmd.project], cmd, NextSequence(s, cmd.project))]
  }

  function WithDecision(s: Store, cmd: Command, t: Transition, event: Id): Store
    requires cmd.project in s.projects
  {
    Appended(s, BuildEvent(s, event, cmd.project, DecisionEvent(cmd, t.verdict))).(
      projects := MovedProjects(s, cmd, t.verdict),
      transitions := s.transitions[t.id := t],
      correlations := s.correlations[(cmd.project, cmd.correlation) := t.id])
  }

  function Decide(s: Store, cmd: Command, t: Transition, event: Id, valid: bool): Outcome<Transition>
    requires cmd.project in s.projects
  {
    if t.verdict.Applied? && !ArtifactsResolve(s, cmd) then Outcome(s, Failure(BadReference))
    else if !valid then Outcome(s, Failure(SchemaInvalid))
    else if t.id in s.transitions || event in s.events then Outcome(s, Failure(Duplicate))
    else Outcome(WithDecision(s, cmd, t, event), Success(t))
  }

  function Transit(s: Store, cmd: Command, id: Id, event: Id, now: int, valid: bool): Outcome<Transition> {
    var key := (cmd.project, cmd.correlation);
    if key in s.correlations then
      if s.correlations[key] in s.transitions then Outcome(s, Success(s.transitions[s.correlations[key]]))
      else Outcome(s, Failure(NotFound))
    else if cmd.project !in s.projects then Outcome(s, Failure(NotFound))
    else Decide(s, cmd, RecordOf(cmd, id, Results(Checks(s, cmd, now)), VerdictOf(s, cmd, now)), event, valid)
  }

  // ------------------------------------------------------------ runs

  predicate Terminal(st: RunStatus) {
    st.Succeeded? || st.Failed? || st.Cancelled?
  }

  predicate WorkflowAllowed(from: RunStatus, to: RunStatus) {
    match from
    case Queued => to.Running? || to.Cancelled?
    case Running => to.WaitingForInput? || to.WaitingForApproval? || Terminal(to)
    case WaitingForInput => to.Running? || to.Failed? || to.Cancelled?
    case WaitingForApproval => to.Running? || to.Failed? || to.Cancelled?
    case _ => false
  }

  predicate AgentAllowed(from: RunStatus, to: RunStatus) {
    match from
    case Queued => to.Running? || to.Cancelled?
    case Running => Terminal(to)
    case _ => false
  }

  /** Statuses that are announced by an event. */
  predicate Announced(st: RunStatus) {
    st.Running? || st.Succeeded? || st.Failed?
  }

  function WorkflowResolves(s: Store, ref: Ref): bool {
    && ref.id in s.workflows
    && (ref.version.Some? ==> s.workflows[ref.id].version == ref.version.value)
    && ref.revision.None?
  }

  predicate ProjectResolves(s: Store, ref: Ref) {
    && ref.id in s.projects
    && ref.version.None?
    && (ref.revision.Some? ==> s.projects[ref.id].revision == ref.revision.value)
  }

  function CreateWorkflowRun(s: Store, project: Ref, workflow: Ref, entry: Stage, attempt: int, id: Id, valid: bool)
    : Outcome<WorkflowRun>
  {
    if project.id !in s.projects then Outcome(s, Failure(NotFound))
    else if !ProjectResolves(s, project) then Outcome(s, Failure(BadReference))
    else if !WorkflowResolves(s, workflow) then Outcome(s, Failure(BadReference))
    else if !s.projects[project.id].active || s.projects[project.id].state != entry then Outcome(s, Failure(NotAllowed))
    else if !valid then Outcome(s, Failure(SchemaInvalid))
    else if id in s.workflowRuns then Outcome(s, Failure(Duplicate))
    else
      var r := WorkflowRun(id, 1, project.id, workflow, Queued, entry, attempt);
      Outcome(s.(workflowRuns := s.workflowRuns[id := r]), Success(r))
  }

  predicate TakesAgents(st: RunStatus) {
    st.Running? || st.WaitingForInput?
  }

  function CreateAgentRun(s: Store, project: Id, workflowRun: Ref, attempt: int, id: Id, valid: bool)
    : Outcome<AgentRun>
  {
    if project !in s.projects then Outcome(s, Failure(NotFound))
    else if !WorkflowRunResolves(s, workflowRun, project) then Outcome(s, Failure(BadReference))
    else if !TakesAgents(s.workflowRuns[workflowRun.id].status) then Outcome(s, Failure(NotAllowed))
    else if !valid then Outcome(s, Failure(SchemaInvalid))
    else if id in s.agentRuns then Outcome(s, Failure(Duplicate))
    else
      var r := AgentRun(id, 1, project, workflowRun, Queued, attempt, false);
      Outcome(s.(agentRuns := s.agentRuns[id := r]), Success(r))
  }

  function RetryAgentRun(s: Store, failed: Id, id: Id, valid: bool): Outcome<AgentRun> {
    if failed !in s.agentRuns then Outcome(s, Failure(NotFound))
    else
      var f := s.agentRuns[failed];
      if f.status != Failed || !f.retryable then Outcome(s, Failure(NotAllowed))
      else CreateAgentRun(s, f.project, f.workflowRun, f.attempt + 1, id, valid)
  }

  function Announcing(s: Store, status: RunStatus, event: Id, project: Id, run: Id): Store {
    if Announced(status) then Appended(s, BuildEvent(s, event, project, RunChanged(run, status))) else s
  }

  function WithWorkflowStatus(s: Store, id: Id, status: RunStatus, event: Id): Store
    requires id in s.workflowRuns
  {
    var r := s.workflowRuns[id];
    Announcing(s, status, event, r.project, id).(
      workflowRuns := s.workflowRuns[id := r.(status := status, revision := r.revision + 1)])
  }

  function StatusRefused(allowed: bool, detailsMissing: bool, valid: bool, stale: bool, duplicate: bool)
    : Option<Error>
  {
    if !allowed then Some(NotAllowed)
    else if detailsMissing then Some(FailureMissing)
    else if !valid then Some(SchemaInvalid)
    else if stale then Some(RevisionConflict)
    else if duplicate then Some(Duplicate)
    else None
  }

  /** A failing run must come with failure details; only announced statuses need an event. */
  function SetWorkflowStatus(s: Store, id: Id, status: RunStatus, expected: int, details: bool, event: Id,
                             valid: bool): Outcome<WorkflowRun> {
    if id !in s.workflowRuns then Outcome(s, Failure(NotFound))
    else
      match StatusRefused(WorkflowAllowed(s.workflowRuns[id].status, status), status == Failed && !details, valid,
                          s.workflowRuns[id].revision != expected, Announced(status) && event in s.events)
      case Some(error) => Outcome(s, Failure(error))
      case None =>
        var s' := WithWorkflowStatus(s, id, status, event);
        Outcome(s', Success(s'.workflowRuns[id]))
  }

  function WithAgentStatus(s: Store, id: Id, status: RunStatus, retryable: bool, event: Id): Store
    requires id in s.agentRuns
  {
    var r := s.agentRuns[id];
    Announcing(s, status, event, r.project, id).(
      agentRuns := s.agentRuns[id := r.(status := status, revision := r.revision + 1,
                                        retryable := if status == Failed then retryable else r.retryable)])
  }

  function SetAgentStatusOnly(s: Store, id: Id, status: RunStatus, expected: int, details: Option<bool>, event: Id,
                              valid: bool)
    : Outcome<AgentRun>
  {
    if id !in s.agentRuns then Outcome(s, Failure(NotFound))
    else
      match StatusRefused(AgentAllowed(s.agentRuns[id].status, status), status == Failed && details.None?, valid,
                          s.agentRuns[id].revision != expected, Announced(status) && event in s.events)
      case Some(error) => Outcome(s, Failure(error))
      case None =>
        var s' := WithAgentStatus(s, id, status, details.Some? && details.value, event);
        Outcome(s', Success(s'.agentRuns[id]))
  }

  const MAX_CORRELATION := 200

  /** What the event contract asks of a correlation identifier. */
  predicate CorrelationFits(correlation: string) {
    1 <= |correlation| <= MAX_CORRELATION
  }

  /** The correlation identifier of the event that ends the workflow run. */
  function Derived(correlation: string): string {
    correlation + ":workflow"
  }

  /** The outcome of validating a run's record and, when its status is announced, the
      event; `valid` stands for everything but the correlation identifier. */
  predicate StatusValid(status: RunStatus, correlation: string, valid: bool) {
    valid && (Announced(status) ==> CorrelationFits(correlation))
  }

  /** An agent run that fails for the last time takes its workflow run with it.
      The second write is not rolled back together with the first. */
  function SetAgentStatus(s: Store, id: Id, status: RunStatus, expected: int, details: Option<bool>,
                          correlation: string, event: Id, cascade: Id, valid: bool): Outcome<AgentRun>
  {
    var first := SetAgentStatusOnly(s, id, status, expected, details, event, StatusValid(status, correlation, valid));
    if first.result.Failure? || status != Failed then first
    else Cascade(first.store, first.result.value, correlation, cascade)
  }

  /** Ending the workflow run is validated for itself, with the longer identifier; all
      else in its record and event is what was validated before. */
  function Cascade(s: Store, a: AgentRun, correlation: string, event: Id): Outcome<AgentRun> {
    if !WorkflowRunResolves(s, a.workflowRun, a.project) then Outcome(s, Failure(BadReference))
    else
      var w := s.workflowRuns[a.workflowRun.id];
      if !WorkflowResolves(s, w.workflow) then Outcome(s, Failure(BadReference))
      else if a.attempt >= s.workflows[w.workflow.id].maxAttempts && !Terminal(w.status) then
        var second := SetWorkflowStatus(s, w.id, Failed, w.revision, true, event,
                                        StatusValid(Failed, Derived(correlation), true));
        Outcome(second.store, if second.result.Success? then Success(a) else Failure(second.result.error))
      else Outcome(s, Success(a))
  }

  // ------------------------------------------------------------ evidence records

  datatype Evidence =
    | NewArtifact(newArtifact: Artifact)
    | ApproveArtifact(artifact: Id)
    | NewEvaluation(newEvaluation: Evaluation)
    | RequestApproval(newApproval: Approval)
    | DecideApproval(approval: Id, byHuman: bool)
    | NewDecision(newDecision: Decision)
    | NewWorkflow(newWorkflow: Workflow)

  function OwnerOf(s: Store, ev: Evidence): Option<Id> {
    match ev
    case NewArtifact(a) => Some(a.project)
    case ApproveArtifact(a) => if a in s.artifacts then Some(s.artifacts[a].project) else None
    case NewEvaluation(e) => Some(e.project)
    case RequestApproval(a) => Some(a.project)
    case DecideApproval(a, _) => if a in s.approvals then Some(s.approvals[a].project) else None
    case NewDecision(d) => Some(d.project)
    case NewWorkflow(_) => None
  }

  /** The record change of a lifecycle service, or why it is refused.  New records are
      validated before they are looked up, changed ones after. */
  function Recorded(s: Store, ev: Evidence, valid: bool): Result<Store, Error> {
    match ev
    case ApproveArtifact(id) => ArtifactApproved(s, id, valid)
    case DecideApproval(id, human) => ApprovalDecided(s, id, human, valid)
    case _ => if valid then Inserted(s, ev) else Failure(SchemaInvalid)
  }

  function ArtifactApproved(s: Store, id: Id, valid: bool): Result<Store, Error> {
    if id !in s.artifacts then Failure(NotFound)
    else if !valid then Failure(SchemaInvalid)
    else
      var a := s.artifacts[id];
      Success(s.(artifacts := s.artifacts[id := a.(approved := true, revision := a.revision + 1)]))
  }

  function ApprovalDecided(s: Store, id: Id, human: bool, valid: bool): Result<Store, Error> {
    if !human then Failure(NotAllowed)
    else if id !in s.approvals then Failure(NotFound)
    else if s.approvals[id].status != Pending then Failure(NotAllowed)
    else if !valid then Failure(SchemaInvalid)
    else
      var a := s.approvals[id];
      var granted := a.(status := Granted, byHuman := true, revision := a.revision + 1);
      Success(s.(approvals := s.approvals[id := granted]))
  }

  function Inserted(s: Store, ev: Evidence): Result<Store, Error>
    requires !ev.ApproveArtifact? && !ev.DecideApproval?
  {
    match ev
    case NewArtifact(a) =>
      if a.id in s.artifacts then Failure(Duplicate) else Success(s.(artifacts := s.artifacts[a.id := a]))
    case NewEvaluation(e) =>
      if e.id in s.evaluations then Failure(Duplicate) else Success(s.(evaluations := s.evaluations[e.id := e]))
    case RequestApproval(a) =>
      if a.id in s.approvals then Failure(Duplicate) else Success(s.(approvals := s.approvals[a.id := a]))
    case NewDecision(d) =>
      if d.id in s.decisions then Failure(Duplicate) else Success(s.(decisions := s.decisions[d.id := d]))
    case NewWorkflow(w) =>
      if w.id in s.workflows then Failure(Duplicate) else Success(s.(workflows := s.workflows[w.id := w]))
  }

  /** A repeated approval returns the record as it is. */
  predicate AlreadyGranted(s: Store, ev: Evidence) {
    ev.DecideApproval? && ev.byHuman && ev.approval in s.approvals && s.approvals[ev.approval].status == Granted
  }

  /** Lifecycle services write the record first and then build, validate and append
      their event; the record stays when that is refused. */
  function RecordEvidence(s: Store, ev: Evidence, event: Id, valid: bool, eventValid: bool): Outcome<()> {
    if AlreadyGranted(s, ev) then Outcome(s, Success(()))
    else
      match Recorded(s, ev, valid)
      case Failure(e) => Outcome(s, Failure(e))
      case Success(s1) =>
        var owner := OwnerOf(s, ev);
        if owner.None? then Outcome(s1, Success(()))
        else if !eventValid then Outcome(s1, Failure(SchemaInvalid))
        else if event in s.events then Outcome(s1, Failure(Duplicate))
        else Outcome(Appended(s1, BuildEvent(s1, event, owner.value, Lifecycle("evidence"))), Success(()))
  }
}
