/**
 What a command does to the runtime it has loaded (src/founderos_runtime/application.py,
 founder_setup.py): a sequence of service calls, and of artifacts stored together with
 their content.  Whatever the calls are, one project comes out as well-formed as it went
 in.
 */
module CommandBodies {
  import opened Basics
  import opened ProjectRuntime
  import opened RuntimeEvents
  import opened RuntimeHistory
  import opened LocalDisk
  import opened LocalSaving

  function NoRecords(): Records {
    Records(map[], map[], map[], map[], map[], map[], map[], map[], map[])
  }

  type Contents = map<string, Content>

  /** A service call, or new content put under a new address and the artifact created
      for it with the content's digest. */
  datatype Act =
    | Do(op: Op)
    | Produce(artifact: Artifact, content: Content, event: Id, valid: bool, eventValid: bool)

  /** Whether a call returns; otherwise it raises. */
  predicate Returns(s: Store, op: Op) {
    match op
    case OpCreate(correlation, id, event, valid) => CreateProject(s, correlation, id, event, valid).result.Success?
    case OpUpdate(id, expected, nextAction, event, valid) =>
      UpdateDetails(s, id, expected, nextAction, event, valid).result.Success?
    case OpTransit(cmd, id, event, now, valid) => Transit(s, cmd, id, event, now, valid).result.Success?
    case OpWorkflowRun(project, workflow, entry, attempt, id, valid) =>
      CreateWorkflowRun(s, project, workflow, entry, attempt, id, valid).result.Success?
    case OpAgentRun(owner, workflowRun, attempt, id, valid) =>
      CreateAgentRun(s, owner, workflowRun, attempt, id, valid).result.Success?
    case OpRetry(failed, id, valid) => RetryAgentRun(s, failed, id, valid).result.Success?
    case OpWorkflowStatus(id, status, expected, details, event, valid) =>
      SetWorkflowStatus(s, id, status, expected, details, event, valid).result.Success?
    case OpAgentStatus(id, status, expected, failure, correlation, event, cascade, valid) =>
      SetAgentStatus(s, id, status, expected, failure, correlation, event, cascade, valid).result.Success?
    case OpEvidence(evidence, event, valid, eventValid) =>
      RecordEvidence(s, evidence, event, valid, eventValid).result.Success?
  }

  predicate MakesArtifact(op: Op) {
    op.OpEvidence? && op.evidence.NewArtifact?
  }

  function Producing(act: Act): Op
    requires act.Produce?
  {
    OpEvidence(NewArtifact(act.artifact.(digest := act.content.digest)), act.event, act.valid, act.eventValid)
  }

  /** The acts one after the other; the first that raises ends the command with nothing
      to save. */
  function Perform(s: Store, c: Contents, acts: seq<Act>): Option<(Store, Contents)>
    decreases |acts|, 1
  {
    if acts == [] then Some((s, c)) else PerformNext(s, c, acts)
  }

  /** Artifacts are made with their content only. */
  function PerformNext(s: Store, c: Contents, acts: seq<Act>): Option<(Store, Contents)>
    requires acts != []
    decreases |acts|, 0
  {
    match acts[0]
    case Do(op) =>
      if MakesArtifact(op) || !Returns(s, op) then None else Perform(Step(s, op), c, acts[1..])
    case Produce(artifact, content, _, _, _) =>
      if artifact.uri in c || !Returns(s, Producing(acts[0])) then None
      else Perform(Step(s, Producing(acts[0])), c[artifact.uri := content], acts[1..])
  }

  // ------------------------------------------------------------ the calls one by one

  /** One act turns a store and its contents into the next: a service call that returns,
      or a new artifact with its content put under a new address. */
  ghost predicate Turns(s: Store, c: Contents, act: Act, s': Store, c': Contents) {
    match act
    case Do(op) => !MakesArtifact(op) && Returns(s, op) && s' == Step(s, op) && c' == c
    case Produce(artifact, content, event, valid, eventValid) =>
      var op := OpEvidence(NewArtifact(artifact.(digest := content.digest)), event, valid, eventValid);
      && Returns(s, op) && s' == Step(s, op)
      && artifact.uri !in c && c' == c[artifact.uri := content]
  }

  /** The stores and contents a command passes through, one act after the other. */
  ghost predicate Passes(stores: seq<Store>, contents: seq<Contents>, acts: seq<Act>) {
    && |stores| == |contents| == |acts| + 1
    && forall k :: 0 <= k < |acts| ==> Turns(stores[k], contents[k], acts[k], stores[k + 1], contents[k + 1])
  }

  lemma NextTurns(s: Store, c: Contents, acts: seq<Act>, s': Store, c': Contents)
    requires acts != [] && Turns(s, c, acts[0], s', c')
    ensures Perform(s, c, acts) == Perform(s', c', acts[1..])
  {
    hide Returns, Step;
  }

  lemma PerformTurns(s: Store, c: Contents, acts: seq<Act>) returns (s': Store, c': Contents)
    requires acts != [] && Perform(s, c, acts).Some?
    ensures Turns(s, c, acts[0], s', c') && Perform(s', c', acts[1..]) == Perform(s, c, acts)
  {
    hide Returns, Step;
    var op := if acts[0].Do? then acts[0].op else Producing(acts[0]);
    s' := Step(s, op);
    c' := if acts[0].Do? then c else c[acts[0].artifact.uri := acts[0].content];
  }

  /** A command that goes through has made every one of its calls, in order, and ends
      with what the last one left. */
  lemma {:induction false} PerformPasses(s: Store, c: Contents, acts: seq<Act>)
    returns (stores: seq<Store>, contents: seq<Contents>)
    requires Perform(s, c, acts).Some?
    ensures Passes(stores, contents, acts) && stores[0] == s && contents[0] == c
    ensures Perform(s, c, acts).value == (stores[|acts|], contents[|acts|])
    decreases |acts|
  {
    hide Turns;
    if acts == [] {
      stores, contents := [s], [c];
    } else {
      hide Perform;
      var s', c' := PerformTurns(s, c, acts);
      var rest, more := PerformPasses(s', c', acts[1..]);
      stores, contents := [s] + rest, [c] + more;
      forall k | 0 <= k < |acts|
        ensures Turns(stores[k], contents[k], acts[k], stores[k + 1], contents[k + 1])
      {
        if k > 0 { assert Turns(rest[k - 1], more[k - 1], acts[1..][k - 1], rest[k], more[k]); }
      }
    }
  }

  /** And calls that can be made one after the other are a command that goes through. */
  lemma {:induction false} PassesPerform(stores: seq<Store>, contents: seq<Contents>, acts: seq<Act>)
    requires Passes(stores, contents, acts)
    ensures Perform(stores[0], contents[0], acts) == Some((stores[|acts|], contents[|acts|]))
    decreases |acts|
  {
    hide Turns;
    if acts != [] {
      hide Perform;
      assert Turns(stores[0], contents[0], acts[0], stores[1], contents[1]);
      NextTurns(stores[0], contents[0], acts, stores[1], contents[1]);
      forall k | 0 <= k < |acts| - 1
        ensures Turns(stores[1..][k], contents[1..][k], acts[1..][k], stores[1..][k + 1], contents[1..][k + 1])
      {
        assert Turns(stores[k + 1], contents[k + 1], acts[k + 1], stores[k + 2], contents[k + 2]);
      }
      PassesPerform(stores[1..], contents[1..], acts[1..]);
    }
  }

  // ------------------------------------------------------------ contents

  predicate ArtifactFits(s: Store, c: Contents, a: Id)
    requires a in s.artifacts
  {
    s.artifacts[a].uri in c && c[s.artifacts[a].uri].digest == s.artifacts[a].digest
  }

  ghost predicate ContentsOk(s: Store, c: Contents) {
    UrisDistinct(s.artifacts) && forall a :: a in s.artifacts ==> ArtifactFits(s, c, a)
  }

  lemma SameArtifactsFit(s: Store, c: Contents, s': Store)
    requires ContentsOk(s, c) && SameArtifacts(s, s')
    ensures ContentsOk(s', c)
  {
    forall a | a in s'.artifacts ensures ArtifactFits(s', c, a) { assert ArtifactFits(s, c, a); }
  }

  lemma StepKeepsArtifacts(s: Store, op: Op)
    requires !MakesArtifact(op)
    ensures SameArtifacts(s, Step(s, op))
  {
    hide CreateProject, UpdateDetails, Transit, SetWorkflowStatus, SetAgentStatus, RecordEvidence,
      CreateWorkflowRun, CreateAgentRun, RetryAgentRun;
    StepKeeps(s, op);
    if op.OpEvidence? { EvidenceFrame(s, op.evidence, op.event, op.valid, op.eventValid); }
  }

  /** An artifact made with content under a new address fits, and so do the others. */
  lemma ProducedFits(s: Store, c: Contents, act: Act)
    requires ContentsOk(s, c) && act.Produce? && act.artifact.uri !in c && Returns(s, Producing(act))
    ensures ContentsOk(Step(s, Producing(act)), c[act.artifact.uri := act.content])
  {
    hide RecordEvidence, ContentsOk;
    var a := act.artifact.(digest := act.content.digest);
    EvidenceFrame(s, NewArtifact(a), act.event, act.valid, act.eventValid);
    var s' := Step(s, Producing(act));
    assert s'.artifacts == s.artifacts[a.id := a];
    NewArtifactFits(s, c, a, act.content, s');
  }

  lemma NewArtifactFits(s: Store, c: Contents, a: Artifact, content: Content, s': Store)
    requires ContentsOk(s, c) && a.id !in s.artifacts && a.uri !in c && a.digest == content.digest
    requires s'.artifacts == s.artifacts[a.id := a]
    ensures ContentsOk(s', c[a.uri := content])
  {
    var c' := c[a.uri := content];
    forall b | b in s'.artifacts ensures ArtifactFits(s', c', b) {
      if b != a.id { assert ArtifactFits(s, c, b); }
    }
    forall b, d | b in s'.artifacts && d in s'.artifacts && b != d ensures s'.artifacts[b].uri != s'.artifacts[d].uri {
      if b != a.id { assert ArtifactFits(s, c, b); }
      if d != a.id { assert ArtifactFits(s, c, d); }
    }
  }

  // ------------------------------------------------------------ projects

  lemma {:induction false} PerformGrowsProjects(s: Store, c: Contents, acts: seq<Act>)
    requires Perform(s, c, acts).Some?
    ensures s.projects.Keys <= Perform(s, c, acts).value.0.projects.Keys
    decreases |acts|
  {
    hide Returns, Step;
    if acts != [] {
      match acts[0]
      case Do(op) =>
        StepKeeps(s, op);
        PerformGrowsProjects(Step(s, op), c, acts[1..]);
      case Produce(artifact, content, _, _, _) =>
        StepKeeps(s, Producing(acts[0]));
        PerformGrowsProjects(Step(s, Producing(acts[0])), c[artifact.uri := content], acts[1..]);
    }
  }

  // ------------------------------------------------------------ whole commands

  /** Replay, streams and contents are in order. */
  ghost predicate InOrder(s: Store, c: Contents) {
    EventsOk(s, false) && ContentsOk(s, c)
  }

  /** A command that ends with one project and began with one has kept everything in
      order: a second project cannot have been created on the way. */
  lemma {:induction false} PerformKeepsOrder(s: Store, c: Contents, acts: seq<Act>, p: Id)
    requires InOrder(s, c) && p in s.projects && Perform(s, c, acts).Some?
    requires |Perform(s, c, acts).value.0.projects| == 1
    ensures InOrder(Perform(s, c, acts).value.0, Perform(s, c, acts).value.1)
    decreases |acts|
  {
    hide Returns, Step, EventsOk, ContentsOk, CreatesOverEvents;
    if acts != [] {
      var op := if acts[0].Do? then acts[0].op else Producing(acts[0]);
      var c' := if acts[0].Do? then c else c[acts[0].artifact.uri := acts[0].content];
      StepKeeps(s, op);
      PerformGrowsProjects(Step(s, op), c', acts[1..]);
      var end := Perform(s, c, acts).value.0;
      if BreaksReplay(s, op) { CardinalityTwo(end.projects.Keys, p, op.id); }
      StepKeepsEvents(s, op, false);
      if acts[0].Do? {
        StepKeepsArtifacts(s, op);
        SameArtifactsFit(s, c, Step(s, op));
      } else {
        ProducedFits(s, c, acts[0]);
      }
      PerformKeepsOrder(Step(s, op), c', acts[1..], p);
    }
  }

  /** The same for a command that begins by creating the project. */
  lemma PerformCreates(c: Contents, acts: seq<Act>)
    requires acts != [] && acts[0].Do? && acts[0].op.OpCreate?
    requires Perform(Blank(NoRecords()), c, acts).Some?
    requires |Perform(Blank(NoRecords()), c, acts).value.0.projects| == 1
    ensures InOrder(Perform(Blank(NoRecords()), c, acts).value.0, Perform(Blank(NoRecords()), c, acts).value.1)
  {
    hide Step, EventsOk, ContentsOk, CreateProject;
    var s := Blank(NoRecords());
    var op := acts[0].op;
    BlankInOrder(c);
    StepKeepsEvents(s, op, false);
    assert !BreaksReplay(s, op);
    StepKeepsArtifacts(s, op);
    SameArtifactsFit(s, c, Step(s, op));
    CreatedIsThere(op);
    PerformKeepsOrder(Step(s, op), c, acts[1..], op.id);
  }

  lemma BlankInOrder(c: Contents)
    ensures InOrder(Blank(NoRecords()), c)
  {
  }

  lemma CreatedIsThere(op: Op)
    requires op.OpCreate? && Returns(Blank(NoRecords()), op)
    ensures op.id in Step(Blank(NoRecords()), op).projects
  {
  }

  lemma LoadedInOrder(rt: LocalRuntime)
    requires WellFormed(rt)
    ensures InOrder(rt.repositories, rt.content) && |rt.repositories.projects| == 1
  {
    hide Replay, ForProject;
    var s := rt.repositories;
    forall p | p in s.projects ensures ProjectReplays(s, p, false) { assert ReplayMatches(s, p); }
    forall a | a in s.artifacts ensures ArtifactFits(s, rt.content, a) { assert ContentFits(rt, a); }
  }

  lemma InOrderIsWellFormed(s: Store, c: Contents, revision: int, commands: Journal)
    requires InOrder(s, c) && |s.projects| == 1 && revision >= 0
    ensures WellFormed(LocalRuntime(s, c, revision, commands))
  {
    hide Replay, ForProject;
    var rt := LocalRuntime(s, c, revision, commands);
    var p :| p in s.projects;
    OnlyOne(s.projects, p);
    assert ProjectReplays(s, p, false);
    assert s.projects.Keys == {p};
    forall a | a in s.artifacts ensures ContentFits(rt, a) { assert ArtifactFits(s, c, a); }
  }

  // ------------------------------------------------------------ one such command

  /** What setting up a project does. */
  function SetUpProject(): seq<Act> {
    [Do(OpCreate("c", "p", "e", true))]
  }

  lemma NewProjectPerforms()
    ensures var s := WithProject(Blank(NoRecords()), "c", "p", "e");
            && Perform(Blank(NoRecords()), map[], SetUpProject()) == Some((s, map[]))
            && |s.projects| == 1
  {
    var s := Blank(NoRecords());
    var op := OpCreate("c", "p", "e", true);
    assert Returns(s, op) && Step(s, op) == WithProject(s, "c", "p", "e");
    assert Perform(Step(s, op), map[], []) == Some((Step(s, op), map[]));
    assert SetUpProject()[1..] == [];
    assert WithProject(s, "c", "p", "e").projects == map["p" := NewProject("p")];
  }
}
