/**
 What the local store keeps on disk (src/founderos_runtime/local_store.py): the
 snapshot format and its migrations, loading, and which disks a save or a
 recovery can leave behind when it is cut off between two file operations.

 A directory is a map from paths to entries.  Writing a file through a temporary
 name and a rename is one step; copying or deleting a directory is many.
 */
module LocalDisk {
  import opened Basics
  import opened ProjectRuntime

  // ------------------------------------------------------------ what is stored

  /** The result of a keyed command; None when it is not a JSON object. */
  datatype Entry = Entry(operation: string, result: Option<string>)

  type Journal = map<string, Entry>

  /** Artifact content with its digest; nothing is assumed of digests. */
  datatype Content = Content(text: string, digest: string)

  /** Every repository but the events. */
  datatype Records = Records(
    projects: map<Id, Project>,
    transitions: map<Id, Transition>,
    workflows: map<Id, Workflow>,
    workflowRuns: map<Id, WorkflowRun>,
    agentRuns: map<Id, AgentRun>,
    artifacts: map<Id, Artifact>,
    evaluations: map<Id, Evaluation>,
    decisions: map<Id, Decision>,
    approvals: map<Id, Approval>)

  /** A field of a JSON object: not there, of the wrong type, or a value. */
  datatype Field<+T> = Absent | Malformed | Here(value: T)

  datatype Snapshot = Snapshot(
    format: Field<int>, revision: Field<int>, commands: Field<Journal>, records: Field<Records>)

  datatype Path = StatePath | EventsPath | ArtifactPath(id: Id)

  /** Garbage is anything that cannot be read as what its path asks for. */
  datatype File = State(snapshot: Snapshot) | Events(events: seq<Event>) | Body(content: Content) | Garbage

  type Tree = map<Path, File>

  datatype Disk = Disk(primary: Tree, backup: Option<Tree>, temporary: Option<Tree>)

  /** What a process holds in memory. */
  datatype LocalRuntime = LocalRuntime(
    repositories: Store, content: map<string, Content>, revision: int, commands: Journal)

  /** The part of it that the state file alone decides. */
  datatype Core = Core(records: Records, revision: int, commands: Journal)

  datatype StoreError = NothingStored | Invalid | NotOneProject | Stale | ContentMissing | NoBackup

  datatype Ending = Done | GaveUp(error: StoreError) | Crashed

  function RecordsOf(s: Store): Records {
    Records(s.projects, s.transitions, s.workflows, s.workflowRuns, s.agentRuns, s.artifacts, s.evaluations,
            s.decisions, s.approvals)
  }

  function CoreOf(rt: LocalRuntime): Core {
    Core(RecordsOf(rt.repositories), rt.revision, rt.commands)
  }

  // ------------------------------------------------------------ migration

  const FORMAT_VERSION := 2

  function OrElse<T>(f: Field<T>, d: T): Field<T> {
    if f.Absent? then Here(d) else f
  }

  /** The migration away from one version. */
  function MigrateStep(version: int, s: Snapshot): Snapshot {
    if version == 0 then s.(format := Here(1), revision := OrElse(s.revision, 0))
    else s.(format := Here(2), commands := OrElse(s.commands, map[]))
  }

  function MigrateFrom(version: int, s: Snapshot): Snapshot
    requires 0 <= version
    decreases FORMAT_VERSION - version
  {
    if version < FORMAT_VERSION then MigrateFrom(version + 1, MigrateStep(version, s)) else s
  }

  function Filled(s: Snapshot): Result<Snapshot, StoreError> {
    var revision := OrElse(s.revision, 0);
    var commands := OrElse(s.commands, map[]);
    if revision.Malformed? || revision.value < 0 || commands.Malformed? then Failure(Invalid)
    else Success(s.(revision := revision, commands := commands))
  }

  function Migrate(s: Snapshot): Result<Snapshot, StoreError> {
    var version := OrElse(s.format, 0);
    if version.Malformed? || version.value < 0 || version.value > FORMAT_VERSION then Failure(Invalid)
    else Filled(MigrateFrom(version.value, s))
  }

  /** Exactly the snapshots of a known format with readable fields migrate; what
      they hold is kept, and what they lack gets its default. */
  lemma MigrateIff(s: Snapshot)
    ensures Migrate(s).Success? <==>
            && (s.format.Absent? || (s.format.Here? && 0 <= s.format.value <= FORMAT_VERSION))
            && (s.revision.Absent? || (s.revision.Here? && s.revision.value >= 0))
            && !s.commands.Malformed?
    ensures Migrate(s).Success? ==>
              Migrate(s).value == Snapshot(Here(FORMAT_VERSION), OrElse(s.revision, 0), OrElse(s.commands, map[]),
                                           s.records)
  {
    var version := OrElse(s.format, 0);
    if version.Here? && 0 <= version.value <= FORMAT_VERSION {
      var one := MigrateStep(0, s);
      assert MigrateFrom(2, s) == s;
      assert MigrateFrom(1, s) == MigrateStep(1, s) && MigrateFrom(1, one) == MigrateStep(1, one);
      assert MigrateFrom(0, s) == MigrateFrom(1, one);
    }
  }

  lemma MigrateIdempotent(s: Snapshot)
    requires Migrate(s).Success?
    ensures Migrate(Migrate(s).value) == Migrate(s)
  {
    MigrateIff(s);
    MigrateIff(Migrate(s).value);
  }

  // ------------------------------------------------------------ loading

  function Blank(r: Records): Store {
    Store(r.projects, map[], map[], r.transitions, r.workflows, r.workflowRuns, r.agentRuns, r.artifacts,
          r.evaluations, r.decisions, r.approvals, map[], map[])
  }

  /** Events come back through the append-only boundary, one by one. */
  function Imported(s: Store, events: seq<Event>): Option<Store> {
    if events == [] then Some(s)
    else
      var before := Imported(s, events[..|events| - 1]);
      var e := events[|events| - 1];
      if before.None? || e.sequence != NextSequence(before.value, e.project) || e.id in before.value.events then None
      else Some(Appended(before.value, e))
  }

  /** The stored project is in the state and at the revision its events replay to. */
  predicate ReplayMatches(s: Store, p: Id)
    requires p in s.projects
  {
    match Replay(ForProject(s, p))
    case Failure(_) => false
    case Success(sum) => sum.state == s.projects[p].state && sum.revision == s.projects[p].revision
  }

  /** Exactly one project, stored under its own identifier, and it matches its events. */
  predicate OneProject(s: Store) {
    exists p :: p in s.projects && s.projects.Keys == {p} && s.projects[p].id == p && ReplayMatches(s, p)
  }

  predicate UrisDistinct(artifacts: map<Id, Artifact>) {
    forall a, b :: a in artifacts && b in artifacts && a != b ==> artifacts[a].uri != artifacts[b].uri
  }

  predicate BodyFits(artifacts: map<Id, Artifact>, t: Tree, a: Id)
    requires a in artifacts
  {
    && ArtifactPath(a) in t
    && t[ArtifactPath(a)].Body?
    && t[ArtifactPath(a)].content.digest == artifacts[a].digest
  }

  predicate BodiesFit(artifacts: map<Id, Artifact>, t: Tree) {
    forall a :: a in artifacts ==> BodyFits(artifacts, t, a)
  }

  function Uris(artifacts: map<Id, Artifact>): set<string> {
    set a | a in artifacts :: artifacts[a].uri
  }

  /** The one artifact with this address. */
  function Owner(artifacts: map<Id, Artifact>, uri: string): (a: Id)
    requires UrisDistinct(artifacts) && uri in Uris(artifacts)
    ensures a in artifacts && artifacts[a].uri == uri
  {
    var a :| a in artifacts && artifacts[a].uri == uri;
    a
  }

  function ContentOf(artifacts: map<Id, Artifact>, t: Tree): map<string, Content>
    requires UrisDistinct(artifacts) && BodiesFit(artifacts, t)
  {
    map uri | uri in Uris(artifacts) ::
      assert BodyFits(artifacts, t, Owner(artifacts, uri));
      t[ArtifactPath(Owner(artifacts, uri))].content
  }

  function Read(t: Tree): Result<Snapshot, StoreError> {
    if StatePath !in t then Failure(NothingStored)
    else if !t[StatePath].State? then Failure(Invalid)
    else Migrate(t[StatePath].snapshot)
  }

  function Hydrate(s: Snapshot, t: Tree): Result<LocalRuntime, StoreError>
    requires s.revision.Here? && s.commands.Here?
  {
    if !s.records.Here? || EventsPath !in t || !t[EventsPath].Events? then Failure(Invalid)
    else
      var repositories := Imported(Blank(s.records.value), t[EventsPath].events);
      var artifacts := s.records.value.artifacts;
      if repositories.None? || !OneProject(repositories.value) then Failure(Invalid)
      else if !UrisDistinct(artifacts) || !BodiesFit(artifacts, t) then Failure(Invalid)
      else Success(LocalRuntime(repositories.value, ContentOf(artifacts, t), s.revision.value, s.commands.value))
  }

  function Load(t: Tree): Result<LocalRuntime, StoreError> {
    match Read(t)
    case Failure(e) => Failure(e)
    case Success(s) => (MigrateIff(t[StatePath].snapshot); Hydrate(s, t))
  }

  predicate Loads(t: Tree) {
    Load(t).Success?
  }

  /** What the state file says, whether or not the rest fits it. */
  function StateCore(t: Tree): Option<Core> {
    match Read(t)
    case Failure(_) => None
    case Success(s) =>
      if s.records.Here? && s.revision.Here? && s.commands.Here? then
        Some(Core(s.records.value, s.revision.value, s.commands.value))
      else None
  }

  // ------------------------------------------------------------ runtimes worth saving

  predicate ContentFits(rt: LocalRuntime, a: Id)
    requires a in rt.repositories.artifacts
  {
    var art := rt.repositories.artifacts[a];
    art.uri in rt.content && rt.content[art.uri].digest == art.digest
  }

  /** What the services keep and every load gives. */
  ghost predicate WellFormed(rt: LocalRuntime) {
    && StreamsOk(rt.repositories)
    && OneProject(rt.repositories)
    && UrisDistinct(rt.repositories.artifacts)
    && (forall a :: a in rt.repositories.artifacts ==> ContentFits(rt, a))
    && rt.revision >= 0
  }

  lemma {:induction false} ImportedKeeps(s: Store, events: seq<Event>)
    requires StreamsOk(s) && Imported(s, events).Some?
    ensures StreamsOk(Imported(s, events).value)
    ensures RecordsOf(Imported(s, events).value) == RecordsOf(s)
  {
    if events != [] {
      ImportedKeeps(s, events[..|events| - 1]);
      var t := Imported(s, events[..|events| - 1]).value;
      var e := events[|events| - 1];
      var t' := Appended(t, e);
      forall p, k | p in t'.streams && 0 <= k < |t'.streams[p]| ensures EventAt(t', p, k) {
        if p in t.streams && k < |t.streams[p]| { assert EventAt(t, p, k); }
      }
    }
  }

  /** A load gives a well-formed runtime, and the state file alone decides its core. */
  lemma LoadedIsWellFormed(t: Tree)
    requires Loads(t)
    ensures WellFormed(Load(t).value)
    ensures StateCore(t) == Some(CoreOf(Load(t).value))
  {
    hide Replay, ForProject, Imported;
    MigrateIff(t[StatePath].snapshot);
    var s := Read(t).value;
    var rt := Load(t).value;
    assert rt == Hydrate(s, t).value;
    ImportedKeeps(Blank(s.records.value), t[EventsPath].events);
    assert rt.repositories.artifacts == s.records.value.artifacts;
    forall a | a in rt.repositories.artifacts ensures ContentFits(rt, a) {
      assert BodyFits(s.records.value.artifacts, t, a);
      assert rt.content[rt.repositories.artifacts[a].uri] == t[ArtifactPath(a)].content;
    }
  }
}
