/**
 Keyed commands over the local store (src/founderos_runtime/application.py): each
 call loads the store, executes once and saves, several calls may be under way at
 the same time, and any save or recovery may be cut off.
 */
module Commands {
  import opened Basics
  import opened ProjectRuntime
  import opened LocalDisk
  import opened LocalSaving
  import opened CommandBodies

  // ------------------------------------------------------------ one call

  /** The acts a command performs on what it has loaded, and its result; None is any
      error it raises of its own. */
  type CommandBody = (Store, Contents) -> Option<(seq<Act>, string)>

  datatype Call = Call(key: Option<string>, operation: string, creates: bool, body: CommandBody)

  datatype Reason = CannotLoad(error: StoreError) | KeyReused | ResultInvalid | AlreadyExists | CommandFailed

  datatype Prepared =
    | Replayed(result: string)
    | Declined(reason: Reason)
    | Ready(before: LocalRuntime, after: LocalRuntime, result: string)

  function EmptyRuntime(): LocalRuntime {
    LocalRuntime(Blank(NoRecords()), map[], 0, map[])
  }

  function ReplayCommand(journal: Journal, call: Call): Result<Option<string>, Reason> {
    if call.key.None? || call.key.value !in journal then Success(None)
    else
      var entry := journal[call.key.value];
      if entry.operation != call.operation then Failure(KeyReused)
      else if entry.result.None? then Failure(ResultInvalid)
      else Success(entry.result)
  }

  function RecordCommand(journal: Journal, call: Call, result: string): Journal {
    if call.key.None? then journal else journal[call.key.value := Entry(call.operation, Some(result))]
  }

  function Execute(rt: LocalRuntime, call: Call): Prepared {
    match call.body(rt.repositories, rt.content)
    case None => Declined(CommandFailed)
    case Some((acts, result)) =>
      match Perform(rt.repositories, rt.content, acts)
      case None => Declined(CommandFailed)
      case Some((s, c)) =>
        Ready(rt, LocalRuntime(s, c, rt.revision, RecordCommand(rt.commands, call, result)), result)
  }

  function Prepare(t: Tree, call: Call): Prepared {
    if call.creates && StatePath !in t then Execute(EmptyRuntime(), call)
    else
      match Load(t)
      case Failure(e) => Declined(CannotLoad(e))
      case Success(rt) =>
        match ReplayCommand(rt.commands, call)
        case Failure(reason) => Declined(reason)
        case Success(Some(result)) => Replayed(result)
        case Success(None) => if call.creates then Declined(AlreadyExists) else Execute(rt, call)
  }

  /** The command that sets a project up begins by creating it. */
  ghost predicate CreatesFirst(call: Call) {
    var work := call.body(EmptyRuntime().repositories, EmptyRuntime().content);
    call.creates && work.Some? ==> work.value.0 != [] && work.value.0[0].Do? && work.value.0[0].op.OpCreate?
  }

  /** Whatever calls of the services a command makes, it keeps a loaded runtime
      well-formed, and makes a well-formed one when it begins by creating the project;
      only with more than one project it may not, and then it cannot be saved. */
  lemma ExecuteIsWellFormed(rt: LocalRuntime, call: Call)
    requires WellFormed(rt) || (call.creates && rt == EmptyRuntime() && CreatesFirst(call))
    requires Execute(rt, call).Ready? && |Execute(rt, call).after.repositories.projects| == 1
    ensures WellFormed(Execute(rt, call).after)
  {
    hide WellFormed, Perform, InOrder;
    var acts := call.body(rt.repositories, rt.content).value.0;
    if WellFormed(rt) {
      LoadedInOrder(rt);
      var p :| p in rt.repositories.projects;
      PerformKeepsOrder(rt.repositories, rt.content, acts, p);
      assert rt.revision >= 0 by { NotNegative(rt); }
    } else {
      PerformCreates(rt.content, acts);
    }
    var after := Execute(rt, call).after;
    InOrderIsWellFormed(after.repositories, after.content, after.revision, after.commands);
  }

  lemma NotNegative(rt: LocalRuntime)
    requires WellFormed(rt)
    ensures rt.revision >= 0
  {
  }

  // ------------------------------------------------------------ what has been committed

  /** One execution that reached the state file. */
  datatype Commit = Commit(call: Call, before: LocalRuntime, after: LocalRuntime, result: string)

  ghost predicate Executed(c: Commit) {
    && Execute(c.before, c.call) == Ready(c.before, c.after, c.result)
    && (c.call.key.Some? ==> c.call.key.value !in c.before.commands)
  }

  function CoreAfter(base: Core, log: seq<Commit>): Core {
    if log == [] then base else NewCore(log[|log| - 1].after)
  }

  /** Each commit executed once on the records and journal the one before it left. */
  ghost predicate Chain(base: Core, log: seq<Commit>) {
    forall i :: 0 <= i < |log| ==> Link(base, log, i)
  }

  ghost predicate Link(base: Core, log: seq<Commit>, i: nat)
    requires i < |log|
  {
    CoreOf(log[i].before) == CoreAfter(base, log[..i]) && Executed(log[i])
  }

  lemma ChainPrefix(base: Core, log: seq<Commit>, n: nat)
    requires Chain(base, log) && n <= |log|
    ensures Chain(base, log[..n])
  {
    hide Executed, CoreAfter;
    forall i | 0 <= i < n ensures Link(base, log[..n], i) {
      assert log[..n][..i] == log[..i];
      assert Link(base, log, i);
    }
  }

  ghost predicate HasKey(c: Commit, k: string) {
    c.call.key == Some(k)
  }

  lemma ExecutedRecords(c: Commit)
    requires Executed(c)
    ensures c.after.commands == RecordCommand(c.before.commands, c.call, c.result)
    ensures c.after.revision == c.before.revision
    ensures c.call.key.Some? ==> c.call.key.value !in c.before.commands
  {
    hide Perform;
  }

  /** A key is in the journal exactly when the call that carried it is one of the
      commits that made the records, it is there once, and its result is the stored
      one. */
  lemma {:induction false} JournalIsLog(base: Core, log: seq<Commit>, k: string)
    requires Chain(base, log)
    ensures CoreAfter(base, log).revision == base.revision + |log|
    ensures k in CoreAfter(base, log).commands <==>
            k in base.commands || exists i :: 0 <= i < |log| && HasKey(log[i], k)
    ensures forall i :: 0 <= i < |log| && HasKey(log[i], k) ==>
              && k !in base.commands
              && CoreAfter(base, log).commands[k] == Entry(log[i].call.operation, Some(log[i].result))
    ensures k in base.commands ==> CoreAfter(base, log).commands[k] == base.commands[k]
    ensures forall i, j :: 0 <= i < j < |log| && HasKey(log[i], k) ==> !HasKey(log[j], k)
  {
    hide Executed, RecordsOf;
    if log != [] {
      var n := |log| - 1;
      var c := log[n];
      assert Link(base, log, n);
      ExecutedRecords(c);
      ChainPrefix(base, log, n);
      hide Chain;
      JournalIsLog(base, log[..n], k);
      assert CoreAfter(base, log).commands == RecordCommand(CoreAfter(base, log[..n]).commands, c.call, c.result);
      forall i | 0 <= i < n ensures log[..n][i] == log[i] {}
      if HasKey(c, k) {
        assert k !in CoreAfter(base, log[..n]).commands;
        forall i | 0 <= i < n ensures !HasKey(log[i], k) { assert !HasKey(log[..n][i], k); }
      } else if k in CoreAfter(base, log[..n]).commands && k !in base.commands {
        var i :| 0 <= i < n && HasKey(log[..n][i], k);
        assert HasKey(log[i], k);
      }
    }
  }

  /** The store revision counts the commits. */
  lemma RevisionCounts(base: Core, log: seq<Commit>)
    requires Chain(base, log)
    ensures CoreAfter(base, log).revision == base.revision + |log|
  {
    hide Chain, CoreAfter;
    JournalIsLog(base, log, "");
  }

  /** What a commit is, call by call: the acts its command chose for what it had loaded
      were all made, in order, and it holds what the last of them left, the journal
      grown by its own entry. */
  ghost predicate Served(c: Commit) {
    exists acts, stores, contents ::
      && c.call.body(c.before.repositories, c.before.content) == Some((acts, c.result))
      && Passes(stores, contents, acts)
      && stores[0] == c.before.repositories && contents[0] == c.before.content
      && c.after.repositories == stores[|acts|] && c.after.content == contents[|acts|]
      && c.after.revision == c.before.revision
      && (if c.call.key.None? then c.after.commands == c.before.commands
          else
            && c.call.key.value !in c.before.commands
            && c.after.commands
               == c.before.commands[c.call.key.value := Entry(c.call.operation, Some(c.result))])
  }

  lemma ExecutedIsServed(c: Commit)
    requires Executed(c)
    ensures Served(c)
  {
    hide Perform, Turns;
    var acts := c.call.body(c.before.repositories, c.before.content).value.0;
    var stores, contents := PerformPasses(c.before.repositories, c.before.content, acts);
    assert c.call.body(c.before.repositories, c.before.content) == Some((acts, c.result));
  }

  // ------------------------------------------------------------ the world

  /** A call that has executed in memory and is about to save; `log` is what was
      committed in the store it loaded. */
  datatype Flight = Flight(commit: Commit, log: seq<Commit>)

  /** `log` and `backupLog` are the commits behind the primary's and the backup's
      state file, counted from `base`. */
  datatype World = World(disk: Disk, base: Core, log: seq<Commit>, backupLog: seq<Commit>, flights: map<int, Flight>)

  datatype Op = Start(process: int, call: Call) | Finish(process: int, end: Ending) | Recovery(ending: Ending)

  ghost predicate BackupLoads(d: Disk) {
    d.backup.Some? && Loads(d.backup.value)
  }

  ghost predicate StateKept(d: Disk, d': Disk) {
    SameAt(d'.primary, d.primary, StatePath)
  }

  function Started(w: World, process: int, call: Call): World {
    match Prepare(w.disk.primary, call)
    case Ready(before, after, result) =>
      w.(flights := w.flights[process := Flight(Commit(call, before, after, result), w.log)])
    case _ => w
  }

  ghost function Finished(w: World, process: int, disk: Disk): World
    requires process in w.flights
  {
    var f := w.flights[process];
    World(disk, w.base,
          if StateKept(w.disk, disk) then w.log else f.log + [f.commit],
          if disk.backup == Some(w.disk.primary) then w.log else w.backupLog,
          w.flights - {process})
  }

  ghost function Recovered(w: World, disk: Disk): World {
    w.(disk := disk, log := if StateKept(w.disk, disk) then w.log else w.backupLog)
  }

  ghost predicate Step(w: World, op: Op, w': World) {
    match op
    case Start(process, call) => CreatesFirst(call) && w' == Started(w, process, call)
    case Finish(process, end) =>
      && process in w.flights
      && SaveOutcome(w.disk, w.flights[process].commit.after, w'.disk, end)
      && w' == Finished(w, process, w'.disk)
    case Recovery(end) => RecoverOutcome(w.disk, w'.disk, end) && w' == Recovered(w, w'.disk)
  }

  ghost predicate FlightOk(w: World, f: Flight) {
    && Chain(w.base, f.log + [f.commit])
    && (|f.commit.after.repositories.projects| == 1 ==> WellFormed(f.commit.after))
  }

  ghost predicate PrimaryOk(w: World) {
    if StatePath in w.disk.primary then StateCore(w.disk.primary) == Some(CoreAfter(w.base, w.log))
    else w.log == [] && w.base == CoreOf(EmptyRuntime()) && w.disk.backup == None
  }

  ghost predicate BackupOk(w: World) {
    BackupLoads(w.disk) ==>
      && StateCore(w.disk.backup.value) == Some(CoreAfter(w.base, w.backupLog))
      && |w.log| - 1 <= |w.backupLog| <= |w.log|
  }

  /** There is always something to go on with. */
  ghost predicate Alive(w: World) {
    StatePath in w.disk.primary ==> Loads(w.disk.primary) || BackupLoads(w.disk)
  }

  ghost predicate Inv(w: World) {
    && Chain(w.base, w.log) && Chain(w.base, w.backupLog)
    && PrimaryOk(w) && BackupOk(w) && Alive(w)
    && forall p :: p in w.flights ==> FlightOk(w, w.flights[p])
  }

  ghost predicate Initial(w: World) {
    && w.log == [] && w.backupLog == [] && w.flights == map[] && w.disk.backup == None
    && if StatePath in w.disk.primary then Loads(w.disk.primary) && w.base == CoreOf(Load(w.disk.primary).value)
       else w.base == CoreOf(EmptyRuntime())
  }

  lemma InitialIsOk(w: World)
    requires Initial(w)
    ensures Inv(w)
  {
    hide Load, WellFormed;
    if StatePath in w.disk.primary { LoadedIsWellFormed(w.disk.primary); }
  }

  // ------------------------------------------------------------ starting a call

  lemma ExtendChain(base: Core, log: seq<Commit>, c: Commit)
    ensures Chain(base, log + [c]) <==> Chain(base, log) && CoreOf(c.before) == CoreAfter(base, log) && Executed(c)
    ensures CoreAfter(base, log + [c]) == NewCore(c.after)
  {
    hide Executed, CoreOf;
    var all := log + [c];
    assert all[..|log|] == log;
    if Chain(base, all) {
      ChainPrefix(base, all, |log|);
      assert Link(base, all, |log|);
    }
    if Chain(base, log) && CoreOf(c.before) == CoreAfter(base, log) && Executed(c) {
      forall i | 0 <= i < |all| ensures Link(base, all, i) {
        assert all[..i] == (if i < |log| then log[..i] else log);
        if i < |log| { assert Link(base, log, i); }
      }
    }
  }

  lemma PreparedIsExecuted(t: Tree, call: Call)
    requires Prepare(t, call).Ready? && CreatesFirst(call)
    ensures var p := Prepare(t, call);
            && Executed(Commit(call, p.before, p.after, p.result))
            && (|p.after.repositories.projects| == 1 ==> WellFormed(p.after))
            && if StatePath in t then Loads(t) && p.before == Load(t).value
               else call.creates && p.before == EmptyRuntime()
  {
    hide WellFormed, Hydrate, Migrate;
    var rt := if call.creates && StatePath !in t then EmptyRuntime() else Load(t).value;
    if Loads(t) { LoadedIsWellFormed(t); }
    assert Prepare(t, call) == Execute(rt, call);
    if |Prepare(t, call).after.repositories.projects| == 1 { ExecuteIsWellFormed(rt, call); }
  }

  lemma StoredCore(w: World)
    requires PrimaryOk(w) && Loads(w.disk.primary)
    ensures StatePath in w.disk.primary
    ensures CoreOf(Load(w.disk.primary).value) == CoreAfter(w.base, w.log)
  {
    hide Hydrate;
    LoadedIsWellFormed(w.disk.primary);
  }

  lemma StartKeepsInv(w: World, process: int, call: Call)
    requires Inv(w) && CreatesFirst(call)
    ensures Inv(Started(w, process, call))
  {
    hide Load, Loads, WellFormed, CreatesFirst, Executed, StateCore, Execute, Prepare;
    if Prepare(w.disk.primary, call).Ready? {
      var p := Prepare(w.disk.primary, call);
      var c := Commit(call, p.before, p.after, p.result);
      PreparedIsExecuted(w.disk.primary, call);
      if StatePath in w.disk.primary { StoredCore(w); }
      ExtendChain(w.base, w.log, c);
      assert FlightOk(w, Flight(c, w.log));
      var w' := Started(w, process, call);
      forall q | q in w'.flights ensures FlightOk(w', w'.flights[q]) {
        if q != process { assert FlightOk(w, w.flights[q]); }
      }
    }
  }

  // ------------------------------------------------------------ finishing a call

  /** A call saves only over the number of commits it was started from. */
  lemma SavedOverItsLog(w: World, process: int, disk: Disk, end: Ending)
    requires Inv(w) && process in w.flights
    requires SaveOutcome(w.disk, w.flights[process].commit.after, disk, end) && !StateKept(w.disk, disk)
    ensures |w.flights[process].log| == |w.log|
    ensures Loads(disk.primary) && StateCore(disk.primary) == Some(NewCore(w.flights[process].commit.after))
    ensures StatePath in w.disk.primary ==> Loads(w.disk.primary)
  {
    hide Load, Loads, WellFormed, StateCore, Written, Rewriting, Tidy, BackingUp;
    var f := w.flights[process];
    assert FlightOk(w, f);
    assert SaveRefusal(w.disk, f.commit.after).None?;
    SaveMovesState(w.disk, f.commit.after, disk, end);
    LoadedIsWellFormed(disk.primary);
    AcceptedRevision(w.disk, f.commit.after);
    ExtendChain(w.base, f.log, f.commit);
    ExecutedRecords(f.commit);
    RevisionCounts(w.base, f.log);
    RevisionCounts(w.base, w.log);
    if StatePath in w.disk.primary { StoredCore(w); }
  }

  lemma MovedBackup(d: Disk, rt: LocalRuntime, after: Disk, o: Ending)
    requires SaveOutcome(d, rt, after, o) && StatePath in d.primary && !StateKept(d, after)
    ensures after.backup == Some(d.primary)
  {
  }

  lemma SavedBackup(d: Disk, rt: LocalRuntime, after: Disk, o: Ending)
    requires SaveOutcome(d, rt, after, o)
    ensures || after.backup == d.backup
            || (Loads(d.primary) && after.backup == Some(d.primary))
            || (&& after.primary == d.primary
                && (after.backup.Some? ==> d.backup.Some? && Remains(after.backup.value, d.backup.value)))
    ensures StatePath !in d.primary ==> after.backup == d.backup
  {
    hide Loads, Rewriting, Written, Load;
    if SaveRefusal(d, rt).None? { AcceptedRevision(d, rt); }
  }

  /** Part of a directory that loads, loads as the whole. */
  lemma RemnantLoadsSame(a: Tree, b: Tree)
    requires Remains(a, b) && Loads(a)
    ensures Load(a) == Load(b) && StateCore(a) == StateCore(b)
  {
    hide Imported, Replay, ForProject, OneProject;
    MigrateIff(a[StatePath].snapshot);
    assert Read(a) == Read(b);
    var artifacts := Read(a).value.records.value.artifacts;
    forall x | x in artifacts ensures BodyFits(artifacts, b, x) && a[ArtifactPath(x)] == b[ArtifactPath(x)] {
      assert BodyFits(artifacts, a, x);
    }
    assert ContentOf(artifacts, a) == ContentOf(artifacts, b);
  }

  lemma FinishKeepsBackup(w: World, process: int, disk: Disk, end: Ending)
    requires Inv(w) && process in w.flights && SaveOutcome(w.disk, w.flights[process].commit.after, disk, end)
    ensures BackupOk(Finished(w, process, disk))
  {
    hide Load, Loads, WellFormed, StateCore, SaveOutcome;
    var f := w.flights[process];
    var w' := Finished(w, process, disk);
    if BackupLoads(disk) {
      if disk.backup == Some(w.disk.primary) {
        StoredState(w.disk.primary);
        if !StateKept(w.disk, disk) { SavedOverItsLog(w, process, disk, end); }
      } else {
        if !StateKept(w.disk, disk) && StatePath in w.disk.primary { MovedBackup(w.disk, f.commit.after, disk, end); }
        SavedBackup(w.disk, f.commit.after, disk, end);
        if disk.backup != w.disk.backup {
          RemnantLoadsSame(disk.backup.value, w.disk.backup.value);
          LoadsMeans(w.disk.backup.value, disk.backup.value);
        }
      }
    }
  }

  lemma LoadsMeans(a: Tree, b: Tree)
    requires Load(a) == Load(b)
    ensures Loads(a) <==> Loads(b)
  {
    hide Load;
  }

  lemma FinishKeepsPrimary(w: World, process: int, disk: Disk, end: Ending)
    requires Inv(w) && process in w.flights && SaveOutcome(w.disk, w.flights[process].commit.after, disk, end)
    ensures PrimaryOk(Finished(w, process, disk)) && Chain(w.base, Finished(w, process, disk).log)
    ensures Alive(Finished(w, process, disk))
  {
    hide Load, Loads, WellFormed, StateCore, SaveOutcome;
    var f := w.flights[process];
    var rt := f.commit.after;
    assert FlightOk(w, f);
    ExtendChain(w.base, f.log, f.commit);
    if StateKept(w.disk, disk) {
      SameState(disk.primary, w.disk.primary);
      SavedBackup(w.disk, rt, disk, end);
      if StatePath in w.disk.primary {
        StoredState(w.disk.primary);
        if Loads(w.disk.primary) {
          if |rt.repositories.projects| == 1 {
            SaveIsCrashSafe(w.disk, rt, disk, end);
          } else {
            TooManyIsKept(w.disk, rt, disk, end);
          }
          if disk.backup.Some? { StoredState(disk.backup.value); }
        } else {
          UnreadableIsKept(w.disk, rt, disk, end);
        }
      }
    } else {
      SavedOverItsLog(w, process, disk, end);
      StoredState(disk.primary);
    }
  }

  lemma TooManyIsKept(d: Disk, rt: LocalRuntime, after: Disk, o: Ending)
    requires SaveOutcome(d, rt, after, o) && |rt.repositories.projects| != 1
    ensures after == d
  {
    hide Load, Read, Rewriting, Written;
  }

  lemma UnreadableIsKept(d: Disk, rt: LocalRuntime, after: Disk, o: Ending)
    requires SaveOutcome(d, rt, after, o) && StatePath in d.primary && !Loads(d.primary)
    ensures after == d
  {
    hide Load, Hydrate, Rewriting, Written;
    if SaveRefusal(d, rt).None? { AcceptedRevision(d, rt); }
  }

  lemma FinishKeepsInv(w: World, process: int, disk: Disk, end: Ending)
    requires Inv(w) && process in w.flights && SaveOutcome(w.disk, w.flights[process].commit.after, disk, end)
    ensures Inv(Finished(w, process, disk))
  {
    FinishKeepsPrimary(w, process, disk, end);
    FinishKeepsBackup(w, process, disk, end);
    hide PrimaryOk, BackupOk, Alive, SaveOutcome, WellFormed;
    var w' := Finished(w, process, disk);
    forall q | q in w'.flights ensures FlightOk(w', w'.flights[q]) { assert FlightOk(w, w.flights[q]); }
  }

  // ------------------------------------------------------------ recovering

  lemma RecoverKeepsInv(w: World, disk: Disk, end: Ending)
    requires Inv(w) && RecoverOutcome(w.disk, disk, end)
    ensures Inv(Recovered(w, disk))
    ensures var w' := Recovered(w, disk); |w.log| - 1 <= |w'.log| <= |w.log|
  {
    hide Load, Loads, WellFormed, StateCore;
    var w' := Recovered(w, disk);
    RecoverIsRestartable(w.disk, disk, end);
    if StateKept(w.disk, disk) { SameState(disk.primary, w.disk.primary); }
    else {
      RecoveredState(w.disk, disk, end);
      SameState(disk.primary, w.disk.backup.value);
    }
    if w.disk.backup.Some? { StoredState(w.disk.backup.value); }
    forall q | q in w'.flights ensures FlightOk(w', w'.flights[q]) { assert FlightOk(w, w.flights[q]); }
  }

  lemma RecoveredState(d: Disk, after: Disk, o: Ending)
    requires RecoverOutcome(d, after, o) && !StateKept(d, after)
    ensures d.backup.Some? && Loads(d.backup.value) && SameAt(after.primary, d.backup.value, StatePath)
  {
    hide Loads;
  }

  lemma StepKeepsInv(w: World, op: Op, w': World)
    requires Inv(w) && Step(w, op, w')
    ensures Inv(w')
  {
    hide Inv, Started, Finished, Recovered, CreatesFirst, SaveOutcome, RecoverOutcome;
    match op
    case Start(process, call) => StartKeepsInv(w, process, call);
    case Finish(process, end) => FinishKeepsInv(w, process, w'.disk, end);
    case Recovery(end) => RecoverKeepsInv(w, w'.disk, end);
  }
}
