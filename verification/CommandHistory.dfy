/**
 What holds over any interleaving of calls, crashes and recoveries
 (src/founderos_runtime/application.py, local_store.py): every key is committed at
 most once, recovery undoes at most one commit, and commits are lost only when a
 call started before a recovery is saved after it.
 */
module CommandHistory {
  import opened Basics
  import opened ProjectRuntime
  import opened LocalDisk
  import opened LocalSaving
  import opened CommandBodies
  import opened Commands

  ghost predicate History(worlds: seq<World>, ops: seq<Op>) {
    && |worlds| == |ops| + 1
    && Initial(worlds[0])
    && forall i :: 0 <= i < |ops| ==> Step(worlds[i], ops[i], worlds[i + 1])
  }

  lemma {:induction false} HistoryIsOk(worlds: seq<World>, ops: seq<Op>, n: nat)
    requires History(worlds, ops) && n <= |ops|
    ensures Inv(worlds[n]) && worlds[n].base == worlds[0].base
  {
    hide Inv, Step, Initial;
    if n == 0 {
      InitialIsOk(worlds[0]);
    } else {
      HistoryIsOk(worlds, ops, n - 1);
      StepKeepsInv(worlds[n - 1], ops[n - 1], worlds[n]);
      StepKeepsBase(worlds[n - 1], ops[n - 1], worlds[n]);
    }
  }

  lemma StepKeepsBase(w: World, op: Op, w': World)
    requires Step(w, op, w')
    ensures w'.base == w.base
  {
    hide SaveOutcome, RecoverOutcome, Prepare, CreatesFirst;
  }

  // ------------------------------------------------------------ exactly once

  ghost predicate CommittedOnce(log: seq<Commit>, k: string) {
    && (exists i :: 0 <= i < |log| && HasKey(log[i], k))
    && forall i, j :: 0 <= i < j < |log| && HasKey(log[i], k) ==> !HasKey(log[j], k)
  }

  /** The records are what the service calls of these commits make of the first ones: the
      calls of each begin with the records the one before it left. */
  ghost predicate Replays(base: Core, log: seq<Commit>, records: Records) {
    && (forall i :: 0 <= i < |log| ==>
          Served(log[i]) && RecordsOf(log[i].before.repositories) == RecordsBefore(base, log, i))
    && records == RecordsBefore(base, log, |log|)
  }

  function RecordsBefore(base: Core, log: seq<Commit>, i: nat): Records
    requires i <= |log|
  {
    if i == 0 then base.records else RecordsOf(log[i - 1].after.repositories)
  }

  lemma ChainReplays(base: Core, log: seq<Commit>)
    requires Chain(base, log)
    ensures Replays(base, log, CoreAfter(base, log).records)
  {
    hide Served, Executed, RecordsOf;
    forall i | 0 <= i < |log|
      ensures Served(log[i]) && RecordsOf(log[i].before.repositories) == RecordsBefore(base, log, i)
    {
      assert Link(base, log, i);
      ExecutedIsServed(log[i]);
    }
  }

  /** Whenever the store loads, its records are what the service calls of a sequence of
      commits made of the initial ones, each commit executed once on what the one before
      it left, and its revision counts them.  A key that was not there at the start is in
      the journal exactly when one of these commits carried it, and then only one. */
  lemma ExactlyOnce(worlds: seq<World>, ops: seq<Op>, n: nat, k: string)
    requires History(worlds, ops) && n <= |ops| && Loads(worlds[n].disk.primary)
    ensures var w := worlds[n];
            var stored := CoreOf(Load(w.disk.primary).value);
            && Chain(worlds[0].base, w.log)
            && stored == CoreAfter(worlds[0].base, w.log)
            && Replays(worlds[0].base, w.log, stored.records)
            && stored.revision == worlds[0].base.revision + |w.log|
            && (k !in worlds[0].base.commands ==> (k in stored.commands <==> CommittedOnce(w.log, k)))
  {
    hide Load, Loads;
    HistoryIsOk(worlds, ops, n);
    StoredCore(worlds[n]);
    JournalIsLog(worlds[0].base, worlds[n].log, k);
    ChainReplays(worlds[0].base, worlds[n].log);
  }

  /** A save that goes through stores all of what the calls of its command left: the next
      load has the records, the events of every project in order, and the contents. */
  lemma CommitIsStored(w: World, process: int, end: Ending, w': World)
    requires Inv(w) && Step(w, Finish(process, end), w') && !StateKept(w.disk, w'.disk)
    ensures process in w.flights && Served(w.flights[process].commit)
    ensures Loads(w'.disk.primary)
    ensures Reloads(w.flights[process].commit.after, Load(w'.disk.primary).value)
  {
    hide Load, Loads, WellFormed, StateCore, SaveOutcome, Executed, Served, Reloads;
    var f := w.flights[process];
    assert FlightOk(w, f);
    ExtendChain(w.base, f.log, f.commit);
    ExecutedIsServed(f.commit);
    SavedOverItsLog(w, process, w'.disk, end);
    MovedIsSingle(w.disk, f.commit.after, w'.disk, end);
    SaveMovesState(w.disk, f.commit.after, w'.disk, end);
  }

  lemma MovedIsSingle(d: Disk, rt: LocalRuntime, after: Disk, o: Ending)
    requires SaveOutcome(d, rt, after, o) && !StateKept(d, after)
    ensures |rt.repositories.projects| == 1
  {
    hide StateKept;
    if |rt.repositories.projects| != 1 { TooManyIsKept(d, rt, after, o); SameIsKept(d, after); }
  }

  lemma SameIsKept(d: Disk, after: Disk)
    requires after == d
    ensures StateKept(d, after)
  {
  }

  /** A call on a project that loads, without a key or with one never used, is executed
      whenever the calls its command chooses can be made one after the other. */
  lemma NewCallIsServed(w: World, process: int, call: Call, acts: seq<Act>, result: string, stores: seq<Store>,
                        contents: seq<Contents>)
    requires Loads(w.disk.primary) && !call.creates
    requires call.key.Some? ==> call.key.value !in Load(w.disk.primary).value.commands
    requires var rt := Load(w.disk.primary).value;
             && call.body(rt.repositories, rt.content) == Some((acts, result))
             && Passes(stores, contents, acts) && stores[0] == rt.repositories && contents[0] == rt.content
    ensures var w' := Started(w, process, call);
            && process in w'.flights && w'.flights[process].log == w.log
            && var c := w'.flights[process].commit;
               && Served(c) && c.call == call && c.before == Load(w.disk.primary).value && c.result == result
               && c.after.repositories == stores[|acts|] && c.after.content == contents[|acts|]
  {
    hide Load, Perform, Turns, Served;
    PassesPerform(stores, contents, acts);
    assert Load(w.disk.primary).Success? by { StoredState(w.disk.primary); }
    var c := Started(w, process, call).flights[process].commit;
    ExecutedIsServed(c);
  }

  /** At any time, once a project has been stored, it loads or a recovery brings it
      back; and a recovery undoes at most one commit. */
  lemma NeverLostForGood(worlds: seq<World>, ops: seq<Op>, n: nat)
    requires History(worlds, ops) && n <= |ops|
    ensures var w := worlds[n];
            && (StatePath in w.disk.primary && !Loads(w.disk.primary) ==> RecoverRefusal(w.disk).None?)
            && (n < |ops| && ops[n].Recovery? ==> |w.log| - 1 <= |worlds[n + 1].log| <= |w.log|)
            && (n < |ops| && !ops[n].Recovery? ==> |w.log| <= |worlds[n + 1].log| <= |w.log| + 1)
  {
    hide Load, Loads, StateCore, SaveOutcome;
    HistoryIsOk(worlds, ops, n);
    var w := worlds[n];
    if w.disk.backup.Some? { StoredState(w.disk.backup.value); }
    if n < |ops| {
      assert Step(w, ops[n], worlds[n + 1]);
      match ops[n]
      case Start(process, call) =>
      case Finish(process, end) =>
        if !StateKept(w.disk, worlds[n + 1].disk) { SavedOverItsLog(w, process, worlds[n + 1].disk, end); }
      case Recovery(end) => RecoverKeepsInv(w, worlds[n + 1].disk, end);
    }
  }

  // ------------------------------------------------------------ retries

  /** A call whose key is in the journal is answered from it and changes nothing; the
      key cannot be used for another operation. */
  lemma RetryIsAnswered(w: World, process: int, call: Call)
    requires Loads(w.disk.primary) && call.key.Some?
    requires call.key.value in Load(w.disk.primary).value.commands
    ensures var entry := Load(w.disk.primary).value.commands[call.key.value];
            Prepare(w.disk.primary, call) ==
              if entry.operation != call.operation then Declined(KeyReused)
              else if entry.result.None? then Declined(ResultInvalid)
              else Replayed(entry.result.value)
    ensures Started(w, process, call) == w
  {
    hide Hydrate;
  }

  // ------------------------------------------------------------ lost updates

  /** A save that goes through keeps a commit the store had exactly when the call had
      loaded it, or made one under the same key: what was committed in between is gone. */
  lemma SaveKeepsCommitsIff(w: World, process: int, disk: Disk, end: Ending, k: string)
    requires Inv(w) && process in w.flights && Loads(w.disk.primary)
    requires SaveOutcome(w.disk, w.flights[process].commit.after, disk, end) && !StateKept(w.disk, disk)
    requires k in Load(w.disk.primary).value.commands
    ensures var c := w.flights[process].commit;
            && Loads(disk.primary)
            && (k in Load(disk.primary).value.commands <==> k in c.before.commands || HasKey(c, k))
            && (k in c.before.commands ==> Load(disk.primary).value.commands[k] == c.before.commands[k])
  {
    hide Load, Loads, StateCore, SaveOutcome, StateKept, WellFormed;
    SavedOverItsLog(w, process, disk, end);
    LoadedIsWellFormed(disk.primary);
    var f := w.flights[process];
    assert FlightOk(w, f);
    ExtendChain(w.base, f.log, f.commit);
    ExecutedRecords(f.commit);
  }

  /** Recovery runs only while no call is under way. */
  ghost predicate Calm(worlds: seq<World>, ops: seq<Op>) {
    History(worlds, ops) && forall i :: 0 <= i < |ops| && ops[i].Recovery? ==> worlds[i].flights == map[]
  }

  ghost predicate InLine(w: World) {
    w.backupLog <= w.log && forall p :: p in w.flights ==> w.flights[p].log <= w.log
  }

  lemma StepKeepsLine(w: World, op: Op, w': World)
    requires Inv(w) && InLine(w) && Step(w, op, w')
    requires op.Recovery? ==> w.flights == map[]
    ensures InLine(w')
    ensures op.Finish? && !StateKept(w.disk, w'.disk) ==> w'.log == w.log + [w.flights[op.process].commit]
    ensures !op.Recovery? ==> w.log <= w'.log
  {
    hide Load, Loads, StateCore, SaveOutcome, RecoverOutcome, Inv, Prepare, CreatesFirst;
    match op
    case Start(process, call) =>
    case Finish(process, end) =>
      if !StateKept(w.disk, w'.disk) { SavedOverItsLog(w, process, w'.disk, end); }
    case Recovery(end) =>
  }

  lemma CalmStep(worlds: seq<World>, ops: seq<Op>, i: nat)
    requires Calm(worlds, ops) && i < |ops|
    ensures Step(worlds[i], ops[i], worlds[i + 1])
    ensures ops[i].Recovery? ==> worlds[i].flights == map[]
    ensures History(worlds, ops) && |worlds| == |ops| + 1
  {
    hide Step;
  }

  lemma CalmStart(worlds: seq<World>, ops: seq<Op>)
    requires Calm(worlds, ops)
    ensures History(worlds, ops) && |worlds| == |ops| + 1 && InLine(worlds[0])
  {
    hide Step;
  }

  lemma {:induction false} CalmInLine(worlds: seq<World>, ops: seq<Op>, n: nat)
    requires Calm(worlds, ops) && n <= |ops|
    ensures |worlds| == |ops| + 1 && InLine(worlds[n])
  {
    hide Inv, InLine, Step, Calm, History;
    CalmStart(worlds, ops);
    if n > 0 {
      CalmStep(worlds, ops, n - 1);
      CalmInLine(worlds, ops, n - 1);
      HistoryIsOk(worlds, ops, n - 1);
      StepKeepsLine(worlds[n - 1], ops[n - 1], worlds[n]);
    }
  }

  /** Without a recovery in between, what has been committed stays committed. */
  lemma {:induction false} CommittedStays(worlds: seq<World>, ops: seq<Op>, n: nat, m: nat)
    requires Calm(worlds, ops) && n <= m <= |ops|
    requires forall i :: n <= i < m ==> !ops[i].Recovery?
    ensures worlds[n].log <= worlds[m].log
  {
    hide Inv, InLine, Step, Calm, History;
    if n < m {
      CalmStep(worlds, ops, m - 1);
      CommittedStays(worlds, ops, n, m - 1);
      CalmInLine(worlds, ops, m - 1);
      HistoryIsOk(worlds, ops, m - 1);
      StepKeepsLine(worlds[m - 1], ops[m - 1], worlds[m]);
    }
  }

  /** So every later retry of a committed call gets the result it had, and commits
      nothing. */
  lemma RetryReturnsSame(worlds: seq<World>, ops: seq<Op>, n: nat, m: nat, i: nat, process: int, call: Call)
    requires Calm(worlds, ops) && n <= m <= |ops|
    requires forall x :: n <= x < m ==> !ops[x].Recovery?
    requires i < |worlds[n].log| && call.key.Some? && HasKey(worlds[n].log[i], call.key.value)
    requires call.operation == worlds[n].log[i].call.operation
    requires Loads(worlds[m].disk.primary)
    ensures Prepare(worlds[m].disk.primary, call) == Replayed(worlds[n].log[i].result)
    ensures Started(worlds[m], process, call) == worlds[m]
  {
    hide Load, Loads, Inv, Prepare, Step;
    var k := call.key.value;
    CommittedStays(worlds, ops, n, m);
    ExactlyOnce(worlds, ops, m, k);
    assert HasKey(worlds[m].log[i], k);
    JournalIsLog(worlds[0].base, worlds[m].log, k);
    RetryIsAnswered(worlds[m], process, call);
  }

  // ------------------------------------------------------------ a lost update

  /** A command that keeps everything and answers "done". */
  function Keeping(key: string): Call {
    Call(Some(key), "keep", false, (s: Store, c: Contents) => Some(([], "done")))
  }

  lemma KeepingCreatesNothing(key: string)
    ensures CreatesFirst(Keeping(key)) && Keeping(key).key == Some(key)
  {
  }

  lemma KeepingStarts(w: World, process: int, key: string)
    requires Inv(w) && Loads(w.disk.primary) && key !in CoreAfter(w.base, w.log).commands
    ensures var w' := Started(w, process, Keeping(key));
            && Step(w, Start(process, Keeping(key)), w')
            && Inv(w')
            && process in w'.flights
            && w' == w.(flights := w.flights[process := w'.flights[process]])
            && w'.flights[process].log == w.log
            && HasKey(w'.flights[process].commit, key)
            && |w'.flights[process].commit.after.repositories.projects| == 1
  {
    hide Inv, Load, Loads, CreatesFirst, Prepare, Keeping;
    KeepingCreatesNothing(key);
    StartKeepsInv(w, process, Keeping(key));
    StoredState(w.disk.primary);
    StoredJournal(w);
    KeepingIsPrepared(w.disk.primary, key);
  }

  lemma KeepingIsPrepared(t: Tree, key: string)
    requires Loads(t) && key !in Load(t).value.commands
    ensures var p := Prepare(t, Keeping(key));
            && p.Ready? && Keeping(key).key == Some(key)
            && |p.after.repositories.projects| == 1
  {
    hide Load, Perform;
    assert Load(t).Success? by { StoredState(t); }
    var rt := Load(t).value;
    assert Perform(rt.repositories, rt.content, []) == Some((rt.repositories, rt.content)) by { NothingPerformed(rt); }
    LoadedIsWellFormed(t);
    LoadedInOrder(rt);
  }

  lemma NothingPerformed(rt: LocalRuntime)
    ensures Perform(rt.repositories, rt.content, []) == Some((rt.repositories, rt.content))
  {
  }

  function PathsOf(rt: LocalRuntime): set<Path> {
    {StatePath, EventsPath} + set a | a in rt.repositories.artifacts :: ArtifactPath(a)
  }

  /** The directory a finished save leaves. */
  function SavedTree(rt: LocalRuntime, p: Id): Tree
    requires forall a :: a in rt.repositories.artifacts ==> ContentFits(rt, a)
  {
    var artifacts := rt.repositories.artifacts;
    map q | q in PathsOf(rt) ::
      match q
      case StatePath => State(SnapshotOf(rt))
      case EventsPath => Events(ForProject(rt.repositories, p))
      case ArtifactPath(a) => (assert ContentFits(rt, a); Body(rt.content[artifacts[a].uri]))
  }

  lemma SavedTreeIsWritten(rt: LocalRuntime, p: Id, t: Tree)
    requires forall a :: a in rt.repositories.artifacts ==> ContentFits(rt, a)
    requires forall q :: q in rt.repositories.projects ==> q == p
    ensures Written(t, rt, SavedTree(rt, p)) && Tidy(rt, SavedTree(rt, p))
  {
    hide ForProject;
    var u := SavedTree(rt, p);
    forall a | a in rt.repositories.artifacts ensures HasBody(rt, u, a) {
      assert ContentFits(rt, a) && ArtifactPath(a) in u;
    }
  }

  /** Nothing forces a save to be cut off. */
  lemma SaveCanFinish(d: Disk, rt: LocalRuntime) returns (after: Disk)
    requires SaveRefusal(d, rt).None? && WellFormed(rt)
    ensures SaveOutcome(d, rt, after, Done)
  {
    hide ReplayMatches, StreamsOk, SaveRefusal, SavedTree, Written, Tidy;
    var p := OnlyProject(rt.repositories);
    SavedTreeIsWritten(rt, p, d.primary);
    after := Backed(d).(primary := SavedTree(rt, p));
  }

  lemma FlightFinishes(w: World, process: int) returns (w': World)
    requires Inv(w) && process in w.flights && Loads(w.disk.primary)
    requires |w.flights[process].log| == |w.log| && |w.flights[process].commit.after.repositories.projects| == 1
    ensures Step(w, Finish(process, Done), w') && Inv(w')
    ensures w'.log == w.flights[process].log + [w.flights[process].commit]
    ensures w'.backupLog == w.log && w'.disk.backup == Some(w.disk.primary) && Loads(w'.disk.primary)
    ensures w'.flights == w.flights - {process} && w'.base == w.base
  {
    hide Load, Loads, WellFormed, StateCore, SaveOutcome, Executed, SaveRefusal;
    var f := w.flights[process];
    assert FlightOk(w, f);
    ExtendChain(w.base, f.log, f.commit);
    ExecutedRecords(f.commit);
    RevisionCounts(w.base, f.log);
    RevisionCounts(w.base, w.log);
    StoredCore(w);
    RevisionAccepted(w.disk, f.commit.after);
    var after := SaveCanFinish(w.disk, f.commit.after);
    w' := Finished(w, process, after);
    FinishKeepsInv(w, process, after, Done);
    SaveMovesState(w.disk, f.commit.after, after, Done);
    DoneMoves(w.disk, f.commit.after, after);
  }

  lemma DoneMoves(d: Disk, rt: LocalRuntime, after: Disk)
    requires SaveOutcome(d, rt, after, Done) && Loads(d.primary)
    ensures !StateKept(d, after) && after.backup == Some(d.primary)
  {
    hide Hydrate;
    AcceptedRevision(d, rt);
    LoadedIsWellFormed(d.primary);
    assert HasState(rt, after.primary);
    MigrateIff(SnapshotOf(rt));
    if StateKept(d, after) { SameState(after.primary, d.primary); }
  }

  /** One keyed command, started and saved with nothing in between. */
  lemma KeepingCommits(w: World, process: int, key: string) returns (mid: World, w': World)
    requires Inv(w) && Loads(w.disk.primary)
    requires key !in w.base.commands && forall i :: 0 <= i < |w.log| ==> !HasKey(w.log[i], key)
    ensures Step(w, Start(process, Keeping(key)), mid) && Step(mid, Finish(process, Done), w') && Inv(w')
    ensures |w'.log| == |w.log| + 1 && w.log <= w'.log && HasKey(w'.log[|w.log|], key)
    ensures w'.backupLog == w.log && w'.disk.backup == Some(w.disk.primary) && Loads(w'.disk.primary)
    ensures w'.base == w.base
    ensures forall q :: q != process && q in w.flights ==> q in w'.flights && w'.flights[q] == w.flights[q]
  {
    hide Inv, Step, Loads, Keeping, HasKey;
    Journal(w, key);
    KeepingStarts(w, process, key);
    mid := Started(w, process, Keeping(key));
    w' := FlightFinishes(mid, process);
  }

  /** A call that was started before a recovery can overwrite a commit made after it:
      "b" is committed, no recovery follows, and yet its key is gone. */
  lemma RecoveryCanLoseUpdate(w0: World) returns (worlds: seq<World>, ops: seq<Op>)
    requires Initial(w0) && Loads(w0.disk.primary)
    requires "a" !in w0.base.commands && "b" !in w0.base.commands && "c" !in w0.base.commands
    ensures History(worlds, ops) && |ops| == 7 && worlds[0] == w0
    ensures ops[5] == Finish(3, Done) && CommittedOnce(worlds[6].log, "b")
    ensures !ops[6].Recovery? && Loads(worlds[7].disk.primary)
    ensures "b" !in Load(worlds[7].disk.primary).value.commands
  {
    hide Inv, Step, Load, Loads, Started, Keeping, Initial, CoreAfter;
    InitialIsOk(w0);
    NothingYet(w0);
    var w1, w2 := KeepingCommits(w0, 1, "a");
    var w3, w4 := LateStart(w2, w0.disk.primary);
    var w5, w6 := KeepingCommits(w4, 3, "b");
    assert w6.log == [w6.log[0]];
    var w7 := FlightFinishes(w6, 2);
    worlds := [w0, w1, w2, w3, w4, w5, w6, w7];
    ops := [Start(1, Keeping("a")), Finish(1, Done), Start(2, Keeping("c")), Recovery(Done),
            Start(3, Keeping("b")), Finish(3, Done), Finish(2, Done)];
    Journal(w7, "b");
    StoredJournal(w7);
  }

  /** A call "c" starts after the one commit that a recovery then undoes. */
  lemma LateStart(w: World, backup: Tree) returns (mid: World, w': World)
    requires Inv(w) && Loads(w.disk.primary) && |w.log| == 1 && HasKey(w.log[0], "a") && "c" !in w.base.commands
    requires w.backupLog == [] && w.disk.backup == Some(backup) && Loads(backup)
    ensures Step(w, Start(2, Keeping("c")), mid) && Step(mid, Recovery(Done), w') && Inv(w')
    ensures w'.disk.primary == backup && w'.log == [] && w'.base == w.base
    ensures 2 in w'.flights && |w'.flights[2].log| == 1 && w'.flights[2].log[0] == w.log[0]
    ensures HasKey(w'.flights[2].commit, "c") && |w'.flights[2].commit.after.repositories.projects| == 1
  {
    hide Inv, Step, Load, Loads, Keeping, CoreAfter;
    assert !HasKey(w.log[0], "c");
    Journal(w, "c");
    KeepingStarts(w, 2, "c");
    mid := Started(w, 2, Keeping("c"));
    w' := BackAgain(mid, backup);
  }

  /** There are stores to begin such a history with: one new project, saved. */
  lemma StoredProjectExists() returns (w: World)
    ensures Initial(w) && Loads(w.disk.primary) && w.base.commands == map[]
  {
    hide Load, Loads, WellFormed, Execute, SaveOutcome;
    var call := Call(None, "new", true, (s: Store, c: Contents) => Some((SetUpProject(), "done")));
    NewExecutes(call);
    var rt := Execute(EmptyRuntime(), call).after;
    ExecuteIsWellFormed(EmptyRuntime(), call);
    var d := Disk(map[], None, None);
    var after := SaveCanFinish(d, rt);
    SaveMovesState(d, rt, after, Done);
    StoredState(after.primary);
    w := World(Disk(after.primary, None, None), NewCore(rt), [], [], map[]);
  }

  lemma NewExecutes(call: Call)
    requires call.key.None? && call.creates
    requires call.body(EmptyRuntime().repositories, EmptyRuntime().content) == Some((SetUpProject(), "done"))
    ensures CreatesFirst(call) && Execute(EmptyRuntime(), call).Ready?
    ensures var rt := Execute(EmptyRuntime(), call).after;
            |rt.repositories.projects| == 1 && rt.revision == 0 && rt.commands == map[]
  {
    hide Perform;
    NewProjectPerforms();
  }

  lemma NothingYet(w: World)
    requires Initial(w)
    ensures w.log == []
  {
  }

  lemma Journal(w: World, k: string)
    requires Inv(w) && k !in w.base.commands && forall i :: 0 <= i < |w.log| ==> !HasKey(w.log[i], k)
    ensures k !in CoreAfter(w.base, w.log).commands
  {
    JournalIsLog(w.base, w.log, k);
  }

  lemma StoredJournal(w: World)
    requires Inv(w) && Loads(w.disk.primary)
    ensures Load(w.disk.primary).value.commands == CoreAfter(w.base, w.log).commands
  {
    hide Load, Loads;
    StoredCore(w);
  }

  lemma BackAgain(w: World, backup: Tree) returns (w': World)
    requires Inv(w) && w.disk.backup == Some(backup) && Loads(backup) && |w.backupLog| < |w.log|
    ensures Step(w, Recovery(Done), w') && Inv(w')
    ensures w'.disk.primary == backup && w'.log == w.backupLog && w'.flights == w.flights && w'.base == w.base
  {
    hide Load, Loads, WellFormed, StateCore, FlightOk;
    StoredState(backup);
    var disk := w.disk.(primary := backup);
    w' := Recovered(w, disk);
    RecoverKeepsInv(w, disk, Done);
    RevisionCounts(w.base, w.log);
    RevisionCounts(w.base, w.backupLog);
    if StateKept(w.disk, disk) { SameState(disk.primary, w.disk.primary); }
  }
}
