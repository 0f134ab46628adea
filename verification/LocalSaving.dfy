/**
 Saving and recovering as sequences of file operations that may be cut off
 anywhere (src/founderos_runtime/local_store.py): which disks can be left behind,
 and that none of them loses the last committed records and journal.
 */
module LocalSaving {
  import opened Basics
  import opened ProjectRuntime
  import opened RuntimeEvents
  import opened LocalDisk

  // ------------------------------------------------------------ parts of directories

  /** What is left of `b` while it is being deleted. */
  ghost predicate Remains(a: Tree, b: Tree) {
    forall p :: p in a ==> p in b && a[p] == b[p]
  }

  /** What is there of `b` while it is being copied; a file may be half written. */
  ghost predicate PartCopied(a: Tree, b: Tree) {
    forall p :: p in a ==> p in b && (a[p] == b[p] || a[p] == Garbage)
  }

  ghost predicate SameAt(a: Tree, b: Tree, p: Path) {
    (p in a <==> p in b) && (p in a ==> a[p] == b[p])
  }

  // ------------------------------------------------------------ what a save writes

  function SnapshotOf(rt: LocalRuntime): Snapshot {
    Snapshot(Here(FORMAT_VERSION), Here(rt.revision + 1), Here(rt.commands), Here(RecordsOf(rt.repositories)))
  }

  ghost predicate HasState(rt: LocalRuntime, t: Tree) {
    StatePath in t && t[StatePath] == State(SnapshotOf(rt))
  }

  ghost predicate HasEvents(rt: LocalRuntime, t: Tree) {
    EventsPath in t && t[EventsPath].Events? &&
    forall p :: p in rt.repositories.projects ==> t[EventsPath].events == ForProject(rt.repositories, p)
  }

  ghost predicate HasBody(rt: LocalRuntime, t: Tree, a: Id)
    requires a in rt.repositories.artifacts
  {
    var uri := rt.repositories.artifacts[a].uri;
    ArtifactPath(a) in t && uri in rt.content && t[ArtifactPath(a)] == Body(rt.content[uri])
  }

  ghost predicate HasBodies(rt: LocalRuntime, t: Tree) {
    forall a :: a in rt.repositories.artifacts ==> HasBody(rt, t, a)
  }

  // ------------------------------------------------------------ the outcomes of a save

  /** What makes a save give up before it touches anything. */
  function SaveRefusal(d: Disk, rt: LocalRuntime): Option<StoreError> {
    if |rt.repositories.projects| != 1 then Some(NotOneProject)
    else if StatePath !in d.primary then if rt.revision != 0 then Some(Stale) else None
    else
      match Read(d.primary)
      case Failure(e) => Some(e)
      case Success(s) =>
        if s.revision != Here(rt.revision) then Some(Stale)
        else if Load(d.primary).Failure? then Some(Load(d.primary).error)
        else None
  }

  /** The disk once the backup of a stored project has been made. */
  function Backed(d: Disk): Disk {
    if StatePath in d.primary then Disk(d.primary, Some(d.primary), None) else d
  }

  /** Cut off while the backup is being made: the primary has just been loaded, and
      the old backup goes only once its full successor is in place. */
  ghost predicate BackingUp(d: Disk, after: Disk) {
    && Loads(d.primary)
    && after.primary == d.primary
    && (after.backup == d.backup ||
        (&& after.temporary == Some(d.primary)
         && (after.backup.Some? ==> d.backup.Some? && Remains(after.backup.value, d.backup.value))))
  }

  /** Some artifact contents are new; the events are new only if all contents are;
      the state is still the old one. */
  ghost predicate Rewriting(t: Tree, rt: LocalRuntime, after: Tree) {
    && SameAt(after, t, StatePath)
    && (SameAt(after, t, EventsPath) || (HasEvents(rt, after) && HasBodies(rt, after)))
    && forall a :: SameAt(after, t, ArtifactPath(a)) || (a in rt.repositories.artifacts && HasBody(rt, after, a))
  }

  /** Everything is written; some contents no longer wanted may still be there. */
  ghost predicate Written(t: Tree, rt: LocalRuntime, after: Tree) {
    && HasState(rt, after) && HasEvents(rt, after) && HasBodies(rt, after)
    && forall a :: ArtifactPath(a) in after && a !in rt.repositories.artifacts ==> SameAt(after, t, ArtifactPath(a))
  }

  ghost predicate Tidy(rt: LocalRuntime, after: Tree) {
    forall a :: ArtifactPath(a) in after ==> a in rt.repositories.artifacts
  }

  ghost predicate LacksContent(rt: LocalRuntime) {
    exists a :: a in rt.repositories.artifacts && rt.repositories.artifacts[a].uri !in rt.content
  }

  /** How a save can end. */
  ghost predicate SaveOutcome(d: Disk, rt: LocalRuntime, after: Disk, o: Ending) {
    if SaveRefusal(d, rt).Some? then after == d && o == GaveUp(SaveRefusal(d, rt).value)
    else
      match o
      case Done =>
        && after == Backed(d).(primary := after.primary)
        && Written(d.primary, rt, after.primary) && Tidy(rt, after.primary)
      case GaveUp(e) =>
        && e == ContentMissing
        && LacksContent(rt)
        && after == Backed(d).(primary := after.primary) && Rewriting(d.primary, rt, after.primary)
      case Crashed =>
        || (StatePath in d.primary && BackingUp(d, after))
        || (after == Backed(d).(primary := after.primary) &&
            (Rewriting(d.primary, rt, after.primary) || Written(d.primary, rt, after.primary)))
  }

  // ------------------------------------------------------------ the outcomes of a recovery

  function RecoverRefusal(d: Disk): Option<StoreError> {
    if d.backup.None? || StatePath !in d.backup.value then Some(NoBackup)
    else if !Loads(d.backup.value) then Some(Invalid)
    else None
  }

  /** First the state comes back, then the events, then the artifact contents are
      deleted and copied. */
  ghost predicate Restoring(t: Tree, b: Tree, after: Tree) {
    || after == t
    || (&& SameAt(after, b, StatePath)
        && (|| (SameAt(after, t, EventsPath) && forall a :: SameAt(after, t, ArtifactPath(a)))
            || (SameAt(after, b, EventsPath) && (PartRemoved(t, after) || PartRestored(b, after)))))
  }

  ghost predicate PartRemoved(t: Tree, after: Tree) {
    forall a :: ArtifactPath(a) in after ==> SameAt(after, t, ArtifactPath(a))
  }

  ghost predicate PartRestored(b: Tree, after: Tree) {
    forall a :: ArtifactPath(a) in after ==> SameAt(after, b, ArtifactPath(a)) || after[ArtifactPath(a)] == Garbage
  }

  /** How a recovery can end. */
  ghost predicate RecoverOutcome(d: Disk, after: Disk, o: Ending) {
    if RecoverRefusal(d).Some? then after == d && o == GaveUp(RecoverRefusal(d).value)
    else
      match o
      case Done => after == d.(primary := d.backup.value)
      case GaveUp(_) => false
      case Crashed => after == d.(primary := after.primary) && Restoring(d.primary, d.backup.value, after.primary)
  }

  // ------------------------------------------------------------ a finished save loads

  /** Two runtimes a process cannot tell apart once they are loaded. */
  ghost predicate Reloads(rt: LocalRuntime, back: LocalRuntime) {
    && RecordsOf(back.repositories) == RecordsOf(rt.repositories)
    && (forall p :: p in rt.repositories.projects ==>
          ForProject(back.repositories, p) == ForProject(rt.repositories, p))
    && (forall a :: a in rt.repositories.artifacts ==>
          var uri := rt.repositories.artifacts[a].uri;
          uri in rt.content && uri in back.content && back.content[uri] == rt.content[uri])
    && back.revision == rt.revision + 1
    && back.commands == rt.commands
  }

  lemma {:induction false} EventsOfStream(s: Store, p: Id, k: nat)
    requires StreamsOk(s) && k <= |Stream(s, p)|
    ensures var e := EventsOf(s.events, Stream(s, p)[..k]);
            |e| == k && forall i :: 0 <= i < k ==> Stream(s, p)[i] in s.events && e[i] == s.events[Stream(s, p)[i]]
  {
    if k > 0 {
      assert Stream(s, p)[..k][..k - 1] == Stream(s, p)[..k - 1];
      EventsOfStream(s, p, k - 1);
      assert EventAt(s, p, k - 1);
    }
  }

  /** A gap-free stream of one project. */
  ghost predicate Streamed(all: seq<Event>, ids: seq<Id>, p: Id) {
    && |all| == |ids|
    && (forall i :: 0 <= i < |all| ==> all[i].id == ids[i] && all[i].project == p && all[i].sequence == i + 1)
    && (forall i, j :: 0 <= i < j < |ids| ==> ids[i] != ids[j])
  }

  lemma ProjectIsStreamed(s: Store, p: Id)
    requires StreamsOk(s)
    ensures Streamed(ForProject(s, p), Stream(s, p), p)
    ensures forall i :: 0 <= i < |Stream(s, p)| ==>
              Stream(s, p)[i] in s.events && s.events[Stream(s, p)[i]] == ForProject(s, p)[i]
  {
    var ids := Stream(s, p);
    assert ids[..|ids|] == ids;
    EventsOfStream(s, p, |ids|);
    forall i | 0 <= i < |ids|
      ensures s.events[ids[i]].id == ids[i] && s.events[ids[i]].project == p && s.events[ids[i]].sequence == i + 1
    {
      assert EventAt(s, p, i);
    }
  }

  /** What has been imported so far is just these events, in this order. */
  ghost predicate Holds(t: Store, all: seq<Event>, ids: seq<Id>, p: Id)
    requires |all| == |ids|
  {
    && Stream(t, p) == ids
    && (forall i :: i in t.events ==> i in ids)
    && (forall i :: 0 <= i < |ids| ==> ids[i] in t.events && t.events[ids[i]] == all[i])
  }

  lemma HoldsOneMore(t: Store, all: seq<Event>, ids: seq<Id>, p: Id, e: Event)
    requires |all| == |ids| && Holds(t, all, ids, p) && e.project == p && e.id !in ids
    ensures e.id !in t.events && Holds(Appended(t, e), all + [e], ids + [e.id], p)
  {
    assert forall i :: i in ids + [e.id] <==> i in ids || i == e.id;
  }

  /** Importing such a stream takes every event and keeps the order. */
  lemma {:induction false} ImportStream(all: seq<Event>, ids: seq<Id>, p: Id, blank: Store)
    requires Streamed(all, ids, p) && blank.events == map[] && blank.streams == map[]
    ensures Imported(blank, all).Some? && Holds(Imported(blank, all).value, all, ids, p)
  {
    hide Holds, Appended, Stream;
    if all == [] {
      NothingHeld(blank, p);
    } else {
      var n := |all| - 1;
      ImportStream(all[..n], ids[..n], p, blank);
      var before := Imported(blank, all[..n]).value;
      HoldsOneMore(before, all[..n], ids[..n], p, all[n]);
      HeldLength(before, all[..n], ids[..n], p);
      assert all == all[..n] + [all[n]] && ids == ids[..n] + [ids[n]];
    }
  }

  lemma NothingHeld(blank: Store, p: Id)
    requires blank.events == map[] && blank.streams == map[]
    ensures Holds(blank, [], [], p)
  {
  }

  lemma HeldLength(t: Store, all: seq<Event>, ids: seq<Id>, p: Id)
    requires |all| == |ids| && Holds(t, all, ids, p)
    ensures NextSequence(t, p) == |all| + 1
  {
  }

  lemma {:induction false} SameEventsOf(m: map<Id, Event>, n: map<Id, Event>, ids: seq<Id>)
    requires forall i :: i in ids ==> i in m && i in n && m[i] == n[i]
    ensures EventsOf(m, ids) == EventsOf(n, ids)
  {
    if ids != [] { SameEventsOf(m, n, ids[..|ids| - 1]); }
  }

  lemma ReimportedEvents(s: Store, p: Id, blank: Store)
    requires StreamsOk(s) && StreamsOk(blank) && blank.events == map[] && blank.streams == map[]
    ensures var back := Imported(blank, ForProject(s, p));
            && back.Some?
            && ForProject(back.value, p) == ForProject(s, p)
            && RecordsOf(back.value) == RecordsOf(blank)
  {
    var ids := Stream(s, p);
    ProjectIsStreamed(s, p);
    ImportStream(ForProject(s, p), ids, p, blank);
    var back := Imported(blank, ForProject(s, p)).value;
    SameEventsOf(s.events, back.events, ids);
    ImportedKeeps(blank, ForProject(s, p));
  }

  /** Once all three parts are written the directory loads as what was saved, one
      revision on, whatever other contents are still lying about. */
  lemma WrittenLoads(t: Tree, rt: LocalRuntime, after: Tree)
    requires WellFormed(rt) && Written(t, rt, after)
    ensures Loads(after) && Reloads(rt, Load(after).value)
    ensures CoreOf(Load(after).value) == Core(RecordsOf(rt.repositories), rt.revision + 1, rt.commands)
  {
    hide Replay, Imported, ForProject, StreamsOk;
    MigrateIff(SnapshotOf(rt));
    var records := RecordsOf(rt.repositories);
    assert Read(after) == Success(SnapshotOf(rt));
    var blank := Blank(records);
    assert StreamsOk(blank) by { BlankIsOk(records); }
    var p := OnlyProject(rt.repositories);
    ReimportedEvents(rt.repositories, p, blank);
    var back := Imported(blank, after[EventsPath].events).value;
    assert back.projects == rt.repositories.projects;
    assert ReplayMatches(rt.repositories, p);
    assert OneProject(back);
    WrittenContents(t, rt, after);
  }

  /** The contents read back are the ones that were written. */
  lemma WrittenContents(t: Tree, rt: LocalRuntime, after: Tree)
    requires WellFormed(rt) && Written(t, rt, after)
    ensures var artifacts := rt.repositories.artifacts;
            && BodiesFit(artifacts, after)
            && forall a :: a in artifacts ==>
                 && artifacts[a].uri in ContentOf(artifacts, after) && artifacts[a].uri in rt.content
                 && ContentOf(artifacts, after)[artifacts[a].uri] == rt.content[artifacts[a].uri]
  {
    hide ReplayMatches, ForProject, StreamsOk;
    var artifacts := rt.repositories.artifacts;
    forall a | a in artifacts ensures BodyFits(artifacts, after, a) {
      assert HasBody(rt, after, a) && ContentFits(rt, a);
    }
    forall a | a in artifacts
      ensures artifacts[a].uri in rt.content
      ensures ContentOf(artifacts, after)[artifacts[a].uri] == rt.content[artifacts[a].uri]
    {
      assert HasBody(rt, after, a) && ContentFits(rt, a);
      assert ContentOf(artifacts, after)[artifacts[a].uri] == after[ArtifactPath(a)].content;
    }
  }

  lemma BlankIsOk(r: Records)
    ensures StreamsOk(Blank(r))
  {
  }

  lemma OnlyProject(s: Store) returns (p: Id)
    requires OneProject(s)
    ensures p in s.projects && forall q :: q in s.projects ==> q == p
  {
    p :| p in s.projects;
    forall q | q in s.projects ensures q == p {
      if q != p { CardinalityTwo(s.projects.Keys, p, q); }
    }
  }

  lemma CardinalityTwo<T>(s: set<T>, a: T, b: T)
    requires a in s && b in s && a != b
    ensures |s| >= 2
  {
    assert s == {a} + (s - {a});
  }

  // ------------------------------------------------------------ crash safety

  function NewCore(rt: LocalRuntime): Core {
    Core(RecordsOf(rt.repositories), rt.revision + 1, rt.commands)
  }

  lemma SameState(a: Tree, b: Tree)
    requires SameAt(a, b, StatePath)
    ensures Read(a) == Read(b) && StateCore(a) == StateCore(b)
  {
  }

  /** The next revision of the state file appears only where everything that belongs
      to it is already in place. */
  lemma SaveMovesState(d: Disk, rt: LocalRuntime, after: Disk, o: Ending)
    requires WellFormed(rt) && SaveOutcome(d, rt, after, o)
    ensures || SameAt(after.primary, d.primary, StatePath)
            || (&& Loads(after.primary) && CoreOf(Load(after.primary).value) == NewCore(rt)
                && Reloads(rt, Load(after.primary).value))
    ensures o.Done? ==> Loads(after.primary) && CoreOf(Load(after.primary).value) == NewCore(rt)
  {
    hide Loads, WellFormed, CoreOf, Rewriting, Written, BackingUp, Load, Reloads;
    if SaveRefusal(d, rt).None? {
      if Written(d.primary, rt, after.primary) {
        WrittenLoads(d.primary, rt, after.primary);
      } else {
        RewritingKeepsState(d.primary, rt, after.primary);
        BackingUpKeepsState(d, after);
      }
    }
  }

  lemma RewritingKeepsState(t: Tree, rt: LocalRuntime, after: Tree)
    ensures Rewriting(t, rt, after) ==> SameAt(after, t, StatePath)
  {
  }

  lemma BackingUpKeepsState(d: Disk, after: Disk)
    ensures BackingUp(d, after) ==> Loads(d.primary) && after.primary == d.primary
  {
  }

  /** Wherever a save of a stored project is cut off, the primary loads with the
      records and journal of this revision or the next, or the backup loads as
      exactly what was stored. */
  lemma SaveIsCrashSafe(d: Disk, rt: LocalRuntime, after: Disk, o: Ending)
    requires Loads(d.primary) && WellFormed(rt) && SaveOutcome(d, rt, after, o)
    ensures var stored := Load(d.primary).value;
            || (Loads(after.primary) && CoreOf(Load(after.primary).value) == CoreOf(stored))
            || (&& Loads(after.primary) && CoreOf(Load(after.primary).value) == NewCore(rt)
                && rt.revision == stored.revision)
            || (after.backup.Some? && Load(after.backup.value) == Success(stored))
  {
    hide Loads, WellFormed, CoreOf, Rewriting, Written, Load;
    StoredState(d.primary);
    SaveMovesState(d, rt, after, o);
    BackingUpKeepsState(d, after);
    if SaveRefusal(d, rt).None? { AcceptedRevision(d, rt); }
  }

  lemma StoredState(t: Tree)
    ensures Loads(t) ==> StatePath in t
    ensures Loads(t) <==> Load(t).Success?
  {
  }

  lemma AcceptedRevision(d: Disk, rt: LocalRuntime)
    requires SaveRefusal(d, rt).None?
    ensures StatePath in d.primary ==> Loads(d.primary) && Load(d.primary).value.revision == rt.revision
    ensures StatePath !in d.primary ==> rt.revision == 0
  {
    hide Hydrate;
    if StatePath in d.primary {
      LoadedIsWellFormed(d.primary);
    }
  }

  lemma RevisionAccepted(d: Disk, rt: LocalRuntime)
    requires Loads(d.primary) && WellFormed(rt) && Load(d.primary).value.revision == rt.revision
    ensures SaveRefusal(d, rt).None?
  {
    hide Hydrate, WellFormed;
    assert |rt.repositories.projects| == 1 by { OneOf(rt); }
    LoadedIsWellFormed(d.primary);
  }

  lemma OneOf(rt: LocalRuntime)
    requires WellFormed(rt)
    ensures |rt.repositories.projects| == 1
  {
  }

  /** A first save that is cut off leaves nothing that counts as a project, or all of it. */
  lemma FirstSaveIsCrashSafe(d: Disk, rt: LocalRuntime, after: Disk, o: Ending)
    requires StatePath !in d.primary && WellFormed(rt) && SaveOutcome(d, rt, after, o)
    ensures || StatePath !in after.primary
            || (&& Loads(after.primary)
                && CoreOf(Load(after.primary).value) == Core(RecordsOf(rt.repositories), 1, rt.commands))
    ensures after.backup == d.backup
  {
    hide Loads, WellFormed, CoreOf, Rewriting, Written, Load, BackingUp;
    SaveMovesState(d, rt, after, o);
    if SaveRefusal(d, rt).None? { AcceptedRevision(d, rt); }
  }

  /** A backup goes only while the primary it is replaced from is whole, and what
      replaces it is a copy of that primary. */
  lemma BackupIsGuarded(d: Disk, rt: LocalRuntime, after: Disk, o: Ending)
    requires SaveOutcome(d, rt, after, o)
    ensures || after.backup == d.backup
            || (Loads(d.primary) && (after.backup == Some(d.primary) || after.primary == d.primary))
  {
    hide Loads, Rewriting, Written, Load;
    if SaveRefusal(d, rt).None? { AcceptedRevision(d, rt); }
  }

  /** After a successful save the next load gives the same records, event order,
      contents and journal one revision on, and the backup what was there before. */
  lemma SaveLoadRoundTrip(d: Disk, rt: LocalRuntime, after: Disk)
    requires WellFormed(rt) && SaveOutcome(d, rt, after, Done)
    ensures Loads(after.primary) && Reloads(rt, Load(after.primary).value)
    ensures StatePath in d.primary ==> after.backup == Some(d.primary) && Loads(d.primary)
  {
    hide Loads, WellFormed, Written, Load;
    WrittenLoads(d.primary, rt, after.primary);
    AcceptedRevision(d, rt);
  }

  /** Of two runtimes at the same store revision only the first can be saved. */
  lemma AtMostOneSaves(d: Disk, first: LocalRuntime, mid: Disk, second: LocalRuntime, after: Disk, o: Ending)
    requires WellFormed(first) && first.revision == second.revision
    requires SaveOutcome(d, first, mid, Done) && SaveOutcome(mid, second, after, o)
    ensures o.GaveUp? && after == mid
  {
    hide WellFormed, Written, Hydrate, Rewriting;
    SaveMovesState(d, first, mid, Done);
    LoadedIsWellFormed(mid.primary);
  }

  /** Every stored artifact that is still recorded has the digest it is stored with. */
  predicate KeepsDigests(stored: map<Id, Artifact>, now: map<Id, Artifact>) {
    forall a :: a in stored && a in now ==> now[a].digest == stored[a].digest
  }

  /** Once all contents are rewritten, the contents the old records name are there
      exactly when no digest has changed. */
  lemma OldBodiesFitIff(t: Tree, rt: LocalRuntime, after: Tree, stored: map<Id, Artifact>)
    requires WellFormed(rt) && BodiesFit(stored, t) && Rewriting(t, rt, after) && HasBodies(rt, after)
    ensures BodiesFit(stored, after) <==> KeepsDigests(stored, rt.repositories.artifacts)
  {
    hide StreamsOk, OneProject, UrisDistinct;
    forall a | a in stored
      ensures BodyFits(stored, after, a) <==>
              (a in rt.repositories.artifacts ==> rt.repositories.artifacts[a].digest == stored[a].digest)
    {
      assert BodyFits(stored, t, a);
      if a in rt.repositories.artifacts {
        assert HasBody(rt, after, a) && ContentFits(rt, a);
      } else {
        assert SameAt(after, t, ArtifactPath(a));
      }
    }
  }

  /** A save cut off between the events and the state leaves the old state beside the
      new events.  It still loads exactly when the new events replay to the old state and
      revision and no artifact was given new content; and then with the old records. */
  lemma OldStateNewEvents(d: Disk, rt: LocalRuntime, after: Disk, p: Id)
    requires Loads(d.primary) && WellFormed(rt) && SaveOutcome(d, rt, after, Crashed)
    requires p in rt.repositories.projects && p in Load(d.primary).value.repositories.projects
    requires SameAt(after.primary, d.primary, StatePath) && !SameAt(after.primary, d.primary, EventsPath)
    ensures var stored := Load(d.primary).value;
            Loads(after.primary) <==>
              && ReplaysTo(ForProject(rt.repositories, p), stored.repositories.projects[p])
              && KeepsDigests(stored.repositories.artifacts, rt.repositories.artifacts)
    ensures Loads(after.primary) ==>
              && CoreOf(Load(after.primary).value) == CoreOf(Load(d.primary).value)
              && ForProject(Load(after.primary).value.repositories, p) == ForProject(rt.repositories, p)
  {
    hide Load, Loads, WellFormed, BodiesFit, KeepsDigests, ReplaysTo;
    BetweenEventsAndState(d, rt, after);
    StoredBodies(d.primary);
    var stored := Load(d.primary).value.repositories.artifacts;
    OldBodiesFitIff(d.primary, rt, after.primary, stored);
    NewEventsLoadIff(d.primary, rt, after.primary, p);
  }

  lemma StoredBodies(t: Tree)
    requires Loads(t)
    ensures Load(t).Success? && BodiesFit(Load(t).value.repositories.artifacts, t)
  {
    hide Replay, Imported, ForProject;
    MigrateIff(t[StatePath].snapshot);
    var s := Read(t).value;
    ImportedKeeps(Blank(s.records.value), t[EventsPath].events);
    assert RecordsOf(Load(t).value.repositories) == s.records.value;
    assert Load(t).value.repositories.artifacts == s.records.value.artifacts;
  }

  lemma BetweenEventsAndState(d: Disk, rt: LocalRuntime, after: Disk)
    requires Loads(d.primary) && SaveOutcome(d, rt, after, Crashed)
    requires SameAt(after.primary, d.primary, StatePath) && !SameAt(after.primary, d.primary, EventsPath)
    ensures Rewriting(d.primary, rt, after.primary) && HasEvents(rt, after.primary) && HasBodies(rt, after.primary)
  {
    hide Hydrate, HasBodies, HasEvents;
    assert SaveRefusal(d, rt).None?;
    AcceptedRevision(d, rt);
    LoadedIsWellFormed(d.primary);
    if Written(d.primary, rt, after.primary) {
      MigrateIff(SnapshotOf(rt));
      SameState(after.primary, d.primary);
    }
  }

  lemma NewEventsLoadIff(t: Tree, rt: LocalRuntime, after: Tree, p: Id)
    requires Loads(t) && WellFormed(rt)
    requires p in rt.repositories.projects && p in Load(t).value.repositories.projects
    requires SameAt(after, t, StatePath) && HasEvents(rt, after)
    ensures var stored := Load(t).value;
            Loads(after) <==>
              && ReplaysTo(ForProject(rt.repositories, p), stored.repositories.projects[p])
              && BodiesFit(stored.repositories.artifacts, after)
    ensures Loads(after) ==>
              && CoreOf(Load(after).value) == CoreOf(Load(t).value)
              && ForProject(Load(after).value.repositories, p) == ForProject(rt.repositories, p)
  {
    hide Replay, Imported, ForProject, StreamsOk;
    LoadedIsWellFormed(t);
    SameState(after, t);
    MigrateIff(t[StatePath].snapshot);
    var s := Read(t).value;
    var records := s.records.value;
    var stored := Load(t).value.repositories;
    assert RecordsOf(stored) == records;
    assert StreamsOk(Blank(records)) by { BlankIsOk(records); }
    ReimportedEvents(rt.repositories, p, Blank(records));
    var back := Imported(Blank(records), after[EventsPath].events).value;
    assert RecordsOf(back) == records && back.projects == stored.projects && stored.artifacts == records.artifacts;
    OnlyOne(stored.projects, p);
    assert OneProject(back) <==> ReplayMatches(back, p);
    if Loads(after) { LoadedIsWellFormed(after); }
  }

  ghost predicate ReplaysTo(events: seq<Event>, p: Project) {
    match Replay(events)
    case Failure(_) => false
    case Success(sum) => sum.state == p.state && sum.revision == p.revision
  }

  /** So a crash before the state is written is not noticed when all the new events
      are of the kinds that replay skips. */
  lemma QuietEventReplaysSame(events: seq<Event>, e: Event, p: Project)
    requires ReplaysTo(events, p) && Quiet(e.body) && e.sequence == |events| + 1
    ensures ReplaysTo(events + [e], p)
  {
    ReplayAppend(events, e);
  }

  lemma OnlyOne(m: map<Id, Project>, p: Id)
    requires |m| == 1 && p in m
    ensures forall q :: q in m ==> q == p
  {
    forall q | q in m ensures q == p {
      if q != p { CardinalityTwo(m.Keys, p, q); }
    }
  }

  /** Recovery never touches the backup, so it can be run again; it gives up only
      when there is no backup that loads, and then changes nothing; when it ends the
      primary loads as the backup; and cut off, the state file is the old one or the
      backup's. */
  lemma RecoverIsRestartable(d: Disk, after: Disk, o: Ending)
    requires RecoverOutcome(d, after, o)
    ensures after.backup == d.backup && after.temporary == d.temporary
    ensures RecoverRefusal(after) == RecoverRefusal(d)
    ensures o.GaveUp? <==> d.backup.None? || !Loads(d.backup.value)
    ensures o.GaveUp? ==> after == d
    ensures o.Done? ==> Loads(after.primary) && Load(after.primary) == Load(after.backup.value)
    ensures !o.GaveUp? ==> StateCore(after.primary) in {StateCore(d.primary), StateCore(d.backup.value)}
    ensures !o.GaveUp? && Loads(after.primary) ==>
              Some(CoreOf(Load(after.primary).value)) in {StateCore(d.primary), StateCore(d.backup.value)}
  {
    hide Hydrate, Read;
    if !o.GaveUp? {
      if SameAt(after.primary, d.backup.value, StatePath) { SameState(after.primary, d.backup.value); }
      if Loads(after.primary) { LoadedIsWellFormed(after.primary); }
    }
    if d.backup.Some? { StoredState(d.backup.value); }
  }
}
