/**
 The local project store as it changes files step by step
 (src/founderos_runtime/local_store.py).  Between any two steps the process may
 stop; each method is proved to end in one of the outcomes of LocalSaving.
 */
module LocalStoring {
  import opened Basics
  import opened ProjectRuntime
  import opened LocalDisk
  import opened LocalSaving

  /** Bringing a snapshot of any older format to the current one. */
  method MigrateSnapshot(snapshot: Snapshot) returns (r: Result<Snapshot, StoreError>)
    ensures r == Migrate(snapshot)
  {
    if snapshot.format.Malformed? { return Failure(Invalid); }
    var version := if snapshot.format.Here? then snapshot.format.value else 0;
    if version < 0 || version > FORMAT_VERSION { return Failure(Invalid); }
    ghost var start := version;
    var migrated := snapshot;
    while version < FORMAT_VERSION
      invariant 0 <= version <= FORMAT_VERSION
      invariant MigrateFrom(version, migrated) == MigrateFrom(start, snapshot)
    {
      migrated := MigrateStep(version, migrated);
      version := version + 1;
      assert migrated.format == Here(version);
    }
    if migrated.revision.Malformed? || (migrated.revision.Here? && migrated.revision.value < 0) {
      return Failure(Invalid);
    }
    migrated := migrated.(revision := OrElse(migrated.revision, 0));
    if migrated.commands.Malformed? { return Failure(Invalid); }
    return Success(migrated.(commands := OrElse(migrated.commands, map[])));
  }

  class LocalProjectStore {
    var primary: Tree
    var backup: Option<Tree>
    var temporary: Option<Tree>

    function OnDisk(): Disk
      reads this
    {
      Disk(primary, backup, temporary)
    }

    constructor ()
      ensures OnDisk() == Disk(map[], None, None)
    {
      primary, backup, temporary := map[], None, None;
    }

    // ---------------------------------------------------------- whole directories

    /** Deletes the temporary directory, one file at a time. */
    method ClearTemporary() returns (crashed: bool)
      modifies this`temporary
      ensures !crashed ==> temporary == None
    {
      while temporary.Some? && temporary.value != map[]
        decreases if temporary.Some? then |temporary.value| else 0
      {
        if * { return true; }
        var p :| p in temporary.value;
        temporary := Some(temporary.value - {p});
      }
      temporary := None;
      return false;
    }

    /** Copies the primary to a new temporary directory; a file is there before its
        content is. */
    method CopyPrimary() returns (crashed: bool)
      modifies this`temporary
      ensures !crashed ==> temporary == Some(primary)
      ensures crashed && temporary.Some? ==> PartCopied(temporary.value, primary)
    {
      var copy: Tree := map[];
      temporary := Some(copy);
      var todo := primary.Keys;
      while todo != {}
        invariant todo <= primary.Keys
        invariant forall p :: p in copy <==> p in primary && p !in todo
        invariant forall p :: p in copy ==> copy[p] == primary[p]
        invariant temporary == Some(copy)
      {
        if * { return true; }
        var p :| p in todo;
        temporary := Some(copy[p := Garbage]);
        if * { return true; }
        copy := copy[p := primary[p]];
        temporary := Some(copy);
        todo := todo - {p};
      }
      assert copy == primary;
      return false;
    }

    /** Deletes the old backup, one file at a time. */
    method RemoveBackup() returns (crashed: bool)
      modifies this`backup
      ensures !crashed ==> backup == None
      ensures backup.Some? ==> old(backup).Some? && Remains(backup.value, old(backup).value)
    {
      while backup.Some? && backup.value != map[]
        invariant backup.Some? ==> old(backup).Some? && Remains(backup.value, old(backup).value)
        decreases if backup.Some? then |backup.value| else 0
      {
        if * { return true; }
        var p :| p in backup.value;
        backup := Some(backup.value - {p});
      }
      backup := None;
      return false;
    }

    // ---------------------------------------------------------- saving

    /** A validated copy of the committed primary replaces the backup. */
    method CreateBackup() returns (o: Ending)
      modifies this`backup, this`temporary
      ensures o.GaveUp? <==> Load(primary).Failure?
      ensures o.GaveUp? ==> o == GaveUp(Load(primary).error) && OnDisk() == old(OnDisk())
      ensures o.Done? ==> backup == Some(primary) && temporary == None
      ensures o.Crashed? ==> BackingUp(old(OnDisk()), OnDisk())
    {
      hide Load;
      var checked := Load(primary);
      if checked.Failure? { return GaveUp(checked.error); }
      var crashed := ClearTemporary();
      if crashed { return Crashed; }
      crashed := CopyPrimary();
      if crashed { return Crashed; }
      crashed := RemoveBackup();
      if crashed { return Crashed; }
      if * { return Crashed; }
      backup, temporary := temporary, None;
      return Done;
    }

    method CurrentRevision() returns (r: Result<int, StoreError>)
      ensures r == if StatePath !in primary then Success(0)
                   else match Read(primary) case Failure(e) => Failure(e) case Success(s) => Success(s.revision.value)
    {
      if StatePath !in primary { return Success(0); }
      if !primary[StatePath].State? { return Failure(Invalid); }
      MigrateIff(primary[StatePath].snapshot);
      var migrated := MigrateSnapshot(primary[StatePath].snapshot);
      if migrated.Failure? { return Failure(migrated.error); }
      return Success(migrated.value.revision.value);
    }

    /** The contents of all artifacts, each replaced as a whole. */
    method WriteBodies(rt: LocalRuntime) returns (o: Ending)
      modifies this`primary
      ensures Rewriting(old(primary), rt, primary) && SameAt(primary, old(primary), EventsPath)
      ensures o.Done? ==> HasBodies(rt, primary)
      ensures o.GaveUp? ==> o == GaveUp(ContentMissing) && LacksContent(rt)
    {
      var todo := rt.repositories.artifacts.Keys;
      while todo != {}
        invariant todo <= rt.repositories.artifacts.Keys
        invariant Rewriting(old(primary), rt, primary) && SameAt(primary, old(primary), EventsPath)
        invariant forall a :: a in rt.repositories.artifacts && a !in todo ==> HasBody(rt, primary, a)
      {
        var a :| a in todo;
        var uri := rt.repositories.artifacts[a].uri;
        if uri !in rt.content { return GaveUp(ContentMissing); }
        primary := primary[ArtifactPath(a) := Body(rt.content[uri])];
        todo := todo - {a};
        if * { return Crashed; }
      }
      return Done;
    }

    /** Deletes the contents of artifacts that are no longer recorded. */
    method RemoveUnwanted(rt: LocalRuntime) returns (o: Ending)
      requires Written(primary, rt, primary)
      modifies this`primary
      ensures Written(old(primary), rt, primary) && !o.GaveUp?
      ensures o.Done? ==> Tidy(rt, primary)
    {
      var unwanted := set p | p in primary && p.ArtifactPath? && p.id !in rt.repositories.artifacts;
      while unwanted != {}
        invariant Written(old(primary), rt, primary)
        invariant unwanted == set p | p in primary && p.ArtifactPath? && p.id !in rt.repositories.artifacts
        decreases |unwanted|
      {
        var p :| p in unwanted;
        primary := primary - {p};
        unwanted := unwanted - {p};
        if * { return Crashed; }
      }
      forall a | ArtifactPath(a) in primary ensures a in rt.repositories.artifacts {
        assert ArtifactPath(a) !in unwanted;
      }
      return Done;
    }

    /** Contents, then events, then the state file. */
    method WriteAll(rt: LocalRuntime) returns (o: Ending)
      requires |rt.repositories.projects| == 1
      modifies this`primary
      ensures o.Done? ==> Written(old(primary), rt, primary) && Tidy(rt, primary)
      ensures o.GaveUp? ==> o == GaveUp(ContentMissing) && LacksContent(rt) && Rewriting(old(primary), rt, primary)
      ensures o.Crashed? ==> Rewriting(old(primary), rt, primary) || Written(old(primary), rt, primary)
    {
      hide ForProject;
      var projects := rt.repositories.projects;
      assert projects != map[];
      var project :| project in projects;
      OnlyOne(projects, project);
      o := WriteBodies(rt);
      if !o.Done? { return; }
      primary := primary[EventsPath := Events(ForProject(rt.repositories, project))];
      assert HasBodies(rt, primary);
      if * { return Crashed; }
      ghost var before := primary;
      primary := primary[StatePath := State(SnapshotOf(rt))];
      forall a | a in rt.repositories.artifacts ensures HasBody(rt, primary, a) { assert HasBody(rt, before, a); }
      assert Written(old(primary), rt, primary);
      if * { return Crashed; }
      ghost var written := primary;
      o := RemoveUnwanted(rt);
      WrittenOnward(old(primary), rt, written, primary);
    }

    method Save(rt: LocalRuntime) returns (o: Ending)
      modifies this
      ensures SaveOutcome(old(OnDisk()), rt, OnDisk(), o)
    {
      hide Load, Migrate, Written, Rewriting, BackingUp, Tidy;
      if |rt.repositories.projects| != 1 { return GaveUp(NotOneProject); }
      var current := CurrentRevision();
      ReadIsMigrated(primary);
      if current.Failure? { return GaveUp(current.error); }
      if current.value != rt.revision { return GaveUp(Stale); }
      if StatePath in primary {
        o := CreateBackup();
        if !o.Done? { return; }
      }
      assert OnDisk() == Backed(old(OnDisk()));
      assert SaveRefusal(old(OnDisk()), rt).None?;
      o := WriteAll(rt);
    }

    // ---------------------------------------------------------- recovering

    method RemoveArtifacts() returns (crashed: bool)
      modifies this`primary
      ensures SameAt(primary, old(primary), StatePath) && SameAt(primary, old(primary), EventsPath)
      ensures PartRemoved(old(primary), primary)
      ensures !crashed ==> forall a :: ArtifactPath(a) !in primary
    {
      var todo := set p | p in primary && p.ArtifactPath?;
      while todo != {}
        invariant todo == set p | p in primary && p.ArtifactPath?
        invariant SameAt(primary, old(primary), StatePath) && SameAt(primary, old(primary), EventsPath)
        invariant PartRemoved(old(primary), primary)
        decreases |todo|
      {
        if * { return true; }
        var p :| p in todo;
        primary := primary - {p};
        todo := todo - {p};
      }
      forall a ensures ArtifactPath(a) !in primary { assert ArtifactPath(a) !in todo; }
      return false;
    }

    method CopyArtifacts(b: Tree) returns (crashed: bool)
      requires forall a :: ArtifactPath(a) !in primary
      modifies this`primary
      ensures SameAt(primary, old(primary), StatePath) && SameAt(primary, old(primary), EventsPath)
      ensures PartRestored(b, primary)
      ensures !crashed ==> forall a :: SameAt(primary, b, ArtifactPath(a))
    {
      var todo := set p | p in b && p.ArtifactPath?;
      while todo != {}
        invariant forall p :: p in todo ==> p in b && p.ArtifactPath?
        invariant SameAt(primary, old(primary), StatePath) && SameAt(primary, old(primary), EventsPath)
        invariant forall a :: ArtifactPath(a) in todo ==> ArtifactPath(a) !in primary
        invariant forall a :: ArtifactPath(a) !in todo ==> SameAt(primary, b, ArtifactPath(a))
      {
        if * { return true; }
        var p :| p in todo;
        primary := primary[p := Garbage];
        if * { return true; }
        primary := primary[p := b[p]];
        todo := todo - {p};
      }
      return false;
    }

    method Recover() returns (o: Ending)
      modifies this
      ensures RecoverOutcome(old(OnDisk()), OnDisk(), o)
    {
      hide Hydrate, Read;
      if backup.None? || StatePath !in backup.value { return GaveUp(NoBackup); }
      var b := backup.value;
      if Load(b).Failure? { return GaveUp(Invalid); }
      LoadedFiles(b);
      hide Loads, Load;
      if * { return Crashed; }
      primary := primary[StatePath := b[StatePath]];
      if * { return Crashed; }
      primary := primary[EventsPath := b[EventsPath]];
      var crashed := RemoveArtifacts();
      if crashed { return Crashed; }
      crashed := CopyArtifacts(b);
      if crashed { return Crashed; }
      TreesEqual(primary, b);
      return Done;
    }
  }

  lemma WrittenOnward(t: Tree, rt: LocalRuntime, mid: Tree, after: Tree)
    requires Written(t, rt, mid) && Written(mid, rt, after)
    ensures Written(t, rt, after)
  {
  }

  lemma ReadIsMigrated(t: Tree)
    ensures Read(t).Success? ==> Read(t).value.revision.Here?
  {
    if StatePath in t && t[StatePath].State? { MigrateIff(t[StatePath].snapshot); }
  }

  lemma LoadedFiles(t: Tree)
    requires Loads(t)
    ensures StatePath in t && EventsPath in t
  {
  }

  lemma TreesEqual(t: Tree, u: Tree)
    requires SameAt(t, u, StatePath) && SameAt(t, u, EventsPath) && forall a :: SameAt(t, u, ArtifactPath(a))
    ensures t == u
  {
    forall p: Path ensures SameAt(t, u, p) {
      match p
      case StatePath =>
      case EventsPath =>
      case ArtifactPath(id) => assert SameAt(t, u, ArtifactPath(id));
    }
    assert forall p :: p in t ==> SameAt(t, u, p);
    assert forall p :: p in u ==> SameAt(t, u, p);
    assert t.Keys == u.Keys;
  }
}
