/**
 A crash that goes unnoticed (src/founderos_runtime/local_store.py): a save that is cut
 off between the events and the state can leave a directory that loads, with old records
 and new events.
 */
module LocalCrash {
  import opened Basics
  import opened ProjectRuntime
  import opened RuntimeEvents
  import opened LocalDisk
  import opened LocalSaving
  import opened CommandBodies

  /** The stored runtime with one evaluation more, and the directory as a crash between
      its events and its state leaves it. */
  function Evaluated(rt: LocalRuntime, ev: Evaluation, event: Id): LocalRuntime {
    rt.(repositories := RecordEvidence(rt.repositories, NewEvaluation(ev), event, true, true).store)
  }

  function CutOff(d: Disk, rt: LocalRuntime, p: Id): Disk {
    Backed(d).(primary := d.primary[EventsPath := Events(ForProject(rt.repositories, p))])
  }

  lemma EvaluatedStore(s: Store, ev: Evaluation, event: Id)
    requires ev.id !in s.evaluations && event !in s.events
    ensures var s1 := s.(evaluations := s.evaluations[ev.id := ev]);
            RecordEvidence(s, NewEvaluation(ev), event, true, true).store
            == Appended(s1, BuildEvent(s1, event, ev.project, Lifecycle("evidence")))
  {
    hide Appended;
  }

  /** One quiet event is at the end of the stream, and nothing else is changed that a
      load looks at. */
  lemma EvaluatedKeeps(s: Store, ev: Evaluation, event: Id)
    requires StreamsOk(s) && ev.id !in s.evaluations && event !in s.events
    ensures var s' := RecordEvidence(s, NewEvaluation(ev), event, true, true).store;
            && s'.projects == s.projects && s'.artifacts == s.artifacts
            && ForProject(s', ev.project) == ForProject(s, ev.project) + [Noted(s, ev, event)]
  {
    hide StreamsOk, ForProject, RecordEvidence, Appended;
    var s1 := s.(evaluations := s.evaluations[ev.id := ev]);
    var e := BuildEvent(s1, event, ev.project, Lifecycle("evidence"));
    EvaluatedStore(s, ev, event);
    SameStreams(s, s1);
    EvaluationsApart(s, s1);
    AppendStream(s1, event, ev.project, e.body);
    AppendedKeepsRecords(s1, e);
    assert NextSequence(s1, ev.project) == |ForProject(s1, ev.project)| + 1;
  }

  function Noted(s: Store, ev: Evaluation, event: Id): Event {
    Event(event, ev.project, |ForProject(s, ev.project)| + 1, Lifecycle("evidence"))
  }

  lemma EvaluationsApart(s: Store, s1: Store)
    requires StreamsOk(s) && s1.events == s.events && s1.streams == s.streams
    ensures StreamsOk(s1)
  {
    forall p, k | p in s1.streams && 0 <= k < |s1.streams[p]| ensures EventAt(s1, p, k) { assert EventAt(s, p, k); }
  }

  lemma EvaluatedIsWellFormed(rt: LocalRuntime, ev: Evaluation, event: Id)
    requires WellFormed(rt)
    requires ev.id !in rt.repositories.evaluations && event !in rt.repositories.events
    ensures var s, s' := rt.repositories, Evaluated(rt, ev, event).repositories;
            && WellFormed(Evaluated(rt, ev, event))
            && s'.projects == s.projects && s'.artifacts == s.artifacts
            && ForProject(s', ev.project) == ForProject(s, ev.project) + [Noted(s, ev, event)]
  {
    hide WellFormed, EventsOk, ForProject, RecordEvidence, StreamsOk, Noted;
    var s := rt.repositories;
    var s' := Evaluated(rt, ev, event).repositories;
    LoadedInOrder(rt);
    StreamsAndRevision(rt);
    EvaluatedKeeps(s, ev, event);
    EvidenceKeepsEvents(s, NewEvaluation(ev), event, true, true, false);
    SameArtifactsFit(s, rt.content, s');
    InOrderIsWellFormed(s', rt.content, rt.revision, rt.commands);
  }

  lemma AppendedKeepsRecords(s: Store, e: Event)
    ensures Appended(s, e).projects == s.projects && Appended(s, e).artifacts == s.artifacts
  {
  }

  lemma StreamsAndRevision(rt: LocalRuntime)
    requires WellFormed(rt)
    ensures StreamsOk(rt.repositories) && rt.revision >= 0
  {
  }

  /** What a load puts in memory under the address of an artifact is its stored body. */
  lemma LoadedContent(t: Tree, a: Id)
    requires Loads(t) && a in Load(t).value.repositories.artifacts
    ensures var art := Load(t).value.repositories.artifacts[a];
            && ArtifactPath(a) in t && art.uri in Load(t).value.content
            && t[ArtifactPath(a)] == Body(Load(t).value.content[art.uri])
  {
    hide Replay, Imported, ForProject;
    StoredBodies(t);
    var rt := Load(t).value;
    MigrateIff(t[StatePath].snapshot);
    var s := Read(t).value;
    ImportedKeeps(Blank(s.records.value), t[EventsPath].events);
    assert RecordsOf(rt.repositories) == s.records.value;
    var artifacts := rt.repositories.artifacts;
    assert artifacts == s.records.value.artifacts && rt.content == ContentOf(artifacts, t);
    assert BodyFits(artifacts, t, a);
    assert artifacts[a].uri in Uris(artifacts) && Owner(artifacts, artifacts[a].uri) == a;
  }

  lemma CutOffIsCrash(d: Disk, rt: LocalRuntime, p: Id)
    requires Loads(d.primary) && WellFormed(rt)
    requires var stored := Load(d.primary).value;
             && rt.revision == stored.revision && rt.content == stored.content
             && rt.repositories.artifacts == stored.repositories.artifacts
             && rt.repositories.projects == stored.repositories.projects
    requires p in rt.repositories.projects
    ensures SaveOutcome(d, rt, CutOff(d, rt, p), Crashed)
    ensures HasEvents(rt, CutOff(d, rt, p).primary)
    ensures BodiesFit(rt.repositories.artifacts, CutOff(d, rt, p).primary)
  {
    hide Load, Loads, WellFormed, ForProject, Written, BackingUp;
    RevisionAccepted(d, rt);
    OneOf(rt);
    OnlyOne(rt.repositories.projects, p);
    StoredBodies(d.primary);
    var after := CutOff(d, rt, p).primary;
    forall a | a in rt.repositories.artifacts
      ensures HasBody(rt, after, a) && BodyFits(rt.repositories.artifacts, after, a)
    {
      LoadedContent(d.primary, a);
      assert BodyFits(rt.repositories.artifacts, d.primary, a);
    }
    assert Rewriting(d.primary, rt, after);
  }

  /** Such a crash leaves a directory that loads with the old records and one event
      more, from whatever project is stored. */
  lemma CrashLeavesNewEvents(d: Disk, ev: Evaluation, event: Id)
    requires Loads(d.primary)
    requires var s := Load(d.primary).value.repositories;
             ev.project in s.projects && ev.id !in s.evaluations && event !in s.events
    ensures var stored := Load(d.primary).value;
            var rt := Evaluated(stored, ev, event);
            var after := CutOff(d, rt, ev.project);
            && WellFormed(rt) && SaveOutcome(d, rt, after, Crashed)
            && Loads(after.primary)
            && CoreOf(Load(after.primary).value) == CoreOf(stored)
            && ForProject(Load(after.primary).value.repositories, ev.project)
               == ForProject(stored.repositories, ev.project) + [Noted(stored.repositories, ev, event)]
  {
    hide Load, Loads, WellFormed, ForProject, RecordEvidence, SaveOutcome, ReplaysTo, BodiesFit;
    LoadedIsWellFormed(d.primary);
    StoredBodies(d.primary);
    var stored := Load(d.primary).value;
    EvaluatedIsWellFormed(stored, ev, event);
    var rt := Evaluated(stored, ev, event);
    CutOffIsCrash(d, rt, ev.project);
    LoadedInOrder(stored);
    assert ReplaysTo(ForProject(stored.repositories, ev.project), stored.repositories.projects[ev.project]) by {
      LoadedReplays(stored, ev.project);
    }
    var e := Noted(stored.repositories, ev, event);
    QuietEventReplaysSame(ForProject(stored.repositories, ev.project), e, stored.repositories.projects[ev.project]);
    NewEventsLoadIff(d.primary, rt, CutOff(d, rt, ev.project).primary, ev.project);
  }

  lemma LoadedReplays(rt: LocalRuntime, p: Id)
    requires WellFormed(rt) && p in rt.repositories.projects
    ensures ReplaysTo(ForProject(rt.repositories, p), rt.repositories.projects[p])
  {
    hide Replay, ForProject;
  }
}
