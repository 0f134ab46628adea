/**
 What carrying out a bulk plan does to the annotations and the audit log, and when
 classifying again finds nothing left to do (src/founderos_atlas/change/bulk.py,
 identity.py).
 */
module BulkConvergence {
  import opened Basics
  import opened ChangeIdentity
  import opened Annotations
  import opened BulkTriage

  /** The rows of a page are scoped subjects with their own legacy twins. */
  ghost predicate Scoped(rows: Rows) {
    forall s :: s in rows ==> Parse(s).Some? && (rows[s].None? || rows[s] == LegacyOf(s))
  }

  lemma LegacyIsNoRow(rows: Rows, s: string)
    requires Scoped(rows) && s in rows && rows[s].Some?
    ensures rows[s].value !in rows && rows[s].value != ""
  {
    LegacyIsNeverScoped(s);
  }

  // ------------------------------------------------------------ what is written

  ghost predicate Has(entries: seq<Entry>, s: string, mode: Mode) {
    exists i :: 0 <= i < |entries| && IsMode(entries[i], s, mode)
  }

  /** The record under a key once the plan is carried out. */
  ghost function Written(notes: map<Key, Note>, r: Request, entries: seq<Entry>, stamp: string, k: Key): Option<Note> {
    if k.kind != KindOf(r.action) then Before(notes, k)
    else if Has(entries, k.subject, ModeSet) then Some(NoteFor(r, stamp))
    else if Has(entries, k.subject, ModeShadow) then Some(ShadowFor(r.action, stamp))
    else if Has(entries, k.subject, ModeClear) then None
    else Before(notes, k)
  }

  lemma ClearsArePresent(r: Request, notes: map<Key, Note>, rows: Rows, entries: seq<Entry>)
    requires PlanOf(r, notes, rows, entries)
    ensures forall s :: Has(entries, s, ModeClear) ==> Key(KindOf(r.action), s) in notes
  {
    forall s | Has(entries, s, ModeClear) ensures Key(KindOf(r.action), s) in notes {
      var i :| 0 <= i < |entries| && IsMode(entries[i], s, ModeClear);
      assert entries[i] == EntryFor(r, notes, rows, s);
    }
  }

  lemma ModeSubjects(r: Request, notes: map<Key, Note>, rows: Rows, entries: seq<Entry>, mode: Mode)
    requires PlanOf(r, notes, rows, entries)
    ensures Distinct(WithMode(entries, mode))
    ensures forall s :: s in WithMode(entries, mode) <==> Has(entries, s, mode)
  {
    WithModeMembers(entries, mode);
  }

  /** The batches write what the plan says, and log one event for each update: the
      cleared subjects, then the shadowed, then the set ones. */
  lemma CarriedOutWrites(b: Book, r: Request, rows: Rows, entries: seq<Entry>, stamp: string)
    requires PlanOf(r, b.notes, rows, entries)
    ensures var after := CarriedOut(b, r, entries, stamp, 3);
            && (forall k :: Before(after.notes, k) == Written(b.notes, r, entries, stamp, k))
            && b.audit <= after.audit
            && Subjects(after.audit[|b.audit|..]) ==
                 WithMode(entries, ModeClear) + WithMode(entries, ModeShadow) + WithMode(entries, ModeSet)
  {
    hide WithMode, EntryFor, Has, SetAll, ClearAll, Subjects, PlanOf;
    var kind := KindOf(r.action);
    ModeSubjects(r, b.notes, rows, entries, ModeClear);
    ModeSubjects(r, b.notes, rows, entries, ModeShadow);
    ModeSubjects(r, b.notes, rows, entries, ModeSet);
    ClearsArePresent(r, b.notes, rows, entries);
    ClearAllWrites(b, kind, WithMode(entries, ModeClear));
    var b1 := AfterClear(b, r, entries);
    SetAllWrites(b1, kind, WithMode(entries, ModeShadow), ShadowFor(r.action, stamp));
    var b2 := AfterShadow(b, r, entries, stamp);
    SetAllWrites(b2, kind, WithMode(entries, ModeSet), NoteFor(r, stamp));
    LoggedTogether(b.audit, b1.audit, b2.audit);
    LoggedTogether(b.audit, b2.audit, AfterSet(b, r, entries, stamp).audit);
  }

  lemma LoggedTogether(a: seq<Audited>, b: seq<Audited>, c: seq<Audited>)
    requires a <= b <= c
    ensures a <= c && Subjects(c[|a|..]) == Subjects(b[|a|..]) + Subjects(c[|b|..])
  {
    assert c[|a|..] == b[|a|..] + c[|b|..];
    SubjectsConcat(b[|a|..], c[|b|..]);
  }

  lemma {:induction false} SubjectsConcat(a: seq<Audited>, b: seq<Audited>)
    ensures Subjects(a + b) == Subjects(a) + Subjects(b)
  {
    if a == [] {
      assert a + b == b;
    } else {
      assert (a + b)[1..] == a[1..] + b;
      SubjectsConcat(a[1..], b);
    }
  }

  /** An action either clears and shadows or sets, so it logs at most two blocks. */
  lemma AtMostTwoBlocks(r: Request, notes: map<Key, Note>, rows: Rows, entries: seq<Entry>)
    requires PlanOf(r, notes, rows, entries)
    ensures || WithMode(entries, ModeSet) == []
            || (WithMode(entries, ModeClear) == [] && WithMode(entries, ModeShadow) == [])
  {
    ModeSubjects(r, notes, rows, entries, ModeSet);
    var sets := WithMode(entries, ModeSet);
    if sets != [] {
      assert sets[0] in sets;
      SetsAreOfSetActions(r, notes, rows, entries, sets[0]);
      forall mode | mode != ModeSet ensures WithMode(entries, mode) == [] {
        ModeSubjects(r, notes, rows, entries, mode);
        assert WithMode(entries, mode) == [] || Has(entries, WithMode(entries, mode)[0], mode);
        OtherModes(r, notes, rows, entries, mode);
      }
    }
  }

  lemma SetsAreOfSetActions(r: Request, notes: map<Key, Note>, rows: Rows, entries: seq<Entry>, s: string)
    requires PlanOf(r, notes, rows, entries) && Has(entries, s, ModeSet)
    ensures r.action in {Acknowledge, Assign, Suppress}
  {
    var i :| 0 <= i < |entries| && IsMode(entries[i], s, ModeSet);
    assert entries[i] == EntryFor(r, notes, rows, s);
  }

  lemma OtherModes(r: Request, notes: map<Key, Note>, rows: Rows, entries: seq<Entry>, mode: Mode)
    requires PlanOf(r, notes, rows, entries) && r.action in {Acknowledge, Assign, Suppress} && mode != ModeSet
    ensures forall s :: !Has(entries, s, mode)
  {
    forall s, j | 0 <= j < |entries| ensures !IsMode(entries[j], s, mode) {
      assert entries[j] == EntryFor(r, notes, rows, entries[j].subject);
    }
  }

  /** However many of its blocks succeed, the log agrees with the annotations. */
  lemma CarriedOutAgrees(b: Book, r: Request, entries: seq<Entry>, stamp: string, blocks: nat)
    requires Agrees(b)
    ensures Agrees(CarriedOut(b, r, entries, stamp, blocks))
  {
    ClearAllAgrees(b, KindOf(r.action), WithMode(entries, ModeClear));
    SetAllAgrees(AfterClear(b, r, entries), KindOf(r.action), WithMode(entries, ModeShadow),
                 ShadowFor(r.action, stamp));
    SetAllAgrees(AfterShadow(b, r, entries, stamp), KindOf(r.action), WithMode(entries, ModeSet), NoteFor(r, stamp));
  }

  /** Each block writes under the subjects of its mode and nowhere else. */
  lemma BlocksWrite(b: Book, r: Request, rows: Rows, entries: seq<Entry>, stamp: string, blocks: nat, k: Key)
    requires PlanOf(r, b.notes, rows, entries)
    requires Before(CarriedOut(b, r, entries, stamp, blocks).notes, k) != Before(b.notes, k)
    ensures k.kind == KindOf(r.action) && exists mode :: k.subject in WithMode(entries, mode)
  {
    hide WithMode, EntryFor, Has, SetAll, ClearAll, Subjects, PlanOf;
    var kind := KindOf(r.action);
    ModeSubjects(r, b.notes, rows, entries, ModeClear);
    ClearsArePresent(r, b.notes, rows, entries);
    ClearAllWrites(b, kind, WithMode(entries, ModeClear));
    SetAllWrites(AfterClear(b, r, entries), kind, WithMode(entries, ModeShadow), ShadowFor(r.action, stamp));
    SetAllWrites(AfterShadow(b, r, entries, stamp), kind, WithMode(entries, ModeSet), NoteFor(r, stamp));
  }

  /** However many blocks succeed, nothing is written but scoped records of the action's
      kind for subjects of the page that the plan updates: legacy records, subjects that
      are not present, other scopes and other kinds stay as they are. */
  lemma OnlyUpdatesAreWritten(b: Book, r: Request, rows: Rows, entries: seq<Entry>, stamp: string, blocks: nat, k: Key)
    requires PlanOf(r, b.notes, rows, entries) && Scoped(rows)
    requires Before(CarriedOut(b, r, entries, stamp, blocks).notes, k) != Before(b.notes, k)
    ensures k.kind == KindOf(r.action) && k.subject in rows && Parse(k.subject).Some?
    ensures exists e :: e in entries && e.subject == k.subject && e.decision.Updated?
  {
    BlocksWrite(b, r, rows, entries, stamp, blocks, k);
    var mode :| k.subject in WithMode(entries, mode);
    ModeSubjects(r, b.notes, rows, entries, mode);
    var i :| 0 <= i < |entries| && IsMode(entries[i], k.subject, mode);
    assert entries[i] == EntryFor(r, b.notes, rows, k.subject) && entries[i] in entries;
  }

  // ------------------------------------------------------------ doing it again

  /** A legacy record that asserts what the action is to take back. */
  predicate LegacyAsserts(notes: map<Key, Note>, kind: Kind, legacy: Option<string>) {
    legacy.Some? &&
    var n := Before(notes, Key(kind, legacy.value));
    n.Some? && !Negative(kind, n.value) && Truthy(n.value)
  }

  /** The updates that do not last: an untrimmed input is stored trimmed, and clearing
      a scoped record uncovers a legacy twin that asserts the same. */
  predicate StillOpen(r: Request, notes: map<Key, Note>, rows: Rows, e: Entry) {
    match e.decision
    case Updated(ModeSet) =>
      (r.action.Assign? && !Trimmed(Text(r.owner))) || (r.action.Suppress? && !Trimmed(Text(r.reason)))
    case Updated(ModeClear) => e.subject in rows && LegacyAsserts(notes, KindOf(r.action), rows[e.subject])
    case _ => false
  }

  lemma EntryWritten(notes: map<Key, Note>, r: Request, entries: seq<Entry>, stamp: string, i: nat)
    requires i < |entries| && forall i, j :: 0 <= i < j < |entries| ==> entries[i].subject != entries[j].subject
    ensures Written(notes, r, entries, stamp, Key(KindOf(r.action), entries[i].subject)) ==
            match entries[i].decision
            case Updated(ModeSet) => Some(NoteFor(r, stamp))
            case Updated(ModeShadow) => Some(ShadowFor(r.action, stamp))
            case Updated(ModeClear) => None
            case _ => Before(notes, Key(KindOf(r.action), entries[i].subject))
  {
    var s := entries[i].subject;
    forall mode ensures Has(entries, s, mode) <==> entries[i].decision == Updated(mode) {
      assert IsMode(entries[i], s, mode) <==> entries[i].decision == Updated(mode);
    }
  }

  lemma LegacyKept(notes: map<Key, Note>, r: Request, rows: Rows, entries: seq<Entry>, stamp: string, s: string,
                   kind: Kind)
    requires PlanOf(r, notes, rows, entries) && Scoped(rows) && s in rows && rows[s].Some?
    ensures Written(notes, r, entries, stamp, Key(kind, rows[s].value)) == Before(notes, Key(kind, rows[s].value))
    ensures rows[s].value != ""
  {
    LegacyIsNoRow(rows, s);
    forall mode ensures !Has(entries, rows[s].value, mode) {
      forall i | 0 <= i < |entries| ensures !IsMode(entries[i], rows[s].value, mode) {
        assert entries[i] == EntryFor(r, notes, rows, entries[i].subject);
      }
    }
  }

  lemma SetAgain(r: Request, notes: map<Key, Note>, after: map<Key, Note>, s: string, legacy: Option<string>,
                 stamp: string)
    requires r.action.Acknowledge? || r.action.Assign? || r.action.Suppress?
    requires legacy.Some? ==>
               var twin := Key(KindOf(r.action), legacy.value); Before(after, twin) == Before(notes, twin)
    requires Before(after, Key(KindOf(r.action), s)) ==
             if Decide(r, notes, s, legacy).decision == Updated(ModeSet) then Some(NoteFor(r, stamp))
             else Before(notes, Key(KindOf(r.action), s))
    ensures Decide(r, after, s, legacy).decision != Updated(ModeClear)
    ensures Decide(r, after, s, legacy).decision.Updated? <==>
            && Decide(r, notes, s, legacy).decision == Updated(ModeSet)
            && ((r.action.Assign? && !Trimmed(Text(r.owner))) || (r.action.Suppress? && !Trimmed(Text(r.reason))))
  {
    hide Strip, Trimmed;
    StripKeepsTrimmed(Text(r.owner));
    StripKeepsTrimmed(Text(r.reason));
  }

  /** One subject decided again on what has been written for it. */
  lemma DecidedAgain(r: Request, notes: map<Key, Note>, after: map<Key, Note>, rows: Rows, s: string, stamp: string)
    requires s in rows && (rows[s].Some? ==> rows[s].value != "")
    requires rows[s].Some? ==>
               var twin := Key(KindOf(r.action), rows[s].value); Before(after, twin) == Before(notes, twin)
    requires Before(after, Key(KindOf(r.action), s)) ==
             match Decide(r, notes, s, rows[s]).decision
             case Updated(ModeSet) => Some(NoteFor(r, stamp))
             case Updated(ModeShadow) => Some(ShadowFor(r.action, stamp))
             case Updated(ModeClear) => None
             case _ => Before(notes, Key(KindOf(r.action), s))
    ensures Decide(r, after, s, rows[s]).decision.Updated? <==> StillOpen(r, notes, rows, Decide(r, notes, s, rows[s]))
    ensures Decide(r, after, s, rows[s]).decision != Updated(ModeClear)
  {
    hide Strip, Trimmed;
    if r.action.Acknowledge? || r.action.Assign? || r.action.Suppress? {
      hide Decide, NoteFor;
      SetsOnly(r, notes, s, rows[s]);
      SetAgain(r, notes, after, s, rows[s], stamp);
    }
  }

  lemma SetsOnly(r: Request, notes: map<Key, Note>, s: string, legacy: Option<string>)
    requires r.action.Acknowledge? || r.action.Assign? || r.action.Suppress?
    ensures Decide(r, notes, s, legacy).decision.Updated? ==> Decide(r, notes, s, legacy).decision == Updated(ModeSet)
  {
    hide Asserted, Resolve, Effective;
  }

  ghost predicate NoUpdates(entries: seq<Entry>) {
    forall e :: e in entries ==> !e.decision.Updated?
  }

  /** Classifying again after a plan has been carried out updates exactly what is
      still open. */
  lemma AgainUpdatesOpen(b: Book, r: Request, rows: Rows, subjects: seq<string>, stamp: string)
    requires Scoped(rows)
    ensures var entries := Plan(r, b.notes, rows, subjects);
            var again := Plan(r, CarriedOut(b, r, entries, stamp, 3).notes, rows, subjects);
            && |again| == |entries|
            && forall i :: 0 <= i < |entries| ==>
                 && again[i].subject == entries[i].subject
                 && (again[i].decision.Updated? <==> StillOpen(r, b.notes, rows, entries[i]))
                 && again[i].decision != Updated(ModeClear)
  {
    hide Decide, StillOpen, Dedupe, CarriedOut, Written, Scoped;
    var entries := Plan(r, b.notes, rows, subjects);
    var after := CarriedOut(b, r, entries, stamp, 3).notes;
    PlanIsPlan(r, b.notes, rows, subjects);
    EntriesAt(r, b.notes, rows, Dedupe(subjects));
    EntriesAt(r, after, rows, Dedupe(subjects));
    EntryNames(r, b.notes, rows);
    EntryNames(r, after, rows);
    forall i | 0 <= i < |entries|
      ensures EntryFor(r, after, rows, entries[i].subject).decision.Updated? <==>
              StillOpen(r, b.notes, rows, entries[i])
      ensures EntryFor(r, after, rows, entries[i].subject).decision != Updated(ModeClear)
    {
      EntryAgain(b, r, rows, entries, stamp, i);
    }
  }

  lemma EntryAgain(b: Book, r: Request, rows: Rows, entries: seq<Entry>, stamp: string, i: nat)
    requires Scoped(rows) && PlanOf(r, b.notes, rows, entries) && i < |entries|
    ensures var again := EntryFor(r, CarriedOut(b, r, entries, stamp, 3).notes, rows, entries[i].subject);
            && (again.decision.Updated? <==> StillOpen(r, b.notes, rows, entries[i]))
            && again.decision != Updated(ModeClear)
  {
    hide Decide, CarriedOut, Written, Scoped, LegacyAsserts;
    var s := entries[i].subject;
    var after := CarriedOut(b, r, entries, stamp, 3).notes;
    assert entries[i] == EntryFor(r, b.notes, rows, s);
    if s in rows {
      CarriedOutWrites(b, r, rows, entries, stamp);
      EntryWritten(b.notes, r, entries, stamp, i);
      if rows[s].Some? { LegacyKept(b.notes, r, rows, entries, stamp, s, KindOf(r.action)); }
      DecidedAgain(r, b.notes, after, rows, s, stamp);
    }
  }

  /** Doing the same again finds nothing to do exactly when nothing was left open:
      always for acknowledging; for assigning and suppressing unless an untrimmed
      input was to be written; for taking back unless a cleared record had a legacy
      twin that asserts. */
  lemma ConvergesIff(b: Book, r: Request, rows: Rows, subjects: seq<string>, stamp: string)
    requires Scoped(rows)
    ensures var entries := Plan(r, b.notes, rows, subjects);
            var again := Plan(r, CarriedOut(b, r, entries, stamp, 3).notes, rows, subjects);
            NoUpdates(again) <==> forall e :: e in entries ==> !StillOpen(r, b.notes, rows, e)
    ensures r.action.Acknowledge? ==>
              NoUpdates(Plan(r, CarriedOut(b, r, Plan(r, b.notes, rows, subjects), stamp, 3).notes, rows, subjects))
  {
    hide Plan, StillOpen, CarriedOut, Scoped;
    AgainUpdatesOpen(b, r, rows, subjects, stamp);
    var entries := Plan(r, b.notes, rows, subjects);
    var again := Plan(r, CarriedOut(b, r, entries, stamp, 3).notes, rows, subjects);
    assert forall i :: 0 <= i < |entries| ==> again[i] in again && entries[i] in entries;
    if r.action.Acknowledge? {
      PlanIsPlan(r, b.notes, rows, subjects);
      forall e | e in entries ensures !StillOpen(r, b.notes, rows, e) {
        AcknowledgeCloses(r, b.notes, rows, entries, e);
      }
    }
  }

  lemma AcknowledgeCloses(r: Request, notes: map<Key, Note>, rows: Rows, entries: seq<Entry>, e: Entry)
    requires r.action.Acknowledge? && PlanOf(r, notes, rows, entries) && e in entries
    ensures !StillOpen(r, notes, rows, e)
  {
  }

  /** Taking back a second time hides every uncovered twin, so a third time finds
      nothing to do. */
  lemma SecondRoundConverges(b: Book, r: Request, rows: Rows, subjects: seq<string>, stamp: string)
    requires Scoped(rows) && (r.action.Unacknowledge? || r.action.Unsuppress?)
    ensures var once := CarriedOut(b, r, Plan(r, b.notes, rows, subjects), stamp, 3);
            var twice := CarriedOut(once, r, Plan(r, once.notes, rows, subjects), stamp, 3);
            NoUpdates(Plan(r, twice.notes, rows, subjects))
  {
    hide Plan, CarriedOut, Scoped;
    AgainUpdatesOpen(b, r, rows, subjects, stamp);
    var once := CarriedOut(b, r, Plan(r, b.notes, rows, subjects), stamp, 3);
    var entries := Plan(r, once.notes, rows, subjects);
    ConvergesIff(once, r, rows, subjects, stamp);
    forall e | e in entries ensures !StillOpen(r, once.notes, rows, e) {
      var i :| 0 <= i < |entries| && entries[i] == e;
    }
  }

  /** An uncovered twin: acknowledged before scoping, taken back, acknowledged again
      and taken back again, a change is acknowledged still. */
  lemma TwinComesBack(scope: string, digest: string, stamp: string)
    requires Strip(scope) != "" && digest != "" && ':' !in digest
    ensures var s := SubjectFor(scope, digest).value;
            var rows := map[s := LegacyOf(s)];
            var old_ := Book(map[Key(ChangeAck, V1_PREFIX + digest) := Note(Some(true), None, "", "", stamp)], []);
            var take, give := Request(Unacknowledge, None, None), Request(Acknowledge, None, None);
            var b1 := Round(old_, take, rows, s, stamp);
            var b2 := Round(b1, give, rows, s, stamp);
            var b3 := Round(b2, take, rows, s, stamp);
            Asserted(b3.notes, ChangeAck, s, rows[s])
  {
    SubjectReadsBackIff(scope, digest);
    var s := SubjectFor(scope, digest).value;
    var rows: Rows := map[s := LegacyOf(s)];
    var legacy := V1_PREFIX + digest;
    assert rows[s] == Some(legacy);
    LegacyIsNeverScoped(s);
    var old_ := Book(map[Key(ChangeAck, legacy) := Note(Some(true), None, "", "", stamp)], []);
    var take, give := Request(Unacknowledge, None, None), Request(Acknowledge, None, None);
    hide Round, Scoped;
    var b1 := AckRound(old_, take, rows, s, stamp);
    var b2 := AckRound(b1, give, rows, s, stamp);
    var b3 := AckRound(b2, take, rows, s, stamp);
  }

  /** Taking back or giving an acknowledgement while an acknowledged twin stands by. */
  lemma AckRound(b: Book, r: Request, rows: Rows, s: string, stamp: string) returns (after: Book)
    requires Scoped(rows) && s in rows && rows[s] != Some("") && LegacyAsserts(b.notes, ChangeAck, rows[s])
    requires r.action == Acknowledge || r.action == Unacknowledge
    ensures after == Round(b, r, rows, s, stamp) && LegacyAsserts(after.notes, ChangeAck, rows[s])
    ensures var was, now := Before(b.notes, Key(ChangeAck, s)), Before(after.notes, Key(ChangeAck, s));
            && (was.None? && r.action == Unacknowledge ==> now.Some? && Negative(ChangeAck, now.value))
            && (was.Some? && Negative(ChangeAck, was.value) && r.action == Acknowledge ==>
                  now.Some? && !Negative(ChangeAck, now.value) && Truthy(now.value))
            && (was.Some? && !Negative(ChangeAck, was.value) && Truthy(was.value) && r.action == Unacknowledge ==>
                  now.None?)
  {
    hide Round, Scoped;
    RoundIs(b, r, rows, s, stamp);
    after := Round(b, r, rows, s, stamp);
  }

  /** One action on one subject. */
  function Round(b: Book, r: Request, rows: Rows, s: string, stamp: string): Book {
    CarriedOut(b, r, [EntryFor(r, b.notes, rows, s)], stamp, 3)
  }

  lemma RoundIs(b: Book, r: Request, rows: Rows, s: string, stamp: string)
    requires Scoped(rows) && s in rows
    ensures var after := Round(b, r, rows, s, stamp);
            && Before(after.notes, Key(KindOf(r.action), s)) ==
                 (match Decide(r, b.notes, s, rows[s]).decision
                  case Updated(ModeSet) => Some(NoteFor(r, stamp))
                  case Updated(ModeShadow) => Some(ShadowFor(r.action, stamp))
                  case Updated(ModeClear) => None
                  case _ => Before(b.notes, Key(KindOf(r.action), s)))
            && (rows[s].Some? ==> forall kind ::
                  Before(after.notes, Key(kind, rows[s].value)) == Before(b.notes, Key(kind, rows[s].value)))
  {
    hide Decide, CarriedOut, Written, Scoped;
    var entries := [EntryFor(r, b.notes, rows, s)];
    EntryNames(r, b.notes, rows);
    CarriedOutWrites(b, r, rows, entries, stamp);
    EntryWritten(b.notes, r, entries, stamp, 0);
    if rows[s].Some? {
      var twin := rows[s].value;
      forall kind ensures Written(b.notes, r, entries, stamp, Key(kind, twin)) == Before(b.notes, Key(kind, twin)) {
        LegacyKept(b.notes, r, rows, entries, stamp, s, kind);
      }
    }
  }
}
