/**
 Annotations and their audit log (src/founderos_atlas/audit/annotations.py): what
 each batch writes and logs, and that replaying the log gives the annotations.
 */
module Annotations {
  import opened Basics

  datatype Kind = ChangeAck | ChangeAssignment | ChangeSuppression

  /** An annotation record; an empty text is a field that is not there. */
  datatype Note = Note(
    acknowledged: Option<bool>, suppressed: Option<bool>, owner: string, reason: string, stamp: string)

  datatype Key = Key(kind: Kind, subject: string)

  datatype Operation = Set | Update | Clear

  datatype Audited = Audited(key: Key, operation: Operation, before: Option<Note>, after: Option<Note>)

  /** The annotations file and the audit log. */
  datatype Book = Book(notes: map<Key, Note>, audit: seq<Audited>)

  function Before(notes: map<Key, Note>, k: Key): Option<Note> {
    if k in notes then Some(notes[k]) else None
  }

  predicate Truthy(n: Note) {
    n != Note(None, None, "", "", "")
  }

  function SetEvent(notes: map<Key, Note>, k: Key, note: Note): Audited {
    var before := Before(notes, k);
    Audited(k, if before.Some? && Truthy(before.value) then Update else Set, before, Some(note))
  }

  function SetOne(b: Book, k: Key, note: Note): Book {
    Book(b.notes[k := note], b.audit + [SetEvent(b.notes, k, note)])
  }

  /** A subject without a record is skipped and not logged. */
  function ClearOne(b: Book, k: Key): Book {
    if k !in b.notes then b
    else Book(b.notes - {k}, b.audit + [Audited(k, Clear, Some(b.notes[k]), None)])
  }

  function SetAll(b: Book, kind: Kind, subjects: seq<string>, note: Note): Book {
    if subjects == [] then b
    else SetOne(SetAll(b, kind, subjects[..|subjects| - 1], note), Key(kind, subjects[|subjects| - 1]), note)
  }

  function ClearAll(b: Book, kind: Kind, subjects: seq<string>): Book {
    if subjects == [] then b
    else ClearOne(ClearAll(b, kind, subjects[..|subjects| - 1]), Key(kind, subjects[|subjects| - 1]))
  }

  /** What a log says of the annotations. */
  function Fold(audit: seq<Audited>): map<Key, Note> {
    if audit == [] then map[]
    else
      var e := audit[|audit| - 1];
      var m := Fold(audit[..|audit| - 1]);
      if e.after.Some? then m[e.key := e.after.value] else m - {e.key}
  }

  /** Every event carries the record it found. */
  ghost predicate Witnessed(audit: seq<Audited>) {
    forall i :: 0 <= i < |audit| ==> audit[i].before == Before(Fold(audit[..i]), audit[i].key)
  }

  ghost predicate Agrees(b: Book) {
    Fold(b.audit) == b.notes && Witnessed(b.audit)
  }

  lemma FoldOne(audit: seq<Audited>, e: Audited)
    ensures Fold(audit + [e]) == if e.after.Some? then Fold(audit)[e.key := e.after.value] else Fold(audit) - {e.key}
    ensures Witnessed(audit) && e.before == Before(Fold(audit), e.key) ==> Witnessed(audit + [e])
  {
    var all := audit + [e];
    assert all[..|audit|] == audit;
    if Witnessed(audit) && e.before == Before(Fold(audit), e.key) {
      forall i | 0 <= i < |all| ensures all[i].before == Before(Fold(all[..i]), all[i].key) {
        if i < |audit| { assert all[..i] == audit[..i]; }
      }
    }
  }

  lemma SetOneAgrees(b: Book, k: Key, note: Note)
    requires Agrees(b)
    ensures Agrees(SetOne(b, k, note))
  {
    FoldOne(b.audit, SetEvent(b.notes, k, note));
  }

  lemma ClearOneAgrees(b: Book, k: Key)
    requires Agrees(b)
    ensures Agrees(ClearOne(b, k))
  {
    if k in b.notes { FoldOne(b.audit, Audited(k, Clear, Some(b.notes[k]), None)); }
  }

  lemma {:induction false} SetAllAgrees(b: Book, kind: Kind, subjects: seq<string>, note: Note)
    requires Agrees(b)
    ensures Agrees(SetAll(b, kind, subjects, note))
  {
    if subjects != [] {
      SetAllAgrees(b, kind, subjects[..|subjects| - 1], note);
      SetOneAgrees(SetAll(b, kind, subjects[..|subjects| - 1], note), Key(kind, subjects[|subjects| - 1]), note);
    }
  }

  lemma {:induction false} ClearAllAgrees(b: Book, kind: Kind, subjects: seq<string>)
    requires Agrees(b)
    ensures Agrees(ClearAll(b, kind, subjects))
  {
    if subjects != [] {
      ClearAllAgrees(b, kind, subjects[..|subjects| - 1]);
      ClearOneAgrees(ClearAll(b, kind, subjects[..|subjects| - 1]), Key(kind, subjects[|subjects| - 1]));
    }
  }

  function Subjects(audit: seq<Audited>): seq<string> {
    if audit == [] then [] else [audit[0].key.subject] + Subjects(audit[1..])
  }

  lemma {:induction false} SubjectsSnoc(audit: seq<Audited>, e: Audited)
    ensures Subjects(audit + [e]) == Subjects(audit) + [e.key.subject]
  {
    if audit == [] {
      assert audit + [e] == [e];
    } else {
      assert (audit + [e])[1..] == audit[1..] + [e];
      SubjectsSnoc(audit[1..], e);
    }
  }

  lemma {:induction false} SetAllNotes(b: Book, kind: Kind, subjects: seq<string>, note: Note, k: Key)
    ensures Before(SetAll(b, kind, subjects, note).notes, k) ==
            if k.kind == kind && k.subject in subjects then Some(note) else Before(b.notes, k)
  {
    if subjects != [] {
      var n := |subjects| - 1;
      SetAllNotes(b, kind, subjects[..n], note, k);
      assert subjects == subjects[..n] + [subjects[n]];
    }
  }

  /** The log is longer by one event for each subject, in order. */
  ghost predicate Logs(before: seq<Audited>, after: seq<Audited>, kind: Kind, subjects: seq<string>) {
    && before <= after
    && Subjects(after[|before|..]) == subjects
    && forall e :: e in after[|before|..] ==> e.key.kind == kind
  }

  /** A write over a record with something in it is an update, any other a set. */
  predicate NamesWrite(e: Audited) {
    e.operation ==
      match e.before
      case Some(n) => (if n == Note(None, None, "", "", "") then Set else Update)
      case None => Set
  }

  lemma LogsMore(before: seq<Audited>, mid: seq<Audited>, kind: Kind, subjects: seq<string>, e: Audited)
    requires Logs(before, mid, kind, subjects) && e.key.kind == kind
    ensures Logs(before, mid + [e], kind, subjects + [e.key.subject])
    ensures (mid + [e])[|before|..] == mid[|before|..] + [e]
  {
    assert (mid + [e])[|before|..] == mid[|before|..] + [e];
    SubjectsSnoc(mid[|before|..], e);
  }

  lemma {:induction false} SetAllLogs(b: Book, kind: Kind, subjects: seq<string>, note: Note)
    ensures var after := SetAll(b, kind, subjects, note);
            && Logs(b.audit, after.audit, kind, subjects)
            && forall e :: e in after.audit[|b.audit|..] ==> e.after == Some(note) && NamesWrite(e)
  {
    hide Logs;
    if subjects == [] {
      assert b.audit[|b.audit|..] == [];
      assert Logs(b.audit, b.audit, kind, []) by { LogsNothing(b.audit, kind); }
    } else {
      var n := |subjects| - 1;
      SetAllLogs(b, kind, subjects[..n], note);
      var mid := SetAll(b, kind, subjects[..n], note);
      assert subjects == subjects[..n] + [subjects[n]];
      LogsMore(b.audit, mid.audit, kind, subjects[..n], SetEvent(mid.notes, Key(kind, subjects[n]), note));
    }
  }

  lemma LogsNothing(audit: seq<Audited>, kind: Kind)
    ensures Logs(audit, audit, kind, [])
  {
  }

  /** A batch of sets writes exactly its subjects, all with the same record, and logs
      one event for each, in order. */
  lemma SetAllWrites(b: Book, kind: Kind, subjects: seq<string>, note: Note)
    ensures var after := SetAll(b, kind, subjects, note);
            && (forall k :: Before(after.notes, k) ==
                  if k.kind == kind && k.subject in subjects then Some(note) else Before(b.notes, k))
            && Logs(b.audit, after.audit, kind, subjects)
            && forall e :: e in after.audit[|b.audit|..] ==> e.after == Some(note) && NamesWrite(e)
  {
    hide Logs, SetAll, Before;
    SetAllLogs(b, kind, subjects, note);
    forall k
      ensures Before(SetAll(b, kind, subjects, note).notes, k) ==
              if k.kind == kind && k.subject in subjects then Some(note) else Before(b.notes, k)
    {
      SetAllNotes(b, kind, subjects, note, k);
    }
  }

  lemma {:induction false} ClearAllNotes(b: Book, kind: Kind, subjects: seq<string>, k: Key)
    ensures Before(ClearAll(b, kind, subjects).notes, k) ==
            if k.kind == kind && k.subject in subjects then None else Before(b.notes, k)
  {
    if subjects != [] {
      var n := |subjects| - 1;
      ClearAllNotes(b, kind, subjects[..n], k);
      assert subjects == subjects[..n] + [subjects[n]];
    }
  }

  lemma {:induction false} ClearAllLogs(b: Book, kind: Kind, subjects: seq<string>)
    requires Distinct(subjects) && forall s :: s in subjects ==> Key(kind, s) in b.notes
    ensures var after := ClearAll(b, kind, subjects);
            && Logs(b.audit, after.audit, kind, subjects)
            && forall e :: e in after.audit[|b.audit|..] ==>
                 e.operation == Clear && e.after == None && e.before == Before(b.notes, e.key)
  {
    hide Logs;
    if subjects == [] {
      assert b.audit[|b.audit|..] == [];
      LogsNothing(b.audit, kind);
    } else {
      var n := |subjects| - 1;
      ClearAllLogs(b, kind, subjects[..n]);
      var mid := ClearAll(b, kind, subjects[..n]);
      var k := Key(kind, subjects[n]);
      assert subjects == subjects[..n] + [subjects[n]];
      assert subjects[n] !in subjects[..n] && subjects[n] in subjects;
      ClearAllNotes(b, kind, subjects[..n], k);
      LogsMore(b.audit, mid.audit, kind, subjects[..n], Audited(k, Clear, Some(mid.notes[k]), None));
    }
  }

  /** A batch of clears removes exactly the records its subjects have, and logs one
      event for each of those, with what was there. */
  lemma ClearAllWrites(b: Book, kind: Kind, subjects: seq<string>)
    requires Distinct(subjects) && forall s :: s in subjects ==> Key(kind, s) in b.notes
    ensures var after := ClearAll(b, kind, subjects);
            && (forall k :: Before(after.notes, k) ==
                  if k.kind == kind && k.subject in subjects then None else Before(b.notes, k))
            && Logs(b.audit, after.audit, kind, subjects)
            && forall e :: e in after.audit[|b.audit|..] ==>
                 e.operation == Clear && e.after == None && e.before == Before(b.notes, e.key)
  {
    hide Logs, ClearAll, Before;
    ClearAllLogs(b, kind, subjects);
    forall k
      ensures Before(ClearAll(b, kind, subjects).notes, k) ==
              if k.kind == kind && k.subject in subjects then None else Before(b.notes, k)
    {
      ClearAllNotes(b, kind, subjects, k);
    }
  }

  datatype Batch =
    | SetBatch(kind: Kind, subjects: seq<string>, note: Note)
    | ClearBatch(kind: Kind, subjects: seq<string>)

  function Applied(b: Book, batch: Batch): Book {
    match batch
    case SetBatch(kind, subjects, note) => SetAll(b, kind, subjects, note)
    case ClearBatch(kind, subjects) => ClearAll(b, kind, subjects)
  }

  /** Batches one after the other, each applied as a whole or not at all. */
  ghost predicate Batches(books: seq<Book>, batches: seq<Batch>) {
    && |books| == |batches| + 1
    && books[0] == Book(map[], [])
    && forall i :: 0 <= i < |batches| ==> books[i + 1] == books[i] || books[i + 1] == Applied(books[i], batches[i])
  }

  /** Whichever of the batches fail, replaying the log gives the annotations. */
  lemma {:induction false} LogAlwaysAgrees(books: seq<Book>, batches: seq<Batch>, n: nat)
    requires Batches(books, batches) && n <= |batches|
    ensures Agrees(books[n])
  {
    if n > 0 {
      LogAlwaysAgrees(books, batches, n - 1);
      match batches[n - 1]
      case SetBatch(kind, subjects, note) => SetAllAgrees(books[n - 1], kind, subjects, note);
      case ClearBatch(kind, subjects) => ClearAllAgrees(books[n - 1], kind, subjects);
    }
  }

  /** The single-row set writes first and logs afterwards, and nothing is put back
      when the log cannot be written: then the log still agrees only when the record
      was already there. */
  lemma UnloggedSetAgreesIff(b: Book, k: Key, note: Note)
    requires Agrees(b)
    ensures Agrees(b.(notes := b.notes[k := note])) <==> Before(b.notes, k) == Some(note)
  {
    if Before(b.notes, k) == Some(note) { assert b.notes[k := note] == b.notes; }
    else { assert Before(b.notes[k := note], k) == Some(note); }
  }

  /** An unlogged single-row clear always disagrees. */
  lemma UnloggedClearDisagrees(b: Book, k: Key)
    requires Agrees(b) && k in b.notes
    ensures !Agrees(b.(notes := b.notes - {k}))
  {
    assert k !in b.notes - {k};
  }

  // ------------------------------------------------------------ the store

  class AnnotationStore {
    var notes: map<Key, Note>
    var audit: seq<Audited>

    function Value(): Book
      reads this
    {
      Book(notes, audit)
    }

    constructor ()
      ensures Value() == Book(map[], []) && Agrees(Value())
    {
      notes, audit := map[], [];
    }

    /** Appends a block of events; this may fail. */
    method AppendMany(events: seq<Audited>) returns (ok: bool)
      modifies this`audit
      ensures audit == if ok then old(audit) + events else old(audit)
    {
      if * { return false; }
      audit := audit + events;
      return true;
    }

    method SetMany(kind: Kind, subjects: seq<string>, note: Note) returns (ok: bool)
      modifies this
      ensures Value() == if ok then SetAll(old(Value()), kind, subjects, note) else old(Value())
    {
      if subjects == [] { return true; }
      var saved := notes;
      var events := [];
      for i := 0 to |subjects|
        invariant audit == old(audit)
        invariant Book(notes, audit + events) == SetAll(old(Value()), kind, subjects[..i], note)
      {
        assert subjects[..i + 1][..i] == subjects[..i];
        var k := Key(kind, subjects[i]);
        events := events + [SetEvent(notes, k, note)];
        notes := notes[k := note];
      }
      assert subjects[..|subjects|] == subjects;
      ok := AppendMany(events);
      if !ok { notes := saved; }
    }

    method ClearMany(kind: Kind, subjects: seq<string>) returns (ok: bool)
      modifies this
      ensures Value() == if ok then ClearAll(old(Value()), kind, subjects) else old(Value())
    {
      var saved := notes;
      var events := [];
      for i := 0 to |subjects|
        invariant audit == old(audit)
        invariant Book(notes, audit + events) == ClearAll(old(Value()), kind, subjects[..i])
        invariant events == [] ==> notes == saved
      {
        assert subjects[..i + 1][..i] == subjects[..i];
        var k := Key(kind, subjects[i]);
        if k in notes {
          events := events + [Audited(k, Clear, Some(notes[k]), None)];
          notes := notes - {k};
        }
      }
      assert subjects[..|subjects|] == subjects;
      if events == [] { return true; }
      ok := AppendMany(events);
      if !ok { notes := saved; }
    }

    /** A single-row set, written before it is logged. */
    method SetSingle(k: Key, note: Note) returns (ok: bool)
      modifies this
      ensures Value() == if ok then SetOne(old(Value()), k, note)
                         else old(Value()).(notes := old(notes)[k := note])
    {
      var e := SetEvent(notes, k, note);
      notes := notes[k := note];
      ok := AppendMany([e]);
    }

    method ClearSingle(k: Key) returns (found: bool, ok: bool)
      modifies this
      ensures found == (k in old(notes))
      ensures Value() == if !found then old(Value())
                         else if ok then ClearOne(old(Value()), k)
                         else old(Value()).(notes := old(notes) - {k})
    {
      if k !in notes { return false, false; }
      var e := Audited(k, Clear, Some(notes[k]), None);
      notes := notes - {k};
      ok := AppendMany([e]);
      return true, ok;
    }
  }
}
