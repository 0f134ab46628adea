/**
 Bulk triage of changes (src/founderos_atlas/change/bulk.py): which subjects an
 action concerns, what carrying it out writes, and when doing it again finds
 nothing left to do.
 */
module BulkTriage {
  import opened Basics
  import opened ChangeIdentity
  import opened Annotations

  datatype Action = Acknowledge | Unacknowledge | Assign | Suppress | Unsuppress

  datatype Mode = ModeSet | ModeClear | ModeShadow

  datatype Decision = Updated(mode: Mode) | Unchanged | NotPresent

  datatype Detail = NoDetail | SameOwner | OtherOwner | Unassigned | SameReason | DifferentReason | New

  datatype Entry = Entry(subject: string, decision: Decision, detail: Detail)

  /** The operator's input; an owner or reason may be missing. */
  datatype Request = Request(action: Action, owner: Option<string>, reason: Option<string>)

  /** The subjects on the operator's page, each with its legacy twin. */
  type Rows = map<string, Option<string>>

  function KindOf(a: Action): Kind {
    match a
    case Acknowledge => ChangeAck
    case Unacknowledge => ChangeAck
    case Assign => ChangeAssignment
    case Suppress => ChangeSuppression
    case Unsuppress => ChangeSuppression
  }

  function Text(o: Option<string>): string {
    if o.Some? then o.value else ""
  }

  /** What a set-type action writes, the inputs trimmed. */
  function NoteFor(r: Request, stamp: string): Note {
    match r.action
    case Acknowledge => Note(Some(true), None, "", "", stamp)
    case Assign => Note(None, None, Strip(Text(r.owner)), "", stamp)
    case Suppress => Note(None, None, "", Strip(Text(r.reason)), stamp)
    case _ => Note(None, None, "", "", stamp)
  }

  /** The scoped negative that hides a legacy record. */
  function ShadowFor(a: Action, stamp: string): Note {
    if a.Unacknowledge? then Note(Some(false), None, "", "", stamp) else Note(None, Some(false), "", "", stamp)
  }

  // ------------------------------------------------------------ reading

  function Resolve(notes: map<Key, Note>, kind: Kind, subject: string, legacy: Option<string>): Option<Note> {
    if Key(kind, subject) in notes then Some(notes[Key(kind, subject)])
    else if legacy.Some? && legacy.value != "" then Before(notes, Key(kind, legacy.value))
    else None
  }

  predicate Negative(kind: Kind, n: Note) {
    match kind
    case ChangeAck => n.acknowledged == Some(false)
    case ChangeSuppression => n.suppressed == Some(false)
    case ChangeAssignment => false
  }

  function Effective(notes: map<Key, Note>, kind: Kind, subject: string, legacy: Option<string>): Option<Note> {
    var n := Resolve(notes, kind, subject, legacy);
    if n.Some? && !Negative(kind, n.value) then n else None
  }

  predicate Asserted(notes: map<Key, Note>, kind: Kind, subject: string, legacy: Option<string>) {
    var n := Effective(notes, kind, subject, legacy);
    n.Some? && Truthy(n.value)
  }

  predicate ScopedPositive(notes: map<Key, Note>, kind: Kind, subject: string) {
    Key(kind, subject) in notes && !Negative(kind, notes[Key(kind, subject)])
  }

  // ------------------------------------------------------------ classifying

  function Decide(r: Request, notes: map<Key, Note>, subject: string, legacy: Option<string>): Entry {
    var kind := KindOf(r.action);
    match r.action
    case Acknowledge =>
      if Asserted(notes, kind, subject, legacy) then Entry(subject, Unchanged, NoDetail)
      else Entry(subject, Updated(ModeSet), NoDetail)
    case Assign =>
      var found := Resolve(notes, kind, subject, legacy);
      var current := if found.Some? then found.value.owner else "";
      if current == Text(r.owner) then Entry(subject, Unchanged, SameOwner)
      else Entry(subject, Updated(ModeSet), if current != "" then OtherOwner else Unassigned)
    case Suppress =>
      var found := Effective(notes, kind, subject, legacy);
      if found.Some? && found.value.reason == Text(r.reason) then Entry(subject, Unchanged, SameReason)
      else Entry(subject, Updated(ModeSet), if found.Some? then DifferentReason else New)
    case _ =>
      if !Asserted(notes, kind, subject, legacy) then Entry(subject, Unchanged, NoDetail)
      else Entry(subject, Updated(if ScopedPositive(notes, kind, subject) then ModeClear else ModeShadow), NoDetail)
  }

  function EntryFor(r: Request, notes: map<Key, Note>, rows: Rows, subject: string): Entry {
    if subject !in rows then Entry(subject, NotPresent, NoDetail) else Decide(r, notes, subject, rows[subject])
  }

  /** First occurrences, trimmed, without the empty ones. */
  function Dedupe(subjects: seq<string>): seq<string> {
    if subjects == [] then []
    else
      var before := Dedupe(subjects[..|subjects| - 1]);
      var s := Strip(subjects[|subjects| - 1]);
      if s == "" || s in before then before else before + [s]
  }

  function EntriesFor(r: Request, notes: map<Key, Note>, rows: Rows, subjects: seq<string>): seq<Entry> {
    if subjects == [] then []
    else EntriesFor(r, notes, rows, subjects[..|subjects| - 1]) + [EntryFor(r, notes, rows, subjects[|subjects| - 1])]
  }

  function Plan(r: Request, notes: map<Key, Note>, rows: Rows, subjects: seq<string>): seq<Entry> {
    EntriesFor(r, notes, rows, Dedupe(subjects))
  }

  method Classify(r: Request, notes: map<Key, Note>, rows: Rows, subjects: seq<string>) returns (entries: seq<Entry>)
    ensures entries == Plan(r, notes, rows, subjects)
  {
    entries := [];
    var todo := Dedupe(subjects);
    for i := 0 to |todo|
      invariant entries == EntriesFor(r, notes, rows, todo[..i])
    {
      assert todo[..i + 1][..i] == todo[..i];
      if todo[i] !in rows {
        entries := entries + [Entry(todo[i], NotPresent, NoDetail)];
      } else {
        entries := entries + [Decide(r, notes, todo[i], rows[todo[i]])];
      }
    }
    assert todo[..|todo|] == todo;
  }

  // ------------------------------------------------------------ carrying out

  function WithMode(entries: seq<Entry>, mode: Mode): seq<string> {
    if entries == [] then []
    else
      WithMode(entries[..|entries| - 1], mode) +
      (if entries[|entries| - 1].decision == Updated(mode) then [entries[|entries| - 1].subject] else [])
  }

  function AfterClear(b: Book, r: Request, entries: seq<Entry>): Book {
    ClearAll(b, KindOf(r.action), WithMode(entries, ModeClear))
  }

  function AfterShadow(b: Book, r: Request, entries: seq<Entry>, stamp: string): Book {
    SetAll(AfterClear(b, r, entries), KindOf(r.action), WithMode(entries, ModeShadow), ShadowFor(r.action, stamp))
  }

  function AfterSet(b: Book, r: Request, entries: seq<Entry>, stamp: string): Book {
    SetAll(AfterShadow(b, r, entries, stamp), KindOf(r.action), WithMode(entries, ModeSet), NoteFor(r, stamp))
  }

  /** The clear block, then the shadow block, then the set block. */
  function CarriedOut(b: Book, r: Request, entries: seq<Entry>, stamp: string, blocks: nat): Book {
    if blocks == 0 then b
    else if blocks == 1 then AfterClear(b, r, entries)
    else if blocks == 2 then AfterShadow(b, r, entries, stamp)
    else AfterSet(b, r, entries, stamp)
  }

  /** Carries a plan out block by block; when a block cannot be logged it is undone
      and the rest is not tried. */
  method Execute(store: AnnotationStore, r: Request, entries: seq<Entry>, stamp: string)
    returns (ok: bool, ghost blocks: nat)
    modifies store
    ensures blocks <= 3 && ok == (blocks == 3)
    ensures store.Value() == CarriedOut(old(store.Value()), r, entries, stamp, blocks)
  {
    var kind := KindOf(r.action);
    var clear, shadow, set_ := WithMode(entries, ModeClear), WithMode(entries, ModeShadow), WithMode(entries, ModeSet);
    ok, blocks := true, 0;
    if clear != [] { ok := store.ClearMany(kind, clear); }
    if !ok { return; }
    blocks := 1;
    if shadow != [] { ok := store.SetMany(kind, shadow, ShadowFor(r.action, stamp)); }
    if !ok { return; }
    blocks := 2;
    if set_ != [] { ok := store.SetMany(kind, set_, NoteFor(r, stamp)); }
    if !ok { return; }
    blocks := 3;
  }

  // ------------------------------------------------------------ plans

  lemma {:induction false} DedupeIsDistinct(subjects: seq<string>)
    ensures Distinct(Dedupe(subjects))
    ensures forall s :: s in Dedupe(subjects) <==> s != "" && exists i :: 0 <= i < |subjects| && Strip(subjects[i]) == s
  {
    if subjects != [] {
      var n := |subjects| - 1;
      DedupeIsDistinct(subjects[..n]);
      forall s
        ensures s in Dedupe(subjects) <==> s != "" && exists i :: 0 <= i < |subjects| && Strip(subjects[i]) == s
      {
        if i :| 0 <= i < |subjects| && Strip(subjects[i]) == s && i < n {
          assert Strip(subjects[..n][i]) == s;
        }
        assert Strip(subjects[n]) == Strip(subjects[n]);
      }
    }
  }

  lemma {:induction false} EntriesAt(r: Request, notes: map<Key, Note>, rows: Rows, subjects: seq<string>)
    ensures var e := EntriesFor(r, notes, rows, subjects);
            |e| == |subjects| && forall i :: 0 <= i < |e| ==> e[i] == EntryFor(r, notes, rows, subjects[i])
  {
    if subjects != [] { EntriesAt(r, notes, rows, subjects[..|subjects| - 1]); }
  }

  /** A plan has one entry for each subject asked for. */
  ghost predicate PlanOf(r: Request, notes: map<Key, Note>, rows: Rows, entries: seq<Entry>) {
    && (forall i :: 0 <= i < |entries| ==> entries[i] == EntryFor(r, notes, rows, entries[i].subject))
    && forall i, j :: 0 <= i < j < |entries| ==> entries[i].subject != entries[j].subject
  }

  lemma PlanIsPlan(r: Request, notes: map<Key, Note>, rows: Rows, subjects: seq<string>)
    ensures PlanOf(r, notes, rows, Plan(r, notes, rows, subjects))
  {
    hide Decide, Dedupe, EntryFor;
    DedupeIsDistinct(subjects);
    EntriesAt(r, notes, rows, Dedupe(subjects));
    EntryNames(r, notes, rows);
  }

  lemma EntryNames(r: Request, notes: map<Key, Note>, rows: Rows)
    ensures forall s :: EntryFor(r, notes, rows, s).subject == s
  {
  }

  lemma {:induction false} WithModeMembers(entries: seq<Entry>, mode: Mode)
    requires forall i, j :: 0 <= i < j < |entries| ==> entries[i].subject != entries[j].subject
    ensures Distinct(WithMode(entries, mode))
    ensures forall s :: s in WithMode(entries, mode) <==> exists i :: 0 <= i < |entries| && IsMode(entries[i], s, mode)
  {
    if entries != [] {
      var n := |entries| - 1;
      WithModeMembers(entries[..n], mode);
      forall s ensures s in WithMode(entries, mode) <==> exists i :: 0 <= i < |entries| && IsMode(entries[i], s, mode) {
        if i :| 0 <= i < n && IsMode(entries[i], s, mode) { assert IsMode(entries[..n][i], s, mode); }
        if i :| 0 <= i < n && IsMode(entries[..n][i], s, mode) { assert IsMode(entries[i], s, mode); }
        if s == entries[n].subject { assert IsMode(entries[n], s, mode) <==> entries[n].decision == Updated(mode); }
      }
      forall i | 0 <= i < n ensures !IsMode(entries[..n][i], entries[n].subject, mode) {
        assert entries[i].subject != entries[n].subject;
      }
      assert entries[n].subject !in WithMode(entries[..n], mode);
    }
  }

  ghost predicate IsMode(e: Entry, s: string, mode: Mode) {
    e.subject == s && e.decision == Updated(mode)
  }
}
