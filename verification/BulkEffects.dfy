/**
 What a bulk action achieves for each subject (src/founderos_atlas/change/bulk.py), told
 from the annotations before and after.
 */
module BulkEffects {
  import opened Basics
  import opened ChangeIdentity
  import opened Annotations
  import opened BulkTriage
  import opened BulkConvergence

  /** The record an operator sees: the scoped one, or else that of the legacy twin. */
  function Shown(notes: map<Key, Note>, kind: Kind, s: string, legacy: Option<string>): Option<Note> {
    match Before(notes, Key(kind, s))
    case Some(n) => Some(n)
    case None => if legacy.None? || |legacy.value| == 0 then None else Before(notes, Key(kind, legacy.value))
  }

  /** A record with something in it that does not say the opposite of its kind. */
  predicate Says(kind: Kind, n: Option<Note>) {
    && n.Some? && n.value != Note(None, None, "", "", "")
    && (kind == ChangeAck ==> n.value.acknowledged != Some(false))
    && (kind == ChangeSuppression ==> n.value.suppressed != Some(false))
  }

  /** What the action asks for holds already. */
  predicate InEffect(r: Request, notes: map<Key, Note>, s: string, legacy: Option<string>) {
    match r.action
    case Acknowledge => Says(ChangeAck, Shown(notes, ChangeAck, s, legacy))
    case Unacknowledge => !Says(ChangeAck, Shown(notes, ChangeAck, s, legacy))
    case Unsuppress => !Says(ChangeSuppression, Shown(notes, ChangeSuppression, s, legacy))
    case Assign =>
      (match Shown(notes, ChangeAssignment, s, legacy) case Some(n) => n.owner case None => "") == Text(r.owner)
    case Suppress =>
      var n := Shown(notes, ChangeSuppression, s, legacy);
      n.Some? && n.value.suppressed != Some(false) && n.value.reason == Text(r.reason)
  }

  /** What the operator is told beside the decision. */
  function DetailOf(r: Request, notes: map<Key, Note>, s: string, legacy: Option<string>): Detail {
    if InEffect(r, notes, s, legacy) then
      (match r.action case Assign => SameOwner case Suppress => SameReason case _ => NoDetail)
    else
      match r.action
      case Assign =>
        var n := Shown(notes, ChangeAssignment, s, legacy);
        if n.Some? && |n.value.owner| > 0 then OtherOwner else Unassigned
      case Suppress =>
        var n := Shown(notes, ChangeSuppression, s, legacy);
        if n.Some? && n.value.suppressed != Some(false) then DifferentReason else New
      case _ => NoDetail
  }

  /** A subject of the page is updated exactly when what is asked for does not hold yet. */
  lemma UpdatedIffNeeded(r: Request, notes: map<Key, Note>, rows: Rows, s: string)
    requires s in rows
    ensures EntryFor(r, notes, rows, s).decision.Updated? <==> !InEffect(r, notes, s, rows[s])
    ensures !EntryFor(r, notes, rows, s).decision.Updated? ==> EntryFor(r, notes, rows, s).decision == Unchanged
    ensures EntryFor(r, notes, rows, s).detail == DetailOf(r, notes, s, rows[s])
  {
  }

  /** What the action asks for, up to white space around the text; taking back promises it
      of the scoped record only, for a legacy twin may come to light. */
  predicate Achieved(r: Request, notes: map<Key, Note>, s: string, legacy: Option<string>) {
    match r.action
    case Acknowledge => Says(ChangeAck, Shown(notes, ChangeAck, s, legacy))
    case Unacknowledge => !Says(ChangeAck, Before(notes, Key(ChangeAck, s)))
    case Unsuppress => !Says(ChangeSuppression, Before(notes, Key(ChangeSuppression, s)))
    case Assign =>
      var owner := match Shown(notes, ChangeAssignment, s, legacy) case Some(n) => n.owner case None => "";
      Strip(owner) == Strip(Text(r.owner))
    case Suppress =>
      var n := Shown(notes, ChangeSuppression, s, legacy);
      n.Some? && n.value.suppressed != Some(false) && Strip(n.value.reason) == Strip(Text(r.reason))
  }

  lemma DecidedIsAchieved(r: Request, notes: map<Key, Note>, after: map<Key, Note>, s: string, legacy: Option<string>,
                          stamp: string)
    requires (legacy.Some? ==> legacy.value != "")
    requires legacy.Some? ==>
               var twin := Key(KindOf(r.action), legacy.value); Before(after, twin) == Before(notes, twin)
    requires Before(after, Key(KindOf(r.action), s)) ==
             match Decide(r, notes, s, legacy).decision
             case Updated(ModeSet) => Some(NoteFor(r, stamp))
             case Updated(ModeShadow) => Some(ShadowFor(r.action, stamp))
             case Updated(ModeClear) => None
             case _ => Before(notes, Key(KindOf(r.action), s))
    ensures Achieved(r, after, s, legacy)
  {
    StripKeepsTrimmed(Text(r.owner));
    StripKeepsTrimmed(Text(r.reason));
    StripKeepsTrimmed(Strip(Text(r.owner)));
    StripKeepsTrimmed(Strip(Text(r.reason)));
    hide Strip, Trimmed;
  }

  /** Once a whole batch has been carried out, every subject that was asked for and is on
      the page has what the action asks for. */
  lemma ActionTakesEffect(b: Book, r: Request, rows: Rows, subjects: seq<string>, stamp: string, i: nat)
    requires Scoped(rows) && i < |subjects| && Strip(subjects[i]) in rows && Strip(subjects[i]) != ""
    ensures var after := CarriedOut(b, r, Plan(r, b.notes, rows, subjects), stamp, 3);
            Achieved(r, after.notes, Strip(subjects[i]), rows[Strip(subjects[i])])
  {
    hide Decide, CarriedOut, Written, Scoped, Achieved, Strip, Dedupe;
    var s := Strip(subjects[i]);
    var entries := Plan(r, b.notes, rows, subjects);
    var after := CarriedOut(b, r, entries, stamp, 3).notes;
    PlanIsPlan(r, b.notes, rows, subjects);
    DedupeIsDistinct(subjects);
    EntriesAt(r, b.notes, rows, Dedupe(subjects));
    EntryNames(r, b.notes, rows);
    assert s in Dedupe(subjects);
    var k :| 0 <= k < |Dedupe(subjects)| && Dedupe(subjects)[k] == s;
    assert entries[k] == EntryFor(r, b.notes, rows, s) && entries[k].subject == s;
    CarriedOutWrites(b, r, rows, entries, stamp);
    EntryWritten(b.notes, r, entries, stamp, k);
    if rows[s].Some? { LegacyKept(b.notes, r, rows, entries, stamp, s, KindOf(r.action)); }
    DecidedIsAchieved(r, b.notes, after, s, rows[s], stamp);
  }
}
