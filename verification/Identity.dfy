/**
 The identity of an annotated change (src/founderos_atlas/change/identity.py): how
 scoped subjects are written and read back, and what their legacy twins are.
 */
module ChangeIdentity {
  import opened Basics

  const V1_PREFIX := "change:"
  const V2_PREFIX := "change:v2:"

  predicate IsSpace(c: char) {
    c == ' ' || ('\t' <= c <= '\r') || ('\U{1c}' <= c <= '\U{1f}') || c == '\U{85}' || c == '\U{a0}'
  }

  function StripLeft(s: string): string {
    if s != "" && IsSpace(s[0]) then StripLeft(s[1..]) else s
  }

  function StripRight(s: string): string {
    if s != "" && IsSpace(s[|s| - 1]) then StripRight(s[..|s| - 1]) else s
  }

  function Strip(s: string): string {
    StripRight(StripLeft(s))
  }

  predicate Trimmed(s: string) {
    s != "" ==> !IsSpace(s[0]) && !IsSpace(s[|s| - 1])
  }

  lemma {:induction false} StripLeftIsTrimmed(s: string)
    ensures StripLeft(s) != "" ==> !IsSpace(StripLeft(s)[0])
    ensures s == "" || !IsSpace(s[0]) ==> StripLeft(s) == s
  {
    if s != "" && IsSpace(s[0]) { StripLeftIsTrimmed(s[1..]); }
  }

  lemma {:induction false} StripRightIsTrimmed(s: string)
    ensures StripRight(s) <= s
    ensures StripRight(s) != "" ==> !IsSpace(StripRight(s)[|StripRight(s)| - 1])
    ensures s == "" || !IsSpace(s[|s| - 1]) ==> StripRight(s) == s
  {
    if s != "" && IsSpace(s[|s| - 1]) { StripRightIsTrimmed(s[..|s| - 1]); }
  }

  /** Stripping gives a trimmed text, and leaves exactly the trimmed ones as they are. */
  lemma StripKeepsTrimmed(s: string)
    ensures Trimmed(Strip(s))
    ensures Strip(s) == s <==> Trimmed(s)
  {
    StripLeftIsTrimmed(s);
    StripRightIsTrimmed(StripLeft(s));
    if Trimmed(s) { StripRightIsTrimmed(s); }
  }

  predicate AllSpace(s: string) {
    forall i :: 0 <= i < |s| ==> IsSpace(s[i])
  }

  lemma {:induction false} LeftIsCut(s: string) returns (cut: string)
    ensures AllSpace(cut) && s == cut + StripLeft(s)
  {
    if s != "" && IsSpace(s[0]) {
      var rest := LeftIsCut(s[1..]);
      cut := [s[0]] + rest;
      assert s == [s[0]] + s[1..];
    } else {
      cut := "";
    }
  }

  lemma {:induction false} RightIsCut(s: string) returns (cut: string)
    ensures AllSpace(cut) && s == StripRight(s) + cut
  {
    if s != "" && IsSpace(s[|s| - 1]) {
      var rest := RightIsCut(s[..|s| - 1]);
      cut := rest + [s[|s| - 1]];
      assert s == s[..|s| - 1] + [s[|s| - 1]];
    } else {
      cut := "";
    }
  }

  /** Only white space is cut off, at both ends. */
  lemma StripCutsSpace(s: string) returns (left: string, right: string)
    ensures AllSpace(left) && AllSpace(right) && s == left + Strip(s) + right && Trimmed(Strip(s))
  {
    StripKeepsTrimmed(s);
    left := LeftIsCut(s);
    right := RightIsCut(StripLeft(s));
  }

  // ------------------------------------------------------------ subjects

  /** The scoped subject of a change; None when there is no scope to name. */
  function SubjectFor(scope: string, digest: string): Option<string> {
    if Strip(scope) == "" then None else Some(V2_PREFIX + Strip(scope) + ":" + digest)
  }

  function LastColon(s: string): (r: Option<nat>)
    ensures r.Some? ==> r.value < |s|
  {
    if s == "" then None
    else if s[|s| - 1] == ':' then Some(|s| - 1)
    else LastColon(s[..|s| - 1])
  }

  function Parse(subject: string): Option<(string, string)> {
    if !(V2_PREFIX <= subject) then None
    else
      var rest := subject[|V2_PREFIX|..];
      var colon := LastColon(rest);
      if colon.None? then None
      else
        var scope, digest := rest[..colon.value], rest[colon.value + 1..];
        if scope == "" || digest == "" then None else Some((scope, digest))
  }

  /** The key under which the record from before scoping would be. */
  function LegacyOf(subject: string): Option<string> {
    if Parse(subject).Some? then Some(V1_PREFIX + Parse(subject).value.1) else None
  }

  lemma {:induction false} LastColonIsLast(s: string)
    ensures match LastColon(s)
            case None => ':' !in s
            case Some(i) => i < |s| && s[i] == ':' && ':' !in s[i + 1..]
  {
    if s != "" && s[|s| - 1] != ':' {
      var t := s[..|s| - 1];
      LastColonIsLast(t);
      assert s == t + [s[|s| - 1]];
      if LastColon(t).Some? {
        var i := LastColon(t).value;
        assert s[i + 1..] == t[i + 1..] + [s[|s| - 1]];
      }
    }
  }

  lemma {:induction false} LastColonAt(a: string, b: string)
    requires ':' !in b
    ensures LastColon(a + ":" + b) == Some(|a|)
  {
    var s := a + ":" + b;
    if b != "" {
      assert s[..|s| - 1] == a + ":" + b[..|b| - 1];
      LastColonAt(a, b[..|b| - 1]);
    }
  }

  /** A scoped subject reads back as its scope and digest exactly when the digest is
      not empty and has no colon, as hexadecimal digests have not. */
  lemma SubjectReadsBackIff(scope: string, digest: string)
    requires SubjectFor(scope, digest).Some?
    ensures Parse(SubjectFor(scope, digest).value) == Some((Strip(scope), digest)) <==> digest != "" && ':' !in digest
  {
    var subject := SubjectFor(scope, digest).value;
    var rest := Strip(scope) + ":" + digest;
    assert subject == V2_PREFIX + rest && subject[|V2_PREFIX|..] == rest;
    LastColonIsLast(rest);
    if ':' !in digest {
      LastColonAt(Strip(scope), digest);
      assert rest[..|Strip(scope)|] == Strip(scope) && rest[|Strip(scope)| + 1..] == digest;
    }
  }

  /** What can be read is written in one way only: a subject is its scope and digest,
      so two subjects with the same scope and digest are the same. */
  lemma ParsedIsWritten(subject: string)
    requires Parse(subject).Some?
    ensures var (scope, digest) := Parse(subject).value;
            subject == V2_PREFIX + scope + ":" + digest && ':' !in digest && scope != "" && digest != ""
  {
    var rest := subject[|V2_PREFIX|..];
    LastColonIsLast(rest);
    var i := LastColon(rest).value;
    assert rest == rest[..i] + ":" + rest[i + 1..];
  }

  lemma SubjectsAreDistinct(s: string, t: string)
    requires Parse(s).Some? && Parse(t).Some?
    ensures Parse(s) == Parse(t) <==> s == t
  {
    ParsedIsWritten(s);
    ParsedIsWritten(t);
  }

  /** Writing under a scoped subject can never touch a legacy record. */
  lemma LegacyIsNeverScoped(subject: string)
    requires Parse(subject).Some?
    ensures Parse(LegacyOf(subject).value).None? && LegacyOf(subject).value != ""
  {
    ParsedIsWritten(subject);
    var digest := Parse(subject).value.1;
    var legacy := LegacyOf(subject).value;
    if |digest| >= 3 {
      assert digest[2] in digest && legacy[9] == digest[2] && V2_PREFIX[9] == ':';
    }
  }
}
