/**
 The dependency closure of one root set on one target platform
 (scripts/compliance_core.py).  A work list of marker-approved requests is
 popped from its end; a locked package is expanded again whenever it is
 requested with extras it was not expanded for yet.
 */
module DependencyClosure {
  import opened Basics

  type Name = string
  type Extra = string

  /** A PEP 508 marker on a fixed environment.  `EnvIn` stands for any comparison
      on an environment variable: it lists the values that satisfy it. */
  datatype Marker =
    | EnvIn(variable: string, accepted: set<string>)
    | ExtraIs(extra: Extra)
    | ExtraIsNot(extra: Extra)
    | Both(left: Marker, right: Marker)
    | Either(left: Marker, right: Marker)

  type Environment = map<string, string>

  datatype Requirement = Requirement(name: string, extras: set<Extra>, marker: Option<Marker>)

  /** Installed metadata; `None` is a requirement line that does not parse. */
  datatype Package = Package(version: string, dependencies: seq<Option<Requirement>>)

  datatype Pin = Pin(name: string, version: string)

  datatype Input = Input(
    roots: seq<Requirement>,
    pins: map<Name, Pin>,
    installed: map<Name, Package>,
    env: Environment,
    platform: string)

  datatype Request = Request(requirement: Requirement, parent: Option<Name>) {
    function Key(): Name { Normalize(requirement.name) }
  }

  datatype Member = Member(
    name: string,
    version: Option<string>,
    pinned: bool,
    direct: bool,
    platforms: set<string>,
    requiredBy: set<Name>)

  datatype Problem = NotInstalled(key: Name) | VersionSkew(key: Name, installed: string)

  // ---------------------------------------------------------------- names

  predicate IsSeparator(c: char) {
    c == '-' || c == '_' || c == '.'
  }

  function Lower(c: char): char {
    if 'A' <= c <= 'Z' then (c as int + 32) as char else c
  }

  /** PEP 503: runs of separators become one dash, letters become lower case. */
  function Normalize(s: string): string {
    if s == "" then ""
    else if !IsSeparator(s[0]) then [Lower(s[0])] + Normalize(s[1..])
    else if 1 < |s| && IsSeparator(s[1]) then Normalize(s[1..])
    else "-" + Normalize(s[1..])
  }

  lemma {:induction false} NormalizeIdempotent(s: string)
    ensures Normalize(Normalize(s)) == Normalize(s)
    ensures Normalize(s) != "" && IsSeparator(Normalize(s)[0]) ==> s != "" && IsSeparator(s[0])
  {
    if s != "" {
      NormalizeIdempotent(s[1..]);
      var t := Normalize(s[1..]);
      if !IsSeparator(s[0]) {
        assert Normalize(s)[1..] == t;
      } else if 1 < |s| && IsSeparator(s[1]) {
      } else {
        assert Normalize(s) == "-" + t;
        assert Normalize(s)[1..] == t;
        assert t != "" ==> !IsSeparator(t[0]);
      }
    }
  }

  /** The one spelling of a name: no capital letter, no underscore, no dot, and no two
      dashes in a row. */
  predicate Canonical(n: string) {
    && (forall i :: 0 <= i < |n| ==> !('A' <= n[i] <= 'Z') && n[i] != '_' && n[i] != '.')
    && forall i :: 0 <= i < |n| - 1 ==> !(n[i] == '-' && n[i + 1] == '-')
  }

  predicate Separates(c: char) { c in "-_." }

  /** The same letter, in upper or lower case. */
  predicate SameLetter(c: char, d: char) {
    || c == d
    || ('A' <= c <= 'Z' && d as int == c as int + 32)
    || ('A' <= d <= 'Z' && c as int == d as int + 32)
  }

  /** What stands behind the run of separators the name begins with. */
  function AfterRun(s: string): (r: string)
    requires s != ""
    ensures |r| < |s| && (r == "" || !Separates(r[0]))
  {
    if |s| == 1 || !Separates(s[1]) then s[1..] else AfterRun(s[1..])
  }

  /** The names differ in nothing but the case of their letters, and which separators,
      and how many, stand in each run of them. */
  predicate Alike(a: string, b: string)
    decreases |a|
  {
    if a == "" || b == "" then a == b
    else if Separates(a[0]) || Separates(b[0]) then
      Separates(a[0]) && Separates(b[0]) && Alike(AfterRun(a), AfterRun(b))
    else SameLetter(a[0], b[0]) && Alike(a[1..], b[1..])
  }

  lemma LetterFacts(c: char, d: char)
    ensures IsSeparator(c) <==> Separates(c)
    ensures !Separates(c) ==> !Separates(Lower(c)) && !('A' <= Lower(c) <= 'Z')
    ensures !Separates(c) && !Separates(d) ==> (SameLetter(c, d) <==> Lower(c) == Lower(d))
  {
  }

  lemma {:induction false} NormalizeRun(s: string)
    requires s != "" && Separates(s[0])
    ensures Normalize(s) == "-" + Normalize(AfterRun(s))
  {
    LetterFacts(s[0], s[0]);
    if |s| > 1 { LetterFacts(s[1], s[1]); }
    if |s| > 1 && Separates(s[1]) { NormalizeRun(s[1..]); }
  }

  lemma NormalizeLetter(s: string)
    requires s != "" && !Separates(s[0])
    ensures Normalize(s) == [Lower(s[0])] + Normalize(s[1..])
  {
  }

  lemma {:induction false} NormalizedIsCanonical(s: string)
    ensures Canonical(Normalize(s))
    ensures Normalize(s) != "" ==> s != "" && (Normalize(s)[0] == '-' <==> Separates(s[0]))
    ensures s != "" ==> Normalize(s) != ""
    decreases |s|
  {
    if s != "" {
      LetterFacts(s[0], s[0]);
      if Separates(s[0]) {
        NormalizeRun(s);
        NormalizedIsCanonical(AfterRun(s));
      } else {
        NormalizeLetter(s);
        NormalizedIsCanonical(s[1..]);
      }
    }
  }

  lemma {:induction false} CanonicalIsKept(s: string)
    requires Canonical(s)
    ensures Normalize(s) == s
  {
    if s != "" {
      assert forall i :: 0 <= i < |s| - 1 ==> s[1..][i] == s[i + 1];
      CanonicalIsKept(s[1..]);
      assert s == [s[0]] + s[1..];
    }
  }

  /** Two names are normalized to the same exactly when they are the same but for case and
      separators. */
  lemma {:induction false} NormalizeIffAlike(a: string, b: string)
    ensures Normalize(a) == Normalize(b) <==> Alike(a, b)
    decreases |a|
  {
    NormalizedIsCanonical(a);
    NormalizedIsCanonical(b);
    if a != "" && b != "" {
      LetterFacts(a[0], b[0]);
      LetterFacts(b[0], a[0]);
      if Separates(a[0]) && Separates(b[0]) {
        NormalizeRun(a);
        NormalizeRun(b);
        NormalizeIffAlike(AfterRun(a), AfterRun(b));
        SameTail('-', Normalize(AfterRun(a)), '-', Normalize(AfterRun(b)));
      } else if !Separates(a[0]) && !Separates(b[0]) {
        NormalizeLetter(a);
        NormalizeLetter(b);
        NormalizeIffAlike(a[1..], b[1..]);
        SameTail(Lower(a[0]), Normalize(a[1..]), Lower(b[0]), Normalize(b[1..]));
      }
    }
  }

  lemma SameTail(c: char, s: string, d: char, t: string)
    ensures [c] + s == [d] + t <==> c == d && s == t
  {
    assert ([c] + s)[1..] == s && ([d] + t)[1..] == t;
    if [c] + s == [d] + t { assert ([c] + s)[0] == c && ([d] + t)[0] == d; }
  }

  // -------------------------------------------------------------- markers

  predicate Evaluate(m: Marker, env: Environment, extra: Extra) {
    match m
    case EnvIn(v, accepted) => v in env && env[v] in accepted
    case ExtraIs(e) => extra == e
    case ExtraIsNot(e) => extra != e
    case Both(l, r) => Evaluate(l, env, extra) && Evaluate(r, env, extra)
    case Either(l, r) => Evaluate(l, env, extra) || Evaluate(r, env, extra)
  }

  predicate Allows(marker: Option<Marker>, env: Environment, extras: set<Extra>) {
    match marker
    case None => true
    case Some(m) =>
      if extras == {} then Evaluate(m, env, "")
      else exists e :: e in extras && Evaluate(m, env, e)
  }

  /** Selecting an extra never switches the marker off. */
  ghost predicate Monotone(marker: Option<Marker>, env: Environment) {
    marker.Some? && Evaluate(marker.value, env, "") ==>
      forall e :: Evaluate(marker.value, env, e)
  }

  /** The marker only ever asks for an extra, and never for the empty one. */
  predicate Positive(m: Marker) {
    match m
    case EnvIn(_, _) => true
    case ExtraIs(e) => e != ""
    case ExtraIsNot(_) => false
    case Both(l, r) => Positive(l) && Positive(r)
    case Either(l, r) => Positive(l) && Positive(r)
  }

  lemma {:induction false} PositiveKeepsTruth(m: Marker, env: Environment, e: Extra)
    requires Positive(m) && Evaluate(m, env, "")
    ensures Evaluate(m, env, e)
  {
    match m
    case Both(l, r) =>
      PositiveKeepsTruth(l, env, e);
      PositiveKeepsTruth(r, env, e);
    case Either(l, r) =>
      if Evaluate(l, env, "") { PositiveKeepsTruth(l, env, e); } else { PositiveKeepsTruth(r, env, e); }
    case _ =>
  }

  // ------------------------------------------- the closure, without an order

  predicate Good(inp: Input, k: Name) {
    k in inp.pins && k in inp.installed && inp.installed[k].version == inp.pins[k].version
  }

  predicate Broken(inp: Input, k: Name) {
    k in inp.pins && !Good(inp, k)
  }

  ghost function RootRequests(inp: Input): set<Request> {
    set r | r in inp.roots && Allows(r.marker, inp.env, {}) :: Request(r, None)
  }

  /** What expanding `k` for these extras asks for. */
  ghost function Requested(inp: Input, k: Name, extras: set<Extra>): set<Request>
    requires k in inp.installed
  {
    set d | d in inp.installed[k].dependencies && d.Some? && Allows(d.value.marker, inp.env, extras)
      :: Request(d.value, Some(k))
  }

  /** Holds the roots and, with every request for a sound pinned package, what
      that package requires under the extras of the request. */
  ghost predicate Closed(inp: Input, s: set<Request>) {
    && RootRequests(inp) <= s
    && forall q :: q in s && Good(inp, q.Key()) ==> Requested(inp, q.Key(), q.requirement.extras) <= s
  }

  /** Every request the metadata can give rise to. */
  ghost function Universe(inp: Input): set<Request> {
    RootRequests(inp) +
    (set k, d | k in inp.installed && d in inp.installed[k].dependencies && d.Some?
      :: Request(d.value, Some(k)))
  }

  /** The least closed set of requests. */
  ghost function Closure(inp: Input): set<Request> {
    set q | q in Universe(inp) && forall s :: Closed(inp, s) ==> q in s
  }

  lemma UniverseIsClosed(inp: Input)
    ensures Closed(inp, Universe(inp))
  {
    var u := Universe(inp);
    forall q | q in u && Good(inp, q.Key())
      ensures Requested(inp, q.Key(), q.requirement.extras) <= u
    {
    }
  }

  /** `Closure` is a fixpoint, and it is below every other one. */
  lemma ClosureIsLeast(inp: Input)
    ensures Closed(inp, Closure(inp))
    ensures forall s :: Closed(inp, s) ==> Closure(inp) <= s
  {
    var c := Closure(inp);
    forall q | q in RootRequests(inp) ensures q in c {}
    forall q | q in c && Good(inp, q.Key())
      ensures Requested(inp, q.Key(), q.requirement.extras) <= c
    {
      UniverseIsClosed(inp);
      forall d | d in Requested(inp, q.Key(), q.requirement.extras) ensures d in c {
        forall s | Closed(inp, s) ensures d in s {
          assert q in s;
        }
      }
    }
  }

  lemma LeastIsClosure(inp: Input, s: set<Request>)
    requires Closed(inp, s)
    requires forall t :: Closed(inp, t) ==> s <= t
    ensures s == Closure(inp)
  {
    ClosureIsLeast(inp);
  }

  ghost predicate MonotoneMetadata(inp: Input) {
    forall k, d :: k in inp.installed && d in inp.installed[k].dependencies && d.Some?
      ==> Monotone(d.value.marker, inp.env)
  }

  // --------------------------------------------------- what a result must be

  ghost function RequiredBy(k: Name, requests: set<Request>): set<Name> {
    set q | q in requests && q.Key() == k && q.parent.Some? :: q.parent.value
  }

  /** `members` is the membership table of exactly these requests. */
  ghost predicate Describes(inp: Input, members: map<Name, Member>, requests: set<Request>) {
    && members.Keys == (set q | q in requests :: q.Key())
    && forall k :: k in members ==> DescribesOne(inp, k, members[k], requests)
  }

  ghost predicate DescribesOne(inp: Input, k: Name, m: Member, requests: set<Request>) {
    && m.requiredBy == RequiredBy(k, requests)
    && (m.direct <==> exists q :: q in requests && q.Key() == k && q.parent == None)
    && m.platforms == {inp.platform}
    && (m.pinned <==> k in inp.pins)
    && m.version == (if k in inp.pins then Some(inp.pins[k].version) else None)
    && (k in inp.pins ==> m.name == inp.pins[k].name)
    && (k !in inp.pins ==> exists q :: q in requests && q.Key() == k && q.requirement.name == m.name)
  }

  // ------------------------------------------------------------ the work list

  datatype Work = Work(
    queue: seq<Request>,
    members: map<Name, Member>,
    expanded: map<Name, set<Extra>>,
    problems: seq<Problem>)

  function RootQueue(inp: Input, roots: seq<Requirement>): seq<Request> {
    if roots == [] then []
    else (if Allows(roots[0].marker, inp.env, {}) then [Request(roots[0], None)] else [])
         + RootQueue(inp, roots[1..])
  }

  function DependencyQueue(inp: Input, k: Name, specs: seq<Option<Requirement>>, extras: set<Extra>)
    : seq<Request>
  {
    if specs == [] then []
    else (match specs[0]
          case None => []
          case Some(d) => if Allows(d.marker, inp.env, extras) then [Request(d, Some(k))] else [])
         + DependencyQueue(inp, k, specs[1..], extras)
  }

  function Fresh(inp: Input, q: Request): Member {
    var k := q.Key();
    if k in inp.pins then Member(inp.pins[k].name, Some(inp.pins[k].version), true, false, {}, {})
    else Member(q.requirement.name, None, false, false, {}, {})
  }

  /** The member record after request `q` was noted on it. */
  function Note(inp: Input, m: Member, q: Request): Member {
    var m := m.(platforms := m.platforms + {inp.platform});
    match q.parent
    case None => m.(direct := true)
    case Some(p) => m.(requiredBy := m.requiredBy + {p})
  }

  function NoteAll(inp: Input, members: map<Name, Member>, q: Request): map<Name, Member> {
    var k := q.Key();
    members[k := Note(inp, if k in members then members[k] else Fresh(inp, q), q)]
  }

  function Already(expanded: map<Name, set<Extra>>, k: Name): set<Extra> {
    if k in expanded then expanded[k] else {}
  }

  predicate NeedsExpansion(inp: Input, w: Work, q: Request) {
    && q.Key() in inp.pins
    && (q.Key() in w.expanded ==> !(q.requirement.extras <= w.expanded[q.Key()]))
  }

  /** One turn of the loop, popping position `i`. */
  function Pop(inp: Input, w: Work, i: nat): Work
    requires i < |w.queue|
  {
    var q := w.queue[i];
    var k := q.Key();
    var rest := w.queue[..i] + w.queue[i + 1..];
    var members := NoteAll(inp, w.members, q);
    if !NeedsExpansion(inp, w, q) then
      w.(queue := rest, members := members)
    else
      var expanded := w.expanded[k := Already(w.expanded, k) + q.requirement.extras];
      if k !in inp.installed then
        Work(rest, members, expanded, w.problems + [NotInstalled(k)])
      else if inp.installed[k].version != inp.pins[k].version then
        Work(rest, members, expanded, w.problems + [VersionSkew(k, inp.installed[k].version)])
      else
        Work(rest + DependencyQueue(inp, k, inp.installed[k].dependencies, q.requirement.extras),
             members, expanded, w.problems)
  }

  function Start(inp: Input): Work {
    Work(RootQueue(inp, inp.roots), map[], map[], [])
  }

  lemma {:induction false} RootQueueHolds(inp: Input, roots: seq<Requirement>)
    ensures forall q :: q in RootQueue(inp, roots) <==>
              q.parent == None && q.requirement in roots && Allows(q.requirement.marker, inp.env, {})
  {
    if roots != [] {
      RootQueueHolds(inp, roots[1..]);
      assert roots == [roots[0]] + roots[1..];
      forall q
        ensures q in RootQueue(inp, roots) <==>
                q.parent == None && q.requirement in roots && Allows(q.requirement.marker, inp.env, {})
      {
        assert q.requirement in roots <==> q.requirement == roots[0] || q.requirement in roots[1..];
      }
    }
  }

  lemma {:induction false} DependencyQueueHolds(inp: Input, k: Name, specs: seq<Option<Requirement>>,
                                                extras: set<Extra>)
    ensures forall q :: q in DependencyQueue(inp, k, specs, extras) <==>
              q.parent == Some(k) && Some(q.requirement) in specs && Allows(q.requirement.marker, inp.env, extras)
  {
    if specs != [] {
      DependencyQueueHolds(inp, k, specs[1..], extras);
      assert specs == [specs[0]] + specs[1..];
      forall q
        ensures q in DependencyQueue(inp, k, specs, extras) <==>
                q.parent == Some(k) && Some(q.requirement) in specs && Allows(q.requirement.marker, inp.env, extras)
      {
        assert Some(q.requirement) in specs <==> Some(q.requirement) == specs[0] || Some(q.requirement) in specs[1..];
      }
    }
  }

  // ------------------------------------------------------------- invariant

  /** `done` are the requests popped so far. */
  ghost predicate Inv(inp: Input, w: Work, done: set<Request>) {
    && Sound(inp, w, done)
    && Describes(inp, w.members, done)
    && Covered(inp, w, done)
    && (forall k :: k in w.expanded ==> Expanded(inp, w, done, k))
    && Blames(inp, w)
  }

  /** Only requests of every closed set are held, and all roots are. */
  ghost predicate Sound(inp: Input, w: Work, done: set<Request>) {
    && (forall s :: Closed(inp, s) ==> Elements(w.queue) + done <= s)
    && RootRequests(inp) <= Elements(w.queue) + done
  }

  ghost predicate Covered(inp: Input, w: Work, done: set<Request>) {
    forall q :: q in done && q.Key() in inp.pins ==>
      q.Key() in w.expanded && q.requirement.extras <= w.expanded[q.Key()]
  }

  ghost predicate Expanded(inp: Input, w: Work, done: set<Request>, k: Name) {
    && k in w.expanded && k in inp.pins
    && (Good(inp, k) ==> Requested(inp, k, w.expanded[k]) <= Elements(w.queue) + done)
  }

  /** The problem is as it is reported. */
  predicate Truthful(inp: Input, p: Problem) {
    match p
    case NotInstalled(k) => k in inp.pins && k !in inp.installed
    case VersionSkew(k, version) =>
      k in inp.pins && k in inp.installed && inp.installed[k].version == version && version != inp.pins[k].version
  }

  ghost predicate Blames(inp: Input, w: Work) {
    && (forall p :: p in w.problems ==> Truthful(inp, p))
    && (forall k :: k in Blamed(w.problems) ==> Broken(inp, k) && k in w.expanded && k in w.members)
    && (forall k :: k in w.expanded && Broken(inp, k) ==> k in Blamed(w.problems))
  }

  /** The packages a problem was recorded for. */
  ghost function Blamed(problems: seq<Problem>): set<Name> {
    set p | p in problems :: p.key
  }

  lemma StartInv(inp: Input)
    ensures Inv(inp, Start(inp), {})
  {
    RootQueueHolds(inp, inp.roots);
    var queue := Start(inp).queue;
    forall q | q in queue ensures q in RootRequests(inp) { assert q == Request(q.requirement, None); }
    assert Elements(queue) == RootRequests(inp);
  }


  lemma OthersUnchanged(inp: Input, k: Name, m: Member, done: set<Request>, q: Request)
    requires DescribesOne(inp, k, m, done) && q.Key() != k
    ensures DescribesOne(inp, k, m, done + {q})
  {
    assert RequiredBy(k, done + {q}) == RequiredBy(k, done);
  }

  lemma NoteDescribesOne(inp: Input, m: Member, done: set<Request>, q: Request)
    requires DescribesOne(inp, q.Key(), m, done)
    ensures DescribesOne(inp, q.Key(), Note(inp, m, q), done + {q})
  {
    var k := q.Key();
    assert q in done + {q};
    match q.parent
    case None => assert RequiredBy(k, done + {q}) == RequiredBy(k, done);
    case Some(p) => assert RequiredBy(k, done + {q}) == RequiredBy(k, done) + {p};
  }

  lemma NoteDescribesFresh(inp: Input, done: set<Request>, q: Request)
    requires forall r :: r in done ==> r.Key() != q.Key()
    ensures DescribesOne(inp, q.Key(), Note(inp, Fresh(inp, q), q), done + {q})
  {
    var k := q.Key();
    assert q in done + {q};
    assert RequiredBy(k, done) == {};
    match q.parent
    case None => assert RequiredBy(k, done + {q}) == {};
    case Some(p) => assert RequiredBy(k, done + {q}) == {p};
  }

  lemma NoteDescribes(inp: Input, members: map<Name, Member>, done: set<Request>, q: Request)
    requires Describes(inp, members, done)
    ensures Describes(inp, NoteAll(inp, members, q), done + {q})
  {
    var after := NoteAll(inp, members, q);
    var more := done + {q};
    assert after.Keys == set r | r in more :: r.Key();
    forall k | k in after ensures DescribesOne(inp, k, after[k], more) {
      if k != q.Key() {
        OthersUnchanged(inp, k, members[k], done, q);
      } else if k in members {
        NoteDescribesOne(inp, members[k], done, q);
      } else {
        NoteDescribesFresh(inp, done, q);
      }
    }
  }

  /** What the queue and the finished requests hold together after a pop. */
  lemma PopHolds(inp: Input, w: Work, done: set<Request>, i: nat)
    requires i < |w.queue|
    ensures var q := w.queue[i];
            var w' := Pop(inp, w, i);
            Elements(w'.queue) + (done + {q}) ==
              Elements(w.queue) + done +
              (if NeedsExpansion(inp, w, q) && Good(inp, q.Key())
               then Requested(inp, q.Key(), q.requirement.extras) else {})
  {
    var q := w.queue[i];
    var k := q.Key();
    var rest := w.queue[..i] + w.queue[i + 1..];
    assert w.queue == w.queue[..i] + [q] + w.queue[i + 1..];
    assert Elements(rest) + {q} == Elements(w.queue);
    if NeedsExpansion(inp, w, q) && Good(inp, k) {
      var more := DependencyQueue(inp, k, inp.installed[k].dependencies, q.requirement.extras);
      DependencyQueueHolds(inp, k, inp.installed[k].dependencies, q.requirement.extras);
      forall r | r in more ensures r in Requested(inp, k, q.requirement.extras) {
        assert r == Request(r.requirement, Some(k));
      }
      assert Elements(more) == Requested(inp, k, q.requirement.extras);
      assert Elements(rest + more) == Elements(rest) + Elements(more);
    }
  }

  lemma AllowsUnion(marker: Option<Marker>, env: Environment, a: set<Extra>, b: set<Extra>)
    requires Allows(marker, env, a + b)
    ensures Allows(marker, env, a) || Allows(marker, env, b)
  {
  }

  /** Expansion keeps what was asked for under the extras seen so far. */
  lemma PopExpands(inp: Input, w: Work, done: set<Request>, i: nat, k: Name)
    requires i < |w.queue| && k in Pop(inp, w, i).expanded
    requires k in w.expanded ==> Expanded(inp, w, done, k)
    ensures Expanded(inp, Pop(inp, w, i), done + {w.queue[i]}, k)
  {
    var q := w.queue[i];
    var w' := Pop(inp, w, i);
    PopHolds(inp, w, done, i);
    if k == q.Key() && NeedsExpansion(inp, w, q) && Good(inp, k) {
      forall r | r in Requested(inp, k, w'.expanded[k]) ensures r in Elements(w'.queue) + (done + {q}) {
        if Allows(r.requirement.marker, inp.env, q.requirement.extras) {
          assert r in Requested(inp, k, q.requirement.extras);
        } else {
          AllowsUnion(r.requirement.marker, inp.env, Already(w.expanded, k), q.requirement.extras);
          assert k in w.expanded;
          assert r in Requested(inp, k, w.expanded[k]);
        }
      }
    }
  }

  lemma PopIsSound(inp: Input, w: Work, done: set<Request>, i: nat)
    requires Sound(inp, w, done) && i < |w.queue|
    ensures Sound(inp, Pop(inp, w, i), done + {w.queue[i]})
  {
    PopHolds(inp, w, done, i);
    forall s | Closed(inp, s) ensures Elements(Pop(inp, w, i).queue) + (done + {w.queue[i]}) <= s {
      assert w.queue[i] in s;
    }
  }

  lemma PopBlames(inp: Input, w: Work, i: nat)
    requires Blames(inp, w) && i < |w.queue|
    ensures Blames(inp, Pop(inp, w, i))
  {
    var k := w.queue[i].Key();
    var w' := Pop(inp, w, i);
    if NeedsExpansion(inp, w, w.queue[i]) && Broken(inp, k) {
      assert w'.problems[|w.problems|].key == k;
      assert Blamed(w'.problems) == Blamed(w.problems) + {k};
    } else {
      assert w'.problems == w.problems;
    }
  }

  lemma PopDescribes(inp: Input, w: Work, done: set<Request>, i: nat)
    requires Describes(inp, w.members, done) && i < |w.queue|
    ensures Describes(inp, Pop(inp, w, i).members, done + {w.queue[i]})
  {
    hide Describes, NeedsExpansion;
    NoteDescribes(inp, w.members, done, w.queue[i]);
  }

  lemma PopCovers(inp: Input, w: Work, done: set<Request>, i: nat)
    requires Covered(inp, w, done) && i < |w.queue|
    ensures Covered(inp, Pop(inp, w, i), done + {w.queue[i]})
  {
  }

  /** Popping any position keeps the invariant. */
  lemma PopKeepsInv(inp: Input, w: Work, done: set<Request>, i: nat)
    requires Inv(inp, w, done) && i < |w.queue|
    ensures Inv(inp, Pop(inp, w, i), done + {w.queue[i]})
  {
    hide Sound, Expanded, Blames, Describes, Covered, Pop;
    var q := w.queue[i];
    var w' := Pop(inp, w, i);
    PopIsSound(inp, w, done, i);
    PopDescribes(inp, w, done, i);
    PopCovers(inp, w, done, i);
    forall k | k in w'.expanded ensures Expanded(inp, w', done + {q}, k) {
      PopExpands(inp, w, done, i, k);
    }
    PopBlames(inp, w, i);
  }

  // ----------------------------------------------------------- termination

  /** All (package, extra) pairs that can ever be expanded; `None` is the bare package. */
  ghost function Pairs(inp: Input): set<(Name, Option<Extra>)> {
    (set k | k in inp.pins :: (k, None)) +
    (set k, q, e | k in inp.pins && q in Universe(inp) && e in q.requirement.extras :: (k, Some(e)))
  }

  ghost predicate IsExpanded(expanded: map<Name, set<Extra>>, p: (Name, Option<Extra>)) {
    p.0 in expanded && (p.1.Some? ==> p.1.value in expanded[p.0])
  }

  ghost function Unexpanded(inp: Input, w: Work): set<(Name, Option<Extra>)> {
    set p | p in Pairs(inp) && !IsExpanded(w.expanded, p)
  }

  lemma ExpansionGains(inp: Input, w: Work, q: Request, expanded: map<Name, set<Extra>>)
    requires q in Universe(inp) && NeedsExpansion(inp, w, q)
    requires expanded == w.expanded[q.Key() := Already(w.expanded, q.Key()) + q.requirement.extras]
    ensures forall p :: IsExpanded(w.expanded, p) ==> IsExpanded(expanded, p)
    ensures exists p :: p in Pairs(inp) && !IsExpanded(w.expanded, p) && IsExpanded(expanded, p)
  {
    hide Universe;
    var k := q.Key();
    if k in w.expanded {
      var e :| e in q.requirement.extras && e !in w.expanded[k];
      assert (k, Some(e)) in Pairs(inp) && IsExpanded(expanded, (k, Some(e)));
    } else {
      assert (k, None) in Pairs(inp) && IsExpanded(expanded, (k, None));
    }
  }

  /** Whatever position is popped: either fewer pairs are unexpanded, or just as
      many are and the queue is shorter. */
  lemma PopDecreases(inp: Input, w: Work, done: set<Request>, i: nat)
    requires Inv(inp, w, done) && i < |w.queue|
    ensures Unexpanded(inp, Pop(inp, w, i)) < Unexpanded(inp, w)
            || (Unexpanded(inp, Pop(inp, w, i)) == Unexpanded(inp, w) && |Pop(inp, w, i).queue| < |w.queue|)
  {
    hide Pairs, IsExpanded, Universe, Describes, NeedsExpansion, Expanded, Covered, Blames;
    var q := w.queue[i];
    if NeedsExpansion(inp, w, q) {
      UniverseIsClosed(inp);
      assert q in Elements(w.queue);
      assert q in Universe(inp);
      ExpansionGains(inp, w, q, Pop(inp, w, i).expanded);
      var p :| p in Pairs(inp) && !IsExpanded(w.expanded, p) && IsExpanded(Pop(inp, w, i).expanded, p);
      assert p in Unexpanded(inp, w) && p !in Unexpanded(inp, Pop(inp, w, i));
    }
  }

  // ------------------------------------------------------- when the queue is empty

  ghost function BrokenIn(inp: Input, requests: set<Request>): set<Name> {
    set q | q in requests && Broken(inp, q.Key()) :: q.Key()
  }

  /** An emptied work list lists exactly the broken packages it reached. */
  lemma EmptyBlames(inp: Input, w: Work, done: set<Request>)
    requires Inv(inp, w, done) && w.queue == []
    ensures Blamed(w.problems) == BrokenIn(inp, done)
    ensures w.problems == [] <==> BrokenIn(inp, done) == {}
    ensures forall p :: p in w.problems ==> Truthful(inp, p)
  {
    forall q | q in done && Broken(inp, q.Key()) ensures q.Key() in Blamed(w.problems) {
      assert q.Key() in w.expanded;
    }
    if w.problems != [] { assert w.problems[0].key in Blamed(w.problems); }
  }

  /** An emptied work list never holds more than the closure; and it holds all of
      it when no marker is switched off by selecting an extra. */
  lemma EmptyIsClosure(inp: Input, w: Work, done: set<Request>)
    requires Inv(inp, w, done) && w.queue == []
    ensures Describes(inp, w.members, done)
    ensures done <= Closure(inp)
    ensures MonotoneMetadata(inp) ==> done == Closure(inp)
  {
    ClosureIsLeast(inp);
    if MonotoneMetadata(inp) {
      forall q | q in done && Good(inp, q.Key())
        ensures Requested(inp, q.Key(), q.requirement.extras) <= done
      {
        var k := q.Key();
        assert Expanded(inp, w, done, k);
        forall r | r in Requested(inp, k, q.requirement.extras) ensures r in done {
          assert Monotone(r.requirement.marker, inp.env);
          assert Allows(r.requirement.marker, inp.env, w.expanded[k]);
          assert r in Requested(inp, k, w.expanded[k]);
        }
      }
      LeastIsClosure(inp, done);
    }
  }

  // --------------------------------------------------------- any order of popping

  /** Popping the positions `picks` one after another leads from `w` to `end`. */
  ghost predicate Run(inp: Input, w: Work, picks: seq<nat>, end: Work)
    decreases |picks|
  {
    if picks == [] then end == w
    else picks[0] < |w.queue| && Run(inp, Pop(inp, w, picks[0]), picks[1..], end)
  }

  ghost predicate Finishes(inp: Input, picks: seq<nat>, end: Work) {
    Run(inp, Start(inp), picks, end) && end.queue == []
  }

  lemma {:induction false} RunKeepsInv(inp: Input, w: Work, done: set<Request>, picks: seq<nat>, end: Work)
    returns (done': set<Request>)
    requires Inv(inp, w, done) && Run(inp, w, picks, end)
    ensures Inv(inp, end, done')
    decreases |picks|
  {
    if picks == [] {
      done' := done;
    } else {
      PopKeepsInv(inp, w, done, picks[0]);
      done' := RunKeepsInv(inp, Pop(inp, w, picks[0]), done + {w.queue[picks[0]]}, picks[1..], end);
    }
  }

  /** In whatever order the queue is emptied, the members are those of the least
      fixpoint and the blamed packages are its broken ones. */
  lemma AnyOrderFindsClosure(inp: Input, picks: seq<nat>, end: Work)
    requires MonotoneMetadata(inp) && Finishes(inp, picks, end)
    ensures Describes(inp, end.members, Closure(inp))
    ensures Blamed(end.problems) == BrokenIn(inp, Closure(inp))
  {
    StartInv(inp);
    var done := RunKeepsInv(inp, Start(inp), {}, picks, end);
    EmptyIsClosure(inp, end, done);
    EmptyBlames(inp, end, done);
  }

  /** Two orders agree on everything but the spelling recorded for packages the
      lock does not pin. */
  lemma OrdersAgree(inp: Input, picks1: seq<nat>, end1: Work, picks2: seq<nat>, end2: Work)
    requires MonotoneMetadata(inp) && Finishes(inp, picks1, end1) && Finishes(inp, picks2, end2)
    ensures end1.members.Keys == end2.members.Keys
    ensures forall k :: k in end1.members ==>
              end1.members[k].(name := "") == end2.members[k].(name := "")
              && (k in inp.pins ==> end1.members[k] == end2.members[k])
    ensures Blamed(end1.problems) == Blamed(end2.problems)
  {
    AnyOrderFindsClosure(inp, picks1, end1);
    AnyOrderFindsClosure(inp, picks2, end2);
    forall k | k in end1.members
      ensures end1.members[k].(name := "") == end2.members[k].(name := "")
              && (k in inp.pins ==> end1.members[k] == end2.members[k])
    {
      assert DescribesOne(inp, k, end1.members[k], Closure(inp));
      assert DescribesOne(inp, k, end2.members[k], Closure(inp));
    }
  }

  // ------------------------------------ markers that selecting an extra switches off

  /** `p` and `p[e]` are both roots, and `p` needs `d` under the marker. */
  function SwitchOff(m: Marker, env: Environment, e: Extra): Input {
    Input(
      [Requirement("p", {}, None), Requirement("p", {e}, None)],
      map["p" := Pin("p", "1")],
      map["p" := Package("1", [Some(Requirement("d", {}, Some(m)))])],
      env, "linux")
  }

  function Bare(): Request { Request(Requirement("p", {}, None), None) }

  function WithExtra(e: Extra): Request { Request(Requirement("p", {e}, None), None) }

  function Guarded(m: Marker): Request { Request(Requirement("d", {}, Some(m)), Some("p")) }

  lemma SwitchOffStart(m: Marker, env: Environment, e: Extra)
    ensures var inp := SwitchOff(m, env, e);
            Start(inp) == Work([Bare(), WithExtra(e)], map[], map[], [])
  {
    var inp := SwitchOff(m, env, e);
    assert inp.roots[1..][1..] == [];
    assert RootQueue(inp, inp.roots[1..]) == [WithExtra(e)];
  }

  lemma SwitchOffKeys(m: Marker, e: Extra)
    ensures Bare().Key() == "p" && WithExtra(e).Key() == "p" && Guarded(m).Key() == "d"
  {
  }

  lemma SwitchOffDependencies(m: Marker, env: Environment, e: Extra, extras: set<Extra>)
    ensures var inp := SwitchOff(m, env, e);
            DependencyQueue(inp, "p", inp.installed["p"].dependencies, extras)
            == if Allows(Some(m), env, extras) then [Guarded(m)] else []
  {
    assert SwitchOff(m, env, e).installed["p"].dependencies[1..] == [];
  }

  /** Popped from the end, `p[e]` is expanded first and the bare `p` is then
      skipped, so `d` is missed. */
  lemma MissedFromTheEnd(m: Marker, env: Environment, e: Extra) returns (end: Work)
    requires !Evaluate(m, env, e)
    ensures Finishes(SwitchOff(m, env, e), [1, 0], end) && "d" !in end.members
  {
    var inp := SwitchOff(m, env, e);
    SwitchOffStart(m, env, e);
    SwitchOffKeys(m, e);
    SwitchOffDependencies(m, env, e, {e});
    var w := Start(inp);
    var w1 := Pop(inp, w, 1);
    assert w1.queue == [Bare()] && w1.expanded["p"] == {e};
    end := Pop(inp, w1, 0);
    assert end.queue == [];
    assert [1, 0][1..] == [0] && [0][1..] == [];
    assert Run(inp, w1, [0], end);
  }

  lemma FrontFirst(m: Marker, env: Environment, e: Extra)
    requires Evaluate(m, env, "")
    ensures var w1 := Pop(SwitchOff(m, env, e), Start(SwitchOff(m, env, e)), 0);
            w1.queue == [WithExtra(e), Guarded(m)] && w1.expanded.Keys == {"p"} && w1.expanded["p"] == {}
  {
    SwitchOffStart(m, env, e);
    SwitchOffKeys(m, e);
    SwitchOffDependencies(m, env, e, {});
  }

  lemma FrontLast(m: Marker, env: Environment, e: Extra, w2: Work)
    requires !Evaluate(m, env, e) && w2.queue == [WithExtra(e)] && "d" in w2.members
    ensures Pop(SwitchOff(m, env, e), w2, 0).queue == [] && "d" in Pop(SwitchOff(m, env, e), w2, 0).members
  {
    SwitchOffKeys(m, e);
    SwitchOffDependencies(m, env, e, {e});
  }

  /** Popped from the front, `d` is found. */
  lemma FoundFromTheFront(m: Marker, env: Environment, e: Extra) returns (end: Work)
    requires Evaluate(m, env, "") && !Evaluate(m, env, e)
    ensures Finishes(SwitchOff(m, env, e), [0, 1, 0], end) && "d" in end.members
  {
    hide Start, DependencyQueue, Normalize;
    var inp := SwitchOff(m, env, e);
    var w := Start(inp);
    SwitchOffStart(m, env, e);
    SwitchOffKeys(m, e);
    FrontFirst(m, env, e);
    var w1 := Pop(inp, w, 0);
    var w2 := Pop(inp, w1, 1);
    assert w2.queue == [WithExtra(e)] && "d" in w2.members;
    FrontLast(m, env, e, w2);
    end := Pop(inp, w2, 0);
    assert [0, 1, 0][1..] == [1, 0] && [1, 0][1..] == [0] && [0][1..] == [];
    assert Run(inp, w2, [0], end);
    assert Run(inp, w1, [1, 0], end);
  }

  /** Such a marker makes the result depend on the order, and the order the code
      uses misses a member of the closure. */
  lemma SwitchedOffMarkerMisses(m: Marker, env: Environment, e: Extra)
    returns (missed: Work, found: Work)
    requires Evaluate(m, env, "") && !Evaluate(m, env, e)
    ensures Finishes(SwitchOff(m, env, e), [1, 0], missed)
    ensures Finishes(SwitchOff(m, env, e), [0, 1, 0], found)
    ensures "d" !in missed.members && "d" in found.members
    ensures !Describes(SwitchOff(m, env, e), missed.members, Closure(SwitchOff(m, env, e)))
  {
    var inp := SwitchOff(m, env, e);
    missed := MissedFromTheEnd(m, env, e);
    found := FoundFromTheFront(m, env, e);
    ClosureIsLeast(inp);
    SwitchOffKeys(m, e);
    assert inp.roots[0] == Bare().requirement;
    assert Bare() in RootRequests(inp);
    assert inp.installed["p"].dependencies[0] == Some(Guarded(m).requirement);
    assert Guarded(m) in Requested(inp, "p", {});
    assert Guarded(m) in Closure(inp);
  }

  ghost predicate OnlyMarker(inp: Input, m: Marker) {
    forall k, d :: k in inp.installed && d in inp.installed[k].dependencies && d.Some?
      ==> d.value.marker == None || d.value.marker == Some(m)
  }

  ghost predicate SafeOn(inp: Input) {
    forall picks, end :: Finishes(inp, picks, end) ==> Describes(inp, end.members, Closure(inp))
  }

  lemma MonotoneIsSafe(inp: Input, m: Marker)
    requires Monotone(Some(m), inp.env) && OnlyMarker(inp, m)
    ensures SafeOn(inp)
  {
    hide Finishes, Describes;
    forall picks, end | Finishes(inp, picks, end) ensures Describes(inp, end.members, Closure(inp)) {
      AnyOrderFindsClosure(inp, picks, end);
    }
  }

  /** A marker may guard dependencies without making the result depend on the
      order exactly when no extra switches it off. */
  lemma SafeMarkerIffMonotone(m: Marker, env: Environment)
    ensures Monotone(Some(m), env)
            <==> forall inp: Input :: inp.env == env && OnlyMarker(inp, m) ==> SafeOn(inp)
  {
    if Monotone(Some(m), env) {
      forall inp: Input | inp.env == env && OnlyMarker(inp, m) ensures SafeOn(inp) { MonotoneIsSafe(inp, m); }
    } else {
      var e :| Evaluate(m, env, "") && !Evaluate(m, env, e);
      var missed, found := SwitchedOffMarkerMisses(m, env, e);
      assert OnlyMarker(SwitchOff(m, env, e), m);
      assert !SafeOn(SwitchOff(m, env, e));
    }
  }

  /** Markers that only ask for named extras are safe. */
  lemma PositiveMarkersAreSafe(m: Marker, env: Environment)
    requires Positive(m)
    ensures Monotone(Some(m), env)
  {
    if Evaluate(m, env, "") {
      forall e ensures Evaluate(m, env, e) { PositiveKeepsTruth(m, env, e); }
    }
  }

  // ------------------------------------------------------------- the algorithm

  method EnqueueRoots(inp: Input) returns (queue: seq<Request>)
    ensures queue == RootQueue(inp, inp.roots)
  {
    queue := [];
    for i := 0 to |inp.roots|
      invariant queue + RootQueue(inp, inp.roots[i..]) == RootQueue(inp, inp.roots)
    {
      assert inp.roots[i..][1..] == inp.roots[i + 1..];
      if Allows(inp.roots[i].marker, inp.env, {}) {
        queue := queue + [Request(inp.roots[i], None)];
      }
    }
    assert inp.roots[|inp.roots|..] == [];
  }

  /** What a resolution says when these are the requests it reached: the members they
      describe, or the broken packages among them. */
  ghost predicate Explains(inp: Input, r: Result<map<Name, Member>, seq<Problem>>, reached: set<Request>) {
    && (r.Success? <==> BrokenIn(inp, reached) == {})
    && (r.Success? ==> Describes(inp, r.value, reached))
    && (r.Failure? ==> Blamed(r.error) == BrokenIn(inp, reached) && forall p :: p in r.error ==> Truthful(inp, p))
  }

  /** Every root that the environment wants and that names a pin, however it is spelled, is
      a direct member under the key of that pin, with its version, and that version is
      installed. */
  ghost predicate RootsArePinned(inp: Input, members: map<Name, Member>) {
    forall r, k :: r in inp.roots && k in inp.pins ==> RootIsPinned(inp, members, r, k)
  }

  ghost predicate RootIsPinned(inp: Input, members: map<Name, Member>, r: Requirement, k: Name)
    requires k in inp.pins
  {
    Canonical(k) && Alike(r.name, k) && (r.marker.None? || Evaluate(r.marker.value, inp.env, "")) ==>
      && k in members && members[k].pinned && members[k].direct
      && members[k].name == inp.pins[k].name && members[k].version == Some(inp.pins[k].version)
      && k in inp.installed && inp.installed[k].version == inp.pins[k].version
  }

  lemma ReachedRootsArePinned(inp: Input, members: map<Name, Member>, reached: set<Request>)
    requires Describes(inp, members, reached) && BrokenIn(inp, reached) == {} && RootRequests(inp) <= reached
    ensures RootsArePinned(inp, members)
  {
    forall r, k | r in inp.roots && k in inp.pins ensures RootIsPinned(inp, members, r, k) {
      if Canonical(k) && Alike(r.name, k) && Allows(r.marker, inp.env, {}) {
        NormalizeIffAlike(r.name, k);
        CanonicalIsKept(k);
        var q := Request(r, None);
        assert q in RootRequests(inp) && q.Key() == k && q in reached;
        assert Broken(inp, k) ==> k in BrokenIn(inp, reached);
      }
    }
  }

  /** The work list loop: it never reaches more than the closure, and exactly the
      closure when the markers are safe. */
  method Resolve(inp: Input) returns (r: Result<map<Name, Member>, seq<Problem>>)
    ensures exists reached :: reached <= Closure(inp) && Explains(inp, r, reached)
    ensures MonotoneMetadata(inp) ==> Explains(inp, r, Closure(inp))
    ensures r.Success? ==> RootsArePinned(inp, r.value)
  {
    hide RootsArePinned, RootRequests, Inv, Pop, Unexpanded, Describes, BrokenIn, Blamed, Closure, MonotoneMetadata,
      RootQueue;
    var queue := EnqueueRoots(inp);
    var members: map<Name, Member> := map[];
    var expanded: map<Name, set<Extra>> := map[];
    var problems: seq<Problem> := [];
    ghost var reached := {};
    StartInv(inp);
    assert Work(queue, members, expanded, problems) == Start(inp);
    while queue != []
      invariant Inv(inp, Work(queue, members, expanded, problems), reached)
      decreases Unexpanded(inp, Work(queue, members, expanded, problems)), |queue|
    {
      ghost var w := Work(queue, members, expanded, problems);
      ghost var q := queue[|queue| - 1];
      PopKeepsInv(inp, w, reached, |queue| - 1);
      PopDecreases(inp, w, reached, |queue| - 1);
      queue, members, expanded, problems := Turn(inp, queue, members, expanded, problems);
      reached := reached + {q};
    }
    EmptyIsClosure(inp, Work(queue, members, expanded, problems), reached);
    EmptyBlames(inp, Work(queue, members, expanded, problems), reached);
    EmptyReachesRoots(inp, Work(queue, members, expanded, problems), reached);
    r := if problems != [] then Failure(problems) else Success(members);
    assert Explains(inp, r, reached);
    if r.Success? { ReachedRootsArePinned(inp, members, reached); }
  }

  lemma EmptyReachesRoots(inp: Input, w: Work, done: set<Request>)
    requires Inv(inp, w, done) && w.queue == []
    ensures RootRequests(inp) <= done
  {
  }

  /** One turn of the loop: pops the end of the queue. */
  method Turn(inp: Input, queue0: seq<Request>, members0: map<Name, Member>,
              expanded0: map<Name, set<Extra>>, problems0: seq<Problem>)
    returns (queue: seq<Request>, members: map<Name, Member>,
             expanded: map<Name, set<Extra>>, problems: seq<Problem>)
    requires queue0 != []
    ensures Work(queue, members, expanded, problems)
            == Pop(inp, Work(queue0, members0, expanded0, problems0), |queue0| - 1)
  {
    expanded, problems := expanded0, problems0;
    var q := queue0[|queue0| - 1];
    queue := queue0[..|queue0| - 1];
    assert queue == queue0[..|queue0| - 1] + queue0[|queue0| - 1 + 1..];
    var k := q.Key();
    var member := if k in members0 then members0[k] else Fresh(inp, q);
    member := member.(platforms := member.platforms + {inp.platform});
    if q.parent.None? {
      member := member.(direct := true);
    } else {
      member := member.(requiredBy := member.requiredBy + {q.parent.value});
    }
    members := members0[k := member];
    if k !in inp.pins {
      return;
    }
    var extras := q.requirement.extras;
    if k in expanded && extras <= expanded[k] {
      return;
    }
    expanded := expanded[k := Already(expanded, k) + extras];
    if k !in inp.installed {
      problems := problems + [NotInstalled(k)];
    } else if inp.installed[k].version != inp.pins[k].version {
      problems := problems + [VersionSkew(k, inp.installed[k].version)];
    } else {
      queue := Enqueue(inp, queue, k, inp.installed[k].dependencies, extras);
    }
  }

  method Enqueue(inp: Input, queue: seq<Request>, k: Name, specs: seq<Option<Requirement>>, extras: set<Extra>)
    returns (queue': seq<Request>)
    ensures queue' == queue + DependencyQueue(inp, k, specs, extras)
  {
    queue' := queue;
    for i := 0 to |specs|
      invariant queue' + DependencyQueue(inp, k, specs[i..], extras) == queue + DependencyQueue(inp, k, specs, extras)
    {
      assert specs[i..][1..] == specs[i + 1..];
      if specs[i].Some? && Allows(specs[i].value.marker, inp.env, extras) {
        queue' := queue' + [Request(specs[i].value, Some(k))];
      }
    }
    assert specs[|specs|..] == [];
  }
}
