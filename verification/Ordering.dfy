/**
 The recommended execution order of a change plan
 (src/founderos_atlas/compass/engine.py): a greedy topological sort that
 reports and breaks dependency cycles.
 */
module ChangeOrdering {
  import opened Basics

  type Id = string

  /** Device and title are the case-folded spellings the engine compares. */
  datatype Change = Change(id: Id, device: string, title: string, isUpgrade: bool)

  datatype Analysis = Analysis(id: Id, riskScore: int, blastDevices: seq<string>)

  datatype Dependency = Dependency(before: Id, after: Id)

  datatype Step = Step(order: nat, id: Id, separateWindow: bool)

  // --------------------------------------------------------------- sort key

  datatype Key = Key(window: int, risk: int, blast: int, title: string, id: Id)

  predicate StringLess(a: string, b: string) {
    if b == "" then false
    else if a == "" then true
    else a[0] < b[0] || (a[0] == b[0] && StringLess(a[1..], b[1..]))
  }

  predicate Less(a: Key, b: Key) {
    if a.window != b.window then a.window < b.window
    else if a.risk != b.risk then a.risk < b.risk
    else if a.blast != b.blast then a.blast < b.blast
    else if a.title != b.title then StringLess(a.title, b.title)
    else StringLess(a.id, b.id)
  }

  lemma {:induction false} StringOrder(a: string, b: string)
    ensures a != b ==> StringLess(a, b) != StringLess(b, a)
    ensures !StringLess(a, a)
  {
    if a != "" && b != "" {
      StringOrder(a[1..], b[1..]);
      if a[0] == b[0] && a[1..] == b[1..] {
        assert a == [a[0]] + a[1..] && b == [b[0]] + b[1..];
      }
    } else if a != "" {
      StringOrder(a[1..], "");
    }
  }

  lemma {:induction false} StringTransitive(a: string, b: string, c: string)
    requires StringLess(a, b) && StringLess(b, c)
    ensures StringLess(a, c)
  {
    if a != "" && a[0] == b[0] == c[0] {
      StringTransitive(a[1..], b[1..], c[1..]);
    }
  }

  /** The sort key is a strict total order on keys with different ids. */
  lemma KeyOrder(a: Key, b: Key)
    ensures a.id != b.id ==> Less(a, b) != Less(b, a)
    ensures !Less(a, a)
  {
    StringOrder(a.title, b.title);
    StringOrder(a.id, b.id);
  }

  lemma KeyTransitive(a: Key, b: Key, c: Key)
    requires Less(a, b) && Less(b, c)
    ensures Less(a, c)
  {
    if a.title != b.title && b.title != c.title && StringLess(a.title, b.title) && StringLess(b.title, c.title) {
      StringTransitive(a.title, b.title, c.title);
      StringOrder(a.title, c.title);
    }
    if StringLess(a.id, b.id) && StringLess(b.id, c.id) {
      StringTransitive(a.id, b.id, c.id);
    }
  }

  // -------------------------------------------------- the graph of one plan

  datatype Graph = Graph(keys: map<Id, Key>, edges: set<(Id, Id)>)

  ghost predicate WellFormed(g: Graph) {
    && (forall c :: c in g.keys ==> g.keys[c].id == c)
    && (forall e :: e in g.edges ==> e.0 in g.keys && e.1 in g.keys)
  }

  function Ready(g: Graph, remaining: set<Id>): set<Id> {
    set c | c in remaining && forall b :: b in remaining ==> (b, c) !in g.edges
  }

  ghost predicate IsFirst(g: Graph, s: set<Id>, c: Id)
    requires s <= g.keys.Keys
  {
    c in s && forall d :: d in s && d != c ==> Less(g.keys[c], g.keys[d])
  }

  lemma {:induction false} FirstExists(g: Graph, s: set<Id>)
    requires WellFormed(g) && s <= g.keys.Keys && s != {}
    ensures exists c :: IsFirst(g, s, c)
    decreases |s|
  {
    var x :| x in s;
    if s == {x} {
      assert IsFirst(g, s, x);
    } else {
      FirstExists(g, s - {x});
      var d :| IsFirst(g, s - {x}, d);
      KeyOrder(g.keys[x], g.keys[d]);
      if Less(g.keys[d], g.keys[x]) {
        assert IsFirst(g, s, d);
      } else {
        forall e | e in s && e != x ensures Less(g.keys[x], g.keys[e]) {
          if e != d { KeyTransitive(g.keys[x], g.keys[d], g.keys[e]); }
        }
        assert IsFirst(g, s, x);
      }
    }
  }

  lemma FirstUnique(g: Graph, s: set<Id>, c: Id, d: Id)
    requires WellFormed(g) && s <= g.keys.Keys && IsFirst(g, s, c) && IsFirst(g, s, d)
    ensures c == d
  {
    KeyOrder(g.keys[c], g.keys[d]);
  }

  ghost function First(g: Graph, s: set<Id>): (c: Id)
    requires WellFormed(g) && s <= g.keys.Keys && s != {}
    ensures IsFirst(g, s, c)
  {
    FirstExists(g, s);
    var c :| IsFirst(g, s, c);
    c
  }

  // ------------------------------------------------------ the greedy choice

  /** One position: what was chosen, what was left before, and whether a cycle
      had to be broken for it. */
  datatype Pick = Pick(id: Id, remaining: set<Id>, broke: bool)

  ghost function Choose(g: Graph, remaining: set<Id>): (p: Pick)
    requires WellFormed(g) && remaining <= g.keys.Keys && remaining != {}
    ensures p.id in remaining && p.remaining == remaining
    ensures p.broke <==> Ready(g, remaining) == {}
  {
    if Ready(g, remaining) != {} then Pick(First(g, Ready(g, remaining)), remaining, false)
    else Pick(First(g, remaining), remaining, true)
  }

  ghost function Picks(g: Graph, remaining: set<Id>): (picks: seq<Pick>)
    requires WellFormed(g) && remaining <= g.keys.Keys
    ensures |picks| == |remaining|
    ensures forall p :: p in picks ==> p.id in remaining
    decreases |remaining|
  {
    if remaining == {} then []
    else
      var p := Choose(g, remaining);
      [p] + Picks(g, remaining - {p.id})
  }

  ghost function Ids(picks: seq<Pick>): (ids: seq<Id>)
    ensures |ids| == |picks|
  {
    seq(|picks|, i requires 0 <= i < |picks| => picks[i].id)
  }

  ghost function Order(g: Graph): seq<Id>
    requires WellFormed(g)
  {
    Ids(Picks(g, g.keys.Keys))
  }

  /** What is left before position `i` is what stands from position `i` on. */
  lemma {:induction false} PicksAt(g: Graph, remaining: set<Id>, i: nat)
    requires WellFormed(g) && remaining <= g.keys.Keys && i < |remaining|
    ensures var picks := Picks(g, remaining);
            && picks[i].remaining <= remaining && picks[i].remaining != {}
            && picks[i] == Choose(g, picks[i].remaining)
            && (forall j :: i <= j < |picks| ==> picks[j].id in picks[i].remaining)
            && (forall j :: 0 <= j < i ==> picks[j].id !in picks[i].remaining)
    decreases i
  {
    hide Choose;
    var p := Choose(g, remaining);
    var rest := Picks(g, remaining - {p.id});
    assert Picks(g, remaining) == [p] + rest;
    if i > 0 {
      PicksAt(g, remaining - {p.id}, i - 1);
    }
  }

  lemma PicksUnfold(g: Graph, remaining: set<Id>)
    requires WellFormed(g) && remaining <= g.keys.Keys && remaining != {}
    ensures var p := Choose(g, remaining);
            && Picks(g, remaining) == [p] + Picks(g, remaining - {p.id})
            && Ids(Picks(g, remaining)) == [p.id] + Ids(Picks(g, remaining - {p.id}))
  {
    hide Choose;
  }

  /** Every change stands in the order exactly once. */
  lemma {:induction false} PicksArePermutation(g: Graph, remaining: set<Id>)
    requires WellFormed(g) && remaining <= g.keys.Keys
    ensures Distinct(Ids(Picks(g, remaining)))
    ensures Elements(Ids(Picks(g, remaining))) == remaining
    decreases |remaining|
  {
    if remaining != {} {
      var p := Choose(g, remaining);
      var rest := Ids(Picks(g, remaining - {p.id}));
      PicksArePermutation(g, remaining - {p.id});
      PicksUnfold(g, remaining);
      assert p.id !in Elements(rest);
      ConsElements(p.id, rest);
    }
  }

  // ---------------------------------------------------------------- cycles

  ghost predicate Walk(g: Graph, w: seq<Id>) {
    forall i :: 0 <= i < |w| - 1 ==> (w[i], w[i + 1]) in g.edges
  }

  ghost predicate Cycle(g: Graph, w: seq<Id>) {
    |w| >= 2 && w[0] == w[|w| - 1] && Walk(g, w)
  }

  ghost predicate Cyclic(g: Graph) {
    exists w :: Cycle(g, w)
  }

  /** When nothing is ready, walks that stay in the remaining changes can be
      extended backwards for ever. */
  lemma {:induction false} BlockedWalk(g: Graph, remaining: set<Id>, n: nat) returns (w: seq<Id>)
    requires remaining != {} && Ready(g, remaining) == {}
    ensures |w| == n + 1 && Walk(g, w) && forall x :: x in w ==> x in remaining
  {
    if n == 0 {
      var x :| x in remaining;
      w := [x];
    } else {
      var v := BlockedWalk(g, remaining, n - 1);
      assert v[0] !in Ready(g, remaining);
      var b :| b in remaining && (b, v[0]) in g.edges;
      w := [b] + v;
    }
  }

  lemma BlockedIsCyclic(g: Graph, remaining: set<Id>)
    requires remaining != {} && Ready(g, remaining) == {}
    ensures Cyclic(g)
  {
    var w := BlockedWalk(g, remaining, |remaining|);
    if Distinct(w) { DistinctIsBounded(w, remaining); }
    var i, j :| 0 <= i < j < |w| && w[i] == w[j];
    assert Cycle(g, w[i..j + 1]);
  }

  /** A cycle cannot be emitted without breaking it. */
  lemma {:induction false} CycleIsBroken(g: Graph, remaining: set<Id>, w: seq<Id>)
    requires WellFormed(g) && remaining <= g.keys.Keys
    requires Cycle(g, w) && forall x :: x in w ==> x in remaining
    ensures exists p :: p in Picks(g, remaining) && p.broke
    decreases |remaining|
  {
    assert w[0] in remaining;
    var p := Choose(g, remaining);
    var picks := Picks(g, remaining);
    assert picks == [p] + Picks(g, remaining - {p.id});
    assert p == picks[0];
    if !p.broke {
      assert p.id in Ready(g, remaining);
      forall x | x in w ensures x != p.id {
        var k :| 0 <= k < |w| && w[k] == x;
        var b := if k == 0 then w[|w| - 2] else w[k - 1];
        assert b in w && (b, x) in g.edges;
      }
      CycleIsBroken(g, remaining - {p.id}, w);
      var q :| q in Picks(g, remaining - {p.id}) && q.broke;
      assert q in picks;
    }
  }

  lemma CycleStaysInPlan(g: Graph, w: seq<Id>)
    requires WellFormed(g) && Cycle(g, w)
    ensures forall x :: x in w ==> x in g.keys
  {
    forall k | 0 <= k < |w| ensures w[k] in g.keys {
      if k == 0 { assert (w[0], w[0 + 1]) in g.edges; } else { assert (w[k - 1], w[k - 1 + 1]) in g.edges; }
    }
  }

  /** A cycle break happens if and only if the dependencies have a cycle. */
  lemma BrokenIffCyclic(g: Graph)
    requires WellFormed(g)
    ensures (exists p :: p in Picks(g, g.keys.Keys) && p.broke) <==> Cyclic(g)
  {
    if Cyclic(g) {
      var w :| Cycle(g, w);
      CycleStaysInPlan(g, w);
      CycleIsBroken(g, g.keys.Keys, w);
    }
    if p :| p in Picks(g, g.keys.Keys) && p.broke {
      var i :| 0 <= i < |Picks(g, g.keys.Keys)| && Picks(g, g.keys.Keys)[i] == p;
      PicksAt(g, g.keys.Keys, i);
      BlockedIsCyclic(g, p.remaining);
    }
  }

  /** A dependency is only ever violated at a reported break: unless position `i`
      broke a cycle, everything its change depends on stands before it. */
  lemma ViolationOnlyAtBreak(g: Graph, i: nat, b: Id)
    requires WellFormed(g) && i < |g.keys.Keys|
    requires (b, Picks(g, g.keys.Keys)[i].id) in g.edges
    requires !Picks(g, g.keys.Keys)[i].broke
    ensures exists j :: 0 <= j < i && Order(g)[j] == b
  {
    var picks := Picks(g, g.keys.Keys);
    var order := Order(g);
    PicksAt(g, g.keys.Keys, i);
    PicksArePermutation(g, g.keys.Keys);
    assert b in Elements(order);
    var j :| 0 <= j < |order| && order[j] == b;
    assert picks[j].id == b;
    assert picks[i].id in Ready(g, picks[i].remaining);
  }

  ghost predicate Respects(g: Graph, order: seq<Id>) {
    forall i, j :: 0 <= i <= j < |order| ==> (order[j], order[i]) !in g.edges
  }

  /** Without a cycle every dependency runs before its dependent. */
  lemma AcyclicIsRespected(g: Graph)
    requires WellFormed(g) && !Cyclic(g)
    ensures Respects(g, Order(g))
  {
    var picks := Picks(g, g.keys.Keys);
    BrokenIffCyclic(g);
    PicksArePermutation(g, g.keys.Keys);
    forall i, j | 0 <= i <= j < |picks| ensures (Order(g)[j], Order(g)[i]) !in g.edges {
      if (Order(g)[j], Order(g)[i]) in g.edges {
        assert picks[i] in picks;
        ViolationOnlyAtBreak(g, i, picks[j].id);
        assert false;
      }
    }
  }

  // ------------------------------------------------------ greedy is optimal

  ghost predicate LexAtMost(g: Graph, x: seq<Id>, y: seq<Id>)
    requires Elements(x) <= g.keys.Keys && Elements(y) <= g.keys.Keys
    decreases |x|
  {
    x == [] ||
    (y != [] &&
     (assert x[0] in Elements(x) && y[0] in Elements(y);
      assert Elements(x[1..]) <= Elements(x) && Elements(y[1..]) <= Elements(y);
      Less(g.keys[x[0]], g.keys[y[0]]) || (x[0] == y[0] && LexAtMost(g, x[1..], y[1..]))))
  }

  lemma HeadIsReady(g: Graph, remaining: set<Id>, other: seq<Id>)
    requires Elements(other) == remaining && remaining != {} && Respects(g, other)
    ensures other != [] && other[0] in Ready(g, remaining)
  {
    var x :| x in remaining;
    assert x in Elements(other);
    assert other[0] in Elements(other);
    forall b | b in remaining ensures (b, other[0]) !in g.edges {
      assert b in Elements(other);
      var j :| 0 <= j < |other| && other[j] == b;
    }
  }

  lemma TailRespects(g: Graph, remaining: set<Id>, other: seq<Id>)
    requires Distinct(other) && Elements(other) == remaining && other != [] && Respects(g, other)
    ensures Distinct(other[1..]) && Elements(other[1..]) == remaining - {other[0]} && Respects(g, other[1..])
  {
    var rest := other[1..];
    ConsElements(other[0], rest);
    assert other == [other[0]] + rest;
    assert other[0] !in rest;
    forall i, j | 0 <= i <= j < |rest| ensures (rest[j], rest[i]) !in g.edges {
      assert (other[j + 1], other[i + 1]) !in g.edges;
    }
  }

  lemma {:induction false} GreedyIsLeast(g: Graph, remaining: set<Id>, other: seq<Id>)
    requires WellFormed(g) && remaining <= g.keys.Keys && !Cyclic(g)
    requires Distinct(other) && Elements(other) == remaining && Respects(g, other)
    ensures Elements(Ids(Picks(g, remaining))) == remaining
    ensures LexAtMost(g, Ids(Picks(g, remaining)), other)
    decreases |remaining|
  {
    PicksArePermutation(g, remaining);
    if remaining != {} {
      var p := Choose(g, remaining);
      PicksUnfold(g, remaining);
      if p.broke { BlockedIsCyclic(g, remaining); }
      HeadIsReady(g, remaining, other);
      if other[0] == p.id {
        TailRespects(g, remaining, other);
        GreedyIsLeast(g, remaining - {p.id}, other[1..]);
        assert Ids(Picks(g, remaining))[1..] == Ids(Picks(g, remaining - {p.id}));
      }
    }
  }

  /** Among all orders that respect the dependencies, the recommended one is the
      least under the sort key, position by position. */
  lemma OrderIsLeast(g: Graph, other: seq<Id>)
    requires WellFormed(g) && !Cyclic(g)
    requires Distinct(other) && Elements(other) == g.keys.Keys && Respects(g, other)
    ensures Respects(g, Order(g))
    ensures Elements(Order(g)) == g.keys.Keys && LexAtMost(g, Order(g), other)
  {
    AcyclicIsRespected(g);
    GreedyIsLeast(g, g.keys.Keys, other);
  }

  // ------------------------------------------------- the graph from the inputs

  predicate SeparateWindow(blast: nat, deviceCount: nat) {
    deviceCount > 0 && blast >= 2 && 2 * blast >= deviceCount
  }

  function ChangesById(changes: seq<Change>): (m: map<Id, Change>)
    ensures m.Keys == set c | c in changes :: c.id
  {
    if changes == [] then map[]
    else
      var last := changes[|changes| - 1];
      assert changes == changes[..|changes| - 1] + [last];
      ChangesById(changes[..|changes| - 1])[last.id := last]
  }

  function AnalysesById(analyses: seq<Analysis>): (m: map<Id, Analysis>)
    ensures m.Keys == set a | a in analyses :: a.id
  {
    if analyses == [] then map[]
    else
      var last := analyses[|analyses| - 1];
      assert analyses == analyses[..|analyses| - 1] + [last];
      AnalysesById(analyses[..|analyses| - 1])[last.id := last]
  }

  function KeyOf(c: Change, a: Analysis, deviceCount: nat): Key {
    Key(if SeparateWindow(|a.blastDevices|, deviceCount) then 1 else 0,
        a.riskScore, |a.blastDevices|, c.title, c.id)
  }

  /** What the source needs of its arguments: every change has an analysis and
      dependencies name changes of the plan (it raises KeyError otherwise). */
  ghost predicate Consistent(changes: seq<Change>, analyses: seq<Analysis>, dependencies: seq<Dependency>) {
    && ChangesById(changes).Keys <= AnalysesById(analyses).Keys
    && forall d :: d in dependencies ==> d.before in ChangesById(changes) && d.after in ChangesById(changes)
  }

  ghost function GraphOf(changes: seq<Change>, analyses: seq<Analysis>, dependencies: seq<Dependency>, deviceCount: nat)
    : (g: Graph)
    requires Consistent(changes, analyses, dependencies)
    ensures g.keys.Keys == set c | c in changes :: c.id
    ensures WellFormed(g)
  {
    ChangesByIdSound(changes);
    var cs, as' := ChangesById(changes), AnalysesById(analyses);
    Graph(map c | c in cs :: KeyOf(cs[c], as'[c], deviceCount),
          set d | d in dependencies :: (d.before, d.after))
  }

  lemma {:induction false} ChangesByIdSound(changes: seq<Change>)
    ensures forall c :: c in ChangesById(changes) ==>
              ChangesById(changes)[c].id == c && ChangesById(changes)[c] in changes
  {
    if changes != [] {
      ChangesByIdSound(changes[..|changes| - 1]);
    }
  }

  lemma {:induction false} AnalysesByIdSound(analyses: seq<Analysis>)
    ensures forall c :: c in AnalysesById(analyses) ==>
              AnalysesById(analyses)[c].id == c && AnalysesById(analyses)[c] in analyses
  {
    if analyses != [] {
      AnalysesByIdSound(analyses[..|analyses| - 1]);
    }
  }

  ghost predicate UniqueChanges(changes: seq<Change>) {
    forall c, d :: c in changes && d in changes && c.id == d.id ==> c == d
  }

  ghost predicate UniqueAnalyses(analyses: seq<Analysis>) {
    forall a, b :: a in analyses && b in analyses && a.id == b.id ==> a == b
  }

  lemma SameChanges(changes: seq<Change>, changes': seq<Change>)
    requires UniqueChanges(changes) && Elements(changes) == Elements(changes')
    ensures ChangesById(changes) == ChangesById(changes')
  {
    ChangesByIdSound(changes);
    ChangesByIdSound(changes');
    forall c ensures c in changes <==> c in changes' {
      assert c in Elements(changes) <==> c in Elements(changes');
    }
  }

  lemma SameAnalyses(analyses: seq<Analysis>, analyses': seq<Analysis>)
    requires UniqueAnalyses(analyses) && Elements(analyses) == Elements(analyses')
    ensures AnalysesById(analyses) == AnalysesById(analyses')
  {
    AnalysesByIdSound(analyses);
    AnalysesByIdSound(analyses');
    forall a ensures a in analyses <==> a in analyses' {
      assert a in Elements(analyses) <==> a in Elements(analyses');
    }
  }

  /** Rearranging changes, analyses or dependencies, or repeating them, leaves the
      graph unchanged, and with it the whole recommendation. */
  lemma ArrangementIsIrrelevant(
    changes: seq<Change>, analyses: seq<Analysis>, dependencies: seq<Dependency>,
    changes': seq<Change>, analyses': seq<Analysis>, dependencies': seq<Dependency>, deviceCount: nat)
    requires UniqueChanges(changes) && UniqueAnalyses(analyses)
    requires Elements(changes) == Elements(changes') && Elements(analyses) == Elements(analyses')
    requires Elements(dependencies) == Elements(dependencies')
    requires Consistent(changes, analyses, dependencies)
    ensures Consistent(changes', analyses', dependencies')
    ensures GraphOf(changes, analyses, dependencies, deviceCount)
            == GraphOf(changes', analyses', dependencies', deviceCount)
  {
    SameChanges(changes, changes');
    SameAnalyses(analyses, analyses');
    forall d ensures d in dependencies <==> d in dependencies' {
      assert d in Elements(dependencies) <==> d in Elements(dependencies');
    }
  }

  // ------------------------------------------------ the order, in terms of the plan

  /** The text stands before the other in the dictionary: they agree up to some place,
      and there it ends or has the smaller character. */
  ghost predicate DictionaryBefore(a: string, b: string) {
    exists k: nat :: k <= |a| && k < |b| && a[..k] == b[..k] && (k == |a| || a[k] < b[k])
  }

  lemma {:induction false} StringLessIff(a: string, b: string)
    ensures StringLess(a, b) <==> DictionaryBefore(a, b)
  {
    if a != "" && b != "" {
      StringLessIff(a[1..], b[1..]);
      if a[0] == b[0] {
        if k: nat :| k <= |a| && k < |b| && a[..k] == b[..k] && (k == |a| || a[k] < b[k]) {
          assert k > 0;
          assert a[1..][..k - 1] == a[..k][1..] && b[1..][..k - 1] == b[..k][1..];
          assert k == |a| || a[1..][k - 1] < b[1..][k - 1];
          assert DictionaryBefore(a[1..], b[1..]);
        }
        if k: nat :| k <= |a| - 1 && k < |b| - 1 && a[1..][..k] == b[1..][..k]
                     && (k == |a| - 1 || a[1..][k] < b[1..][k]) {
          assert a[..k + 1] == [a[0]] + a[1..][..k] && b[..k + 1] == [b[0]] + b[1..][..k];
          assert DictionaryBefore(a, b);
        }
      } else {
        if a[0] < b[0] { assert a[..0] == b[..0]; }
        if DictionaryBefore(a, b) {
          var k: nat :| k <= |a| && k < |b| && a[..k] == b[..k] && (k == |a| || a[k] < b[k]);
          assert k == 0 || a[..k][0] == b[..k][0];
        }
      }
    } else if b != "" {
      assert a[..0] == b[..0];
    }
  }

  /** The blast reaches two devices or more, and half of those there are. */
  predicate LargeBlast(a: Analysis, deviceCount: nat) {
    deviceCount > 0 && |a.blastDevices| >= 2 && |a.blastDevices| + |a.blastDevices| >= deviceCount
  }

  /** Small blasts before large ones; then by rising risk; then by fewer devices; then by
      title, and by identifier. */
  ghost predicate Safer(c: Change, a: Analysis, d: Change, b: Analysis, deviceCount: nat) {
    || (!LargeBlast(a, deviceCount) && LargeBlast(b, deviceCount))
    || (&& (LargeBlast(a, deviceCount) <==> LargeBlast(b, deviceCount))
        && (|| a.riskScore < b.riskScore
            || (a.riskScore == b.riskScore && |a.blastDevices| < |b.blastDevices|)
            || (&& a.riskScore == b.riskScore && |a.blastDevices| == |b.blastDevices|
                && (DictionaryBefore(c.title, d.title) || (c.title == d.title && DictionaryBefore(c.id, d.id))))))
  }

  lemma LessIsSafer(c: Change, a: Analysis, d: Change, b: Analysis, deviceCount: nat)
    ensures Less(KeyOf(c, a, deviceCount), KeyOf(d, b, deviceCount)) <==> Safer(c, a, d, b, deviceCount)
  {
    StringLessIff(c.title, d.title);
    StringLessIff(c.id, d.id);
    StringOrder(c.title, c.title);
    hide StringLess, DictionaryBefore;
  }

  /** Everything the change depends on stands among the first `n` steps. */
  ghost predicate DoneBefore(steps: seq<Step>, n: nat, id: Id, dependencies: seq<Dependency>)
    requires n <= |steps|
  {
    forall d :: d in dependencies && d.after == id ==> exists k :: 0 <= k < n && steps[k].id == d.before
  }

  /** None of the steps from `n` on could run: each waits for another of them. */
  ghost predicate Stuck(steps: seq<Step>, n: nat, dependencies: seq<Dependency>)
    requires n <= |steps|
  {
    forall k :: n <= k < |steps| ==> !DoneBefore(steps, n, steps[k].id, dependencies)
  }

  /** The steps are numbered from one, name every change once and flag exactly the large
      blasts.  A step runs when everything it depends on is done, unless all that are
      left wait for each other; and it is safer than every later one that could have run
      at its place, or than all of them when none could. */
  ghost predicate Recommends(steps: seq<Step>, cs: map<Id, Change>, as': map<Id, Analysis>,
                             dependencies: seq<Dependency>, deviceCount: nat)
    requires cs.Keys <= as'.Keys
  {
    && |steps| == |cs.Keys|
    && (forall i, j :: 0 <= i < j < |steps| ==> steps[i].id != steps[j].id)
    && (forall i :: 0 <= i < |steps| ==> steps[i].id in cs)
    && (forall i :: 0 <= i < |steps| ==> StepStands(steps, i, as', dependencies, deviceCount))
    && forall i, j :: 0 <= i < j < |steps| && CouldRun(steps, i, j, dependencies) ==>
         Safer(cs[steps[i].id], as'[steps[i].id], cs[steps[j].id], as'[steps[j].id], deviceCount)
  }

  ghost predicate StepStands(steps: seq<Step>, i: nat, as': map<Id, Analysis>, dependencies: seq<Dependency>,
                             deviceCount: nat)
    requires i < |steps| && steps[i].id in as'
  {
    && steps[i].order == i + 1
    && (steps[i].separateWindow <==> LargeBlast(as'[steps[i].id], deviceCount))
    && CouldRun(steps, i, i, dependencies)
  }

  /** Step `j` could have run at place `i`, or no step could. */
  ghost predicate CouldRun(steps: seq<Step>, i: nat, j: nat, dependencies: seq<Dependency>)
    requires i <= j < |steps|
  {
    DoneBefore(steps, i, steps[j].id, dependencies) || Stuck(steps, i, dependencies)
  }

  /** What has been picked before position `i` is what stands before it, and a change that
      is left is ready exactly when everything it depends on has been picked. */
  lemma ReadyAt(g: Graph, i: nat, c: Id)
    requires WellFormed(g) && i < |g.keys.Keys| && c in Picks(g, g.keys.Keys)[i].remaining
    ensures var picks := Picks(g, g.keys.Keys);
            c in Ready(g, picks[i].remaining) <==>
            forall b :: (b, c) in g.edges ==> exists k :: 0 <= k < i && picks[k].id == b
  {
    var picks := Picks(g, g.keys.Keys);
    PicksAt(g, g.keys.Keys, i);
    PicksArePermutation(g, g.keys.Keys);
    var left := picks[i].remaining;
    forall b | b in g.keys ensures b in left <==> !exists k :: 0 <= k < i && picks[k].id == b {
      assert b in Elements(Ids(picks));
      var k :| 0 <= k < |picks| && Ids(picks)[k] == b;
      assert picks[k].id == b;
    }
  }

  lemma PickIsFirst(g: Graph, i: nat)
    requires WellFormed(g) && i < |g.keys.Keys|
    ensures var p := Picks(g, g.keys.Keys)[i];
            && p.remaining <= g.keys.Keys
            && (if Ready(g, p.remaining) == {} then IsFirst(g, p.remaining, p.id)
                else IsFirst(g, Ready(g, p.remaining), p.id))
  {
    PicksAt(g, g.keys.Keys, i);
    hide Picks, Ready;
  }

  lemma DoneIsReady(g: Graph, dependencies: seq<Dependency>, steps: seq<Step>, i: nat, j: nat)
    requires WellFormed(g) && g.edges == (set d | d in dependencies :: (d.before, d.after))
    requires Presents(g, steps, Picks(g, g.keys.Keys)) && i <= j < |g.keys.Keys|
    ensures DoneBefore(steps, i, steps[j].id, dependencies) <==>
            steps[j].id in Ready(g, Picks(g, g.keys.Keys)[i].remaining)
  {
    var picks := Picks(g, g.keys.Keys);
    var c := picks[j].id;
    PicksAt(g, g.keys.Keys, i);
    ReadyAt(g, i, c);
    hide Picks, Ready;
    assert forall k :: 0 <= k < i ==> steps[k].id == picks[k].id;
    forall b ensures (b, c) in g.edges <==> Dependency(b, c) in dependencies {}
  }

  lemma StuckIsBlocked(g: Graph, dependencies: seq<Dependency>, steps: seq<Step>, i: nat)
    requires WellFormed(g) && g.edges == (set d | d in dependencies :: (d.before, d.after))
    requires Presents(g, steps, Picks(g, g.keys.Keys)) && i < |g.keys.Keys|
    ensures Stuck(steps, i, dependencies) <==> Ready(g, Picks(g, g.keys.Keys)[i].remaining) == {}
  {
    var picks := Picks(g, g.keys.Keys);
    var left := picks[i].remaining;
    PicksAt(g, g.keys.Keys, i);
    PicksArePermutation(g, g.keys.Keys);
    forall k | i <= k < |steps|
      ensures DoneBefore(steps, i, steps[k].id, dependencies) <==> picks[k].id in Ready(g, left)
    {
      DoneIsReady(g, dependencies, steps, i, k);
    }
    hide DoneBefore, Picks;
    if c :| c in Ready(g, left) {
      assert c in Elements(Ids(picks));
      var k :| 0 <= k < |picks| && Ids(picks)[k] == c;
      assert picks[k].id == c;
    }
  }

  lemma StepIsFirst(g: Graph, dependencies: seq<Dependency>, steps: seq<Step>, i: nat, j: nat)
    requires WellFormed(g) && g.edges == (set d | d in dependencies :: (d.before, d.after))
    requires Presents(g, steps, Picks(g, g.keys.Keys)) && i <= j < |g.keys.Keys|
    ensures CouldRun(steps, i, i, dependencies)
    ensures steps[i].id in g.keys && steps[j].id in g.keys
    ensures i < j && CouldRun(steps, i, j, dependencies) ==> Less(g.keys[steps[i].id], g.keys[steps[j].id])
  {
    PicksAt(g, g.keys.Keys, i);
    PicksArePermutation(g, g.keys.Keys);
    assert Ids(Picks(g, g.keys.Keys))[i] == steps[i].id && Ids(Picks(g, g.keys.Keys))[j] == steps[j].id;
    PickIsFirst(g, i);
    DoneIsReady(g, dependencies, steps, i, i);
    DoneIsReady(g, dependencies, steps, i, j);
    StuckIsBlocked(g, dependencies, steps, i);
    hide Picks, Ready, DoneBefore, Stuck, Less;
  }

  lemma StepsAreDistinct(g: Graph, steps: seq<Step>)
    requires WellFormed(g) && Presents(g, steps, Picks(g, g.keys.Keys))
    ensures |steps| == |g.keys.Keys|
    ensures forall i, j :: 0 <= i < j < |steps| ==> steps[i].id != steps[j].id
    ensures forall i :: 0 <= i < |steps| ==> steps[i].id in g.keys && steps[i].order == i + 1
    ensures forall i :: 0 <= i < |steps| ==> (steps[i].separateWindow <==> g.keys[steps[i].id].window == 1)
  {
    PicksArePermutation(g, g.keys.Keys);
    assert forall i :: 0 <= i < |steps| ==> Ids(Picks(g, g.keys.Keys))[i] == steps[i].id;
  }

  /** The keys of the graph are those of the changes and analyses. */
  ghost predicate Keyed(g: Graph, cs: map<Id, Change>, as': map<Id, Analysis>, deviceCount: nat) {
    && g.keys.Keys == cs.Keys && cs.Keys <= as'.Keys
    && forall c :: c in cs ==> g.keys[c] == KeyOf(cs[c], as'[c], deviceCount)
  }

  lemma PresentedRecommends(g: Graph, cs: map<Id, Change>, as': map<Id, Analysis>, dependencies: seq<Dependency>,
                            deviceCount: nat, steps: seq<Step>)
    requires WellFormed(g) && g.edges == (set d | d in dependencies :: (d.before, d.after))
    requires Keyed(g, cs, as', deviceCount) && Presents(g, steps, Picks(g, g.keys.Keys))
    ensures Recommends(steps, cs, as', dependencies, deviceCount)
  {
    StepsAreDistinct(g, steps);
    hide Less, KeyOf, Safer, Picks, CouldRun, LargeBlast, Presents;
    forall i | 0 <= i < |steps| ensures StepStands(steps, i, as', dependencies, deviceCount) {
      WindowIsLarge(cs[steps[i].id], as'[steps[i].id], deviceCount);
      StepIsFirst(g, dependencies, steps, i, i);
    }
    forall i, j | 0 <= i < j < |steps| && CouldRun(steps, i, j, dependencies)
      ensures Safer(cs[steps[i].id], as'[steps[i].id], cs[steps[j].id], as'[steps[j].id], deviceCount)
    {
      StepIsFirst(g, dependencies, steps, i, j);
      LessIsSafer(cs[steps[i].id], as'[steps[i].id], cs[steps[j].id], as'[steps[j].id], deviceCount);
    }
  }

  lemma WindowIsLarge(c: Change, a: Analysis, deviceCount: nat)
    ensures KeyOf(c, a, deviceCount).window == 1 <==> LargeBlast(a, deviceCount)
  {
  }

  // -------------------------------------------------------- the two algorithms

  /** The first of a non-empty set under the sort key. */
  method Foremost(g: Graph, s: set<Id>) returns (c: Id)
    requires WellFormed(g) && s <= g.keys.Keys && s != {}
    ensures c == First(g, s)
  {
    c :| c in s;
    var rest := s - {c};
    while rest != {}
      invariant rest <= s && c in s && c !in rest
      invariant forall d :: d in s - rest && d != c ==> Less(g.keys[c], g.keys[d])
      decreases rest
    {
      var d :| d in rest;
      KeyOrder(g.keys[c], g.keys[d]);
      if Less(g.keys[d], g.keys[c]) {
        forall e | e in s - rest && e != c ensures Less(g.keys[d], g.keys[e]) {
          KeyTransitive(g.keys[d], g.keys[c], g.keys[e]);
        }
        c := d;
      }
      rest := rest - {d};
    }
    FirstUnique(g, s, c, First(g, s));
  }

  /** The steps that present these picks, numbered from `from + 1`. */
  ghost predicate Presents(g: Graph, steps: seq<Step>, picks: seq<Pick>)
    requires forall p :: p in picks ==> p.id in g.keys
  {
    && |steps| == |picks|
    && forall i :: 0 <= i < |picks| ==>
         steps[i] == Step(i + 1, picks[i].id, g.keys[picks[i].id].window == 1)
  }

  /** The changes each circular-dependency unknown names, in order. */
  ghost function Reported(picks: seq<Pick>): seq<set<Id>> {
    if picks == [] then []
    else Reported(picks[..|picks| - 1]) +
         (if picks[|picks| - 1].broke then [picks[|picks| - 1].remaining] else [])
  }

  lemma {:induction false} ReportedIffBroke(picks: seq<Pick>)
    ensures Reported(picks) != [] <==> exists p :: p in picks && p.broke
  {
    if picks != [] {
      ReportedIffBroke(picks[..|picks| - 1]);
      assert picks == picks[..|picks| - 1] + [picks[|picks| - 1]];
    }
  }

  lemma NothingReported()
    ensures Reported([]) == []
  {
  }

  lemma ReportedSnoc(picks: seq<Pick>, p: Pick)
    ensures Reported(picks + [p]) == Reported(picks) + (if p.broke then [p.remaining] else [])
  {
    assert (picks + [p])[..|picks|] == picks;
  }

  /** The least ready change; when none is ready, the least of all. */
  method Select(g: Graph, remaining: set<Id>) returns (pick: Pick)
    requires WellFormed(g) && remaining <= g.keys.Keys && remaining != {}
    ensures pick == Choose(g, remaining)
  {
    var ready := Ready(g, remaining);
    if ready != {} {
      var c := Foremost(g, ready);
      pick := Pick(c, remaining, false);
    } else {
      var c := Foremost(g, remaining);
      pick := Pick(c, remaining, true);
    }
  }

  /** The loop that shrinks `remaining`. */
  method Sequence(g: Graph) returns (steps: seq<Step>, unknowns: seq<set<Id>>)
    requires WellFormed(g)
    ensures Presents(g, steps, Picks(g, g.keys.Keys))
    ensures unknowns == Reported(Picks(g, g.keys.Keys))
  {
    NothingReported();
    hide Reported;
    ghost var all := Picks(g, g.keys.Keys);
    ghost var picks: seq<Pick> := [];
    var remaining := g.keys.Keys;
    steps, unknowns := [], [];
    while remaining != {}
      invariant remaining <= g.keys.Keys
      invariant all == picks + Picks(g, remaining)
      invariant forall p :: p in picks ==> p.id in g.keys
      invariant Presents(g, steps, picks)
      invariant unknowns == Reported(picks)
      decreases |remaining|
    {
      var pick := Select(g, remaining);
      PicksUnfold(g, remaining);
      ReportedSnoc(picks, pick);
      Shift(picks, pick, Picks(g, remaining - {pick.id}));
      if pick.broke {
        unknowns := unknowns + [pick.remaining];
      }
      steps := steps + [Step(|steps| + 1, pick.id, g.keys[pick.id].window == 1)];
      picks := picks + [pick];
      remaining := remaining - {pick.id};
    }
    assert picks + [] == picks;
  }

  lemma Shift(done: seq<Pick>, p: Pick, rest: seq<Pick>)
    ensures done + ([p] + rest) == (done + [p]) + rest
  {
  }

  method RecommendOrder(changes: seq<Change>, analyses: seq<Analysis>, dependencies: seq<Dependency>, deviceCount: nat)
    returns (steps: seq<Step>, unknowns: seq<set<Id>>)
    requires Consistent(changes, analyses, dependencies)
    ensures var g := GraphOf(changes, analyses, dependencies, deviceCount);
            && Presents(g, steps, Picks(g, g.keys.Keys))
            && unknowns == Reported(Picks(g, g.keys.Keys))
            && (unknowns != [] <==> Cyclic(g))
    ensures Recommends(steps, ChangesById(changes), AnalysesById(analyses), dependencies, deviceCount)
  {
    hide Recommends;
    var byId, changesById := AnalysesById(analyses), ChangesById(changes);
    var g := Graph(map c | c in changesById :: KeyOf(changesById[c], byId[c], deviceCount),
                   set d | d in dependencies :: (d.before, d.after));
    assert g == GraphOf(changes, analyses, dependencies, deviceCount);
    steps, unknowns := Sequence(g);
    ReportedIffBroke(Picks(g, g.keys.Keys));
    BrokenIffCyclic(g);
    PresentedRecommends(g, changesById, byId, dependencies, deviceCount, steps);
  }

  /** `b` must run before `a`: the impact of `a` reaches the device of `b`, or `a`
      reloads it. */
  predicate Rules(blast: seq<string>, b: Change, a: Change) {
    a.id != b.id && (b.device in blast || (a.isUpgrade && b.device == a.device))
  }

  ghost predicate Evident(afters: seq<Change>, changes: seq<Change>, analyses: seq<Analysis>, d: Dependency) {
    exists a, b :: a in afters && b in changes && EvidentPair(analyses, b, a) && d == Dependency(b.id, a.id)
  }

  ghost predicate EvidentPair(analyses: seq<Analysis>, b: Change, a: Change) {
    a.id in AnalysesById(analyses) && Rules(AnalysesById(analyses)[a.id].blastDevices, b, a)
  }

  /** One change must wait for another one of the plan: its impact reaches the device of the
      other, or it upgrades that device. */
  ghost predicate MustWait(changes: seq<Change>, analyses: map<Id, Analysis>, d: Dependency)
    requires forall c :: c in changes ==> c.id in analyses
  {
    exists first, later ::
      && first in changes && later in changes && first.id == d.before && later.id == d.after
      && d.before != d.after
      && (first.device in analyses[later.id].blastDevices || (later.isUpgrade && later.device == first.device))
  }

  lemma EvidentMeans(changes: seq<Change>, analyses: seq<Analysis>, d: Dependency)
    requires ChangesById(changes).Keys <= AnalysesById(analyses).Keys
    ensures forall c :: c in changes ==> c.id in AnalysesById(analyses)
    ensures Evident(changes, changes, analyses, d) <==> MustWait(changes, AnalysesById(analyses), d)
  {
    assert forall c :: c in changes ==> c.id in ChangesById(changes);
    if Evident(changes, changes, analyses, d) {
      var a, b :| a in changes && b in changes && EvidentPair(analyses, b, a) && d == Dependency(b.id, a.id);
      assert b in changes && a in changes && b.id == d.before && a.id == d.after;
    }
    if MustWait(changes, AnalysesById(analyses), d) {
      var first, later :|
        && first in changes && later in changes && first.id == d.before && later.id == d.after
        && d.before != d.after
        && (first.device in AnalysesById(analyses)[later.id].blastDevices
            || (later.isUpgrade && later.device == first.device));
      assert EvidentPair(analyses, first, later) && d == Dependency(first.id, later.id);
    }
  }

  lemma EvidentStep(afters: seq<Change>, a: Change, changes: seq<Change>, analyses: seq<Analysis>, d: Dependency)
    requires a.id in AnalysesById(analyses)
    ensures Evident(afters + [a], changes, analyses, d) <==>
            (Evident(afters, changes, analyses, d)
             || exists b :: b in changes && Rules(AnalysesById(analyses)[a.id].blastDevices, b, a)
                            && d == Dependency(b.id, a.id))
  {
    if Evident(afters, changes, analyses, d) {
      var a', b :| a' in afters && b in changes && EvidentPair(analyses, b, a') && d == Dependency(b.id, a'.id);
      assert a' in afters + [a];
    }
    if b :| b in changes && Rules(AnalysesById(analyses)[a.id].blastDevices, b, a) && d == Dependency(b.id, a.id) {
      assert a in afters + [a] && EvidentPair(analyses, b, a);
    }
  }

  /** Both rules for one change against every other, duplicates kept. */
  method DetectFor(changes: seq<Change>, blast: seq<string>, change: Change) returns (found: seq<Dependency>)
    ensures forall d :: d in found <==>
              exists b :: b in changes && Rules(blast, b, change) && d == Dependency(b.id, change.id)
  {
    found := [];
    for j := 0 to |changes|
      invariant forall d :: d in found <==>
                  exists b :: b in changes[..j] && Rules(blast, b, change) && d == Dependency(b.id, change.id)
    {
      var other := changes[j];
      assert changes[..j + 1] == changes[..j] + [other];
      if other.id != change.id {
        if other.device in blast {
          found := found + [Dependency(other.id, change.id)];
        }
        if change.isUpgrade && other.device == change.device {
          found := found + [Dependency(other.id, change.id)];
        }
      }
    }
    assert changes[..|changes|] == changes;
  }

  /** First occurrences only. */
  method Deduplicate(found: seq<Dependency>) returns (unique: seq<Dependency>)
    ensures Distinct(unique)
    ensures forall d :: d in unique <==> d in found
  {
    unique := [];
    for i := 0 to |found|
      invariant Distinct(unique)
      invariant forall d :: d in unique <==> d in found[..i]
    {
      assert found[..i + 1] == found[..i] + [found[i]];
      if found[i] !in unique {
        unique := unique + [found[i]];
      }
    }
    assert found[..|found|] == found;
  }

  method DetectDependencies(changes: seq<Change>, analyses: seq<Analysis>) returns (unique: seq<Dependency>)
    requires ChangesById(changes).Keys <= AnalysesById(analyses).Keys
    ensures Distinct(unique)
    ensures forall d :: d in unique <==> Evident(changes, changes, analyses, d)
    ensures forall c :: c in changes ==> c.id in AnalysesById(analyses)
    ensures forall d :: d in unique <==> MustWait(changes, AnalysesById(analyses), d)
    ensures Consistent(changes, analyses, unique)
  {
    var byId := AnalysesById(analyses);
    var found: seq<Dependency> := [];
    for i := 0 to |changes|
      invariant forall d :: d in found <==> Evident(changes[..i], changes, analyses, d)
    {
      var change := changes[i];
      assert change.id in ChangesById(changes);
      var more := DetectFor(changes, byId[change.id].blastDevices, change);
      assert changes[..i + 1] == changes[..i] + [change];
      forall d
        ensures Evident(changes[..i + 1], changes, analyses, d) <==>
                Evident(changes[..i], changes, analyses, d) || d in more
      {
        EvidentStep(changes[..i], change, changes, analyses, d);
      }
      found := found + more;
    }
    assert changes[..|changes|] == changes;
    unique := Deduplicate(found);
    forall d | d in unique ensures d.before in ChangesById(changes) && d.after in ChangesById(changes) {
      assert Evident(changes, changes, analyses, d);
    }
    forall d
      ensures forall c :: c in changes ==> c.id in AnalysesById(analyses)
      ensures Evident(changes, changes, analyses, d) <==> MustWait(changes, AnalysesById(analyses), d)
    {
      EvidentMeans(changes, analyses, d);
    }
  }

  /** Two upgrades of one device always leave the plan without a safe order. */
  lemma TwoUpgradesAreCircular(changes: seq<Change>, analyses: seq<Analysis>, dependencies: seq<Dependency>,
                               deviceCount: nat, a: Change, b: Change)
    requires Consistent(changes, analyses, dependencies)
    requires forall d :: Evident(changes, changes, analyses, d) ==> d in dependencies
    requires a in changes && b in changes && a.id != b.id
    requires a.isUpgrade && b.isUpgrade && a.device == b.device
    ensures Cyclic(GraphOf(changes, analyses, dependencies, deviceCount))
  {
    var g := GraphOf(changes, analyses, dependencies, deviceCount);
    assert a.id in ChangesById(changes) && b.id in ChangesById(changes);
    assert EvidentPair(analyses, b, a) && EvidentPair(analyses, a, b);
    hide EvidentPair;
    assert Evident(changes, changes, analyses, Dependency(b.id, a.id));
    assert Evident(changes, changes, analyses, Dependency(a.id, b.id));
    assert (b.id, a.id) in g.edges && (a.id, b.id) in g.edges;
    BothWaysIsCyclic(g, a.id, b.id);
  }

  lemma BothWaysIsCyclic(g: Graph, a: Id, b: Id)
    requires (b, a) in g.edges && (a, b) in g.edges && a in g.keys && b in g.keys
    ensures Cyclic(g)
  {
    assert Cycle(g, [a, b, a]);
  }

  /** The ordering part of a plan analysis: the dependencies are detected, then
      ordered.  A report of a circular dependency is given exactly when there is
      one, and always when one device is to be upgraded twice. */
  method AnalysePlan(changes: seq<Change>, analyses: seq<Analysis>, deviceCount: nat)
    returns (steps: seq<Step>, unknowns: seq<set<Id>>, dependencies: seq<Dependency>)
    requires ChangesById(changes).Keys <= AnalysesById(analyses).Keys
    ensures Consistent(changes, analyses, dependencies)
    ensures forall d :: d in dependencies <==> Evident(changes, changes, analyses, d)
    ensures var g := GraphOf(changes, analyses, dependencies, deviceCount);
            Presents(g, steps, Picks(g, g.keys.Keys)) && (unknowns != [] <==> Cyclic(g))
    ensures Recommends(steps, ChangesById(changes), AnalysesById(analyses), dependencies, deviceCount)
    ensures (exists a, b :: a in changes && b in changes && a.id != b.id
              && a.isUpgrade && b.isUpgrade && a.device == b.device) ==> unknowns != []
  {
    dependencies := DetectDependencies(changes, analyses);
    steps, unknowns := RecommendOrder(changes, analyses, dependencies, deviceCount);
    forall a, b | a in changes && b in changes && a.id != b.id && a.isUpgrade && b.isUpgrade && a.device == b.device
      ensures unknowns != []
    {
      TwoUpgradesAreCircular(changes, analyses, dependencies, deviceCount, a, b);
    }
  }
}
