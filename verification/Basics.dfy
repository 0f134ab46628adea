/** Small types and facts the other modules share. */
module Basics {

  datatype Option<+T> = None | Some(value: T)

  datatype Result<+T, +E> = Success(value: T) | Failure(error: E)

  /** The elements of a sequence, forgetting order and multiplicity. */
  ghost function Elements<T>(s: seq<T>): set<T> {
    set x | x in s
  }

  ghost predicate Distinct<T>(s: seq<T>) {
    forall i, j :: 0 <= i < j < |s| ==> s[i] != s[j]
  }

  /** A sequence without repetition is no longer than the set it draws from. */
  lemma {:induction false} DistinctIsBounded<T>(s: seq<T>, universe: set<T>)
    requires Distinct(s)
    requires forall x :: x in s ==> x in universe
    ensures |s| <= |universe|
  {
    if s != [] {
      var rest := s[1..];
      forall x | x in rest ensures x in universe - {s[0]} {
        var i :| 0 <= i < |rest| && rest[i] == x;
        assert s[0] != s[i + 1];
      }
      DistinctIsBounded(rest, universe - {s[0]});
    }
  }

  lemma ConsElements<T>(x: T, s: seq<T>)
    ensures Elements([x] + s) == {x} + Elements(s)
    ensures x !in s && Distinct(s) ==> Distinct([x] + s)
  {
    assert forall y :: y in [x] + s <==> y == x || y in s;
  }

  /** The first element that passes a test. */
  function Find<T>(xs: seq<T>, test: T -> bool): (r: Option<T>)
    ensures r.Some? ==> r.value in xs && test(r.value)
    ensures r.None? <==> forall x :: x in xs ==> !test(x)
  {
    if xs == [] then None
    else if test(xs[0]) then Some(xs[0])
    else
      assert xs == [xs[0]] + xs[1..];
      Find(xs[1..], test)
  }

  /** `[new if test(item) else item for item in xs]` */
  function ReplaceWhere<T>(xs: seq<T>, test: T -> bool, new': T): (r: seq<T>)
    ensures |r| == |xs|
    ensures forall i :: 0 <= i < |xs| ==> r[i] == if test(xs[i]) then new' else xs[i]
  {
    seq(|xs|, i requires 0 <= i < |xs| => if test(xs[i]) then new' else xs[i])
  }

  /** `to` is what stands in `from` at the positions `at`, in their order. */
  ghost predicate Selects<T>(from: seq<T>, at: seq<nat>, to: seq<T>) {
    && |at| == |to|
    && (forall i :: 0 <= i < |at| ==> at[i] < |from| && to[i] == from[at[i]])
    && forall i, j :: 0 <= i < j < |at| ==> at[i] < at[j]
  }

  function Shifted(at: seq<nat>): (r: seq<nat>)
    ensures |r| == |at| && forall i :: 0 <= i < |at| ==> r[i] == at[i] + 1
    ensures forall k: nat :: k in r <==> k > 0 && k - 1 in at
  {
    var r := seq(|at|, i requires 0 <= i < |at| => at[i] + 1);
    assert forall k: nat :: k > 0 && k - 1 in at ==> k in r by {
      forall k: nat | k > 0 && k - 1 in at ensures k in r {
        var i :| 0 <= i < |at| && at[i] == k - 1;
        assert r[i] == k;
      }
    }
    r
  }

  /** A selection from the rest, with or without the first element. */
  lemma SelectsMore<T>(from: seq<T>, at: seq<nat>, to: seq<T>)
    requires from != [] && Selects(from[1..], at, to)
    ensures Selects(from, Shifted(at), to)
    ensures Selects(from, [0] + Shifted(at), [from[0]] + to)
  {
  }

  /** `at` are the positions of the elements to be kept, in order. */
  ghost predicate Keeps<T(!new)>(from: seq<T>, keep: T -> bool, at: seq<nat>) {
    && (forall k :: 0 <= k < |at| ==> at[k] < |from|)
    && (forall j, k :: 0 <= j < k < |at| ==> at[j] < at[k])
    && forall i: nat :: i < |from| ==> (i in at <==> keep(from[i]))
  }

  lemma FirstOrLater(i: nat, at: seq<nat>)
    ensures i in [0] + at <==> i == 0 || i in at
  {
    assert ([0] + at)[0] == 0;
    if i in at {
      var k :| 0 <= k < |at| && at[k] == i;
      assert ([0] + at)[k + 1] == i;
    }
  }

  lemma KeepsMore<T(!new)>(from: seq<T>, keep: T -> bool, later: seq<nat>)
    requires from != [] && Keeps(from[1..], keep, later)
    ensures Keeps(from, keep, if keep(from[0]) then [0] + Shifted(later) else Shifted(later))
  {
    var at := if keep(from[0]) then [0] + Shifted(later) else Shifted(later);
    forall i: nat | i < |from| ensures i in at <==> keep(from[i]) {
      FirstOrLater(i, Shifted(later));
      if i > 0 { assert from[i] == from[1..][i - 1]; }
    }
  }

  /** `to` are the elements to be kept, and `at` their positions. */
  ghost predicate Filters<T(!new)>(from: seq<T>, keep: T -> bool, at: seq<nat>, to: seq<T>) {
    Keeps(from, keep, at) && Selects(from, at, to)
  }

  lemma FiltersMore<T(!new)>(from: seq<T>, keep: T -> bool, later: seq<nat>, rest: seq<T>) returns (at: seq<nat>)
    requires from != [] && Filters(from[1..], keep, later, rest)
    ensures Filters(from, keep, at, if keep(from[0]) then [from[0]] + rest else rest)
  {
    KeepsMore(from, keep, later);
    SelectsMore(from, later, rest);
    at := if keep(from[0]) then [0] + Shifted(later) else Shifted(later);
  }
}
