/**
 The fixed-window rate limiter (src/founderos_atlas/access/ratelimit.py), for a
 clock that does not go back and one window length.
 */
module RateLimiting {

  type Bucket = (string, int)

  datatype Call = Call(key: string, now: real)

  function Window(now: real, seconds: int): int
    requires seconds > 0
  {
    (now / (seconds as real)).Floor
  }

  function Hits(hits: map<Bucket, nat>, b: Bucket): nat {
    if b in hits then hits[b] else 0
  }

  /** Counters of windows before the last one are dropped. */
  function Pruned(hits: map<Bucket, nat>, window: int): map<Bucket, nat> {
    map b | b in hits && b.1 >= window - 1 :: hits[b]
  }

  function Counted(hits: map<Bucket, nat>, b: Bucket): map<Bucket, nat> {
    Pruned(hits, b.1)[b := Hits(Pruned(hits, b.1), b) + 1]
  }

  class RateLimiter {
    var hits: map<Bucket, nat>

    constructor ()
      ensures hits == map[]
    {
      hits := map[];
    }

    /** Counts one call and says whether it is within the limit. */
    method Allow(key: string, limit: int, seconds: int, now: real) returns (ok: bool)
      requires seconds > 0
      modifies this
      ensures hits == Counted(old(hits), (key, Window(now, seconds)))
      ensures ok <==> hits[(key, Window(now, seconds))] <= limit
    {
      var window := Window(now, seconds);
      var bucket := (key, window);
      var stale := set b | b in hits && b.1 < window - 1;
      while stale != {}
        invariant stale == set b | b in hits && b.1 < window - 1
        invariant Pruned(hits, window) == Pruned(old(hits), window)
      {
        var b :| b in stale;
        hits := hits - {b};
        stale := stale - {b};
      }
      assert hits == Pruned(hits, window) by {
        forall b | b in hits ensures b.1 >= window - 1 { assert b !in stale; }
      }
      var count := (if bucket in hits then hits[bucket] else 0) + 1;
      hits := hits[bucket := count];
      return count <= limit;
    }

    method Peek(key: string, seconds: int, now: real) returns (count: nat)
      requires seconds > 0
      ensures count == Hits(hits, (key, Window(now, seconds)))
    {
      var bucket := (key, Window(now, seconds));
      return if bucket in hits then hits[bucket] else 0;
    }
  }

  // ------------------------------------------------------------ whole histories

  /** The counters after a history of calls. */
  function After(calls: seq<Call>, seconds: int): map<Bucket, nat>
    requires seconds > 0
  {
    if calls == [] then map[]
    else
      var c := calls[|calls| - 1];
      Counted(After(calls[..|calls| - 1], seconds), (c.key, Window(c.now, seconds)))
  }

  predicate InBucket(c: Call, seconds: int, b: Bucket)
    requires seconds > 0
  {
    c.key == b.0 && Window(c.now, seconds) == b.1
  }

  /** How many calls of the whole history fall into a bucket. */
  function Count(calls: seq<Call>, seconds: int, b: Bucket): nat
    requires seconds > 0
  {
    if calls == [] then 0
    else Count(calls[..|calls| - 1], seconds, b) + (if InBucket(calls[|calls| - 1], seconds, b) then 1 else 0)
  }

  /** The answer the last call of a history got. */
  predicate Allowed(calls: seq<Call>, seconds: int, limit: int)
    requires seconds > 0 && calls != []
  {
    var c := calls[|calls| - 1];
    Hits(After(calls, seconds), (c.key, Window(c.now, seconds))) <= limit
  }

  predicate Ordered(calls: seq<Call>) {
    forall i, j :: 0 <= i < j < |calls| ==> calls[i].now <= calls[j].now
  }

  /** Windows are the stretches of this many seconds counted from the epoch. */
  lemma WindowSpans(now: real, seconds: int, w: int)
    requires seconds > 0
    ensures Window(now, seconds) == w <==> (w * seconds) as real <= now < ((w + 1) * seconds) as real
  {
    var s := seconds as real;
    InReals(w, seconds);
    InReals(w + 1, seconds);
    AtLeast(now, s, w as real);
    AtLeast(now, s, (w + 1) as real);
    hide Window;
    WindowIsFloor(now, seconds, w);
  }

  lemma WindowIsFloor(now: real, seconds: int, w: int)
    requires seconds > 0
    ensures Window(now, seconds) == w <==> w as real <= now / (seconds as real) < (w + 1) as real
  {
  }

  lemma InReals(w: int, seconds: int)
    ensures (w * seconds) as real == (w as real) * (seconds as real)
  {
  }

  lemma AtLeast(now: real, s: real, a: real)
    requires s > 0.0
    ensures a <= now / s <==> a * s <= now
  {
    var q := now / s;
    Scale(a, q, s);
    assert q * s == now;
  }

  lemma Scale(a: real, b: real, s: real)
    requires s > 0.0
    ensures a <= b <==> a * s <= b * s
  {
    if a > b { assert (a - b) * s > 0.0; } else { assert (b - a) * s >= 0.0; }
  }

  lemma WindowIsMonotone(a: real, b: real, seconds: int)
    requires seconds > 0 && a <= b
    ensures Window(a, seconds) <= Window(b, seconds)
  {
    assert a / (seconds as real) <= b / (seconds as real);
  }

  /** What has been dropped is never asked for again: from the window before the
      current one on, the counters are those of the whole history. */
  lemma {:induction false} PruningIsInvisible(calls: seq<Call>, seconds: int, b: Bucket)
    requires seconds > 0 && Ordered(calls) && calls != []
    requires b.1 >= Window(calls[|calls| - 1].now, seconds) - 1
    ensures Hits(After(calls, seconds), b) == Count(calls, seconds, b)
  {
    var n := |calls| - 1;
    if n > 0 {
      WindowIsMonotone(calls[n - 1].now, calls[n].now, seconds);
      PruningIsInvisible(calls[..n], seconds, b);
      PruningIsInvisible(calls[..n], seconds, (calls[n].key, Window(calls[n].now, seconds)));
    }
  }

  /** So a call is allowed exactly when, in the whole history, it is within the limit
      of its window. */
  lemma AllowedIff(calls: seq<Call>, seconds: int, limit: int)
    requires seconds > 0 && Ordered(calls) && calls != []
    ensures var c := calls[|calls| - 1];
            Allowed(calls, seconds, limit) <==> Count(calls, seconds, (c.key, Window(c.now, seconds))) <= limit
  {
    var c := calls[|calls| - 1];
    PruningIsInvisible(calls, seconds, (c.key, Window(c.now, seconds)));
  }

  /** How many calls of a bucket were allowed. */
  function Passed(calls: seq<Call>, seconds: int, limit: int, b: Bucket): nat
    requires seconds > 0
  {
    if calls == [] then 0
    else
      Passed(calls[..|calls| - 1], seconds, limit, b) +
      (if InBucket(calls[|calls| - 1], seconds, b) && Allowed(calls, seconds, limit) then 1 else 0)
  }

  /** In each window the first calls up to the limit pass, and no more. */
  lemma {:induction false} PassedInWindow(calls: seq<Call>, seconds: int, limit: nat, b: Bucket)
    requires seconds > 0 && Ordered(calls)
    ensures Passed(calls, seconds, limit, b)
            == if Count(calls, seconds, b) <= limit then Count(calls, seconds, b) else limit
  {
    if calls != [] {
      PassedInWindow(calls[..|calls| - 1], seconds, limit, b);
      AllowedIff(calls, seconds, limit);
    }
  }

  predicate Within(c: Call, key: string, start: real, seconds: int) {
    c.key == key && start <= c.now < start + seconds as real
  }

  /** How many calls of a key were allowed in a time interval of the window's length. */
  function PassedWithin(calls: seq<Call>, seconds: int, limit: int, key: string, start: real): nat
    requires seconds > 0
  {
    if calls == [] then 0
    else
      PassedWithin(calls[..|calls| - 1], seconds, limit, key, start) +
      (if Within(calls[|calls| - 1], key, start, seconds) && Allowed(calls, seconds, limit) then 1 else 0)
  }

  lemma ScaledLess(a: real, b: real, w: real)
    requires w > 0.0 && a * w < b * w
    ensures a < b
  {
    assert (b - a) * w > 0.0;
  }

  lemma TwoWindows(c: Call, start: real, seconds: int)
    requires seconds > 0 && Within(c, c.key, start, seconds)
    ensures Window(start, seconds) <= Window(c.now, seconds) <= Window(start, seconds) + 1
  {
    WindowIsMonotone(start, c.now, seconds);
    var w := seconds as real;
    var q, r := start / w, c.now / w;
    assert q * w == start && r * w == c.now;
    assert (q + 1.0) * w == start + w;
    assert r < q + 1.0 by { ScaledLess(r, q + 1.0, w); }
  }

  lemma {:induction false} IntervalInTwoWindows(calls: seq<Call>, seconds: int, limit: nat, key: string, start: real)
    requires seconds > 0
    ensures PassedWithin(calls, seconds, limit, key, start) <=
            Passed(calls, seconds, limit, (key, Window(start, seconds)))
            + Passed(calls, seconds, limit, (key, Window(start, seconds) + 1))
  {
    if calls != [] {
      IntervalInTwoWindows(calls[..|calls| - 1], seconds, limit, key, start);
      var c := calls[|calls| - 1];
      if Within(c, key, start, seconds) { TwoWindows(c, start, seconds); }
    }
  }

  /** In any interval of the window's length at most twice the limit pass. */
  lemma TwiceTheLimit(calls: seq<Call>, seconds: int, limit: nat, key: string, start: real)
    requires seconds > 0 && Ordered(calls)
    ensures PassedWithin(calls, seconds, limit, key, start) <= 2 * limit
  {
    IntervalInTwoWindows(calls, seconds, limit, key, start);
    PassedInWindow(calls, seconds, limit, (key, Window(start, seconds)));
    PassedInWindow(calls, seconds, limit, (key, Window(start, seconds) + 1));
  }

  /** `limit` calls at the end of one window. */
  function Burst(key: string, now: real, n: nat): seq<Call> {
    seq(n, _ => Call(key, now))
  }

  lemma {:induction false} BurstCounts(before: seq<Call>, key: string, now: real, n: nat, seconds: int, limit: nat,
                                       start: real)
    requires seconds > 0 && Ordered(before + Burst(key, now, n)) && Within(Call(key, now), key, start, seconds)
    requires Count(before, seconds, (key, Window(now, seconds))) == 0 && n <= limit
    ensures var calls := before + Burst(key, now, n);
            && Count(calls, seconds, (key, Window(now, seconds))) == n
            && PassedWithin(calls, seconds, limit, key, start) == PassedWithin(before, seconds, limit, key, start) + n
  {
    var calls := before + Burst(key, now, n);
    if n == 0 {
      assert calls == before;
    } else {
      assert calls[..|calls| - 1] == before + Burst(key, now, n - 1);
      BurstCounts(before, key, now, n - 1, seconds, limit, start);
      assert calls[|calls| - 1] == Call(key, now);
      AllowedIff(calls, seconds, limit);
    }
  }

  lemma {:induction false} BurstMisses(key: string, now: real, n: nat, seconds: int, b: Bucket)
    requires seconds > 0 && Window(now, seconds) != b.1
    ensures Count(Burst(key, now, n), seconds, b) == 0
  {
    if n > 0 {
      assert Burst(key, now, n)[..n - 1] == Burst(key, now, n - 1);
      BurstMisses(key, now, n - 1, seconds, b);
    }
  }

  lemma FirstWindows(seconds: int)
    requires seconds > 1
    ensures Window((seconds - 1) as real, seconds) == 0 && Window(seconds as real, seconds) == 1
  {
    var w := seconds as real;
    var q, r := (seconds - 1) as real / w, w / w;
    assert q * w == w - 1.0 && r * w == w;
    ScaledLess(q, 1.0, w);
    ScaledLess(0.0, q, w);
    assert r == 1.0;
  }

  lemma BurstsAreOrdered(key: string, early: real, late: real, n: nat)
    requires early <= late
    ensures Ordered(Burst(key, early, n)) && Ordered(Burst(key, early, n) + Burst(key, late, n))
  {
  }

  lemma TwoBursts(key: string, early: real, late: real, seconds: int, limit: nat, start: real)
    requires seconds > 0 && early <= late && Window(early, seconds) != Window(late, seconds)
    requires Within(Call(key, early), key, start, seconds) && Within(Call(key, late), key, start, seconds)
    ensures var calls := Burst(key, early, limit) + Burst(key, late, limit);
            Ordered(calls) && PassedWithin(calls, seconds, limit, key, start) == 2 * limit
  {
    hide Window, Within, Ordered;
    var first := Burst(key, early, limit);
    BurstsAreOrdered(key, early, late, limit);
    assert [] + first == first;
    BurstCounts([], key, early, limit, seconds, limit, start);
    BurstMisses(key, early, limit, seconds, (key, Window(late, seconds)));
    BurstCounts(first, key, late, limit, seconds, limit, start);
  }

  /** And twice the limit is reached: the limit at the end of a window and the limit
      at the start of the next one all pass. */
  lemma TwiceTheLimitIsReached(seconds: int, limit: nat, key: string)
    requires seconds > 1
    ensures var calls := Burst(key, (seconds - 1) as real, limit) + Burst(key, seconds as real, limit);
            Ordered(calls) && PassedWithin(calls, seconds, limit, key, 1.0) == 2 * limit
  {
    hide Window, Ordered, PassedWithin;
    FirstWindows(seconds);
    TwoBursts(key, (seconds - 1) as real, seconds as real, seconds, limit, 1.0);
  }
}
