/**
  The in-memory fixed-window rate limiter (security/ingress_limits.py).

  `FixedWindowLimiter` is the mutable object; `HitTable` and `HitVerdict` say what one
  hit does to its table.  `Replay` runs a whole history of hits, and the lemmas relate
  it to `AdmittedIn`, a rule over the history that knows no table and no clearing.
 */
module Limiter {

  /** `hit` returns None when the hit is admitted, else the seconds to wait. */
  datatype Verdict = Admit | Retry(seconds: int)

  datatype Table = Table(window: int, counts: map<string, nat>)

  const Fresh := Table(-1, map[])

  /** The wall-clock window an instant falls in. */
  function WindowOf(now: real, size: int): int
    requires size > 0
  {
    (now / size as real).Floor
  }

  function Ceil(x: real): int {
    -((-x).Floor)
  }

  function Count(t: Table, key: string): nat {
    if key in t.counts then t.counts[key] else 0
  }

  /** The table after the window check at the top of `hit`: any new window empties it for every key. */
  function Advance(t: Table, window: int): Table {
    if window != t.window then Table(window, map[]) else t
  }

  function HitTable(t: Table, size: int, now: real, key: string, limit: int): Table
    requires size > 0
  {
    var u := Advance(t, WindowOf(now, size));
    if Count(u, key) >= limit then u else u.(counts := u.counts[key := Count(u, key) + 1])
  }

  function HitVerdict(t: Table, size: int, now: real, key: string, limit: int): Verdict
    requires size > 0
  {
    var window := WindowOf(now, size);
    if Count(Advance(t, window), key) >= limit then
      var wait := Ceil(((window + 1) * size) as real - now);
      Retry(if wait < 1 then 1 else wait)
    else
      Admit
  }

  class FixedWindowLimiter {
    const size: int
    var window: int
    var counts: map<string, nat>

    function Contents(): Table
      reads this
    {
      Table(window, counts)
    }

    constructor (size: int)
      ensures this.size == size && Contents() == Fresh
    {
      this.size := size;
      window := -1;
      counts := map[];
    }

    method Hit(now: real, key: string, limit: int) returns (v: Verdict)
      requires size > 0
      modifies this
      ensures v == HitVerdict(old(Contents()), size, now, key, limit)
      ensures Contents() == HitTable(old(Contents()), size, now, key, limit)
    {
      var current := WindowOf(now, size);
      if current != window {
        window := current;
        counts := map[];
      }
      var count := if key in counts then counts[key] else 0;
      if count >= limit {
        var wait := Ceil(((current + 1) * size) as real - now);
        return Retry(if wait < 1 then 1 else wait);
      }
      counts := counts[key := count + 1];
      return Admit;
    }
  }

  // ---------- Windows ----------

  /** Window w is the instants from w * size up to (w + 1) * size. */
  lemma WindowBounds(now: real, size: int)
    requires size > 0
    ensures var w := WindowOf(now, size); (w * size) as real <= now < (w * size + size) as real
  {
    var q := now / size as real;
    var w := WindowOf(now, size);
    assert q * size as real == now;
    ScaleLe(w as real, q, size as real);
    ScaleLt(q, w as real + 1.0, size as real);
    assert w as real * size as real == (w * size) as real;
    assert (w as real + 1.0) * size as real == w as real * size as real + size as real;
  }

  lemma ScaleLe(a: real, b: real, c: real)
    requires a <= b && c > 0.0
    ensures a * c <= b * c
  {
  }

  lemma ScaleLt(a: real, b: real, c: real)
    requires a < b && c > 0.0
    ensures a * c < b * c
  {
  }

  lemma {:induction false} NextMultiple(v: int, w: int, size: int)
    requires v < w && size > 0
    ensures v * size + size <= w * size
    decreases w - v
  {
    assert w * size == (w - 1) * size + size;
    if v < w - 1 {
      NextMultiple(v, w - 1, size);
    }
  }

  /** The only window that brackets an instant is the one it falls in. */
  lemma WindowUnique(now: real, size: int, w: int)
    requires size > 0
    requires (w * size) as real <= now < (w * size + size) as real
    ensures WindowOf(now, size) == w
  {
    var v := WindowOf(now, size);
    WindowBounds(now, size);
    if v < w {
      NextMultiple(v, w, size);
    } else if w < v {
      NextMultiple(w, v, size);
    }
  }

  lemma WindowMonotone(a: real, b: real, size: int)
    requires size > 0 && a <= b
    ensures WindowOf(a, size) <= WindowOf(b, size)
  {
    WindowBounds(a, size);
    WindowBounds(b, size);
    if WindowOf(b, size) < WindowOf(a, size) {
      NextMultiple(WindowOf(b, size), WindowOf(a, size), size);
    }
  }

  // ---------- Retry-after ----------

  predicate InLaterWindow(now: real, seconds: int, size: int)
    requires size > 0
  {
    WindowOf(now + seconds as real, size) > WindowOf(now, size)
  }

  /** A refusal names the least whole number of seconds after which the next window has begun. */
  lemma {:induction false} RetryAfterIsExact(t: Table, size: int, now: real, key: string, limit: int)
    requires size > 0
    requires HitVerdict(t, size, now, key, limit).Retry?
    ensures var r := HitVerdict(t, size, now, key, limit).seconds;
            && 1 <= r <= size
            && WindowOf(now + r as real, size) == WindowOf(now, size) + 1
            && (forall k: nat :: InLaterWindow(now, k, size) <==> k >= r)
  {
    var r := HitVerdict(t, size, now, key, limit).seconds;
    var w := WindowOf(now, size);
    var next := ((w + 1) * size) as real;
    WindowBounds(now, size);
    assert (w + 1) * size == w * size + size;
    assert next <= now + r as real < next + 1.0;
    WindowUnique(now + r as real, size, w + 1);
    forall k: nat
      ensures InLaterWindow(now, k, size) <==> k >= r
    {
      if k >= r {
        WindowMonotone(now + r as real, now + k as real, size);
      } else {
        assert now + k as real < next;
        WindowUnique(now + k as real, size, w);
      }
    }
  }

  // ---------- The table refines the history ----------

  datatype Hit = Hit(now: real, key: string, limit: int)

  predicate Monotone(hits: seq<Hit>) {
    forall i, j :: 0 <= i < j < |hits| ==> hits[i].now <= hits[j].now
  }

  /** The table after a history of hits, from a fresh limiter. */
  function Replay(size: int, hits: seq<Hit>): Table
    requires size > 0
  {
    if hits == [] then Fresh
    else
      var h := hits[|hits| - 1];
      HitTable(Replay(size, hits[..|hits| - 1]), size, h.now, h.key, h.limit)
  }

  /** The verdict the limiter gives hit `i` of a history. */
  function VerdictAt(size: int, hits: seq<Hit>, i: nat): Verdict
    requires size > 0 && i < |hits|
  {
    HitVerdict(Replay(size, hits[..i]), size, hits[i].now, hits[i].key, hits[i].limit)
  }

  /**
    The rule, over the history alone: how many hits of `key` in `window` are to be admitted,
    when a hit is admitted exactly if fewer than its limit were before it.
   */
  ghost function AdmittedIn(size: int, hits: seq<Hit>, key: string, window: int): nat
    requires size > 0
  {
    if hits == [] then 0
    else
      var h := hits[|hits| - 1];
      var earlier := AdmittedIn(size, hits[..|hits| - 1], key, window);
      if h.key == key && WindowOf(h.now, size) == window && earlier < h.limit then earlier + 1 else earlier
  }

  /** A window that no hit has reached has admitted nothing. */
  lemma {:induction false} NothingInFutureWindow(size: int, hits: seq<Hit>, key: string, window: int)
    requires size > 0
    requires forall i :: 0 <= i < |hits| ==> WindowOf(hits[i].now, size) != window || hits[i].key != key
    ensures AdmittedIn(size, hits, key, window) == 0
  {
    if hits != [] {
      NothingInFutureWindow(size, hits[..|hits| - 1], key, window);
    }
  }

  /** The table holds, for the last hit's window, exactly the counts of the rule. */
  lemma {:induction false} TableMatchesHistory(size: int, hits: seq<Hit>, key: string)
    requires size > 0 && Monotone(hits)
    ensures hits == [] ==> Replay(size, hits) == Fresh
    ensures hits != [] ==> Replay(size, hits).window == WindowOf(hits[|hits| - 1].now, size)
    ensures hits != [] ==> Count(Replay(size, hits), key) == AdmittedIn(size, hits, key, Replay(size, hits).window)
  {
    if hits != [] {
      var n := |hits| - 1;
      var w := WindowOf(hits[n].now, size);
      TableMatchesHistory(size, hits[..n], key);
      AdvancedCount(size, hits[..n], key, w) by {
        forall i | 0 <= i < n ensures WindowOf(hits[..n][i].now, size) <= w {
          WindowMonotone(hits[i].now, hits[n].now, size);
        }
      }
    }
  }

  /** Emptying the table at a window change forgets nothing the rule still needs. */
  lemma AdvancedCount(size: int, hits: seq<Hit>, key: string, window: int)
    requires size > 0 && Monotone(hits)
    requires forall i :: 0 <= i < |hits| ==> WindowOf(hits[i].now, size) <= window
    requires hits == [] ==> Replay(size, hits) == Fresh
    requires hits != [] ==> Replay(size, hits).window == WindowOf(hits[|hits| - 1].now, size)
    requires hits != [] ==> Count(Replay(size, hits), key) == AdmittedIn(size, hits, key, Replay(size, hits).window)
    ensures Count(Advance(Replay(size, hits), window), key) == AdmittedIn(size, hits, key, window)
  {
    if hits != [] && Replay(size, hits).window != window {
      forall i | 0 <= i < |hits| ensures WindowOf(hits[i].now, size) != window {
        WindowMonotone(hits[i].now, hits[|hits| - 1].now, size);
      }
      NothingInFutureWindow(size, hits, key, window);
    }
  }

  /** With a clock that never steps back, a hit is admitted exactly when the rule says so. */
  lemma {:induction false} LimiterRefinesHistory(size: int, hits: seq<Hit>, i: nat)
    requires size > 0 && Monotone(hits) && i < |hits|
    ensures VerdictAt(size, hits, i).Admit? <==>
            AdmittedIn(size, hits[..i], hits[i].key, WindowOf(hits[i].now, size)) < hits[i].limit
  {
    var h := hits[i];
    TableMatchesHistory(size, hits[..i], h.key);
    forall j | 0 <= j < i ensures WindowOf(hits[..i][j].now, size) <= WindowOf(h.now, size) {
      WindowMonotone(hits[j].now, h.now, size);
    }
    AdvancedCount(size, hits[..i], h.key, WindowOf(h.now, size));
  }

  /** The clock condition is needed: one step back re-opens a window that was already spent. */
  lemma ClockStepBackReopensWindow()
    ensures exists hits: seq<Hit> ::
              && |hits| == 3
              && VerdictAt(60, hits, 2).Admit?
              && AdmittedIn(60, hits[..2], hits[2].key, WindowOf(hits[2].now, 60)) >= hits[2].limit
  {
    var hits := [Hit(30.0, "k", 1), Hit(90.0, "k", 1), Hit(30.0, "k", 1)];
    assert hits[..2] == [hits[0], hits[1]] && hits[..2][..1] == [hits[0]] && [hits[0]][..0] == [];
    assert WindowOf(30.0, 60) == 0 && WindowOf(90.0, 60) == 1;
    assert Replay(60, [hits[0]]).window == 0;
    assert Replay(60, hits[..2]).window == 1;
    assert AdmittedIn(60, [hits[0]], "k", 0) == 1;
    assert AdmittedIn(60, hits[..2], "k", 0) == 1;
    assert VerdictAt(60, hits, 2).Admit?;
  }

  /** A refused caller who waits exactly as told, and is alone on its key, is served. */
  lemma {:induction false} RetryIsAdmitted(size: int, before: seq<Hit>, refused: Hit, between: seq<Hit>, retry: Hit)
    requires size > 0 && retry.limit >= 1 && retry.key == refused.key
    requires Monotone(before + [refused] + between + [retry])
    requires var v := HitVerdict(Replay(size, before), size, refused.now, refused.key, refused.limit);
             v.Retry? && retry.now == refused.now + v.seconds as real
    requires forall i :: 0 <= i < |between| ==> between[i].key != refused.key
    ensures VerdictAt(size, before + [refused] + between + [retry], |before| + 1 + |between|) == Admit
  {
    var past := before + [refused] + between;
    var hits := past + [retry];
    RetryAfterIsExact(Replay(size, before), size, refused.now, refused.key, refused.limit);
    var w := WindowOf(retry.now, size);
    assert hits[..|past|] == past;
    forall i | 0 <= i < |past| ensures WindowOf(past[i].now, size) != w || past[i].key != retry.key {
      if i <= |before| {
        assert past[i] == hits[i] && hits[|before|] == refused;
        WindowMonotone(hits[i].now, hits[|before|].now, size);
      } else {
        assert past[i] == between[i - |before| - 1];
      }
    }
    NothingInFutureWindow(size, past, retry.key, w);
    LimiterRefinesHistory(size, hits, |past|);
  }

  // ---------- Bounds over intervals ----------

  /** Hits of `key` at instants in [from, until) that the limiter admitted. */
  ghost function AdmittedBetween(size: int, hits: seq<Hit>, key: string, from: real, until: real): nat
    requires size > 0
  {
    if hits == [] then 0
    else
      var n := |hits| - 1;
      var earlier := AdmittedBetween(size, hits[..n], key, from, until);
      if hits[n].key == key && from <= hits[n].now < until && VerdictAt(size, hits, n).Admit?
      then earlier + 1 else earlier
  }

  /** The rule's counts over the windows from `first` up to `end`. */
  ghost function AdmittedInWindows(size: int, hits: seq<Hit>, key: string, first: int, end: int): nat
    requires size > 0
    decreases end - first
  {
    if end <= first then 0
    else AdmittedInWindows(size, hits, key, first, end - 1) + AdmittedIn(size, hits, key, end - 1)
  }

  lemma {:induction false} WindowCountWithinLimit(size: int, hits: seq<Hit>, key: string, window: int, limit: nat)
    requires size > 0
    requires forall i :: 0 <= i < |hits| && hits[i].key == key ==> hits[i].limit <= limit
    ensures AdmittedIn(size, hits, key, window) <= limit
  {
    if hits != [] {
      WindowCountWithinLimit(size, hits[..|hits| - 1], key, window, limit);
    }
  }

  lemma {:induction false} WindowsWithinLimit(size: int, hits: seq<Hit>, key: string, first: int, end: int, limit: nat)
    requires size > 0 && first <= end
    requires forall i :: 0 <= i < |hits| && hits[i].key == key ==> hits[i].limit <= limit
    ensures AdmittedInWindows(size, hits, key, first, end) <= (end - first) * limit
    decreases end - first
  {
    if first < end {
      WindowsWithinLimit(size, hits, key, first, end - 1, limit);
      WindowCountWithinLimit(size, hits, key, end - 1, limit);
      assert (end - first) * limit == (end - 1 - first) * limit + limit;
    }
  }

  /** One more hit raises the count of its own window only. */
  lemma {:induction false} WindowsGrow(size: int, hits: seq<Hit>, key: string, first: int, end: int)
    requires size > 0 && hits != []
    ensures var h := hits[|hits| - 1]; var w := WindowOf(h.now, size);
            var past := hits[..|hits| - 1];
            && AdmittedInWindows(size, hits, key, first, end) >= AdmittedInWindows(size, past, key, first, end)
            && (h.key == key && first <= w < end && AdmittedIn(size, past, key, w) < h.limit ==>
                  AdmittedInWindows(size, hits, key, first, end) > AdmittedInWindows(size, past, key, first, end))
    decreases end - first
  {
    if first < end {
      WindowsGrow(size, hits, key, first, end - 1);
    }
  }

  lemma {:induction false} IntervalWithinWindows(
      size: int, hits: seq<Hit>, key: string, from: real, until: real, first: int, end: int)
    requires size > 0 && Monotone(hits)
    requires forall t: real :: from <= t < until ==> first <= WindowOf(t, size) < end
    ensures AdmittedBetween(size, hits, key, from, until) <= AdmittedInWindows(size, hits, key, first, end)
    decreases |hits|
  {
    if hits != [] {
      var i := |hits| - 1;
      IntervalWithinWindows(size, hits[..i], key, from, until, first, end);
      WindowsGrow(size, hits, key, first, end);
      LimiterRefinesHistory(size, hits, i);
    } else {
      NoHitsNoCounts(size, key, first, end);
    }
  }

  lemma {:induction false} NoHitsNoCounts(size: int, key: string, first: int, end: int)
    requires size > 0
    ensures AdmittedInWindows(size, [], key, first, end) == 0
    decreases end - first
  {
    if first < end {
      NoHitsNoCounts(size, key, first, end - 1);
    }
  }

  /** Any half-open interval as long as `n` windows admits at most n + 1 windows' worth of a key. */
  lemma IntervalBound(size: int, hits: seq<Hit>, key: string, from: real, n: nat, limit: nat)
    requires size > 0 && Monotone(hits)
    requires forall i :: 0 <= i < |hits| && hits[i].key == key ==> hits[i].limit <= limit
    ensures AdmittedBetween(size, hits, key, from, from + (n * size) as real) <= (n + 1) * limit
  {
    var first := WindowOf(from, size);
    var until := from + (n * size) as real;
    WindowBounds(from, size);
    assert (first + n) * size == first * size + n * size;
    WindowUnique(until, size, first + n);
    forall t: real | from <= t < until ensures first <= WindowOf(t, size) < first + n + 1 {
      WindowMonotone(from, t, size);
      WindowMonotone(t, until, size);
    }
    IntervalWithinWindows(size, hits, key, from, until, first, first + n + 1);
    WindowsWithinLimit(size, hits, key, first, first + n + 1, limit);
  }

  // ---------- The bound is met ----------

  /** The instants of a burst: the last half second of window 0, then the start of each later window. */
  function BurstTime(size: int, n: nat): real {
    if n == 0 then size as real - 0.5 else (n * size) as real
  }

  /** `m` hits at instant n, after the whole allowance at each earlier one. */
  function Burst(size: int, key: string, limit: nat, n: nat, m: nat): seq<Hit>
    decreases n, m
  {
    if m > 0 then Burst(size, key, limit, n, m - 1) + [Hit(BurstTime(size, n), key, limit)]
    else if n > 0 then Burst(size, key, limit, n - 1, limit)
    else []
  }

  lemma BurstWindow(size: int, n: nat)
    requires size > 0
    ensures WindowOf(BurstTime(size, n), size) == n
    ensures n > 0 ==> BurstTime(size, n - 1) < BurstTime(size, n) <= BurstTime(size, 0) + (n * size) as real - 0.5
  {
    WindowUnique(BurstTime(size, n), size, n);
    if n > 0 {
      assert n * size == (n - 1) * size + size;
    }
  }

  lemma {:induction false} BurstShape(size: int, key: string, limit: nat, n: nat, m: nat)
    requires size > 0
    ensures var hits := Burst(size, key, limit, n, m);
            && Monotone(hits)
            && forall i :: 0 <= i < |hits| ==> hits[i].now <= BurstTime(size, n) && hits[i].key == key && hits[i].limit == limit
    decreases n, m
  {
    if m > 0 {
      BurstShape(size, key, limit, n, m - 1);
    } else if n > 0 {
      BurstShape(size, key, limit, n - 1, limit);
      BurstWindow(size, n);
    }
  }

  /** A hit below its limit, on a clock that has not stepped back, is one more admitted. */
  lemma OneMore(size: int, past: seq<Hit>, h: Hit, from: real, until: real)
    requires size > 0 && Monotone(past + [h]) && from <= h.now < until
    requires AdmittedIn(size, past, h.key, WindowOf(h.now, size)) < h.limit
    ensures AdmittedIn(size, past + [h], h.key, WindowOf(h.now, size)) == AdmittedIn(size, past, h.key, WindowOf(h.now, size)) + 1
    ensures AdmittedBetween(size, past + [h], h.key, from, until) == AdmittedBetween(size, past, h.key, from, until) + 1
  {
    assert (past + [h])[..|past|] == past;
    LimiterRefinesHistory(size, past + [h], |past|);
  }

  /** Nothing of the burst has reached window n before its instant n. */
  lemma BurstNotYet(size: int, key: string, limit: nat, n: nat)
    requires size > 0
    ensures AdmittedIn(size, Burst(size, key, limit, n, 0), key, n) == 0
  {
    var hits := Burst(size, key, limit, n, 0);
    if n > 0 {
      BurstShape(size, key, limit, n - 1, limit);
      BurstWindow(size, n - 1);
      forall i | 0 <= i < |hits| ensures WindowOf(hits[i].now, size) != n {
        WindowMonotone(hits[i].now, BurstTime(size, n - 1), size);
      }
    }
    NothingInFutureWindow(size, hits, key, n);
  }

  lemma {:induction false} BurstAdmitted(size: int, key: string, limit: nat, n: nat, m: nat, until: real)
    requires size > 0 && m <= limit && BurstTime(size, n) < until
    ensures AdmittedIn(size, Burst(size, key, limit, n, m), key, n) == m
    ensures AdmittedBetween(size, Burst(size, key, limit, n, m), key, BurstTime(size, 0), until) == n * limit + m
    decreases n, m
  {
    BurstWindow(size, n);
    if m > 0 {
      BurstAdmitted(size, key, limit, n, m - 1, until);
      BurstShape(size, key, limit, n, m);
      BurstStarts(size, n);
      OneMore(size, Burst(size, key, limit, n, m - 1), Hit(BurstTime(size, n), key, limit), BurstTime(size, 0), until);
    } else {
      BurstNotYet(size, key, limit, n);
      if n > 0 {
        BurstAdmitted(size, key, limit, n - 1, limit, until);
        assert n * limit == (n - 1) * limit + limit;
      }
    }
  }

  lemma {:induction false} BurstStarts(size: int, n: nat)
    requires size > 0
    ensures BurstTime(size, 0) <= BurstTime(size, n)
  {
    if n > 0 {
      BurstStarts(size, n - 1);
      BurstWindow(size, n);
    }
  }

  /** The n + 1 is needed: for every window size, limit and n, some interval that long admits that many. */
  lemma IntervalBoundIsMet(size: int, key: string, limit: nat, n: nat) returns (hits: seq<Hit>, from: real)
    requires size > 0 && n >= 1
    ensures Monotone(hits) && forall i :: 0 <= i < |hits| ==> hits[i].key == key && hits[i].limit == limit
    ensures AdmittedBetween(size, hits, key, from, from + (n * size) as real) == (n + 1) * limit
  {
    hits, from := Burst(size, key, limit, n, limit), BurstTime(size, 0);
    BurstShape(size, key, limit, n, limit);
    BurstWindow(size, n);
    BurstAdmitted(size, key, limit, n, limit, from + (n * size) as real);
  }
}
