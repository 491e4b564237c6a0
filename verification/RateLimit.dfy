/** The fixed-window rate limiter with opportunistic pruning. */
module RateLimit {
  import opened Wrappers

  const PRUNE_ABOVE: nat := 1024

  datatype WindowCount = WindowCount(start: int, n: int)

  type Hits = map<string, WindowCount>

  datatype Limits = Limits(limit: int, window: int)

  /** A key's window is still open at `now`. */
  predicate Live(l: Limits, w: WindowCount, now: int) {
    now - w.start < l.window
  }

  /** What a limiter that never forgets would answer, and how it would count the call. */
  function Allows(l: Limits, hits: Hits, key: string, now: int): bool {
    key !in hits || !Live(l, hits[key], now) || hits[key].n < l.limit
  }

  function Count(l: Limits, hits: Hits, key: string, now: int): Hits {
    if key !in hits || !Live(l, hits[key], now) then hits[key := WindowCount(now, 1)]
    else if hits[key].n >= l.limit then hits
    else hits[key := hits[key].(n := hits[key].n + 1)]
  }

  /** Drop every closed window. */
  function Prune(l: Limits, hits: Hits, now: int): Hits {
    map k | k in hits && Live(l, hits[k], now) :: hits[k]
  }

  function PruneIfLarge(l: Limits, hits: Hits, now: int): Hits {
    if |hits| > PRUNE_ABOVE then Prune(l, hits, now) else hits
  }

  // ---------------------------------------------------------------------
  // The limiter object
  // ---------------------------------------------------------------------

  class RateLimiter {
    const l: Limits
    var hits: Hits

    constructor (limit: int, window: int)
      ensures l == Limits(limit, window) && hits == map[]
    {
      l := Limits(limit, window);
      hits := map[];
    }

    method Allow(key: string, now: int) returns (allowed: bool)
      modifies this
      ensures var pruned := PruneIfLarge(l, old(hits), now);
              allowed == Allows(l, pruned, key, now) && hits == Count(l, pruned, key, now)
    {
      if |hits| > PRUNE_ABOVE {
        ghost var before := hits;
        var left := hits.Keys;
        while left != {}
          invariant left <= before.Keys
          invariant forall k :: k in hits <==> k in before && (k in left || Live(l, before[k], now))
          invariant forall k :: k in hits ==> hits[k] == before[k]
          decreases left
        {
          assert (forall k :: k !in left) ==> left == {};
          var k :| k in left;
          left := left - {k};
          if !Live(l, hits[k], now) {
            hits := hits - {k};
          }
        }
        assert hits == Prune(l, before, now);
      }
      if key !in hits || now - hits[key].start >= l.window {
        hits := hits[key := WindowCount(now, 1)];
        return true;
      }
      if hits[key].n >= l.limit {
        return false;
      }
      hits := hits[key := hits[key].(n := hits[key].n + 1)];
      return true;
    }
  }

  // ---------------------------------------------------------------------
  // Runs
  // ---------------------------------------------------------------------

  datatype Call = Call(key: string, time: int)

  /** The pruning limiter's table after some calls. */
  function PrunedHits(l: Limits, calls: seq<Call>): Hits {
    if calls == [] then map[]
    else
      var c := calls[|calls| - 1];
      Count(l, PruneIfLarge(l, PrunedHits(l, calls[..|calls| - 1]), c.time), c.key, c.time)
  }

  /** The answer the pruning limiter gives to call `i`. */
  function Answer(l: Limits, calls: seq<Call>, i: nat): bool
    requires i < |calls|
  {
    Allows(l, PruneIfLarge(l, PrunedHits(l, calls[..i]), calls[i].time), calls[i].key, calls[i].time)
  }

  function PlainHits(l: Limits, calls: seq<Call>): Hits {
    if calls == [] then map[]
    else
      var c := calls[|calls| - 1];
      Count(l, PlainHits(l, calls[..|calls| - 1]), c.key, c.time)
  }

  function PlainAnswer(l: Limits, calls: seq<Call>, i: nat): bool
    requires i < |calls|
  {
    Allows(l, PlainHits(l, calls[..i]), calls[i].key, calls[i].time)
  }

  ghost predicate Monotone(calls: seq<Call>) {
    forall i, j :: 0 <= i < j < |calls| ==> calls[i].time <= calls[j].time
  }

  // ---------------------------------------------------------------------
  // Pruning cannot be observed
  // ---------------------------------------------------------------------

  /** From `now` on, the two tables cannot be told apart. */
  ghost predicate Alike(l: Limits, a: Hits, b: Hits, now: int) {
    forall k :: (k in a && Live(l, a[k], now)) || (k in b && Live(l, b[k], now)) ==> k in a && k in b && a[k] == b[k]
  }

  lemma AlikeStep(l: Limits, a: Hits, b: Hits, key: string, now: int)
    requires Alike(l, a, b, now)
    ensures var pruned := PruneIfLarge(l, a, now);
            && Allows(l, pruned, key, now) == Allows(l, b, key, now)
            && Alike(l, Count(l, pruned, key, now), Count(l, b, key, now), now)
  {
  }

  lemma AlikeLater(l: Limits, a: Hits, b: Hits, now: int, later: int)
    requires Alike(l, a, b, now) && now <= later
    ensures Alike(l, a, b, later)
  {
  }

  lemma {:induction false} AlikeOverRuns(l: Limits, calls: seq<Call>, now: int)
    requires Monotone(calls) && (calls != [] ==> calls[|calls| - 1].time <= now)
    ensures Alike(l, PrunedHits(l, calls), PlainHits(l, calls), now)
  {
    if calls != [] {
      var c := calls[|calls| - 1];
      var front := calls[..|calls| - 1];
      AlikeOverRuns(l, front, c.time);
      AlikeStep(l, PrunedHits(l, front), PlainHits(l, front), c.key, c.time);
      AlikeLater(l, PrunedHits(l, calls), PlainHits(l, calls), c.time, now);
    }
  }

  /** Every answer is the one a limiter that never prunes gives. */
  lemma PruningUnobservable(l: Limits, calls: seq<Call>, i: nat)
    requires Monotone(calls) && i < |calls|
    ensures Answer(l, calls, i) == PlainAnswer(l, calls, i)
  {
    AlikeOverRuns(l, calls[..i], calls[i].time);
    AlikeStep(l, PrunedHits(l, calls[..i]), PlainHits(l, calls[..i]), calls[i].key, calls[i].time);
  }

  // ---------------------------------------------------------------------
  // How much gets through
  // ---------------------------------------------------------------------

  /** Allowed calls of `key` with a time in `[from, to)`. */
  function Through(l: Limits, calls: seq<Call>, key: string, from: int, to: int): nat {
    if calls == [] then 0
    else
      var n := |calls| - 1;
      Through(l, calls[..n], key, from, to)
      + if calls[n].key == key && from <= calls[n].time < to && Answer(l, calls, n) then 1 else 0
  }

  /** A window lets its first call through even when the limit is 0. */
  function Cap(l: Limits): int {
    if l.limit < 1 then 1 else l.limit
  }

  /** Allowed calls of `key` from a time on. */
  function Since(l: Limits, calls: seq<Call>, key: string, from: int): nat {
    if calls == [] then 0
    else
      var n := |calls| - 1;
      Since(l, calls[..n], key, from)
      + if calls[n].key == key && from <= calls[n].time && Answer(l, calls, n) then 1 else 0
  }

  lemma {:induction false} ThroughWithinSince(l: Limits, calls: seq<Call>, key: string, from: int, to: int)
    ensures Through(l, calls, key, from, to) <= Since(l, calls, key, from)
  {
    if calls != [] {
      ThroughWithinSince(l, calls[..|calls| - 1], key, from, to);
    }
  }

  lemma {:induction false} SinceShrinks(l: Limits, calls: seq<Call>, key: string, from: int, later: int)
    requires from <= later
    ensures Since(l, calls, key, later) <= Since(l, calls, key, from)
  {
    if calls != [] {
      SinceShrinks(l, calls[..|calls| - 1], key, from, later);
    }
  }

  lemma {:induction false} ThroughSplits(l: Limits, calls: seq<Call>, key: string, from: int, middle: int, to: int)
    requires from <= middle <= to
    ensures Through(l, calls, key, from, to) == Through(l, calls, key, from, middle)
        + Through(l, calls, key, middle, to)
  {
    if calls != [] {
      ThroughSplits(l, calls[..|calls| - 1], key, from, middle, to);
    }
  }

  lemma {:induction false} NoEntryNoCalls(l: Limits, calls: seq<Call>, key: string, from: int)
    requires key !in PlainHits(l, calls)
    ensures Since(l, calls, key, from) == 0
  {
    if calls != [] {
      NoEntryNoCalls(l, calls[..|calls| - 1], key, from);
    }
  }

  /**
   A key's current window: it opened no later than the last call, it counts
   exactly the calls let through since, all of them before it closes, and in
   the window's length before it opened at most one limit's worth got through.
   */
  ghost predicate WindowOk(l: Limits, calls: seq<Call>, key: string) {
    var hits := PlainHits(l, calls);
    key in hits ==>
      var w := hits[key];
      && calls != [] && w.start <= calls[|calls| - 1].time
      && 1 <= w.n <= Cap(l)
      && Since(l, calls, key, w.start) == w.n
      && Since(l, calls, key, w.start + l.window) == 0
      && QuietBefore(l, calls, key, w.start)
  }

  ghost predicate QuietBefore(l: Limits, calls: seq<Call>, key: string, start: int) {
    forall from :: start - l.window < from ==> Through(l, calls, key, from, start) <= Cap(l)
  }

  /** A window that opens after another one closed. */
  lemma QuietBeforeNew(l: Limits, calls: seq<Call>, key: string, start: int)
    requires l.window > 0 && WindowOk(l, calls, key)
    requires key in PlainHits(l, calls) ==> start - PlainHits(l, calls)[key].start >= l.window
    ensures QuietBefore(l, calls, key, start)
  {
    forall from | start - l.window < from ensures Through(l, calls, key, from, start) <= Cap(l) {
      ThroughWithinSince(l, calls, key, from, start);
      if key in PlainHits(l, calls) {
        SinceShrinks(l, calls, key, PlainHits(l, calls)[key].start, from);
      } else {
        NoEntryNoCalls(l, calls, key, from);
      }
    }
  }

  /** A call at or after the opening does not change what went before it. */
  lemma QuietStays(l: Limits, calls: seq<Call>, key: string, start: int)
    requires calls != [] && start <= calls[|calls| - 1].time
    requires QuietBefore(l, calls[..|calls| - 1], key, start)
    ensures QuietBefore(l, calls, key, start)
  {
    forall from | start - l.window < from ensures Through(l, calls, key, from, start) <= Cap(l) {
      assert Through(l, calls, key, from, start) == Through(l, calls[..|calls| - 1], key, from, start);
    }
  }

  lemma {:induction false} WindowsOk(l: Limits, calls: seq<Call>, key: string)
    requires Monotone(calls) && l.window > 0
    ensures WindowOk(l, calls, key)
  {
    if calls != [] {
      var n := |calls| - 1;
      var front, c := calls[..n], calls[n];
      WindowsOk(l, front, key);
      PruningUnobservable(l, calls, n);
      var before := PlainHits(l, front);
      if c.key == key && (key !in before || !Live(l, before[key], c.time)) {
        if key in before {
          SinceShrinks(l, front, key, before[key].start + l.window, c.time);
          SinceShrinks(l, front, key, c.time, c.time + l.window);
        } else {
          NoEntryNoCalls(l, front, key, c.time);
          NoEntryNoCalls(l, front, key, c.time + l.window);
        }
        QuietBeforeNew(l, front, key, c.time);
        QuietStays(l, calls, key, c.time);
      } else if key in before {
        assert front[|front| - 1].time <= c.time;
        QuietStays(l, calls, key, before[key].start);
      }
    }
  }

  /** A window lets at most the limit through. */
  lemma AtMostLimitPerWindow(l: Limits, calls: seq<Call>, key: string)
    requires Monotone(calls) && l.window > 0 && key in PlainHits(l, calls)
    ensures Since(l, calls, key, PlainHits(l, calls)[key].start) == PlainHits(l, calls)[key].n <= Cap(l)
  {
    WindowsOk(l, calls, key);
  }

  /** Any stretch of one window's length, wherever it starts, lets at most twice the limit through. */
  lemma {:induction false} AtMostTwiceTheLimit(l: Limits, calls: seq<Call>, key: string, from: int)
    requires Monotone(calls) && l.window > 0
    ensures Through(l, calls, key, from, from + l.window) <= 2 * Cap(l)
  {
    if calls != [] {
      var n := |calls| - 1;
      var c := calls[n];
      AtMostTwiceTheLimit(l, calls[..n], key, from);
      if c.key == key && from <= c.time < from + l.window {
        WindowsOk(l, calls, key);
        var start := PlainHits(l, calls)[key].start;
        if from >= start {
          ThroughWithinSince(l, calls, key, from, from + l.window);
          SinceShrinks(l, calls, key, start, from);
        } else {
          ThroughSplits(l, calls, key, from, start, from + l.window);
          ThroughWithinSince(l, calls, key, start, from + l.window);
        }
      }
    }
  }

  // ---------------------------------------------------------------------
  // Who gets through
  // ---------------------------------------------------------------------

  /** When a key's newest window opened: at its first call, then at the first one a window's length or more later. */
  function OpenedAt(l: Limits, calls: seq<Call>, key: string): Option<int> {
    if calls == [] then None
    else
      var last := calls[|calls| - 1];
      var before := OpenedAt(l, calls[..|calls| - 1], key);
      if last.key == key && (before.None? || last.time >= before.value + l.window) then Some(last.time) else before
  }

  lemma {:induction false} WindowOpened(l: Limits, calls: seq<Call>, key: string)
    ensures OpenedAt(l, calls, key) == if key in PlainHits(l, calls) then Some(PlainHits(l, calls)[key].start) else None
  {
    if calls != [] {
      WindowOpened(l, calls[..|calls| - 1], key);
    }
  }

  /**
   A call gets through exactly when its key has no window open, or fewer calls
   than the limit got through since that window opened: nobody is turned away
   below the limit, and nobody else's calls matter.
   */
  lemma WhoGetsThrough(l: Limits, calls: seq<Call>, i: nat)
    requires Monotone(calls) && l.window > 0 && i < |calls|
    ensures var key, now, before := calls[i].key, calls[i].time, calls[..i];
            Answer(l, calls, i)
            <==> var start := OpenedAt(l, before, key);
                 start.None? || now >= start.value + l.window || Since(l, before, key, start.value) < l.limit
  {
    var key, now, before := calls[i].key, calls[i].time, calls[..i];
    PruningUnobservable(l, calls, i);
    WindowsOk(l, before, key);
    WindowOpened(l, before, key);
    hide PlainHits, Since, OpenedAt, Answer, QuietBefore;
  }

  // ---------------------------------------------------------------------
  // When the limit itself holds
  // ---------------------------------------------------------------------

  /** No window of any key ever lets more than the limit through. */
  ghost predicate WindowsWithinLimit(l: Limits) {
    forall calls, key :: Monotone(calls) && key in PlainHits(l, calls) ==>
      Since(l, calls, key, PlainHits(l, calls)[key].start) <= l.limit
  }

  /** Allowed calls in the stretch of one window's length from a time on. */
  function InStretch(l: Limits, calls: seq<Call>, key: string, from: int): nat {
    Through(l, calls, key, from, from + l.window)
  }

  /** No stretch of a window's length ever lets more than twice the limit through. */
  ghost predicate StretchesWithinTwice(l: Limits) {
    forall calls, key, from :: Monotone(calls) ==> InStretch(l, calls, key, from) <= 2 * l.limit
  }

  /** A limit below 1 still lets a first call through. */
  lemma FirstCallGetsThrough(l: Limits)
    requires l.limit < 1 && l.window > 0
    ensures var calls := [Call("k", 0)];
            && Through(l, calls, "k", 0, l.window) == 1 > l.limit
            && PlainHits(l, calls) == map["k" := WindowCount(0, 1)]
            && Since(l, calls, "k", 0) == 1
  {
    var calls := [Call("k", 0)];
    assert calls[..0] == [];
    assert Answer(l, calls, 0);
    assert Through(l, [], "k", 0, l.window) == 0 && Since(l, [], "k", 0) == 0;
  }

  /** The limit is kept, per window and over any stretch, exactly when it allows a call at all. */
  lemma LimitKeptFromOneUp(l: Limits)
    requires l.window > 0
    ensures WindowsWithinLimit(l) <==> l.limit >= 1
    ensures StretchesWithinTwice(l) <==> l.limit >= 1
  {
    if l.limit >= 1 {
      forall calls, key | Monotone(calls) && key in PlainHits(l, calls)
        ensures Since(l, calls, key, PlainHits(l, calls)[key].start) <= l.limit
      {
        AtMostLimitPerWindow(l, calls, key);
      }
      forall calls, key, from | Monotone(calls)
        ensures InStretch(l, calls, key, from) <= 2 * l.limit
      {
        AtMostTwiceTheLimit(l, calls, key, from);
      }
    } else {
      var calls := [Call("k", 0)];
      FirstCallGetsThrough(l);
      assert Monotone(calls) && "k" in PlainHits(l, calls);
      assert InStretch(l, calls, "k", 0) == 1;
    }
  }
}
