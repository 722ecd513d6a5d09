/**
 * Walking and counting trading days over an arbitrary calendar predicate (scripts/acceptance_dashboard.py,
 * scripts/simulate_n_trading_days.py, backend/main.py, backend/data/trading_calendar.py), as select and rank.
 */
module Calendar {
  import opened Outcome

  const MAX_STEPS := 366

  /** The number of trading days after `lo` up to and including `hi`. */
  function Rank(trading: int -> bool, lo: int, hi: int): nat
    decreases hi - lo
  {
    if hi <= lo then 0 else Rank(trading, lo, hi - 1) + if trading(hi) then 1 else 0
  }

  lemma {:induction false} RankAdditive(trading: int -> bool, lo: int, mid: int, hi: int)
    requires lo <= mid <= hi
    ensures Rank(trading, lo, hi) == Rank(trading, lo, mid) + Rank(trading, mid, hi)
    decreases hi - mid
  {
    if mid < hi { RankAdditive(trading, lo, mid, hi - 1); }
  }

  lemma {:induction false} RankEmpty(trading: int -> bool, lo: int, hi: int)
    requires forall d :: lo < d <= hi ==> !trading(d)
    ensures Rank(trading, lo, hi) == 0
    decreases hi - lo
  {
    if lo < hi { RankEmpty(trading, lo, hi - 1); }
  }

  /** d is the least trading day after c. */
  ghost predicate IsNext(trading: int -> bool, c: int, d: int) {
    c < d && trading(d) && forall x :: c < x < d ==> !trading(x)
  }

  /** No trading day within the walk's hard bound. */
  ghost predicate Gap(trading: int -> bool, c: int) {
    forall x :: c < x <= c + MAX_STEPS ==> !trading(x)
  }

  method NextTradingDay(trading: int -> bool, date: int) returns (r: Option<int>)
    ensures r.Some? ==> IsNext(trading, date, r.value) && r.value <= date + MAX_STEPS
    ensures r.None? <==> Gap(trading, date)
  {
    var candidate := date + 1;
    for i := 0 to MAX_STEPS
      invariant candidate == date + 1 + i
      invariant forall x :: date < x < candidate ==> !trading(x)
    {
      if trading(candidate) { return Some(candidate); }
      candidate := candidate + 1;
    }
    r := None;
  }

  // ---------------------------------------------------------------- select

  /** d is the n-th trading day from, and including, start. */
  ghost predicate IsNth(trading: int -> bool, start: int, n: int, d: int) {
    start <= d && trading(d) && Rank(trading, start - 1, d) == n
  }

  lemma NthUnique(trading: int -> bool, start: int, n: int, d: int, e: int)
    requires IsNth(trading, start, n, d) && IsNth(trading, start, n, e)
    ensures d == e
  {
    if d < e {
      RankAdditive(trading, start - 1, d, e);
    } else if e < d {
      RankAdditive(trading, start - 1, e, d);
    }
  }

  lemma NextIsNth(trading: int -> bool, start: int, n: int, c: int, d: int)
    requires IsNext(trading, c, d) && start <= c && Rank(trading, start - 1, c) == n
    ensures IsNth(trading, start, n + 1, d)
  {
    RankAdditive(trading, start - 1, c, d);
    RankEmpty(trading, c, d - 1);
  }

  /** Every day before the n-th trading day has another trading day within the walk's bound. */
  ghost predicate Walkable(trading: int -> bool, start: int, n: int) {
    forall c :: start <= c && Rank(trading, start - 1, c) < n ==> !Gap(trading, c)
  }

  datatype WalkError = BadCount(n: int) | NoTradingDay(after: int)

  /** No day from start up to d starts a gap. */
  ghost predicate NoGapBefore(trading: int -> bool, start: int, d: int) {
    forall c :: start <= c < d ==> !Gap(trading, c)
  }

  lemma NextLeavesNoGap(trading: int -> bool, start: int, c: int, d: int)
    requires NoGapBefore(trading, start, c) && IsNext(trading, c, d) && d <= c + MAX_STEPS
    ensures NoGapBefore(trading, start, d)
  {
    forall x | start <= x < d ensures !Gap(trading, x) {
      if c <= x { assert x < d <= x + MAX_STEPS && trading(d); }
    }
  }

  lemma GapStopsTheWalk(trading: int -> bool, start: int, n: int, c: int)
    requires start <= c && Rank(trading, start - 1, c) < n && Gap(trading, c)
    ensures !Walkable(trading, start, n)
  {}

  lemma NoGapIsWalkable(trading: int -> bool, start: int, n: int, d: int)
    requires NoGapBefore(trading, start, d) && IsNth(trading, start, n, d)
    ensures Walkable(trading, start, n)
  {
    forall c | start <= c && Rank(trading, start - 1, c) < n ensures !Gap(trading, c) {
      if d <= c { RankAdditive(trading, start - 1, d, c); }
    }
  }

  /** `start` itself when it is a trading day, else the next one. */
  method FirstTradingDay(trading: int -> bool, start: int) returns (r: Option<int>)
    ensures r.Some? ==> IsNth(trading, start, 1, r.value) && NoGapBefore(trading, start, r.value)
    ensures r.None? ==> !Walkable(trading, start, 1)
  {
    assert Rank(trading, start - 1, start - 1) == 0;
    if trading(start) {
      return Some(start);
    }
    r := NextTradingDay(trading, start);
    assert Rank(trading, start - 1, start) == 0;
    if r.None? {
      GapStopsTheWalk(trading, start, 1, start);
    } else {
      NextIsNth(trading, start, 0, start, r.value);
      NextLeavesNoGap(trading, start, start, r.value);
    }
  }

  lemma WalkableDown(trading: int -> bool, start: int, m: int, n: int)
    requires m <= n && !Walkable(trading, start, m)
    ensures !Walkable(trading, start, n)
  {}

  /**
   * `iter_trading_days`: the first `count` trading days from start, in order; it fails exactly when the
   * calendar has a gap longer than the walk's bound before the last of them.
   */
  method IterTradingDays(trading: int -> bool, start: int, count: int) returns (r: Outcome<seq<int>, WalkError>)
    ensures count < 1 ==> r == Err(BadCount(count))
    ensures count >= 1 ==> (r.Ok? <==> Walkable(trading, start, count))
    ensures r.Ok? ==> |r.value| == count && forall i :: 0 <= i < count ==> IsNth(trading, start, i + 1, r.value[i])
  {
    if count < 1 { return Err(BadCount(count)); }
    var first := FirstTradingDay(trading, start);
    if first.None? {
      WalkableDown(trading, start, 1, count);
      return Err(NoTradingDay(start));
    }
    var cursor := first.value;
    var days := [cursor];
    for i := 1 to count
      invariant |days| == i && days[i - 1] == cursor && NoGapBefore(trading, start, cursor)
      invariant forall k :: 0 <= k < i ==> IsNth(trading, start, k + 1, days[k])
    {
      var next := NextTradingDay(trading, cursor);
      if next.None? {
        GapStopsTheWalk(trading, start, count, cursor);
        return Err(NoTradingDay(cursor));
      }
      NextIsNth(trading, start, i, cursor, next.value);
      NextLeavesNoGap(trading, start, cursor, next.value);
      cursor := next.value;
      days := days + [cursor];
    }
    NoGapIsWalkable(trading, start, count, cursor);
    r := Ok(days);
  }

  /** `walk_n_trading_days`: the n-th trading day from start. */
  method WalkNTradingDays(trading: int -> bool, start: int, n: int) returns (r: Outcome<int, WalkError>)
    ensures n < 1 ==> r == Err(BadCount(n))
    ensures n >= 1 ==> (r.Ok? <==> Walkable(trading, start, n))
    ensures r.Ok? ==> IsNth(trading, start, n, r.value)
  {
    if n < 1 { return Err(BadCount(n)); }
    var first := FirstTradingDay(trading, start);
    if first.None? {
      WalkableDown(trading, start, 1, n);
      return Err(NoTradingDay(start));
    }
    var cursor := first.value;
    for i := 1 to n
      invariant IsNth(trading, start, i, cursor) && NoGapBefore(trading, start, cursor)
    {
      var next := NextTradingDay(trading, cursor);
      if next.None? {
        GapStopsTheWalk(trading, start, n, cursor);
        return Err(NoTradingDay(cursor));
      }
      NextIsNth(trading, start, i, cursor, next.value);
      NextLeavesNoGap(trading, start, cursor, next.value);
      cursor := next.value;
    }
    NoGapIsWalkable(trading, start, n, cursor);
    r := Ok(cursor);
  }

  // ---------------------------------------------------------------- rank

  /** `_count_trading_days`: None for a malformed or future buy date, else the rank of the interval. */
  method CountTradingDays(trading: int -> bool, tradeDate: Option<int>, end: int) returns (r: Option<nat>)
    ensures r.None? <==> tradeDate.None? || tradeDate.value > end
    ensures r.Some? ==> r.value == Rank(trading, tradeDate.value, end)
  {
    if tradeDate.None? || tradeDate.value > end { return None; }
    var cursor, count := tradeDate.value, 0;
    while cursor < end
      invariant tradeDate.value <= cursor <= end
      invariant count == Rank(trading, tradeDate.value, cursor)
    {
      cursor := cursor + 1;
      if trading(cursor) { count := count + 1; }
    }
    r := Some(count);
  }

  /**
   * Select and rank are inverse: the iterated days are exactly the trading days from start to the walked
   * day, each at the index its rank gives, and the walked day is the last of them.
   */
  lemma SelectAndRankAreInverse(trading: int -> bool, start: int, n: int, walked: int, days: seq<int>, x: int)
    requires n >= 1 && IsNth(trading, start, n, walked)
    requires |days| == n && forall i :: 0 <= i < n ==> IsNth(trading, start, i + 1, days[i])
    ensures days[n - 1] == walked
    ensures start <= x <= walked && trading(x) ==>
              1 <= Rank(trading, start - 1, x) <= n && days[Rank(trading, start - 1, x) - 1] == x
    ensures x in days ==> start <= x <= walked && trading(x)
  {
    NthUnique(trading, start, n, walked, days[n - 1]);
    if start <= x <= walked && trading(x) {
      var r := Rank(trading, start - 1, x);
      RankAdditive(trading, start - 1, x, walked);
      NthUnique(trading, start, r, days[r - 1], x);
    }
    if x in days {
      var i :| 0 <= i < n && days[i] == x;
      if walked < x {
        RankAdditive(trading, start - 1, walked, x);
        RankAdditive(trading, walked, x - 1, x);
      }
    }
  }
}
