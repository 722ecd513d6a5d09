/** The monotonic no-look-ahead clock of backend/backtest/event_loop.py; dates are eight ASCII digits. */
module Clock {
  import opened Outcome
  import opened Lexicographic

  datatype ClockError = NoDays | BadDate(day: string) | LookAhead(day: string, current: string)

  predicate IsDigit(c: char) { '0' <= c <= '9' }

  predicate IsDate(day: string) { |day| == 8 && forall i :: 0 <= i < |day| ==> IsDigit(day[i]) }

  predicate AtMost(a: string, b: string) { a == b || Less(a, b) }

  /** Days that passed the constructor: sorted, distinct, well-formed, at least one. */
  ghost predicate ValidDays(days: seq<string>) {
    days != [] && StrictlySorted(days) && forall d :: d in days ==> IsDate(d)
  }

  class BacktestClock {
    const days: seq<string>
    var idx: nat

    ghost predicate Valid()
      reads this
    {
      ValidDays(days) && idx < |days|
    }

    constructor (ordered: seq<string>)
      requires ValidDays(ordered)
      ensures Valid() && days == ordered && idx == 0
    {
      days, idx := ordered, 0;
    }

    method CurrentDay() returns (day: string)
      requires Valid()
      ensures day == days[idx]
    {
      day := days[idx];
    }

    /** The next day, or None exactly at the last day, without moving. */
    method Advance() returns (day: Option<string>)
      requires Valid()
      modifies this
      ensures Valid() && idx == NextIdx(|days|, old(idx))
      ensures day.None? <==> old(idx) == |days| - 1
      ensures day.Some? ==> day.value == days[idx] && Less(days[old(idx)], day.value)
    {
      if idx >= |days| - 1 { return None; }
      idx := idx + 1;
      day := Some(days[idx]);
    }

    /** Refuses exactly the days after the cursor. */
    method AssertReadable(day: string) returns (r: Outcome<(), ClockError>)
      requires Valid()
      ensures r.Ok? <==> Readable(days, idx, day)
      ensures r.Err? ==> r.error == LookAhead(day, days[idx])
    {
      LessAsymmetric(day, days[idx]);
      if Less(days[idx], day) { return Err(LookAhead(day, days[idx])); }
      r := Ok(());
    }
  }

  /** The constructor: distinct days in order; an empty calendar or a malformed date is refused. */
  method MakeClock(tradingDays: seq<string>) returns (r: Outcome<BacktestClock, ClockError>)
    ensures r.Ok? <==> tradingDays != [] && forall d :: d in tradingDays ==> IsDate(d)
    ensures r.Ok? ==> fresh(r.value) && r.value.Valid() && r.value.idx == 0
    ensures r.Ok? ==> forall d :: d in r.value.days <==> d in tradingDays
  {
    var distinct := set d | d in tradingDays;
    var ordered := SortedElements(distinct);
    SameDays(tradingDays, ordered);
    if ordered == [] {
      return Err(NoDays);
    }
    assert ordered[0] in ordered;
    for i := 0 to |ordered|
      invariant forall k :: 0 <= k < i ==> IsDate(ordered[k])
    {
      assert ordered[i] in ordered;
      if !IsDate(ordered[i]) { return Err(BadDate(ordered[i])); }
    }
    var clock := new BacktestClock(ordered);
    r := Ok(clock);
  }

  lemma SameDays(a: seq<string>, b: seq<string>)
    requires forall d :: d in b <==> d in a
    ensures a == [] <==> b == []
  {
    if a != [] { assert a[0] in a; }
    if b != [] { assert b[0] in b; }
  }

  // ---------------------------------------------------------------- every call sequence

  function NextIdx(n: nat, idx: nat): nat { if idx + 1 < n then idx + 1 else idx }

  predicate Readable(days: seq<string>, idx: nat, day: string)
    requires idx < |days|
  {
    AtMost(day, days[idx])
  }

  lemma LessAsymmetric(a: string, b: string)
    ensures AtMost(a, b) <==> !Less(b, a)
  {
    LessConnected(a, b);
    if AtMost(a, b) && Less(b, a) {
      if a != b { LessTransitive(a, b, a); }
      LessIrreflexive(a);
    }
  }

  /** The cursor after a number of `advance` calls (reads do not move it). */
  function IdxAfter(n: nat, advances: nat): nat
    requires n > 0
  {
    if advances == 0 then 0 else NextIdx(n, IdxAfter(n, advances - 1))
  }

  /** The k-th advance visits the k-th day: none skipped, none repeated, and the cursor rests on the last. */
  lemma {:induction false} VisitsEveryDayInOrder(n: nat, advances: nat)
    requires n > 0
    ensures IdxAfter(n, advances) == if advances < n then advances else n - 1
  {
    if advances > 0 { VisitsEveryDayInOrder(n, advances - 1); }
  }

  /** A calendar day is readable exactly when it has been visited. */
  lemma ReadableIffVisited(days: seq<string>, idx: nat, day: string)
    requires ValidDays(days) && idx < |days| && day in days
    ensures Readable(days, idx, day) <==> day in days[..idx + 1]
  {
    var k :| 0 <= k < |days| && days[k] == day;
    LessAsymmetric(day, days[idx]);
    if k <= idx {
      assert days[..idx + 1][k] == day;
    } else {
      forall i | 0 <= i <= idx ensures days[i] != day {
        assert Less(days[i], days[k]);
        LessIrreflexive(day);
      }
    }
  }

  /** Over any further calls a readable day stays readable, and an unvisited day was never readable before. */
  lemma {:induction false} ReadableForever(days: seq<string>, earlier: nat, later: nat, day: string)
    requires ValidDays(days) && earlier <= later
    ensures IdxAfter(|days|, earlier) < |days| && IdxAfter(|days|, later) < |days|
    ensures Readable(days, IdxAfter(|days|, earlier), day) ==> Readable(days, IdxAfter(|days|, later), day)
  {
    VisitsEveryDayInOrder(|days|, earlier);
    VisitsEveryDayInOrder(|days|, later);
    var i, j := IdxAfter(|days|, earlier), IdxAfter(|days|, later);
    if i < j && Less(day, days[i]) {
      assert Less(days[i], days[j]);
      LessTransitive(day, days[i], days[j]);
    }
  }

  // ---------------------------------------------------------------- lexicographic is chronological

  function Pow10(n: nat): (p: nat)
    ensures p > 0
  {
    if n == 0 then 1 else 10 * Pow10(n - 1)
  }

  function Digit(c: char): int { c as int - '0' as int }

  ghost predicate AllDigits(s: string) { forall i :: 0 <= i < |s| ==> IsDigit(s[i]) }

  /** The number a digit string denotes. */
  function Number(s: string): int {
    if s == "" then 0 else Digit(s[0]) * Pow10(|s| - 1) + Number(s[1..])
  }

  lemma {:induction false} NumberBound(s: string)
    requires AllDigits(s)
    ensures 0 <= Number(s) < Pow10(|s|)
  {
    if s != "" {
      NumberBound(s[1..]);
      var p := Pow10(|s| - 1);
      assert IsDigit(s[0]);
      Scale(Digit(s[0]), 9, p);
      Scale(0, Digit(s[0]), p);
    }
  }

  lemma Scale(a: int, b: int, p: nat)
    requires a <= b
    ensures a * p <= b * p
  {}

  /** On equally long digit strings, such as dates, string order is numeric order. */
  lemma {:induction false} LexicographicIsNumeric(a: string, b: string)
    requires |a| == |b| && AllDigits(a) && AllDigits(b)
    ensures Less(a, b) <==> Number(a) < Number(b)
  {
    if a != "" {
      NumberBound(a[1..]);
      NumberBound(b[1..]);
      LexicographicIsNumeric(a[1..], b[1..]);
      var p := Pow10(|a| - 1);
      if a[0] < b[0] {
        HeadDecides(Digit(a[0]), Digit(b[0]), p, Number(a[1..]), Number(b[1..]));
      } else if b[0] < a[0] {
        HeadDecides(Digit(b[0]), Digit(a[0]), p, Number(b[1..]), Number(a[1..]));
      }
    }
  }

  lemma HeadDecides(d: int, e: int, p: nat, x: int, y: int)
    requires d < e && x < p && 0 <= y
    ensures d * p + x < e * p + y
  {
    Scale(d + 1, e, p);
    assert (d + 1) * p == d * p + p;
  }
}
