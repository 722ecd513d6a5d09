/** The golden-curve comparator of backend/backtest/golden_replay.py and what its verdict means. */
module Comparator {
  import opened Lexicographic
  import opened Ledger

  /** A (code, volume) pair; the cost basis is not compared. */
  datatype Held = Held(code: string, volume: int)

  function HeldOf(positions: seq<Position>): seq<Held> {
    seq(|positions|, i requires 0 <= i < |positions| => Held(positions[i].code, positions[i].volume))
  }

  // ---------------------------------------------------------------- sorted lists of pairs

  /** Tuple order. */
  predicate AtMost(x: Held, y: Held) {
    Less(x.code, y.code) || (x.code == y.code && x.volume <= y.volume)
  }

  lemma AtMostTransitive(x: Held, y: Held, z: Held)
    requires AtMost(x, y) && AtMost(y, z)
    ensures AtMost(x, z)
  {
    if Less(x.code, y.code) && Less(y.code, z.code) { LessTransitive(x.code, y.code, z.code); }
  }

  lemma AtMostConnected(x: Held, y: Held)
    ensures AtMost(x, y) || AtMost(y, x)
  {
    LessConnected(x.code, y.code);
  }

  lemma AtMostAntisymmetric(x: Held, y: Held)
    requires AtMost(x, y) && AtMost(y, x)
    ensures x == y
  {
    if Less(x.code, y.code) {
      if Less(y.code, x.code) { LessTransitive(x.code, y.code, x.code); }
      LessIrreflexive(x.code);
    } else if Less(y.code, x.code) {
      LessIrreflexive(x.code);
    }
  }

  function Insert(x: Held, s: seq<Held>): seq<Held> {
    if s == [] || AtMost(x, s[0]) then [x] + s else [s[0]] + Insert(x, s[1..])
  }

  /** Python's `sorted` on pairs. */
  function SortHeld(s: seq<Held>): seq<Held> {
    if s == [] then [] else Insert(s[0], SortHeld(s[1..]))
  }

  ghost predicate Ascending(s: seq<Held>) {
    forall i, j :: 0 <= i < j < |s| ==> AtMost(s[i], s[j])
  }

  lemma {:induction false} InsertMultiset(x: Held, s: seq<Held>)
    ensures multiset(Insert(x, s)) == multiset(s) + multiset{x}
  {
    if s != [] {
      assert s == [s[0]] + s[1..];
      InsertMultiset(x, s[1..]);
    }
  }

  lemma {:induction false} InsertAscending(x: Held, s: seq<Held>)
    requires Ascending(s)
    ensures Ascending(Insert(x, s))
  {
    if s != [] {
      if AtMost(x, s[0]) {
        forall j | 0 <= j < |s| ensures AtMost(x, s[j]) {
          if j > 0 { AtMostTransitive(x, s[0], s[j]); }
        }
      } else {
        AtMostConnected(x, s[0]);
        InsertAscending(x, s[1..]);
        InsertMultiset(x, s[1..]);
        var rest := Insert(x, s[1..]);
        forall j | 0 <= j < |rest| ensures AtMost(s[0], rest[j]) {
          assert rest[j] in multiset(rest);
        }
      }
    }
  }

  lemma {:induction false} SortKeeps(s: seq<Held>)
    ensures Ascending(SortHeld(s)) && multiset(SortHeld(s)) == multiset(s)
  {
    if s != [] {
      SortKeeps(s[1..]);
      InsertMultiset(s[0], SortHeld(s[1..]));
      InsertAscending(s[0], SortHeld(s[1..]));
      assert s == [s[0]] + s[1..];
    }
  }

  lemma {:induction false} AscendingUnique(a: seq<Held>, b: seq<Held>)
    requires Ascending(a) && Ascending(b) && multiset(a) == multiset(b)
    ensures a == b
  {
    assert |a| == |multiset(a)| == |multiset(b)| == |b|;
    if a != [] {
      SameHead(a, b);
      TailMultiset(a);
      TailMultiset(b);
      AscendingUnique(a[1..], b[1..]);
    }
  }

  lemma SameHead(a: seq<Held>, b: seq<Held>)
    requires Ascending(a) && Ascending(b) && multiset(a) == multiset(b)
    requires |a| > 0 && |b| > 0
    ensures a[0] == b[0]
  {
    assert a[0] in multiset(b) && b[0] in multiset(a);
    AscendingHead(a, b[0]);
    AscendingHead(b, a[0]);
    if a[0] != b[0] { AtMostAntisymmetric(a[0], b[0]); }
  }

  lemma TailMultiset(a: seq<Held>)
    requires |a| > 0
    ensures a == [a[0]] + a[1..]
    ensures multiset(a[1..]) == multiset(a) - multiset{a[0]}
  {
    assert a == [a[0]] + a[1..];
  }

  lemma AscendingHead(a: seq<Held>, x: Held)
    requires Ascending(a) && x in a
    ensures AtMost(a[0], x) || a[0] == x
  {
    var k :| 0 <= k < |a| && a[k] == x;
  }

  /** Comparing sorted lists compares multisets: order is forgotten, duplicates are not. */
  lemma SortedEqualIff(a: seq<Held>, b: seq<Held>)
    ensures SortHeld(a) == SortHeld(b) <==> multiset(a) == multiset(b)
  {
    SortKeeps(a);
    SortKeeps(b);
    if multiset(a) == multiset(b) { AscendingUnique(SortHeld(a), SortHeld(b)); }
  }

  // ---------------------------------------------------------------- the comparator

  datatype Divergence =
    | LengthDiffers(replayed: nat, recorded: nat)
    | DateDiffers(replayedDate: string, recordedDate: string)
    | AmountDiffers(date: string, fieldName: string, replayedAmount: int, recordedAmount: int)
    | PositionsDiffer(date: string, replayedHeld: seq<Held>, recordedHeld: seq<Held>)

  function AbsDiff(a: int, b: int): nat { if a < b then b - a else a - b }

  /** The amounts differ by at most the tolerance, either way. */
  ghost predicate Within(a: int, b: int, tolerance: int) { -tolerance <= a - b <= tolerance }

  /** The rows agree: same date, the three amounts within tolerance, the same pairs with multiplicity. */
  ghost predicate RowMatches(rep: EquityPoint, rec: EquityPoint, tolerance: int) {
    && rep.date == rec.date
    && Within(rep.cash, rec.cash, tolerance)
    && Within(rep.marketValue, rec.marketValue, tolerance)
    && Within(rep.totalEquity, rec.totalEquity, tolerance)
    && multiset(HeldOf(rep.positions)) == multiset(HeldOf(rec.positions))
  }

  ghost predicate Matches(replayed: seq<EquityPoint>, recorded: seq<EquityPoint>, tolerance: int) {
    && |replayed| == |recorded|
    && forall i :: 0 <= i < |replayed| ==> RowMatches(replayed[i], recorded[i], tolerance)
  }

  /** A reported divergence names values of this row that really differ. */
  ghost predicate Genuine(d: Divergence, rep: EquityPoint, rec: EquityPoint, tolerance: int) {
    match d
    case LengthDiffers(_, _) => false
    case DateDiffers(x, y) => x == rep.date && y == rec.date && x != y
    case AmountDiffers(date, name, x, y) =>
      && date == rec.date && !Within(x, y, tolerance)
      && ((name == "cash_cents" && x == rep.cash && y == rec.cash)
          || (name == "market_value_cents" && x == rep.marketValue && y == rec.marketValue)
          || (name == "total_equity_cents" && x == rep.totalEquity && y == rec.totalEquity))
    case PositionsDiffer(date, x, y) =>
      && date == rec.date && x != y
      && multiset(x) == multiset(HeldOf(rep.positions)) && multiset(y) == multiset(HeldOf(rec.positions))
  }

  /** Every amount out of tolerance is reported. */
  ghost predicate ReportsAmounts(divs: seq<Divergence>, rep: EquityPoint, rec: EquityPoint, tolerance: int) {
    && (!Within(rep.cash, rec.cash, tolerance) ==> AmountDiffers(rec.date, "cash_cents", rep.cash, rec.cash) in divs)
    && (!Within(rep.marketValue, rec.marketValue, tolerance) ==>
          AmountDiffers(rec.date, "market_value_cents", rep.marketValue, rec.marketValue) in divs)
    && (!Within(rep.totalEquity, rec.totalEquity, tolerance) ==>
          AmountDiffers(rec.date, "total_equity_cents", rep.totalEquity, rec.totalEquity) in divs)
  }

  /** Everything that differs in the row is reported, not just the first difference. */
  ghost predicate Reports(divs: seq<Divergence>, rep: EquityPoint, rec: EquityPoint, tolerance: int) {
    && (rep.date != rec.date ==> DateDiffers(rep.date, rec.date) in divs)
    && ReportsAmounts(divs, rep, rec, tolerance)
    && (multiset(HeldOf(rep.positions)) != multiset(HeldOf(rec.positions)) ==>
          PositionsDiffer(rec.date, SortHeld(HeldOf(rep.positions)), SortHeld(HeldOf(rec.positions))) in divs)
  }

  lemma ReportsMore(some: seq<Divergence>, more: seq<Divergence>, rep: EquityPoint, rec: EquityPoint, tolerance: int)
    requires Reports(some, rep, rec, tolerance) && forall d :: d in some ==> d in more
    ensures Reports(more, rep, rec, tolerance)
  {}

  method CompareAmounts(rep: EquityPoint, rec: EquityPoint, tolerance: int) returns (divergences: seq<Divergence>)
    ensures divergences == [] <==>
              && Within(rep.cash, rec.cash, tolerance)
              && Within(rep.marketValue, rec.marketValue, tolerance)
              && Within(rep.totalEquity, rec.totalEquity, tolerance)
    ensures ReportsAmounts(divergences, rep, rec, tolerance)
    ensures forall d :: d in divergences ==> Genuine(d, rep, rec, tolerance)
  {
    divergences := [];
    if AbsDiff(rep.cash, rec.cash) > tolerance {
      divergences := [AmountDiffers(rec.date, "cash_cents", rep.cash, rec.cash)];
    }
    if AbsDiff(rep.marketValue, rec.marketValue) > tolerance {
      divergences := divergences
        + [AmountDiffers(rec.date, "market_value_cents", rep.marketValue, rec.marketValue)];
    }
    if AbsDiff(rep.totalEquity, rec.totalEquity) > tolerance {
      divergences := divergences
        + [AmountDiffers(rec.date, "total_equity_cents", rep.totalEquity, rec.totalEquity)];
    }
  }

  method CompareHeld(rep: EquityPoint, rec: EquityPoint, ghost tolerance: int) returns (divergences: seq<Divergence>)
    ensures divergences == [] <==> multiset(HeldOf(rep.positions)) == multiset(HeldOf(rec.positions))
    ensures divergences != [] ==>
              divergences == [PositionsDiffer(rec.date, SortHeld(HeldOf(rep.positions)), SortHeld(HeldOf(rec.positions)))]
    ensures forall d :: d in divergences ==> Genuine(d, rep, rec, tolerance)
  {
    var x, y := HeldOf(rep.positions), HeldOf(rec.positions);
    var repHeld, recHeld := SortHeld(x), SortHeld(y);
    SortedEqualIff(x, y);
    SortKeeps(x);
    SortKeeps(y);
    if repHeld != recHeld {
      divergences := [PositionsDiffer(rec.date, repHeld, recHeld)];
    } else {
      divergences := [];
    }
  }

  method CompareRow(rep: EquityPoint, rec: EquityPoint, tolerance: int) returns (divergences: seq<Divergence>)
    ensures divergences == [] <==> RowMatches(rep, rec, tolerance)
    ensures Reports(divergences, rep, rec, tolerance)
    ensures forall d :: d in divergences ==> Genuine(d, rep, rec, tolerance)
  {
    var dates := if rep.date != rec.date then [DateDiffers(rep.date, rec.date)] else [];
    var amounts := CompareAmounts(rep, rec, tolerance);
    var held := CompareHeld(rep, rec, tolerance);
    divergences := dates + amounts + held;
  }

  /** On the first n rows everything listed is a difference and every difference is listed. */
  ghost predicate Judged(divergences: seq<Divergence>, replayed: seq<EquityPoint>, recorded: seq<EquityPoint>, n: nat,
                         tolerance: int)
    requires n <= |replayed| == |recorded|
  {
    && (forall d :: d in divergences ==>
          exists k :: 0 <= k < n && Genuine(d, replayed[k], recorded[k], tolerance))
    && (forall k :: 0 <= k < n ==> Reports(divergences, replayed[k], recorded[k], tolerance))
  }

  lemma JudgedMore(divergences: seq<Divergence>, row: seq<Divergence>, replayed: seq<EquityPoint>,
                   recorded: seq<EquityPoint>, n: nat, tolerance: int)
    requires n < |replayed| == |recorded| && Judged(divergences, replayed, recorded, n, tolerance)
    requires Reports(row, replayed[n], recorded[n], tolerance)
    requires forall d :: d in row ==> Genuine(d, replayed[n], recorded[n], tolerance)
    ensures Judged(divergences + row, replayed, recorded, n + 1, tolerance)
  {
    var all := divergences + row;
    forall k | 0 <= k < n ensures Reports(all, replayed[k], recorded[k], tolerance) {
      ReportsMore(divergences, all, replayed[k], recorded[k], tolerance);
    }
    ReportsMore(row, all, replayed[n], recorded[n], tolerance);
  }

  /** `compare_to_golden`: matched exactly when the two curves match. */
  method CompareToGolden(replayed: seq<EquityPoint>, recorded: seq<EquityPoint>, tolerance: int)
    returns (matched: bool, divergences: seq<Divergence>)
    ensures matched <==> Matches(replayed, recorded, tolerance)
    ensures matched <==> divergences == []
    ensures |replayed| != |recorded| ==> divergences == [LengthDiffers(|replayed|, |recorded|)]
    ensures |replayed| == |recorded| ==>
              forall d :: d in divergences ==>
                exists i :: 0 <= i < |replayed| && Genuine(d, replayed[i], recorded[i], tolerance)
    ensures |replayed| == |recorded| ==>
              forall i :: 0 <= i < |replayed| ==> Reports(divergences, replayed[i], recorded[i], tolerance)
  {
    divergences := [];
    if |replayed| != |recorded| {
      return false, [LengthDiffers(|replayed|, |recorded|)];
    }
    for i := 0 to |replayed|
      invariant divergences == [] <==> forall k :: 0 <= k < i ==> RowMatches(replayed[k], recorded[k], tolerance)
      invariant Judged(divergences, replayed, recorded, i, tolerance)
    {
      var row := CompareRow(replayed[i], recorded[i], tolerance);
      JudgedMore(divergences, row, replayed, recorded, i, tolerance);
      divergences := divergences + row;
    }
    matched := divergences == [];
  }

  // ---------------------------------------------------------------- laws of the verdict

  /** At tolerance 0 the verdict is an equivalence relation on curves. */
  lemma ExactMatchEquivalence(a: seq<EquityPoint>, b: seq<EquityPoint>, c: seq<EquityPoint>)
    ensures Matches(a, a, 0)
    ensures Matches(a, b, 0) ==> Matches(b, a, 0)
    ensures Matches(a, b, 0) && Matches(b, c, 0) ==> Matches(a, c, 0)
  {
    if Matches(a, b, 0) && Matches(b, c, 0) { MatchesCompose(a, b, c, 0, 0); }
  }

  /** Tolerances add up along a chain of comparisons. */
  lemma MatchesCompose(a: seq<EquityPoint>, b: seq<EquityPoint>, c: seq<EquityPoint>, s: int, t: int)
    requires Matches(a, b, s) && Matches(b, c, t)
    ensures Matches(a, c, s + t)
  {
    forall i | 0 <= i < |a| ensures RowMatches(a[i], c[i], s + t) {
      assert RowMatches(a[i], b[i], s) && RowMatches(b[i], c[i], t);
    }
  }
}
