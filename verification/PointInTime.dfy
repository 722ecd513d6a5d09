/** The point-in-time filter over benchmark index rows (backend/main.py, `_observable_index_closes`). */
module PointInTime {
  import opened Outcome

  /** A stored close: a finite number, or anything the filter drops (not a number, a bool, NaN, infinite). */
  datatype Close = Number(value: real) | Unusable

  /** A row; the date is None when it is not a string or does not parse. */
  datatype Row = Row(close: Close, date: Option<int>)

  predicate Observable(r: Row, cutoff: int) {
    r.close.Number? && r.close.value > 0.0 && r.date.Some? && r.date.value <= cutoff
  }

  function Keep(rows: seq<Row>, cutoff: int): (kept: seq<Row>)
    ensures forall i :: 0 <= i < |kept| ==> Observable(kept[i], cutoff)
  {
    if rows == [] then []
    else
      var rest, r := Keep(rows[..|rows| - 1], cutoff), rows[|rows| - 1];
      if Observable(r, cutoff) then rest + [r] else rest
  }

  function Closes(kept: seq<Row>): seq<real>
    requires forall i :: 0 <= i < |kept| ==> kept[i].close.Number?
  {
    if kept == [] then [] else Closes(kept[..|kept| - 1]) + [kept[|kept| - 1].close.value]
  }

  /** The kept closes, unless there are none or the last kept row is too old. */
  function Result(rows: seq<Row>, cutoff: int, maxStaleness: int): seq<real> {
    var kept := Keep(rows, cutoff);
    if kept == [] || cutoff - kept[|kept| - 1].date.value > maxStaleness then [] else Closes(kept)
  }

  method ObservableIndexCloses(rows: seq<Row>, cutoff: int, maxStaleness: int) returns (closes: seq<real>)
    ensures closes == Result(rows, cutoff, maxStaleness)
  {
    closes := [];
    var lastDate: Option<int> := None;
    for i := 0 to |rows|
      invariant closes == Closes(Keep(rows[..i], cutoff))
      invariant lastDate == var kept := Keep(rows[..i], cutoff); if kept == [] then None else kept[|kept| - 1].date
    {
      KeepExtend(rows, i, cutoff);
      var r := rows[i];
      if r.close.Unusable? || r.close.value <= 0.0 { continue; }
      if r.date.None? || r.date.value > cutoff { continue; }
      ClosesAppend(Keep(rows[..i], cutoff), r);
      closes := closes + [r.close.value];
      lastDate := r.date;
    }
    assert rows[..|rows|] == rows;
    if closes == [] || lastDate.None? { return []; }
    if cutoff - lastDate.value > maxStaleness { return []; }
  }

  lemma KeepExtend(rows: seq<Row>, i: nat, cutoff: int)
    requires i < |rows|
    ensures Keep(rows[..i + 1], cutoff)
            == if Observable(rows[i], cutoff) then Keep(rows[..i], cutoff) + [rows[i]] else Keep(rows[..i], cutoff)
  {
    assert rows[..i + 1][..i] == rows[..i];
  }

  lemma ClosesAppend(kept: seq<Row>, r: Row)
    requires r.close.Number? && forall i :: 0 <= i < |kept| ==> kept[i].close.Number?
    ensures Closes(kept + [r]) == Closes(kept) + [r.close.value]
  {
    assert (kept + [r])[..|kept|] == kept;
  }

  /** The positions of exactly the observable rows, in row order. */
  ghost predicate Selects(idx: seq<nat>, rows: seq<Row>, cutoff: int) {
    && (forall k :: 0 <= k < |idx| ==> idx[k] < |rows| && Observable(rows[idx[k]], cutoff))
    && (forall k, m :: 0 <= k < m < |idx| ==> idx[k] < idx[m])
    && (forall i :: 0 <= i < |rows| && Observable(rows[i], cutoff) ==> i in idx)
  }

  lemma SelectsSkip(idx: seq<nat>, rows: seq<Row>, r: Row, cutoff: int)
    requires Selects(idx, rows, cutoff) && !Observable(r, cutoff)
    ensures Selects(idx, rows + [r], cutoff)
  {}

  lemma SelectsAppend(idx: seq<nat>, rows: seq<Row>, r: Row, cutoff: int)
    requires Selects(idx, rows, cutoff) && Observable(r, cutoff)
    ensures Selects(idx + [|rows|], rows + [r], cutoff)
  {
    var all, more := rows + [r], idx + [|rows|];
    assert more[|idx|] == |rows|;
    forall i | 0 <= i < |all| && Observable(all[i], cutoff) ensures i in more {
      if i < |rows| { assert Observable(rows[i], cutoff); }
    }
  }

  /** The kept rows are the rows at the selected positions. */
  ghost predicate KeptAt(kept: seq<Row>, idx: seq<nat>, rows: seq<Row>) {
    |idx| == |kept| && forall k :: 0 <= k < |idx| ==> idx[k] < |rows| && kept[k] == rows[idx[k]]
  }

  lemma {:induction false} KeepSelects(rows: seq<Row>, cutoff: int) returns (idx: seq<nat>)
    ensures Selects(idx, rows, cutoff) && KeptAt(Keep(rows, cutoff), idx, rows)
  {
    if rows == [] {
      idx := [];
    } else {
      var n := |rows| - 1;
      idx := KeepSelects(rows[..n], cutoff);
      assert rows == rows[..n] + [rows[n]];
      if Observable(rows[n], cutoff) {
        SelectsAppend(idx, rows[..n], rows[n], cutoff);
        idx := idx + [n];
      } else {
        SelectsSkip(idx, rows[..n], rows[n], cutoff);
      }
    }
  }

  lemma {:induction false} ClosesAt(kept: seq<Row>)
    requires forall i :: 0 <= i < |kept| ==> kept[i].close.Number?
    ensures |Closes(kept)| == |kept|
    ensures forall i :: 0 <= i < |kept| ==> Closes(kept)[i] == kept[i].close.value
  {
    if kept != [] { ClosesAt(kept[..|kept| - 1]); }
  }

  /**
   * A result whose last observable row is fresh lists the closes of exactly the observable rows, in row
   * order; any other result is empty.
   */
  lemma FreshResultSelects(rows: seq<Row>, cutoff: int, maxStaleness: int) returns (idx: seq<nat>)
    ensures Selects(idx, rows, cutoff)
    ensures var closes := Result(rows, cutoff, maxStaleness);
            if idx != [] && cutoff - rows[idx[|idx| - 1]].date.value <= maxStaleness then
              |closes| == |idx| && forall k :: 0 <= k < |idx| ==> closes[k] == rows[idx[k]].close.value
            else closes == []
  {
    idx := KeepSelects(rows, cutoff);
    ClosesAt(Keep(rows, cutoff));
  }

  lemma {:induction false} KeepConcat(xs: seq<Row>, ys: seq<Row>, cutoff: int)
    ensures Keep(xs + ys, cutoff) == Keep(xs, cutoff) + Keep(ys, cutoff)
  {
    if ys == [] {
      assert xs + ys == xs;
    } else {
      var n := |ys| - 1;
      KeepConcat(xs, ys[..n], cutoff);
      assert (xs + ys)[..|xs + ys| - 1] == xs + ys[..n];
    }
  }

  /** Inserting or deleting rows that are not observable at the cutoff never changes the result. */
  lemma UnobservableRowsAreInvisible(xs: seq<Row>, junk: seq<Row>, ys: seq<Row>, cutoff: int, maxStaleness: int)
    requires forall i :: 0 <= i < |junk| ==> !Observable(junk[i], cutoff)
    ensures Result(xs + junk + ys, cutoff, maxStaleness) == Result(xs + ys, cutoff, maxStaleness)
  {
    KeepNothing(junk, cutoff);
    KeepConcat(xs + junk, ys, cutoff);
    KeepConcat(xs, junk, cutoff);
    KeepConcat(xs, ys, cutoff);
    assert Keep(xs, cutoff) + [] == Keep(xs, cutoff);
  }

  lemma {:induction false} KeepNothing(rows: seq<Row>, cutoff: int)
    requires forall i :: 0 <= i < |rows| ==> !Observable(rows[i], cutoff)
    ensures Keep(rows, cutoff) == []
  {
    if rows != [] { KeepNothing(rows[..|rows| - 1], cutoff); }
  }

  // ---------------------------------------------------------------- date-ascending rows

  ghost predicate DatesAscend(rows: seq<Row>) {
    forall i, j :: 0 <= i < j < |rows| && rows[i].date.Some? && rows[j].date.Some? ==>
      rows[i].date.value <= rows[j].date.value
  }

  lemma {:induction false} KeptRowsAreRows(rows: seq<Row>, cutoff: int)
    ensures forall r :: r in Keep(rows, cutoff) <==> r in rows && Observable(r, cutoff)
  {
    if rows != [] {
      var n := |rows| - 1;
      KeptRowsAreRows(rows[..n], cutoff);
      assert rows == rows[..n] + [rows[n]];
    }
  }

  lemma {:induction false} LastKeptIsLatest(rows: seq<Row>, cutoff: int)
    requires DatesAscend(rows) && Keep(rows, cutoff) != []
    ensures var kept := Keep(rows, cutoff);
            forall r :: r in rows && Observable(r, cutoff) ==> r.date.value <= kept[|kept| - 1].date.value
  {
    var n := |rows| - 1;
    assert rows == rows[..n] + [rows[n]];
    if Observable(rows[n], cutoff) {
      forall r | r in rows && Observable(r, cutoff) ensures r.date.value <= rows[n].date.value {
        var i :| 0 <= i < |rows| && rows[i] == r;
      }
    } else {
      LastKeptIsLatest(rows[..n], cutoff);
    }
  }

  /**
   * On date-ascending rows the result is non-empty exactly when some observable row is at most
   * `maxStaleness` days old.
   */
  lemma FreshnessIff(rows: seq<Row>, cutoff: int, maxStaleness: int)
    requires DatesAscend(rows)
    ensures Result(rows, cutoff, maxStaleness) != [] <==>
            exists r :: r in rows && Observable(r, cutoff) && cutoff - r.date.value <= maxStaleness
  {
    var kept := Keep(rows, cutoff);
    KeptRowsAreRows(rows, cutoff);
    if kept != [] {
      LastKeptIsLatest(rows, cutoff);
      assert kept[|kept| - 1] in kept;
    }
  }

  /** A later cutoff only appends: earlier kept rows are a prefix of later kept rows. */
  lemma {:induction false} KeepIsPrefix(rows: seq<Row>, earlier: int, later: int)
    requires DatesAscend(rows) && earlier <= later
    ensures Keep(rows, earlier) <= Keep(rows, later)
  {
    if rows != [] {
      var n := |rows| - 1;
      KeepIsPrefix(rows[..n], earlier, later);
      if Observable(rows[n], earlier) {
        assert Keep(rows[..n], earlier) == Keep(rows[..n], later) by { AllEarly(rows, earlier, later); }
      }
    }
  }

  lemma AllEarly(rows: seq<Row>, earlier: int, later: int)
    requires DatesAscend(rows) && earlier <= later && rows != [] && Observable(rows[|rows| - 1], earlier)
    ensures Keep(rows[..|rows| - 1], earlier) == Keep(rows[..|rows| - 1], later)
  {
    var n := |rows| - 1;
    forall i | 0 <= i < n ensures Observable(rows[i], earlier) <==> Observable(rows[i], later) {}
    SameKeep(rows[..n], earlier, later);
  }

  lemma {:induction false} SameKeep(rows: seq<Row>, c: int, d: int)
    requires forall i :: 0 <= i < |rows| ==> (Observable(rows[i], c) <==> Observable(rows[i], d))
    ensures Keep(rows, c) == Keep(rows, d)
  {
    if rows != [] { SameKeep(rows[..|rows| - 1], c, d); }
  }

  lemma {:induction false} ClosesPrefix(xs: seq<Row>, ys: seq<Row>)
    requires xs <= ys && forall i :: 0 <= i < |ys| ==> ys[i].close.Number?
    ensures Closes(xs) <= Closes(ys)
  {
    if xs == ys {
    } else {
      var n := |ys| - 1;
      assert xs <= ys[..n];
      ClosesPrefix(xs, ys[..n]);
    }
  }

  /** Non-empty results for two cutoffs: the earlier one is a prefix of the later one. */
  lemma EarlierCutoffIsPrefix(rows: seq<Row>, earlier: int, later: int, maxStaleness: int)
    requires DatesAscend(rows) && earlier <= later
    requires Result(rows, earlier, maxStaleness) != [] && Result(rows, later, maxStaleness) != []
    ensures Result(rows, earlier, maxStaleness) <= Result(rows, later, maxStaleness)
  {
    KeepIsPrefix(rows, earlier, later);
    ClosesPrefix(Keep(rows, earlier), Keep(rows, later));
  }
}
