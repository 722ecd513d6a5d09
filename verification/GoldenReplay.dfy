/** The loops of backend/backtest/golden_replay.py, each proved against the functions of Ledger. */
module GoldenReplay {
  import opened Outcome
  import opened Lexicographic
  import opened Ledger
  import opened Checkpoint

  /** The `holdings` dictionary that `_apply_fill` mutates in place. */
  class Book {
    var lots: Holdings

    constructor (opening: seq<Position>)
      ensures lots == OpeningLots(opening)
    {
      lots := map[];
      new;
      for i := 0 to |opening|
        invariant lots == OpeningLots(opening[..i])
      {
        lots := lots[opening[i].code := Lot(opening[i].volume, opening[i].cost)];
        assert opening[..i + 1][..i] == opening[..i];
      }
      assert opening[..|opening|] == opening;
    }

    /** Debits a BUY or credits a SELL; a SELL above the holding is an error and changes nothing. */
    method ApplyFill(cash: int, f: ReplayFill) returns (r: Outcome<int, ConservationError>)
      modifies this
      ensures
        var spec := Ledger.ApplyFill(Account(cash, old(lots)), f);
        if spec.Ok? then r == Ok(spec.value.cash) && lots == spec.value.lots
        else r == Err(spec.error) && lots == old(lots)
    {
      var gross := f.volume * f.price;
      if f.side.Buy? {
        if f.code !in lots {
          lots := lots[f.code := Lot(0, 0)];
        }
        var lot := lots[f.code];
        var newVolume := lot.volume + f.volume;
        var totalCost := lot.volume * lot.cost + (gross + f.cost);
        lots := lots[f.code := Lot(newVolume, if newVolume != 0 then FloorDiv(totalCost, newVolume) else 0)];
        r := Ok(cash - (gross + f.cost));
      } else {
        var held := if f.code in lots then lots[f.code].volume else 0;
        if f.code !in lots || held < f.volume {
          return Err(Oversell(f.code, f.volume, held));
        }
        lots := lots[f.code := lots[f.code].(volume := held - f.volume)];
        r := Ok(cash + (gross - f.cost));
      }
    }

    method ApplyFills(cash: int, fills: seq<ReplayFill>) returns (r: Outcome<int, ConservationError>)
      modifies this
      ensures
        var spec := Ledger.ApplyFills(Account(cash, old(lots)), fills);
        if spec.Ok? then r == Ok(spec.value.cash) && lots == spec.value.lots else r == Err(spec.error)
    {
      var running := cash;
      for i := 0 to |fills|
        invariant Ledger.ApplyFills(Account(cash, old(lots)), fills[..i]) == Ok(Account(running, lots))
      {
        assert fills[..i + 1][..i] == fills[..i];
        var step := ApplyFill(running, fills[i]);
        if step.Err? {
          FirstErrorWins(Account(cash, old(lots)), fills, i + 1);
          return Err(step.error);
        }
        running := step.value;
      }
      assert fills[..|fills|] == fills;
      r := Ok(running);
    }

    /** Walks the codes in order, skipping flat lots. */
    method Mark(date: string, marks: map<string, int>) returns (r: Outcome<Valuation, ConservationError>)
      ensures r == Ledger.Mark(lots, date, marks)
    {
      r := MarkLots(SortedElements(lots.Keys), lots, date, marks);
    }

    /** The closing row of a day; its positions always pass the row constructor's check. */
    method CloseDay(cash: int, frozen: int, date: string, marks: map<string, int>)
      returns (r: Outcome<EquityPoint, ConservationError>)
      ensures r == Ledger.CloseDay(Account(cash, lots), frozen, date, marks)
      ensures r.Ok? ==> UniqueCodes(r.value.positions)
      ensures r.Ok? ==> r.value.date == date && r.value.cash == cash
      ensures r.Ok? ==> Ledger.Mark(lots, date, marks) == Ok(Valuation(r.value.marketValue, r.value.positions))
      ensures r.Ok? ==> r.value.totalEquity == cash + frozen + r.value.marketValue
    {
      var valued := Mark(date, marks);
      if valued.Err? {
        return Err(valued.error);
      }
      var v := valued.value;
      EmittedPositions(Account(cash, lots), frozen, date, marks);
      SortedCodesAreUnique(v.positions);
      var accepted := AcceptsPositions(v.positions);
      assert accepted;
      r := Ok(EquityPoint(date, cash, v.marketValue, cash + frozen + v.marketValue, v.positions));
    }
  }

  method MarkLots(codes: seq<string>, lots: Holdings, date: string, marks: map<string, int>)
    returns (r: Outcome<Valuation, ConservationError>)
    requires forall c :: c in codes ==> c in lots
    ensures r == MarkCodes(codes, lots, date, marks)
  {
    var marketValue, positions := 0, [];
    for i := 0 to |codes|
      invariant MarkCodes(codes[..i], lots, date, marks) == Ok(Valuation(marketValue, positions))
    {
      MarkExtend(codes, lots, date, marks, i);
      var lot := lots[codes[i]];
      if lot.volume <= 0 {
        continue;
      }
      if codes[i] !in marks {
        FirstMissingMarkWins(codes, lots, date, marks, i + 1);
        return Err(MissingMark(date, codes[i]));
      }
      marketValue := marketValue + lot.volume * marks[codes[i]];
      positions := positions + [Position(codes[i], lot.volume, lot.cost)];
    }
    assert codes[..|codes|] == codes;
    r := Ok(Valuation(marketValue, positions));
  }

  lemma MarkExtend(codes: seq<string>, lots: Holdings, date: string, marks: map<string, int>, i: nat)
    requires i < |codes| && forall c :: c in codes ==> c in lots
    ensures MarkCodes(codes[..i + 1], lots, date, marks)
            == MarkOne(MarkCodes(codes[..i], lots, date, marks), codes[i], lots[codes[i]], date, marks)
  {
    assert codes[..i + 1][..i] == codes[..i];
  }

  lemma RunExtend(a: Account, frozen: int, days: seq<ReplayDay>, i: nat)
    requires i < |days|
    ensures Run(a, frozen, days[..i + 1])
            == var before := Run(a, frozen, days[..i]);
               if before.Err? then before else StepDay(before.value, frozen, days[i])
  {
    assert days[..i + 1][..i] == days[..i];
  }

  lemma {:induction false} FirstErrorWins(a: Account, fills: seq<ReplayFill>, k: nat)
    requires k <= |fills| && ApplyFills(a, fills[..k]).Err?
    ensures ApplyFills(a, fills) == ApplyFills(a, fills[..k])
  {
    assert fills == fills[..k] + fills[k..];
    ApplyFillsConcat(a, fills[..k], fills[k..]);
  }

  lemma {:induction false} FirstMissingMarkWins(codes: seq<string>, lots: Holdings, date: string,
                                                marks: map<string, int>, k: nat)
    requires k <= |codes| && forall c :: c in codes ==> c in lots
    requires MarkCodes(codes[..k], lots, date, marks).Err?
    ensures MarkCodes(codes, lots, date, marks) == MarkCodes(codes[..k], lots, date, marks)
  {
    if k == |codes| {
      assert codes[..k] == codes;
    } else {
      var n := |codes| - 1;
      assert codes[..n][..k] == codes[..k];
      FirstMissingMarkWins(codes[..n], lots, date, marks, k);
    }
  }

  ghost predicate UniqueCodes(positions: seq<Position>) {
    forall i, j :: 0 <= i < j < |positions| ==> positions[i].code != positions[j].code
  }

  /** The row constructor's check: accepts exactly the rows without a repeated code. */
  method AcceptsPositions(positions: seq<Position>) returns (ok: bool)
    ensures ok <==> UniqueCodes(positions)
  {
    var seen: set<string> := {};
    for i := 0 to |positions|
      invariant UniqueCodes(positions[..i])
      invariant forall c :: c in seen <==> exists k :: 0 <= k < i && positions[k].code == c
    {
      if positions[i].code in seen {
        return false;
      }
      seen := seen + {positions[i].code};
    }
    ok := true;
  }

  lemma SortedCodesAreUnique(positions: seq<Position>)
    requires StrictlySorted(PositionCodes(positions))
    ensures UniqueCodes(positions)
  {
    var codes := PositionCodes(positions);
    forall i, j | 0 <= i < j < |positions| ensures positions[i].code != positions[j].code {
      assert Less(codes[i], codes[j]);
      LessIrreflexive(codes[i]);
    }
  }

  /** `replay_equity_curve`: the curve, or the first error; the row constructor never rejects a row. */
  method ReplayEquityCurve(initialCash: int, frozen: int, opening: seq<Position>, days: seq<ReplayDay>)
    returns (r: Outcome<seq<EquityPoint>, ConservationError>)
    ensures r == Replay(Open(initialCash, opening), frozen, days)
    ensures r.Ok? ==> forall k :: 0 <= k < |r.value| ==> UniqueCodes(r.value[k].positions)
  {
    var book := new Book(opening);
    var cash, curve := initialCash, [];
    ghost var start := Open(initialCash, opening);
    for i := 0 to |days|
      invariant Run(start, frozen, days[..i]) == Ok(Progress(Account(cash, book.lots), curve))
      invariant forall k :: 0 <= k < |curve| ==> UniqueCodes(curve[k].positions)
      invariant fresh(book)
    {
      var day := days[i];
      RunExtend(start, frozen, days, i);
      var applied := book.ApplyFills(cash, day.fills);
      if applied.Err? {
        FirstBadDayWins(start, frozen, days, i + 1);
        return Err(applied.error);
      }
      cash := applied.value;
      var row := book.CloseDay(cash, frozen, day.date, day.marks);
      if row.Err? {
        FirstBadDayWins(start, frozen, days, i + 1);
        return Err(row.error);
      }
      curve := curve + [row.value];
    }
    assert days[..|days|] == days;
    r := Ok(curve);
  }

  lemma FirstBadDayWins(a: Account, frozen: int, days: seq<ReplayDay>, k: nat)
    requires k <= |days| && Run(a, frozen, days[..k]).Err?
    ensures Run(a, frozen, days) == Run(a, frozen, days[..k])
  {
    assert days == days[..k] + days[k..];
    RunConcat(a, frozen, days[..k], days[k..]);
  }

  // ---------------------------------------------------------------- the closed-form cash check

  /** Sale proceeds net of fees, and purchase outlays including fees. */
  function Proceeds(fills: seq<ReplayFill>): int {
    if fills == [] then 0
    else
      var f := fills[|fills| - 1];
      Proceeds(fills[..|fills| - 1]) + if f.side.Sell? then f.Gross() - f.cost else 0
  }

  function Outlays(fills: seq<ReplayFill>): int {
    if fills == [] then 0
    else
      var f := fills[|fills| - 1];
      Outlays(fills[..|fills| - 1]) + if f.side.Buy? then f.Gross() + f.cost else 0
  }

  lemma {:induction false} FlowsConcat(xs: seq<ReplayFill>, ys: seq<ReplayFill>)
    ensures Proceeds(xs + ys) == Proceeds(xs) + Proceeds(ys)
    ensures Outlays(xs + ys) == Outlays(xs) + Outlays(ys)
  {
    if ys == [] {
      assert xs + ys == xs;
    } else {
      var n := |ys| - 1;
      FlowsConcat(xs, ys[..n]);
      assert (xs + ys)[..|xs + ys| - 1] == xs + ys[..n];
    }
  }

  /** `assert_conservation` passes exactly when initial + sales - purchases is the final cash. */
  method AssertConservation(initialCash: int, days: seq<ReplayDay>, finalCash: int) returns (holds: bool)
    ensures holds <==> finalCash == initialCash + Proceeds(AllFills(days)) - Outlays(AllFills(days))
  {
    var delta := 0;
    for i := 0 to |days|
      invariant delta == Proceeds(AllFills(days[..i])) - Outlays(AllFills(days[..i]))
    {
      var fills := days[i].fills;
      ghost var start := delta;
      for j := 0 to |fills|
        invariant delta == start + Proceeds(fills[..j]) - Outlays(fills[..j])
      {
        assert fills[..j + 1][..j] == fills[..j];
        var gross := fills[j].volume * fills[j].price;
        if fills[j].side.Buy? {
          delta := delta - (gross + fills[j].cost);
        } else {
          delta := delta + (gross - fills[j].cost);
        }
      }
      assert fills[..|fills|] == fills;
      assert days[..i + 1][..i] == days[..i];
      FlowsConcat(AllFills(days[..i]), fills);
    }
    assert days[..|days|] == days;
    holds := initialCash + delta == finalCash;
  }

  lemma {:induction false} CashIsClosedForm(a: Account, fills: seq<ReplayFill>)
    requires ApplyFills(a, fills).Ok?
    ensures ApplyFills(a, fills).value.cash == a.cash + Proceeds(fills) - Outlays(fills)
  {
    if fills != [] {
      CashIsClosedForm(a, fills[..|fills| - 1]);
    }
  }

  /** The last row of every successful replay satisfies the closed-form cash identity. */
  lemma ReplayConservesCash(initialCash: int, opening: seq<Position>, frozen: int, days: seq<ReplayDay>)
    requires days != [] && Replay(Open(initialCash, opening), frozen, days).Ok?
    ensures var curve := Replay(Open(initialCash, opening), frozen, days).value;
            && |curve| == |days|
            && curve[|days| - 1].cash == initialCash + Proceeds(AllFills(days)) - Outlays(AllFills(days))
  {
    RunAccount(Open(initialCash, opening), frozen, days);
    CashIsClosedForm(Open(initialCash, opening), AllFills(days));
  }
}
