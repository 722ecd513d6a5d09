/**
 * What the books of the replay add up to: the weighted-average cost basis loses at most a bounded
 * "dust" to floor division, and every day's change in equity is explained by price moves, fills and fees.
 */
module Attribution {
  import opened Outcome
  import opened Lexicographic
  import opened Sums
  import opened Ledger
  import opened Checkpoint
  import opened GoldenReplay

  // ---------------------------------------------------------------- weighted totals of a book

  ghost function Weights(lots: Holdings, w: (string, Lot) -> int): string -> int {
    c => w(c, LotOf(lots, c))
  }

  ghost function Weighted(lots: Holdings, w: (string, Lot) -> int): int {
    Sum(lots.Keys, Weights(lots, w))
  }

  /** Replacing one lot changes a total by the difference of the two weights. */
  lemma WeightedUpdate(lots: Holdings, w: (string, Lot) -> int, c: string, lot: Lot)
    requires w(c, Lot(0, 0)) == 0
    ensures Weighted(lots[c := lot], w) == Weighted(lots, w) - w(c, LotOf(lots, c)) + w(c, lot)
  {
    var after := lots[c := lot];
    SumRemove(after.Keys, Weights(after, w), c);
    var f, g := Weights(after, w), Weights(lots, w);
    forall x | x in after.Keys - {c} ensures f(x) == g(x) {
      assert LotOf(after, x) == LotOf(lots, x);
    }
    SumCongruent(after.Keys - {c}, f, g);
    assert LotOf(after, c) == lot;
    assert f(c) == w(c, lot) && g(c) == w(c, LotOf(lots, c));
    if c in lots {
      SumRemove(lots.Keys, Weights(lots, w), c);
      assert after.Keys - {c} == lots.Keys - {c};
    } else {
      assert after.Keys - {c} == lots.Keys;
    }
  }

  // ---------------------------------------------------------------- cost basis

  function Basis(c: string, lot: Lot): int { lot.volume * lot.cost }

  /** The book at cost: shares times per-share basis, over all lots. */
  ghost function Book(lots: Holdings): int { Weighted(lots, Basis) }

  /** Profit booked by the SELLs: proceeds net of fees minus shares times the basis they were held at. */
  ghost function Realised(a: Account, fills: seq<ReplayFill>): int
    requires ApplyFills(a, fills).Ok?
  {
    if fills == [] then 0
    else
      var n, f := |fills| - 1, fills[|fills| - 1];
      var mid := ApplyFills(a, fills[..n]).value;
      Realised(a, fills[..n])
      + if f.side.Sell? then f.Gross() - f.cost - f.volume * LotOf(mid.lots, f.code).cost else 0
  }

  /** One less than the resulting share count, summed over the BUYs. */
  ghost function DustBound(a: Account, fills: seq<ReplayFill>): int
    requires ApplyFills(a, fills).Ok?
  {
    if fills == [] then 0
    else
      var n, f := |fills| - 1, fills[|fills| - 1];
      var mid := ApplyFills(a, fills[..n]).value;
      DustBound(a, fills[..n]) + if f.side.Buy? then Volume(mid.lots, f.code) + f.volume - 1 else 0
  }

  lemma FloorLoss(total: int, v: int)
    requires v > 0
    ensures 0 <= total - v * (total / v) <= v - 1
  {}

  ghost predicate DustWithin(a: Account, b: Account, realised: int, bound: int) {
    var dust := a.cash + Book(a.lots) + realised - (b.cash + Book(b.lots));
    0 <= dust <= bound
  }

  lemma BuyDust(a: Account, f: ReplayFill)
    requires NonNegative(a.lots) && f.side.Buy?
    ensures DustWithin(a, ApplyFill(a, f).value, 0, Volume(a.lots, f.code) + f.volume - 1)
  {
    var lot, paid := LotOf(a.lots, f.code), f.Gross() + f.cost;
    WeightedUpdate(a.lots, Basis, f.code, Bought(lot, f.volume, paid));
    FloorLoss(lot.volume * lot.cost + paid, lot.volume + f.volume);
  }

  lemma SellDust(a: Account, f: ReplayFill)
    requires f.side.Sell? && ApplyFill(a, f).Ok?
    ensures DustWithin(a, ApplyFill(a, f).value, f.Gross() - f.cost - f.volume * LotOf(a.lots, f.code).cost, 0)
  {
    var lot := LotOf(a.lots, f.code);
    WeightedUpdate(a.lots, Basis, f.code, lot.(volume := lot.volume - f.volume));
    MoveArithmetic(lot.cost, f.volume, lot.volume);
  }

  /**
   * After any fill stream, cash plus the book at cost equals the opening cash and book plus realised
   * profit, less a dust between zero and the sum over BUYs of (new share count - 1).
   */
  lemma {:induction false} CostBasisDust(a: Account, fills: seq<ReplayFill>)
    requires NonNegative(a.lots) && ApplyFills(a, fills).Ok?
    ensures
      var b := ApplyFills(a, fills).value;
      var dust := a.cash + Book(a.lots) + Realised(a, fills) - (b.cash + Book(b.lots));
      0 <= dust <= DustBound(a, fills)
  {
    if fills != [] {
      var n := |fills| - 1;
      CostBasisDust(a, fills[..n]);
      ApplyFillsNonNegative(a, fills[..n]);
      var mid := ApplyFills(a, fills[..n]).value;
      if fills[n].side.Buy? { BuyDust(mid, fills[n]); } else { SellDust(mid, fills[n]); }
    }
  }

  // ---------------------------------------------------------------- profit and loss of a day

  ghost function WorthAt(price: string -> int): (string, Lot) -> int {
    (c, lot: Lot) => lot.volume * price(c)
  }

  /** Every lot at the given prices. */
  ghost function Value(lots: Holdings, price: string -> int): int { Weighted(lots, WorthAt(price)) }

  /** Signed fill volume times (price - fill price), summed. */
  ghost function Flow(fills: seq<ReplayFill>, price: string -> int): int {
    if fills == [] then 0
    else
      var f := fills[|fills| - 1];
      Flow(fills[..|fills| - 1], price) + f.Step() * (price(f.code) - f.price)
  }

  ghost function Costs(fills: seq<ReplayFill>): int {
    if fills == [] then 0 else Costs(fills[..|fills| - 1]) + fills[|fills| - 1].cost
  }

  lemma FillFlow(a: Account, f: ReplayFill, price: string -> int)
    requires ApplyFill(a, f).Ok?
    ensures var b := ApplyFill(a, f).value;
            b.cash + Value(b.lots, price)
            == a.cash + Value(a.lots, price) + f.Step() * (price(f.code) - f.price) - f.cost
  {
    var b := ApplyFill(a, f).value;
    var lotBefore, lotAfter := LotOf(a.lots, f.code), b.lots[f.code];
    assert b.lots == a.lots[f.code := lotAfter];
    WeightedUpdate(a.lots, WorthAt(price), f.code, lotAfter);
    StepArithmetic(lotBefore.volume, f.Step(), price(f.code), f.price);
  }

  lemma StepArithmetic(volume: int, step: int, price: int, paid: int)
    ensures (volume + step) * price - step * paid == volume * price + step * (price - paid)
  {}

  lemma {:induction false} FillsFlow(a: Account, fills: seq<ReplayFill>, price: string -> int)
    requires ApplyFills(a, fills).Ok?
    ensures var b := ApplyFills(a, fills).value;
            b.cash + Value(b.lots, price) == a.cash + Value(a.lots, price) + Flow(fills, price) - Costs(fills)
  {
    if fills != [] {
      var n := |fills| - 1;
      FillsFlow(a, fills[..n], price);
      FillFlow(ApplyFills(a, fills[..n]).value, fills[n], price);
    }
  }

  /** `price` is the closing mark of every held code; it may be anything for the others. */
  ghost predicate Agrees(price: string -> int, lots: Holdings, marks: map<string, int>) {
    forall c :: c in lots && lots[c].volume > 0 && c in marks ==> price(c) == marks[c]
  }

  function CodeSet(codes: seq<string>): set<string> { set c | c in codes }

  lemma {:induction false} MarkCodesValue(codes: seq<string>, lots: Holdings, date: string, marks: map<string, int>,
                                          price: string -> int)
    requires StrictlySorted(codes) && NonNegative(lots) && Agrees(price, lots, marks)
    requires forall c :: c in codes ==> c in lots
    requires MarkCodes(codes, lots, date, marks).Ok?
    ensures MarkCodes(codes, lots, date, marks).value.marketValue
            == Sum(CodeSet(codes), Weights(lots, WorthAt(price)))
  {
    if codes == [] {
      assert CodeSet(codes) == {};
    } else {
      var n, last := |codes| - 1, codes[|codes| - 1];
      MarkCodesValue(codes[..n], lots, date, marks, price);
      MarkOneValue(MarkCodes(codes[..n], lots, date, marks), last, lots[last], date, marks, price(last));
      CodeSetLast(codes);
      SumRemove(CodeSet(codes), Weights(lots, WorthAt(price)), last);
      WorthIs(lots, price, last);
    }
  }

  lemma MarkOneValue(before: Outcome<Valuation, ConservationError>, code: string, lot: Lot, date: string,
                     marks: map<string, int>, price: int)
    requires MarkOne(before, code, lot, date, marks).Ok? && lot.volume >= 0
    requires lot.volume > 0 && code in marks ==> price == marks[code]
    ensures before.Ok?
    ensures MarkOne(before, code, lot, date, marks).value.marketValue
            == before.value.marketValue + lot.volume * price
  {}

  lemma CodeSetLast(codes: seq<string>)
    requires StrictlySorted(codes) && codes != []
    ensures codes[|codes| - 1] in CodeSet(codes)
    ensures CodeSet(codes) - {codes[|codes| - 1]} == CodeSet(codes[..|codes| - 1])
  {
    var n, last := |codes| - 1, codes[|codes| - 1];
    assert last !in codes[..n] by {
      if last in codes[..n] { LessIrreflexive(last); }
    }
    assert codes == codes[..n] + [last];
  }

  lemma WorthIs(lots: Holdings, price: string -> int, c: string)
    requires c in lots
    ensures Weights(lots, WorthAt(price))(c) == lots[c].volume * price(c)
  {
    assert LotOf(lots, c) == lots[c];
    assert Weights(lots, WorthAt(price))(c) == WorthAt(price)(c, lots[c]);
  }

  /**
   * A closing row carries the day's date, the account's cash, the value of the whole book (whatever is
   * assumed for codes that are flat) and their sum with the frozen cash.
   */
  lemma MarketValueIsValue(a: Account, frozen: int, date: string, marks: map<string, int>, price: string -> int)
    requires NonNegative(a.lots) && Agrees(price, a.lots, marks)
    requires CloseDay(a, frozen, date, marks).Ok?
    ensures var row := CloseDay(a, frozen, date, marks).value;
            && row.date == date && row.cash == a.cash && row.marketValue == Value(a.lots, price)
            && row.totalEquity == a.cash + frozen + Value(a.lots, price)
  {
    var codes := SortedElements(a.lots.Keys);
    MarkCodesValue(codes, a.lots, date, marks, price);
    assert CodeSet(codes) == a.lots.Keys;
  }

  /** Start-of-day shares times the change of price. */
  ghost function PriceMove(lots: Holdings, before: string -> int, after: string -> int): int {
    Value(lots, c => after(c) - before(c))
  }

  lemma PriceMoveIs(lots: Holdings, before: string -> int, after: string -> int)
    ensures PriceMove(lots, before, after) == Value(lots, after) - Value(lots, before)
  {
    var move := c => after(c) - before(c);
    var f, g, h := Weights(lots, WorthAt(after)), Weights(lots, WorthAt(before)), Weights(lots, WorthAt(move));
    forall c | c in lots.Keys ensures h(c) == f(c) - g(c) {
      MoveArithmetic(lots[c].volume, before(c), after(c));
    }
    SumMinus(lots.Keys, f, g, h);
    SumCongruent(lots.Keys, h, Weights(lots, WorthAt(c => after(c) - before(c))));
  }

  lemma MoveArithmetic(v: int, before: int, after: int)
    ensures v * (after - before) == v * after - v * before
  {}

  /**
   * On every day the change in total equity is start volumes times mark changes, plus signed fill volumes
   * times (mark - fill price), minus fees. `before` and `after` only have to agree with the recorded marks
   * on codes held at the respective close, so a code that ends a day flat may carry any mark.
   */
  lemma DailyAttribution(a: Account, frozen: int, days: seq<ReplayDay>, i: nat,
                         before: string -> int, after: string -> int)
    requires 1 <= i < |days| && NonNegative(a.lots) && Run(a, frozen, days).Ok?
    requires Run(a, frozen, days[..i]).Ok? && Run(a, frozen, days[..i + 1]).Ok?
    requires Agrees(before, Run(a, frozen, days[..i]).value.account.lots, days[i - 1].marks)
    requires Agrees(after, Run(a, frozen, days[..i + 1]).value.account.lots, days[i].marks)
    ensures |Run(a, frozen, days).value.curve| == |days|
    ensures
      var curve := Run(a, frozen, days).value.curve;
      curve[i].totalEquity - curve[i - 1].totalEquity
      == PriceMove(Run(a, frozen, days[..i]).value.account.lots, before, after)
         + Flow(days[i].fills, after) - Costs(days[i].fills)
  {
    CurveRow(a, frozen, days, i - 1);
    CurveRow(a, frozen, days, i);
    DayAttribution(Run(a, frozen, days[..i]).value.account, frozen, days[i - 1], days[i], before, after);
  }

  /** The first day is explained from the opening book, valued at the first day's closes. */
  lemma FirstDayAttribution(a: Account, frozen: int, days: seq<ReplayDay>, after: string -> int)
    requires days != [] && NonNegative(a.lots) && Run(a, frozen, days).Ok? && Run(a, frozen, days[..1]).Ok?
    requires Agrees(after, Run(a, frozen, days[..1]).value.account.lots, days[0].marks)
    ensures |Run(a, frozen, days).value.curve| == |days|
    ensures Run(a, frozen, days).value.curve[0].totalEquity
            == a.cash + frozen + Value(a.lots, after) + Flow(days[0].fills, after) - Costs(days[0].fills)
  {
    CurveRow(a, frozen, days, 0);
    assert days[..0] == [];
    MarketValueIsValue(Run(a, frozen, days[..1]).value.account, frozen, days[0].date, days[0].marks, after);
    FillsFlow(a, days[0].fills, after);
  }

  lemma DayAttribution(a: Account, frozen: int, previous: ReplayDay, day: ReplayDay,
                       before: string -> int, after: string -> int)
    requires NonNegative(a.lots) && ApplyFills(a, day.fills).Ok?
    requires NonNegative(ApplyFills(a, day.fills).value.lots)
    requires CloseDay(a, frozen, previous.date, previous.marks).Ok?
    requires CloseDay(ApplyFills(a, day.fills).value, frozen, day.date, day.marks).Ok?
    requires Agrees(before, a.lots, previous.marks)
    requires Agrees(after, ApplyFills(a, day.fills).value.lots, day.marks)
    ensures CloseDay(ApplyFills(a, day.fills).value, frozen, day.date, day.marks).value.totalEquity
            - CloseDay(a, frozen, previous.date, previous.marks).value.totalEquity
            == PriceMove(a.lots, before, after) + Flow(day.fills, after) - Costs(day.fills)
  {
    MarketValueIsValue(a, frozen, previous.date, previous.marks, before);
    MarketValueIsValue(ApplyFills(a, day.fills).value, frozen, day.date, day.marks, after);
    FillsFlow(a, day.fills, after);
    PriceMoveIs(a.lots, before, after);
  }

  /**
   * What every row of a replay means: day i's date, the closed-form cash of all fills so far, and the book
   * then held at day i's closing marks.
   */
  lemma EveryRowMeans(a: Account, frozen: int, days: seq<ReplayDay>, i: nat, price: string -> int)
    requires i < |days| && NonNegative(a.lots) && Run(a, frozen, days).Ok? && Run(a, frozen, days[..i + 1]).Ok?
    requires Agrees(price, Run(a, frozen, days[..i + 1]).value.account.lots, days[i].marks)
    ensures Replay(a, frozen, days).Ok? && |Replay(a, frozen, days).value| == |days|
    ensures
      var row := Replay(a, frozen, days).value[i];
      var held := Run(a, frozen, days[..i + 1]).value.account.lots;
      var fills := AllFills(days[..i + 1]);
      && row.date == days[i].date
      && row.cash == a.cash + Proceeds(fills) - Outlays(fills)
      && row.marketValue == Value(held, price)
      && row.totalEquity == row.cash + frozen + row.marketValue
      && Open(row.cash, row.positions).lots == Visible(held)
  {
    CurveRow(a, frozen, days, i);
    var after := Run(a, frozen, days[..i + 1]).value.account;
    RunAccount(a, frozen, days[..i + 1]);
    CashIsClosedForm(a, AllFills(days[..i + 1]));
    MarketValueIsValue(after, frozen, days[i].date, days[i].marks, price);
    EmittedPositions(after, frozen, days[i].date, days[i].marks);
  }
}
