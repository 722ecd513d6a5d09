/**
 * The running book of a backtest (backend/backtest/portfolio.py). It deletes a lot that is fully sold,
 * where the golden replay keeps it with a stale cost; the two are proved to be indistinguishable.
 */
module Portfolio {
  import opened Outcome
  import opened Lexicographic
  import opened Ledger
  import opened Checkpoint
  import opened GoldenReplay

  datatype AppliedFill = AppliedFill(
    date: string, code: string, isBuy: bool, volume: int, fillPrice: int, gross: int, commission: int,
    stampTax: int, transferFee: int, slippage: int, net: int, board: string, transferApplies: bool)

  datatype PortfolioError =
    | NegativeCash(cash: int) | DuplicateLot(code: string) | BadLot(code: string)
    | NonPositiveVolume(volume: int) | Oversold(code: string, wanted: int, held: int)

  function Remove(lots: Holdings, code: string): Holdings { lots - {code} }

  function ApplyToBook(a: Account, f: AppliedFill): Outcome<Account, PortfolioError> {
    if f.volume <= 0 then Err(NonPositiveVolume(f.volume))
    else if f.isBuy then
      var paid := f.gross + f.commission + f.transferFee;
      Ok(Account(a.cash - f.net, a.lots[f.code := Bought(LotOf(a.lots, f.code), f.volume, paid)]))
    else if f.code !in a.lots || a.lots[f.code].volume < f.volume then
      Err(Oversold(f.code, f.volume, Volume(a.lots, f.code)))
    else
      var lot := a.lots[f.code];
      Ok(Account(a.cash + f.net,
                 if lot.volume == f.volume then Remove(a.lots, f.code)
                 else a.lots[f.code := lot.(volume := lot.volume - f.volume)]))
  }

  predicate ValidOpening(cash: int, frozen: int, opening: seq<Position>) {
    && cash >= 0 && frozen >= 0
    && (forall i :: 0 <= i < |opening| ==> opening[i].volume > 0)
    && (forall i, j :: 0 <= i < j < |opening| ==> opening[i].code != opening[j].code)
  }

  class BacktestPortfolio {
    var cash: int
    var frozen: int
    var lots: Holdings

    constructor ()
      ensures cash == 0 && frozen == 0 && lots == map[]
    {
      cash, frozen, lots := 0, 0, map[];
    }

    ghost function View(): Account
      reads this
    {
      Account(cash, lots)
    }

    /** The checks and the seeding of the constructor: opens exactly the valid openings. */
    method Seed(initialCash: int, frozenCash: int, opening: seq<Position>) returns (r: Outcome<(), PortfolioError>)
      modifies this
      ensures r.Ok? <==> ValidOpening(initialCash, frozenCash, opening)
      ensures r.Ok? ==> View() == Open(initialCash, opening) && frozen == frozenCash
    {
      if initialCash < 0 { return Err(NegativeCash(initialCash)); }
      if frozenCash < 0 { return Err(NegativeCash(frozenCash)); }
      cash, frozen, lots := initialCash, frozenCash, map[];
      for i := 0 to |opening|
        invariant cash == initialCash && frozen == frozenCash && lots == OpeningLots(opening[..i])
        invariant ValidOpening(initialCash, frozenCash, opening[..i])
        invariant forall c :: c in lots <==> exists k :: 0 <= k < i && opening[k].code == c
      {
        var lot := opening[i];
        assert opening[..i + 1][..i] == opening[..i];
        if lot.code in lots { return Err(DuplicateLot(lot.code)); }
        if lot.volume <= 0 { return Err(BadLot(lot.code)); }
        lots := lots[lot.code := Lot(lot.volume, lot.cost)];
      }
      assert opening[..|opening|] == opening;
      r := Ok(());
    }

    /** One fill; a rejected fill leaves the book untouched. */
    method Apply(f: AppliedFill) returns (r: Outcome<(), PortfolioError>)
      modifies this
      ensures frozen == old(frozen)
      ensures
        var spec := ApplyToBook(old(View()), f);
        if spec.Ok? then r == Ok(()) && View() == spec.value
        else r == Err(spec.error) && View() == old(View())
    {
      if f.volume <= 0 { return Err(NonPositiveVolume(f.volume)); }
      if f.isBuy {
        cash := cash - f.net;
        if f.code !in lots { lots := lots[f.code := Lot(0, 0)]; }
        var lot := lots[f.code];
        var newVolume := lot.volume + f.volume;
        var totalCost := lot.volume * lot.cost + (f.gross + f.commission + f.transferFee);
        lots := lots[f.code := Lot(newVolume, if newVolume != 0 then FloorDiv(totalCost, newVolume) else 0)];
      } else {
        var held := if f.code in lots then lots[f.code].volume else 0;
        if f.code !in lots || held < f.volume { return Err(Oversold(f.code, f.volume, held)); }
        cash := cash + f.net;
        lots := lots[f.code := lots[f.code].(volume := held - f.volume)];
        if lots[f.code].volume == 0 { lots := lots - {f.code}; }
      }
      r := Ok(());
    }

    method Mark(date: string, marks: map<string, int>) returns (r: Outcome<EquityPoint, ConservationError>)
      ensures r == CloseDay(View(), frozen, date, marks)
      ensures r.Ok? ==> r.value.date == date && r.value.cash == cash
      ensures r.Ok? ==> Ledger.Mark(lots, date, marks) == Ok(Valuation(r.value.marketValue, r.value.positions))
      ensures r.Ok? ==> r.value.totalEquity == cash + frozen + r.value.marketValue
    {
      var valued := MarkLots(SortedElements(lots.Keys), lots, date, marks);
      if valued.Err? { return Err(valued.error); }
      var v := valued.value;
      r := Ok(EquityPoint(date, cash, v.marketValue, cash + frozen + v.marketValue, v.positions));
    }
  }

  // ---------------------------------------------------------------- the twin of the golden replay

  /** The recorded amounts of a fill hang together, as pricing produces them. */
  predicate Settled(f: AppliedFill) {
    && f.volume > 0 && f.fillPrice > 0
    && f.gross == f.volume * f.fillPrice
    && (if f.isBuy then f.net == f.gross + f.commission + f.transferFee && f.gross <= f.net
        else 0 <= f.net <= f.gross)
  }

  /** The same fill as the replay records it; a SELL's cost is gross minus net, which covers the clamp. */
  function Recorded(f: AppliedFill): ReplayFill
    requires Settled(f)
  {
    var gross := f.volume * f.fillPrice;
    RawFill(f.code, if f.isBuy then Buy else Sell, f.volume, f.fillPrice,
            if f.isBuy then f.net - gross else gross - f.net)
  }

  function RecordedFills(fills: seq<AppliedFill>): (r: seq<ReplayFill>)
    requires forall i :: 0 <= i < |fills| ==> Settled(fills[i])
    ensures |r| == |fills| && forall i :: 0 <= i < |fills| ==> r[i] == Recorded(fills[i])
  {
    if fills == [] then []
    else RecordedFills(fills[..|fills| - 1]) + [Recorded(fills[|fills| - 1])]
  }

  ghost predicate TwinOutcome(r: Outcome<Account, PortfolioError>, s: Outcome<Account, ConservationError>) {
    match r
    case Ok(x) => s.Ok? && SameBook(x, s.value)
    case Err(e) => e.Oversold? && s == Err(Oversell(e.code, e.wanted, e.held))
  }

  /** A portfolio and a replay that look alike before a fill look alike after it, or refuse it alike. */
  lemma TwinStep(a: Account, b: Account, f: AppliedFill)
    requires SameBook(a, b) && Settled(f)
    ensures TwinOutcome(ApplyToBook(a, f), ApplyFill(b, Recorded(f)))
  {
    ApplyFillSameBook(a, b, Recorded(f));
    if f.isBuy { BuyTwin(a, f); } else { SellTwin(a, f); }
  }

  lemma BuyTwin(a: Account, f: AppliedFill)
    requires Settled(f) && f.isBuy
    ensures ApplyToBook(a, f).Ok? && ApplyFill(a, Recorded(f)) == Ok(ApplyToBook(a, f).value)
  {}

  /** Deleting a sold-out lot and keeping it flat look the same. */
  lemma SellTwin(a: Account, f: AppliedFill)
    requires Settled(f) && !f.isBuy && NonNegative(a.lots)
    ensures TwinOutcome(ApplyToBook(a, f), ApplyFill(a, Recorded(f)))
  {
    if ApplyToBook(a, f).Ok? {
      var x, y := ApplyToBook(a, f).value, ApplyFill(a, Recorded(f)).value;
      assert Visible(x.lots) == Visible(y.lots);
    }
  }
}
