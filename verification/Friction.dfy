/** Per-fill trading friction in integer cents (backend/backtest/friction.py), rates as exact reals. */
module Friction {
  import opened Outcome
  import opened Rounding

  datatype FrictionError =
    | NegativeRate(name: string) | NegativeMinCommission
    | BadVolume(volume: int) | BadPrice(price: int) | UnmappedBoard(board: string)

  datatype RawParams = RawParams(
    commissionRate: real,
    minCommission: int,
    stampTaxRate: real,
    transferFeeRate: real,
    slippageBps: map<string, real>)
  {
    predicate Valid() {
      commissionRate >= 0.0 && stampTaxRate >= 0.0 && transferFeeRate >= 0.0 && minCommission >= 0
    }
  }

  type FrictionParams = p: RawParams | p.Valid() witness RawParams(0.0, 0, 0.0, 0.0, map[])

  /** The dataclass constructor: malformed parameters are refused, slippage bps are not looked at. */
  function MakeParams(p: RawParams): (r: Outcome<FrictionParams, FrictionError>)
    ensures r.Ok? <==> p.Valid()
    ensures r.Ok? ==> r.value == p
  {
    if p.commissionRate < 0.0 then Err(NegativeRate("commission_rate"))
    else if p.stampTaxRate < 0.0 then Err(NegativeRate("stamp_tax_rate"))
    else if p.transferFeeRate < 0.0 then Err(NegativeRate("transfer_fee_rate"))
    else if p.minCommission < 0 then Err(NegativeMinCommission)
    else Ok(p)
  }

  datatype FillEconomics = FillEconomics(
    fillPrice: int, gross: int, commission: int, stampTax: int, transferFee: int, slippage: int, net: int)
  {
    function Fees(): int { commission + stampTax + transferFee }
  }

  function Abs(n: int): nat { if n < 0 then -n else n }

  function MaxReal(a: real, b: real): real { if a >= b then a else b }

  function BoardSlippage(orderPrice: int, isBuy: bool, bps: real): int {
    var factor := bps / 10000.0;
    if isBuy then RoundHalfEven(orderPrice as real * (1.0 + factor))
    else RoundHalfEven(orderPrice as real * (1.0 - factor))
  }

  function Commission(gross: int, params: FrictionParams): int {
    Floored(gross, params.commissionRate, params.minCommission)
  }

  function Floored(gross: int, rate: real, floor: int): int {
    RoundHalfEven(MaxReal(gross as real * rate, floor as real))
  }

  function Proportional(gross: int, rate: real): int {
    RoundHalfEven(gross as real * rate)
  }

  /** The economics of a fill once its price is known. */
  function Settle(isBuy: bool, orderPrice: int, fillPrice: int, volume: int, transferApplies: bool,
                  params: FrictionParams): FillEconomics
  {
    var gross := fillPrice * volume;
    var commission := Commission(gross, params);
    var stamp := if isBuy then 0 else Proportional(gross, params.stampTaxRate);
    var transfer := if transferApplies then Proportional(gross, params.transferFeeRate) else 0;
    var net :=
      if isBuy then gross + commission + transfer
      else
        var n := gross - commission - stamp - transfer;
        if n < 0 then 0 else n;
    FillEconomics(fillPrice, gross, commission, stamp, transfer, Abs(fillPrice - orderPrice) * volume, net)
  }

  function ComputeFillEconomics(isBuy: bool, orderPrice: int, volume: int, board: string, transferApplies: bool,
                                params: FrictionParams, applySlippage: bool)
    : Outcome<FillEconomics, FrictionError>
  {
    if volume <= 0 then Err(BadVolume(volume))
    else if orderPrice <= 0 then Err(BadPrice(orderPrice))
    else if !applySlippage then Ok(Settle(isBuy, orderPrice, orderPrice, volume, transferApplies, params))
    else if board !in params.slippageBps then Err(UnmappedBoard(board))
    else Ok(Settle(isBuy, orderPrice, BoardSlippage(orderPrice, isBuy, params.slippageBps[board]), volume,
                   transferApplies, params))
  }

  // ---------------------------------------------------------------- products

  lemma ProductMonotone(a: int, b: int, v: int)
    requires a <= b && v >= 0
    ensures a * v <= b * v
  {}

  lemma RealProductNonNegative(a: real, b: real)
    requires a >= 0.0 && b >= 0.0
    ensures a * b >= 0.0
  {}

  // ---------------------------------------------------------------- fees are non-negative

  lemma CommissionNonNegative(gross: int, params: FrictionParams)
    ensures Commission(gross, params) >= 0
  {
    RoundInteger(0);
    RoundMonotone(0.0, MaxReal(gross as real * params.commissionRate, params.minCommission as real));
  }

  lemma ProportionalNonNegative(gross: int, rate: real)
    requires gross >= 0 && rate >= 0.0
    ensures Proportional(gross, rate) >= 0
  {
    RealProductNonNegative(gross as real, rate);
    RoundInteger(0);
    RoundMonotone(0.0, gross as real * rate);
  }

  /**
   * On a non-negative notional every fee is non-negative; a BUY pays gross plus fees, a SELL credits gross
   * minus fees, or 0 where the fees exceed the gross.
   */
  lemma SettleBounds(isBuy: bool, orderPrice: int, fillPrice: int, volume: int, transferApplies: bool,
                     params: FrictionParams)
    requires fillPrice >= 0 && volume >= 0
    ensures var e := Settle(isBuy, orderPrice, fillPrice, volume, transferApplies, params);
            && e.gross >= 0 && e.commission >= 0 && e.stampTax >= 0 && e.transferFee >= 0
            && (if isBuy then e.net == e.gross + e.Fees()
                else e.net == (if e.gross < e.Fees() then 0 else e.gross - e.Fees()) && 0 <= e.net <= e.gross)
  {
    var gross := fillPrice * volume;
    ProductMonotone(0, fillPrice, volume);
    CommissionNonNegative(gross, params);
    ProportionalNonNegative(gross, params.stampTaxRate);
    ProportionalNonNegative(gross, params.transferFeeRate);
  }

  // ---------------------------------------------------------------- slippage is what the table says

  /** In each direction the fill price moves by price * bps / 10000, to the nearest cent, ties to even. */
  lemma SlippageIsTheTable(price: int, bps: real)
    ensures NearestEven(price as real * (1.0 + bps / 10000.0), BoardSlippage(price, true, bps))
    ensures NearestEven(price as real * (1.0 - bps / 10000.0), BoardSlippage(price, false, bps))
    ensures -0.5 <= (BoardSlippage(price, true, bps) - price) as real - price as real * (bps / 10000.0) <= 0.5
    ensures -0.5 <= (price - BoardSlippage(price, false, bps)) as real - price as real * (bps / 10000.0) <= 0.5
  {
    var p, f := price as real, bps / 10000.0;
    assert p * (1.0 + f) == p + p * f && p * (1.0 - f) == p - p * f;
  }

  // ---------------------------------------------------------------- no free round trip

  /** Slippage within [0, 10000] bps moves a BUY up, a SELL down, and never below zero. */
  lemma BuySlippageIsAdverse(price: int, bps: real)
    requires price > 0 && 0.0 <= bps
    ensures price <= BoardSlippage(price, true, bps)
  {
    RealProductNonNegative(price as real, bps / 10000.0);
    RoundAtLeast(price, price as real * (1.0 + bps / 10000.0));
  }

  lemma SellSlippageIsAdverse(price: int, bps: real)
    requires price > 0 && 0.0 <= bps <= 10000.0
    ensures 0 <= BoardSlippage(price, false, bps) <= price
  {
    FractionBounds(price as real, bps / 10000.0);
    SellPriceBetween(price, bps);
  }

  lemma SellPriceBetween(price: int, bps: real)
    requires 0.0 <= price as real * (1.0 - bps / 10000.0) <= price as real
    ensures 0 <= BoardSlippage(price, false, bps) <= price
  {
    RoundBetween(0, price as real * (1.0 - bps / 10000.0), price);
  }

  lemma RoundBetween(lo: int, x: real, hi: int)
    requires lo as real <= x <= hi as real
    ensures lo <= RoundHalfEven(x) <= hi
  {
    RoundAtLeast(lo, x);
    RoundAtMost(x, hi);
  }

  lemma FractionBounds(p: real, f: real)
    requires p >= 0.0 && 0.0 <= f <= 1.0
    ensures 0.0 <= p * (1.0 - f) <= p
  {
    RealProductNonNegative(p, f);
    RealProductNonNegative(p, 1.0 - f);
    assert p * (1.0 - f) == p - p * f;
  }

  lemma RoundAtLeast(n: int, x: real)
    requires n as real <= x
    ensures n <= RoundHalfEven(x)
  {
    RoundInteger(n);
    RoundMonotone(n as real, x);
  }

  lemma RoundAtMost(x: real, n: int)
    requires x <= n as real
    ensures RoundHalfEven(x) <= n
  {
    RoundInteger(n);
    RoundMonotone(x, n as real);
  }

  /**
   * Buying and selling the same volume at the same order price never pays: the loss is exactly both
   * slippages plus all fees if and only if the SELL's fees do not exceed its gross (the clamp is idle).
   */
  lemma NoFreeRoundTrip(price: int, volume: int, board: string, buyTransfer: bool, sellTransfer: bool,
                        params: FrictionParams)
    requires price > 0 && volume > 0 && board in params.slippageBps
    requires 0.0 <= params.slippageBps[board] <= 10000.0
    ensures
      var buy := ComputeFillEconomics(true, price, volume, board, buyTransfer, params, true);
      var sell := ComputeFillEconomics(false, price, volume, board, sellTransfer, params, true);
      && buy.Ok? && sell.Ok?
      && 0 <= sell.value.net <= buy.value.net
      && (buy.value.net - sell.value.net
          == buy.value.slippage + sell.value.slippage + buy.value.Fees() + sell.value.Fees()
          <==> sell.value.Fees() <= sell.value.gross)
  {
    var bps := params.slippageBps[board];
    BuySlippageIsAdverse(price, bps);
    SellSlippageIsAdverse(price, bps);
    RoundTripLoss(price, volume, BoardSlippage(price, true, bps), BoardSlippage(price, false, bps),
                  buyTransfer, sellTransfer, params);
  }

  lemma RoundTripLoss(price: int, volume: int, up: int, down: int, buyTransfer: bool, sellTransfer: bool,
                      params: FrictionParams)
    requires volume > 0 && 0 <= down <= price <= up
    ensures
      var buy := Settle(true, price, up, volume, buyTransfer, params);
      var sell := Settle(false, price, down, volume, sellTransfer, params);
      && 0 <= sell.net <= buy.net
      && (buy.net - sell.net == buy.slippage + sell.slippage + buy.Fees() + sell.Fees()
          <==> sell.Fees() <= sell.gross)
  {
    SettleBounds(true, price, up, volume, buyTransfer, params);
    SettleBounds(false, price, down, volume, sellTransfer, params);
    LossArithmetic(price, volume, up, down, Settle(true, price, up, volume, buyTransfer, params),
                   Settle(false, price, down, volume, sellTransfer, params));
  }

  lemma LossArithmetic(price: int, volume: int, up: int, down: int, buy: FillEconomics, sell: FillEconomics)
    requires volume > 0 && 0 <= down <= price <= up
    requires buy.gross == up * volume && buy.slippage == (up - price) * volume
    requires sell.gross == down * volume && sell.slippage == (price - down) * volume
    requires buy.net == buy.gross + buy.Fees() && buy.Fees() >= 0 && sell.Fees() >= 0
    requires sell.net == if sell.gross < sell.Fees() then 0 else sell.gross - sell.Fees()
    ensures 0 <= sell.net <= buy.net
    ensures buy.net - sell.net == buy.slippage + sell.slippage + buy.Fees() + sell.Fees()
            <==> sell.Fees() <= sell.gross
  {
    ProductMonotone(down, up, volume);
    ProductMonotone(0, down, volume);
    assert (up - price) * volume + (price - down) * volume == up * volume - down * volume;
  }

  /** No round trip on a board with this slippage can gain, whatever the other parameters. */
  ghost predicate RoundTripSafe(bps: real) {
    forall params: FrictionParams, price: int, volume: int, buyTransfer: bool, sellTransfer: bool ::
      price > 0 && volume > 0 ==>
        SellNet(bps, price, volume, sellTransfer, params) <= BuyNet(bps, price, volume, buyTransfer, params)
  }

  function BuyNet(bps: real, price: int, volume: int, transferApplies: bool, params: FrictionParams): int {
    Settle(true, price, BoardSlippage(price, true, bps), volume, transferApplies, params).net
  }

  function SellNet(bps: real, price: int, volume: int, transferApplies: bool, params: FrictionParams): int {
    Settle(false, price, BoardSlippage(price, false, bps), volume, transferApplies, params).net
  }

  /** The slippage table is not validated; [0, 10000] is exactly the range in which round trips are safe. */
  lemma RoundTripSafeIff(bps: real)
    ensures RoundTripSafe(bps) <==> 0.0 <= bps <= 10000.0
  {
    if 0.0 <= bps <= 10000.0 {
      forall params: FrictionParams, price: int, volume: int, b: bool, s: bool | price > 0 && volume > 0
        ensures SellNet(bps, price, volume, s, params) <= BuyNet(bps, price, volume, b, params)
      {
        BuySlippageIsAdverse(price, bps);
        SellSlippageIsAdverse(price, bps);
        RoundTripLoss(price, volume, BoardSlippage(price, true, bps), BoardSlippage(price, false, bps), b, s, params);
      }
    } else if bps < 0.0 {
      var price, params := NegativeSlippagePays(bps);
      assert !RoundTripSafe(bps);
    } else {
      var price, params := ExcessiveSlippagePays(bps);
      assert !RoundTripSafe(bps);
    }
  }

  lemma NegativeSlippagePays(bps: real) returns (price: int, params: FrictionParams)
    requires bps < 0.0
    ensures price > 0
    ensures SellNet(bps, price, 1, false, params) > BuyNet(bps, price, 1, false, params)
  {
    params := RawParams(0.0, 0, 0.0, 0.0, map[]);
    var g := -bps / 10000.0;
    price := (1.0 / g).Floor + 1;
    ScaleUp(g, price as real);
    FavourableBuyPrice(price, bps);
    FavourableSellPrice(price, bps);
    ZeroFees(BoardSlippage(price, true, bps), params);
    ZeroFees(BoardSlippage(price, false, bps), params);
  }

  lemma FavourableBuyPrice(price: int, bps: real)
    requires price as real * (-bps / 10000.0) >= 1.0
    ensures BoardSlippage(price, true, bps) <= price - 1
  {
    var p, g := price as real, -bps / 10000.0;
    assert p * (1.0 + bps / 10000.0) == p - p * g;
    RoundAtMost(price as real * (1.0 + bps / 10000.0), price - 1);
  }

  lemma FavourableSellPrice(price: int, bps: real)
    requires price > 0 && price as real * (-bps / 10000.0) >= 1.0
    ensures price + 1 <= BoardSlippage(price, false, bps)
  {
    var p, g := price as real, -bps / 10000.0;
    assert p * (1.0 - bps / 10000.0) == p + p * g;
    RoundAtLeast(price + 1, price as real * (1.0 - bps / 10000.0));
  }

  lemma ScaleUp(g: real, p: real)
    requires g > 0.0 && p >= 1.0 / g
    ensures p * g >= 1.0
  {
    RealProductNonNegative(p - 1.0 / g, g);
    assert (p - 1.0 / g) * g == p * g - 1.0;
  }

  lemma ZeroFees(gross: int, params: FrictionParams)
    requires params.commissionRate == 0.0 && params.minCommission == 0
    ensures Commission(gross, params) == 0 && Proportional(gross, 0.0) == 0
  {
    RoundInteger(0);
  }

  /** Above 10000 bps the SELL price turns negative and a stamp tax rate above 1 pays the seller. */
  lemma ExcessiveSlippagePays(bps: real) returns (price: int, params: FrictionParams)
    requires bps > 10000.0
    ensures price > 0
    ensures SellNet(bps, price, 1, false, params) > BuyNet(bps, price, 1, false, params)
  {
    var g := bps / 10000.0 - 1.0;
    price := (1.0 / g).Floor + 1;
    ScaleUp(g, price as real);
    NegativeSellPrice(price, bps);
    var up := BoardSlippage(price, true, bps);
    BuySlippageIsAdverse(price, bps);
    params := RawParams(0.0, 0, (up + 2) as real, 0.0, map[]);
    TaxPaysTheSeller(price, up, BoardSlippage(price, false, bps), params);
  }

  lemma NegativeSellPrice(price: int, bps: real)
    requires price as real * (bps / 10000.0 - 1.0) >= 1.0
    ensures BoardSlippage(price, false, bps) <= -1
  {
    var p, f := price as real, bps / 10000.0;
    assert p * (1.0 - f) == -(p * (f - 1.0));
    assert p * (f - 1.0) >= 1.0;
    assert p * (1.0 - f) <= -1.0;
    RoundAtMost(p * (1.0 - f), -1);
  }

  lemma TaxPaysTheSeller(price: int, up: int, down: int, params: FrictionParams)
    requires down <= -1 && up >= 0
    requires params == RawParams(0.0, 0, (up + 2) as real, 0.0, map[])
    ensures Settle(false, price, down, 1, false, params).net > Settle(true, price, up, 1, false, params).net
  {
    ZeroFees(up, params);
    ZeroFees(down, params);
    WholeRate(down, up + 2);
    assert down - down * (up + 2) == (-down) * (up + 1) >= up + 1 by {
      ProductMonotone(1, -down, up + 1);
    }
  }

  lemma WholeRate(gross: int, rate: int)
    ensures Proportional(gross, rate as real) == gross * rate
  {
    RoundInteger(gross * rate);
    assert gross as real * rate as real == (gross * rate) as real;
  }

  // ---------------------------------------------------------------- splitting an order

  function SumInts(s: seq<int>): int {
    if s == [] then 0 else SumInts(s[..|s| - 1]) + s[|s| - 1]
  }

  /** max(rate * gross, floor), the quantity a fee rounds; a proportional fee is the case floor = none. */
  ghost function Charged(gross: int, rate: real, floor: Option<int>): real {
    if floor.Some? && gross as real * rate < floor.value as real then floor.value as real else gross as real * rate
  }

  ghost function Fee(gross: int, rate: real, floor: Option<int>): int {
    if floor.Some? then Floored(gross, rate, floor.value) else Proportional(gross, rate)
  }

  ghost function SplitFees(price: int, volumes: seq<int>, rate: real, floor: Option<int>): int {
    if volumes == [] then 0
    else SplitFees(price, volumes[..|volumes| - 1], rate, floor)
         + Fee(price * volumes[|volumes| - 1], rate, floor)
  }

  lemma ChargedSubadditive(g: int, h: int, rate: real, floor: Option<int>)
    requires rate >= 0.0 && (floor.Some? ==> floor.value >= 0)
    ensures Charged(g + h, rate, floor) <= Charged(g, rate, floor) + Charged(h, rate, floor)
  {
    assert (g + h) as real * rate == g as real * rate + h as real * rate;
  }

  lemma {:induction false} SplitFeesLowerBound(price: int, volumes: seq<int>, rate: real, floor: Option<int>)
    requires |volumes| > 0 && rate >= 0.0 && (floor.Some? ==> floor.value >= 0)
    ensures SplitFees(price, volumes, rate, floor) as real
            >= Charged(price * SumInts(volumes), rate, floor) - |volumes| as real / 2.0
  {
    var n := |volumes| - 1;
    var h := price * volumes[n];
    FeeNearCharged(h, rate, floor);
    if n == 0 {
      assert volumes[..0] == [];
    } else {
      var g := price * SumInts(volumes[..n]);
      SplitFeesLowerBound(price, volumes[..n], rate, floor);
      Distribute(price, SumInts(volumes[..n]), volumes[n]);
      ChargedSubadditive(g, h, rate, floor);
    }
  }

  lemma Distribute(a: int, b: int, c: int)
    ensures a * (b + c) == a * b + a * c
  {}

  /** A fee is max(rate * gross, floor), or rate * gross, to the nearest cent, ties to even. */
  lemma FeeNearCharged(gross: int, rate: real, floor: Option<int>)
    ensures NearestEven(Charged(gross, rate, floor), Fee(gross, rate, floor))
  {}

  /**
   * Splitting one order into k orders at the same fill price lowers the commission (with its floor),
   * the stamp tax and the transfer fee by at most (k + 1) / 2 cents each.
   */
  lemma OrderSplittingBound(isBuy: bool, orderPrice: int, volumes: seq<int>, board: string, transferApplies: bool,
                            params: FrictionParams, applySlippage: bool, parts: seq<FillEconomics>,
                            whole: FillEconomics)
    requires |parts| == |volumes| > 0
    requires forall i :: 0 <= i < |volumes| ==>
               ComputeFillEconomics(isBuy, orderPrice, volumes[i], board, transferApplies, params, applySlippage)
               == Ok(parts[i])
    requires ComputeFillEconomics(isBuy, orderPrice, SumInts(volumes), board, transferApplies, params, applySlippage)
             == Ok(whole)
    ensures whole.commission - SumInts(Commissions(parts)) <= (|volumes| + 1) / 2
    ensures whole.stampTax - SumInts(StampTaxes(parts)) <= (|volumes| + 1) / 2
    ensures whole.transferFee - SumInts(TransferFees(parts)) <= (|volumes| + 1) / 2
  {
    FeesOf(isBuy, orderPrice, SumInts(volumes), board, transferApplies, params, applySlippage, whole);
    forall i | 0 <= i < |volumes|
      ensures FeesAre(isBuy, whole.fillPrice, volumes[i], transferApplies, params, parts[i])
    {
      FeesOf(isBuy, orderPrice, volumes[i], board, transferApplies, params, applySlippage, parts[i]);
    }
    SplitBounds(isBuy, whole.fillPrice, volumes, transferApplies, params, parts, whole);
  }

  function Commissions(parts: seq<FillEconomics>): seq<int> {
    seq(|parts|, i requires 0 <= i < |parts| => parts[i].commission)
  }

  function StampTaxes(parts: seq<FillEconomics>): seq<int> {
    seq(|parts|, i requires 0 <= i < |parts| => parts[i].stampTax)
  }

  function TransferFees(parts: seq<FillEconomics>): seq<int> {
    seq(|parts|, i requires 0 <= i < |parts| => parts[i].transferFee)
  }

  lemma SplitBounds(isBuy: bool, price: int, volumes: seq<int>, transferApplies: bool, params: FrictionParams,
                    parts: seq<FillEconomics>, whole: FillEconomics)
    requires |parts| == |volumes| > 0
    requires forall i :: 0 <= i < |volumes| ==>
               FeesAre(isBuy, price, volumes[i], transferApplies, params, parts[i])
    requires FeesAre(isBuy, price, SumInts(volumes), transferApplies, params, whole)
    ensures whole.commission - SumInts(Commissions(parts)) <= (|volumes| + 1) / 2
    ensures whole.stampTax - SumInts(StampTaxes(parts)) <= (|volumes| + 1) / 2
    ensures whole.transferFee - SumInts(TransferFees(parts)) <= (|volumes| + 1) / 2
  {
    FeeSplit(price, volumes, params.commissionRate, Some(params.minCommission), Commissions(parts),
             whole.commission);
    if isBuy {
      SumZero(StampTaxes(parts));
    } else {
      FeeSplit(price, volumes, params.stampTaxRate, None, StampTaxes(parts), whole.stampTax);
    }
    if transferApplies {
      FeeSplit(price, volumes, params.transferFeeRate, None, TransferFees(parts), whole.transferFee);
    } else {
      SumZero(TransferFees(parts));
    }
  }

  ghost predicate FeesAre(isBuy: bool, price: int, volume: int, transferApplies: bool, params: FrictionParams,
                          e: FillEconomics)
  {
    && e.commission == Fee(price * volume, params.commissionRate, Some(params.minCommission))
    && e.stampTax == (if isBuy then 0 else Fee(price * volume, params.stampTaxRate, None))
    && e.transferFee == (if transferApplies then Fee(price * volume, params.transferFeeRate, None) else 0)
  }

  lemma FeesOf(isBuy: bool, orderPrice: int, volume: int, board: string, transferApplies: bool,
               params: FrictionParams, applySlippage: bool, e: FillEconomics)
    requires ComputeFillEconomics(isBuy, orderPrice, volume, board, transferApplies, params, applySlippage) == Ok(e)
    ensures FeesAre(isBuy, e.fillPrice, volume, transferApplies, params, e)
    ensures e.fillPrice == if applySlippage then BoardSlippage(orderPrice, isBuy, params.slippageBps[board])
                           else orderPrice
  {
    SettleFees(isBuy, orderPrice, e.fillPrice, volume, transferApplies, params);
  }

  /**
   * Every fee of a priced fill, without naming how it is computed: commission is the floored charge, stamp
   * tax the plain charge on SELLs and 0 on BUYs, the transfer fee the plain charge where it applies, each to
   * the nearest cent with ties to even; the notional is volume times the post-slippage price.
   */
  lemma FeesAreHalfEvenCharges(isBuy: bool, orderPrice: int, volume: int, board: string, transferApplies: bool,
                               params: FrictionParams, applySlippage: bool, e: FillEconomics)
    requires ComputeFillEconomics(isBuy, orderPrice, volume, board, transferApplies, params, applySlippage) == Ok(e)
    ensures e.gross == e.fillPrice * volume
    ensures NearestEven(Charged(e.gross, params.commissionRate, Some(params.minCommission)), e.commission)
    ensures if isBuy then e.stampTax == 0 else NearestEven(Charged(e.gross, params.stampTaxRate, None), e.stampTax)
    ensures if transferApplies then NearestEven(Charged(e.gross, params.transferFeeRate, None), e.transferFee)
            else e.transferFee == 0
  {
    FeesOf(isBuy, orderPrice, volume, board, transferApplies, params, applySlippage, e);
    FeeNearCharged(e.gross, params.commissionRate, Some(params.minCommission));
    FeeNearCharged(e.gross, params.stampTaxRate, None);
    FeeNearCharged(e.gross, params.transferFeeRate, None);
  }

  /** Pricing refuses exactly a non-positive volume or price, or a board missing from the slippage table. */
  lemma PricingRefusesIff(isBuy: bool, orderPrice: int, volume: int, board: string, transferApplies: bool,
                          params: FrictionParams, applySlippage: bool)
    ensures
      var r := ComputeFillEconomics(isBuy, orderPrice, volume, board, transferApplies, params, applySlippage);
      && (r.Ok? <==> volume > 0 && orderPrice > 0 && (applySlippage ==> board in params.slippageBps))
      && (r.Err? ==> r.error == if volume <= 0 then BadVolume(volume)
                                else if orderPrice <= 0 then BadPrice(orderPrice) else UnmappedBoard(board))
  {}

  lemma SettleFees(isBuy: bool, orderPrice: int, fillPrice: int, volume: int, transferApplies: bool,
                   params: FrictionParams)
    ensures FeesAre(isBuy, fillPrice, volume, transferApplies, params,
                    Settle(isBuy, orderPrice, fillPrice, volume, transferApplies, params))
  {}

  lemma FeeSplit(price: int, volumes: seq<int>, rate: real, floor: Option<int>, fees: seq<int>, whole: int)
    requires |fees| == |volumes| > 0 && rate >= 0.0 && (floor.Some? ==> floor.value >= 0)
    requires forall i :: 0 <= i < |volumes| ==> fees[i] == Fee(price * volumes[i], rate, floor)
    requires whole == Fee(price * SumInts(volumes), rate, floor)
    ensures whole - SumInts(fees) <= (|volumes| + 1) / 2
  {
    SplitFeesAre(price, volumes, rate, floor, fees);
    SplitFeesLowerBound(price, volumes, rate, floor);
    FeeNearCharged(price * SumInts(volumes), rate, floor);
  }

  lemma {:induction false} SplitFeesAre(price: int, volumes: seq<int>, rate: real, floor: Option<int>,
                                        fees: seq<int>)
    requires |fees| == |volumes|
    requires forall i :: 0 <= i < |volumes| ==> fees[i] == Fee(price * volumes[i], rate, floor)
    ensures SumInts(fees) == SplitFees(price, volumes, rate, floor)
  {
    if volumes != [] {
      SplitFeesAre(price, volumes[..|volumes| - 1], rate, floor, fees[..|fees| - 1]);
    }
  }

  lemma {:induction false} SumZero(s: seq<int>)
    requires forall i :: 0 <= i < |s| ==> s[i] == 0
    ensures SumInts(s) == 0
  {
    if s != [] {
      SumZero(s[..|s| - 1]);
    }
  }

  // ---------------------------------------------------------------- re-pricing a recorded fill

  /**
   * Re-pricing a fill at its own post-slippage price reproduces every fee and the net amount; the
   * re-pricing is accepted exactly when that price is positive.
   */
  lemma RepricingReproduces(isBuy: bool, orderPrice: int, volume: int, board: string, transferApplies: bool,
                            params: FrictionParams, applySlippage: bool, e: FillEconomics)
    requires ComputeFillEconomics(isBuy, orderPrice, volume, board, transferApplies, params, applySlippage) == Ok(e)
    ensures
      var again := ComputeFillEconomics(isBuy, e.fillPrice, volume, board, transferApplies, params, false);
      && (again.Ok? <==> e.fillPrice > 0)
      && (again.Ok? ==> again.value == e.(slippage := 0))
  {}
}
