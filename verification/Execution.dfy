/**
 * Which pending orders a backtest run executes (backend/backtest/harness.py), decided by the closed forms of
 * cash and shares alone: no book is kept here.
 */
module Execution {
  import opened Outcome
  import opened Friction
  import opened Ledger
  import opened GoldenReplay
  import opened Portfolio
  import opened Auditor
  import opened AuditRefinement
  import opened Harness

  /** The code trades today and the matching filled some of the order. */
  predicate Matched(bars: map<string, Bar>, o: Order) {
    o.code in bars && o.harsh.Some? && o.harsh.value.0 > 0
  }

  predicate Priceable(bars: map<string, Bar>, o: Order) {
    Matched(bars, o) ==> o.harsh.value.1 > 0
  }

  /** What a matched order costs or brings, at its matched price without board slippage. */
  function Economics(bars: map<string, Bar>, o: Order, params: FrictionParams): FillEconomics
    requires Matched(bars, o)
  {
    var (volume, price) := o.harsh.value;
    Settle(o.isBuy, price, price, volume, bars[o.code].transferApplies, params)
  }

  /** A BUY needs the cash for its net, a SELL needs the shares. */
  predicate Covered(o: Order, net: int, volume: int, cash: int, held: int) {
    if o.isBuy then net <= cash else volume <= held
  }

  /** What the run records of an executed order. */
  function Record(date: string, bars: map<string, Bar>, o: Order, params: FrictionParams): AppliedFill
    requires Matched(bars, o)
  {
    var e, bar := Economics(bars, o, params), bars[o.code];
    var (volume, price) := o.harsh.value;
    AppliedFill(
      date := date, code := o.code, isBuy := o.isBuy, volume := volume, fillPrice := price, gross := price * volume,
      commission := e.commission, stampTax := e.stampTax, transferFee := e.transferFee,
      slippage := (if price >= bar.open then price - bar.open else bar.open - price) * volume, net := e.net,
      board := bar.board, transferApplies := bar.transferApplies)
  }

  /** The book moved by exactly one fill: cash by its net, the code by its shares, nothing else. */
  ghost predicate MovedBy(a: Account, b: Account, f: AppliedFill) {
    && b.cash == (if f.isBuy then a.cash - f.net else a.cash + f.net)
    && Volume(b.lots, f.code) == Volume(a.lots, f.code) + (if f.isBuy then f.volume else -f.volume)
    && forall c :: c != f.code ==> LotOf(b.lots, c) == LotOf(a.lots, c)
  }

  /**
   * Exactly when an order is executed. An order without a bar or a match lapses; a matched order with a
   * non-positive price raises; any other matched order is executed if and only if a BUY's net is at most the
   * cash, or a SELL's volume is at most the shares held, and otherwise lapses and changes nothing.
   */
  lemma OrderFillsIff(s: Filling, date: string, bars: map<string, Bar>, o: Order, params: FrictionParams)
    ensures var r := FillOrder(s, date, bars, o, params);
            if !Matched(bars, o) then r == Ok(s)
            else
              var (volume, price) := o.harsh.value;
              if price <= 0 then r == Err(FrictionError.BadPrice(price))
              else
                && r.Ok?
                && if Covered(o, Economics(bars, o, params).net, volume, s.account.cash, Volume(s.account.lots, o.code))
                   then
                     && r.value.fills == s.fills + [Record(date, bars, o, params)]
                     && MovedBy(s.account, r.value.account, Record(date, bars, o, params))
                   else r.value == s
  {
    if Matched(bars, o) && o.harsh.value.1 > 0 {
      var (volume, price) := o.harsh.value;
      assert ToApplied(date, o, bars[o.code], volume, price, Economics(bars, o, params))
          == Record(date, bars, o, params);
      AppliesIff(s.account, Record(date, bars, o, params));
    }
  }

  /** The book takes every BUY and exactly the SELLs it has the shares for. */
  lemma AppliesIff(a: Account, f: AppliedFill)
    requires f.volume > 0
    ensures ApplyToBook(a, f).Ok? <==> f.isBuy || f.volume <= Volume(a.lots, f.code)
    ensures ApplyToBook(a, f).Ok? ==> MovedBy(a, ApplyToBook(a, f).value, f)
    ensures ApplyToBook(a, f).Err? ==> ApplyToBook(a, f).error == Oversold(f.code, f.volume, Volume(a.lots, f.code))
  {}

  // ---------------------------------------------------------------- the whole run

  /** The fills after one more order, decided by the opening and the fills so far. */
  ghost function Execute(spec: Spec, done: seq<AppliedFill>, date: string, bars: map<string, Bar>, o: Order,
                         params: FrictionParams): seq<AppliedFill>
  {
    if !Matched(bars, o) then done
    else
      var cash := spec.cash + SellNets(done) - BuyNets(done);
      var held := NetShares(spec.opening, done, o.code);
      if Covered(o, Economics(bars, o, params).net, o.harsh.value.0, cash, held)
      then done + [Record(date, bars, o, params)] else done
  }

  ghost function ExecuteDay(spec: Spec, done: seq<AppliedFill>, date: string, bars: map<string, Bar>,
                            orders: seq<Order>, params: FrictionParams): seq<AppliedFill>
  {
    if orders == [] then done
    else
      Execute(spec, ExecuteDay(spec, done, date, bars, orders[..|orders| - 1], params), date, bars,
              orders[|orders| - 1], params)
  }

  ghost function Executed(spec: Spec, days: seq<TradingDay>, params: FrictionParams): seq<AppliedFill> {
    if days == [] then []
    else
      var day := days[|days| - 1];
      ExecuteDay(spec, Executed(spec, days[..|days| - 1], params), day.date, day.bars, day.orders, params)
  }

  /** The book is what the closed forms say of the fills so far. */
  ghost predicate ClosedForm(spec: Spec, done: seq<AppliedFill>, a: Account) {
    CashHolds(spec.cash, done, a.cash) && forall c :: Volume(a.lots, c) == NetShares(spec.opening, done, c)
  }

  lemma ClosedFormStep(spec: Spec, done: seq<AppliedFill>, a: Account, f: AppliedFill, b: Account)
    requires ClosedForm(spec, done, a) && MovedBy(a, b, f)
    ensures ClosedForm(spec, done + [f], b)
  {
    assert (done + [f])[..|done|] == done;
    forall c ensures Volume(b.lots, c) == NetShares(spec.opening, done + [f], c) {
      assert Volume(a.lots, c) == NetShares(spec.opening, done, c);
    }
  }

  lemma OneOrderExecutes(spec: Spec, before: seq<AppliedFill>, s: Filling, date: string, bars: map<string, Bar>,
                         o: Order, params: FrictionParams)
    requires ClosedForm(spec, before + s.fills, s.account) && FillOrder(s, date, bars, o, params).Ok?
    ensures var t := FillOrder(s, date, bars, o, params).value;
            && before + t.fills == Execute(spec, before + s.fills, date, bars, o, params)
            && ClosedForm(spec, before + t.fills, t.account)
  {
    var t := FillOrder(s, date, bars, o, params).value;
    OrderFillsIff(s, date, bars, o, params);
    if t.fills != s.fills {
      var f := Record(date, bars, o, params);
      assert before + t.fills == before + s.fills + [f];
      ClosedFormStep(spec, before + s.fills, s.account, f, t.account);
    }
  }

  lemma {:induction false} DayExecutes(spec: Spec, before: seq<AppliedFill>, a: Account, date: string,
                                       bars: map<string, Bar>, orders: seq<Order>, params: FrictionParams)
    requires ClosedForm(spec, before, a) && FillOrders(a, date, bars, orders, params).Ok?
    ensures var t := FillOrders(a, date, bars, orders, params).value;
            && before + t.fills == ExecuteDay(spec, before, date, bars, orders, params)
            && ClosedForm(spec, before + t.fills, t.account)
  {
    if orders == [] {
      assert before + [] == before;
    } else {
      var n := |orders| - 1;
      DayExecutes(spec, before, a, date, bars, orders[..n], params);
      OneOrderExecutes(spec, before, FillOrders(a, date, bars, orders[..n], params).value, date, bars, orders[n],
                       params);
    }
  }

  lemma OpeningIsClosedForm(spec: Spec)
    requires UniqueCodes(spec.opening)
    ensures ClosedForm(spec, [], Open(spec.cash, spec.opening))
  {
    forall c ensures Volume(OpeningLots(spec.opening), c) == NetShares(spec.opening, [], c) {
      OpenedIsVolume(spec.opening, c);
    }
  }

  /**
   * The recorded fills of every run are exactly the matched orders that the cash and the shares left by the
   * earlier fills cover, in order, each recorded as priced; and the book is their closed form.
   */
  lemma {:induction false} RunExecutes(spec: Spec, days: seq<TradingDay>, params: FrictionParams)
    requires ValidOpening(spec.cash, spec.frozen, spec.opening) && RunDays(spec, days, params).Ok?
    ensures RunDays(spec, days, params).value.fills == Executed(spec, days, params)
    ensures ClosedForm(spec, Executed(spec, days, params), RunDays(spec, days, params).value.account)
  {
    if days == [] {
      OpeningIsClosedForm(spec);
    } else {
      var n := |days| - 1;
      RunExecutes(spec, days[..n], params);
      var s := RunDays(spec, days[..n], params).value;
      DayExecutes(spec, s.fills, s.account, days[n].date, days[n].bars, days[n].orders, params);
    }
  }

  // ---------------------------------------------------------------- when a run fails

  ghost predicate DayPriceable(day: TradingDay) {
    forall k :: 0 <= k < |day.orders| ==> Priceable(day.bars, day.orders[k])
  }

  lemma {:induction false} OrdersSucceedIff(a: Account, day: TradingDay, n: nat, params: FrictionParams)
    requires n <= |day.orders|
    ensures FillOrders(a, day.date, day.bars, day.orders[..n], params).Ok?
            <==> forall k :: 0 <= k < n ==> Priceable(day.bars, day.orders[k])
  {
    if n > 0 {
      OrdersSucceedIff(a, day, n - 1, params);
      assert day.orders[..n][..n - 1] == day.orders[..n - 1];
      var before := FillOrders(a, day.date, day.bars, day.orders[..n - 1], params);
      if before.Ok? { OrderFillsIff(before.value, day.date, day.bars, day.orders[n - 1], params); }
    }
  }

  lemma OnlyPricingFails(spec: Spec, s: State, day: TradingDay, params: FrictionParams)
    requires Faithful(spec, s, params)
    ensures RunDay(s, spec.frozen, day, params).Err? ==> RunDay(s, spec.frozen, day, params).error.FrictionRaised?
  {
    RunDayKeeps(spec, s, day, params);
  }

  lemma DaySucceedsIff(spec: Spec, s: State, day: TradingDay, params: FrictionParams)
    requires Faithful(spec, s, params)
    ensures RunDay(s, spec.frozen, day, params).Ok? <==> DayPriceable(day)
  {
    OnlyPricingFails(spec, s, day, params);
    OrdersSucceedIff(s.account, day, |day.orders|, params);
    assert day.orders[..|day.orders|] == day.orders;
  }

  lemma NextDaySucceedsIff(spec: Spec, days: seq<TradingDay>, params: FrictionParams)
    requires ValidOpening(spec.cash, spec.frozen, spec.opening) && days != []
    ensures RunDays(spec, days, params).Ok?
            <==> RunDays(spec, days[..|days| - 1], params).Ok? && DayPriceable(days[|days| - 1])
  {
    var before := RunDays(spec, days[..|days| - 1], params);
    if before.Ok? {
      RunIsFaithful(spec, days[..|days| - 1], params);
      DaySucceedsIff(spec, before.value, days[|days| - 1], params);
    }
  }

  ghost predicate AllPriceable(days: seq<TradingDay>) {
    forall i :: 0 <= i < |days| ==> DayPriceable(days[i])
  }

  lemma OneMorePriceable(days: seq<TradingDay>)
    requires days != []
    ensures AllPriceable(days) <==> AllPriceable(days[..|days| - 1]) && DayPriceable(days[|days| - 1])
  {}

  /** A run from a valid opening fails if and only if some matched order carries a non-positive price. */
  lemma {:induction false} RunSucceedsIff(spec: Spec, days: seq<TradingDay>, params: FrictionParams)
    requires ValidOpening(spec.cash, spec.frozen, spec.opening)
    ensures RunDays(spec, days, params).Ok? <==> AllPriceable(days)
  {
    if days != [] {
      RunSucceedsIff(spec, days[..|days| - 1], params);
      NextDaySucceedsIff(spec, days, params);
      OneMorePriceable(days);
    }
  }

  // ---------------------------------------------------------------- one snapshot per day

  ghost predicate Dated(s: State, days: seq<TradingDay>) {
    && |s.snapshots| == |s.log| == |days|
    && forall i :: 0 <= i < |days| ==> s.snapshots[i].date == s.log[i].date == days[i].date
  }

  lemma OneMoreSnapshot(s: State, t: State, frozen: int, days: seq<TradingDay>, params: FrictionParams)
    requires days != [] && Dated(s, days[..|days| - 1])
    requires RunDay(s, frozen, days[|days| - 1], params) == Ok(t)
    ensures Dated(t, days)
  {
    assert t.snapshots[..|s.snapshots|] == s.snapshots && t.log[..|s.log|] == s.log;
  }

  /** Every run has one snapshot and one log entry per trading day, dated that day. */
  lemma {:induction false} OneSnapshotPerDay(spec: Spec, days: seq<TradingDay>, params: FrictionParams)
    requires RunDays(spec, days, params).Ok?
    ensures Dated(RunDays(spec, days, params).value, days)
  {
    if days != [] {
      var before := days[..|days| - 1];
      OneSnapshotPerDay(spec, before, params);
      OneMoreSnapshot(RunDays(spec, before, params).value, RunDays(spec, days, params).value, spec.frozen, days, params);
    }
  }

  /** A valid opening starts every code's last known close at its opening cost. */
  lemma {:induction false} OpeningClosesAre(opening: seq<Position>)
    requires UniqueCodes(opening)
    ensures forall c :: c in OpeningCloses(opening) <==> exists i :: 0 <= i < |opening| && opening[i].code == c
    ensures forall i :: 0 <= i < |opening| ==> OpeningCloses(opening)[opening[i].code] == opening[i].cost
  {
    if opening != [] {
      var n := |opening| - 1;
      OpeningClosesAre(opening[..n]);
      assert forall i :: 0 <= i < n ==> opening[..n][i] == opening[i];
    }
  }
}
