/** The step-by-step replay refines the auditor's closed form, and exactly when the two disagree. */
module AuditRefinement {
  import opened Outcome
  import opened Lexicographic
  import opened Friction
  import opened Ledger
  import opened Checkpoint
  import opened Comparator
  import opened Commutation
  import opened GoldenReplay
  import opened Portfolio
  import opened Auditor

  ghost predicate AllSettled(fills: seq<AppliedFill>) {
    forall i :: 0 <= i < |fills| ==> Settled(fills[i])
  }

  /** Opening rows with distinct codes; the dictionary then holds what the auditor's sum counts. */
  lemma {:induction false} OpenedIsVolume(opening: seq<Position>, code: string)
    requires UniqueCodes(opening)
    ensures Opened(opening, code) == Volume(OpeningLots(opening), code)
    ensures (forall i :: 0 <= i < |opening| ==> opening[i].code != code) ==> Opened(opening, code) == 0
  {
    if opening != [] {
      var n := |opening| - 1;
      OpenedIsVolume(opening[..n], code);
      if opening[n].code == code {
        assert forall i :: 0 <= i < n ==> opening[..n][i].code != code;
      }
    }
  }

  lemma {:induction false} TradedIsNet(lots: Holdings, fills: seq<AppliedFill>, code: string)
    requires AllSettled(fills)
    ensures Net(lots, RecordedFills(fills), code) == Volume(lots, code) + Traded(fills, code)
  {
    if fills != [] {
      var n := |fills| - 1;
      TradedIsNet(lots, fills[..n], code);
      assert RecordedFills(fills)[..n] == RecordedFills(fills[..n]);
    }
  }

  lemma {:induction false} NetsAreFlows(fills: seq<AppliedFill>)
    requires AllSettled(fills)
    ensures Proceeds(RecordedFills(fills)) == SellNets(fills)
    ensures Outlays(RecordedFills(fills)) == BuyNets(fills)
  {
    if fills != [] {
      var n := |fills| - 1;
      NetsAreFlows(fills[..n]);
      assert RecordedFills(fills)[..n] == RecordedFills(fills[..n]);
    }
  }

  lemma {:induction false} HeldMapIs(positions: seq<Position>)
    ensures HeldMap(HeldOf(positions)).Keys == OpeningLots(positions).Keys
    ensures forall c :: c in OpeningLots(positions) ==>
              HeldMap(HeldOf(positions))[c] == OpeningLots(positions)[c].volume
  {
    if positions != [] {
      var n := |positions| - 1;
      HeldMapIs(positions[..n]);
      assert HeldOf(positions)[..n] == HeldOf(positions[..n]);
    }
  }

  /** Whatever the replay ends on passes the auditor's cash check, code by code and share by share. */
  lemma ReplayMeetsClosedForm(initialCash: int, opening: seq<Position>, fills: seq<AppliedFill>)
    requires UniqueCodes(opening) && AllSettled(fills)
    requires ApplyFills(Open(initialCash, opening), RecordedFills(fills)).Ok?
    ensures var b := ApplyFills(Open(initialCash, opening), RecordedFills(fills)).value;
            && CashHolds(initialCash, fills, b.cash)
            && forall c :: NetShares(opening, fills, c) == Volume(b.lots, c)
  {
    var a := Open(initialCash, opening);
    CashIsClosedForm(a, RecordedFills(fills));
    NetsAreFlows(fills);
    VolumesAreNet(a, RecordedFills(fills));
    forall c ensures NetShares(opening, fills, c) == Volume(ApplyFills(a, RecordedFills(fills)).value.lots, c) {
      TradedIsNet(a.lots, fills, c);
      OpenedIsVolume(opening, c);
    }
  }

  /** The last row of a replay, in particular its position list, passes the cash and position checks. */
  lemma ReplayPassesAudit(initialCash: int, opening: seq<Position>, frozen: int, fills: seq<AppliedFill>,
                          date: string, marks: map<string, int>)
    requires UniqueCodes(opening) && AllSettled(fills) && NonNegative(OpeningLots(opening))
    requires ApplyFills(Open(initialCash, opening), RecordedFills(fills)).Ok?
    requires CloseDay(ApplyFills(Open(initialCash, opening), RecordedFills(fills)).value, frozen, date, marks).Ok?
    ensures
      var row := CloseDay(ApplyFills(Open(initialCash, opening), RecordedFills(fills)).value, frozen, date, marks).value;
      CashHolds(initialCash, fills, row.cash) && PositionsHold(opening, fills, HeldOf(row.positions))
  {
    var a := Open(initialCash, opening);
    var b := ApplyFills(a, RecordedFills(fills)).value;
    var row := CloseDay(b, frozen, date, marks).value;
    ReplayMeetsClosedForm(initialCash, opening, fills);
    ApplyFillsNonNegative(a, RecordedFills(fills));
    EmittedPositions(b, frozen, date, marks);
    VisiblePassesPositions(opening, fills, b.lots, row.positions);
  }

  lemma VisiblePassesPositions(opening: seq<Position>, fills: seq<AppliedFill>, lots: Holdings,
                               positions: seq<Position>)
    requires NonNegative(lots) && OpeningLots(positions) == Visible(lots)
    requires forall c :: NetShares(opening, fills, c) == Volume(lots, c)
    ensures PositionsHold(opening, fills, HeldOf(positions))
  {
    HeldMapIs(positions);
    var held := HeldMap(HeldOf(positions));
    forall c
      ensures Volume(lots, c) >= 0
      ensures if Volume(lots, c) > 0 then c in held && held[c] == Volume(lots, c) else c !in held
    {
      assert c in held <==> c in Visible(lots);
    }
  }

  ghost predicate NoOverSellInAnyPrefix(opening: seq<Position>, fills: seq<AppliedFill>) {
    forall k, c :: 0 <= k <= |fills| ==> NetShares(opening, fills[..k], c) >= 0
  }

  /**
   * The converse, exactly: the replay accepts a stream if and only if the auditor's over-sold test would
   * pass on every prefix of it, not just on the whole.
   */
  lemma ReplayAcceptsIffEveryPrefixAudits(initialCash: int, opening: seq<Position>, fills: seq<AppliedFill>)
    requires UniqueCodes(opening) && AllSettled(fills) && NonNegative(OpeningLots(opening))
    ensures ApplyFills(Open(initialCash, opening), RecordedFills(fills)).Ok?
            <==> NoOverSellInAnyPrefix(opening, fills)
  {
    AcceptedIffNeverShort(Open(initialCash, opening), RecordedFills(fills));
    if NeverShort(OpeningLots(opening), RecordedFills(fills)) {
      forall k, c | 0 <= k <= |fills| ensures NetShares(opening, fills[..k], c) >= 0 {
        PrefixNet(opening, fills, k, c);
      }
    }
    if NoOverSellInAnyPrefix(opening, fills) {
      forall k, c | 0 <= k <= |fills| ensures Net(OpeningLots(opening), RecordedFills(fills)[..k], c) >= 0 {
        PrefixNet(opening, fills, k, c);
      }
    }
  }

  lemma PrefixNet(opening: seq<Position>, fills: seq<AppliedFill>, k: nat, c: string)
    requires UniqueCodes(opening) && AllSettled(fills) && k <= |fills|
    ensures Net(OpeningLots(opening), RecordedFills(fills)[..k], c) == NetShares(opening, fills[..k], c)
  {
    assert RecordedFills(fills)[..k] == RecordedFills(fills[..k]);
    TradedIsNet(OpeningLots(opening), fills[..k], c);
    OpenedIsVolume(opening, c);
  }

  /** Any SELL recorded just before a BUY of the same shares: the audit of the whole is clean, the replay refuses. */
  lemma SellBeforeBuySlipsPastTheAudit(cash: int, sell: AppliedFill, buy: AppliedFill)
    requires Settled(sell) && Settled(buy) && !sell.isBuy && buy.isBuy
    requires sell.code == buy.code && sell.volume == buy.volume
    ensures CashHolds(cash, [sell, buy], cash + sell.net - buy.net)
    ensures PositionsHold([], [sell, buy], [])
    ensures ApplyFills(Open(cash, []), RecordedFills([sell, buy])).Err?
  {
    TwoTotals(sell, buy);
    assert [sell, buy][..1] == [sell];
    assert NetShares([], [sell, buy][..1], sell.code) < 0;
    ReplayAcceptsIffEveryPrefixAudits(cash, [], [sell, buy]);
  }

  lemma TwoTotals(f: AppliedFill, g: AppliedFill)
    ensures SellNets([f, g]) == (if f.isBuy then 0 else f.net) + (if g.isBuy then 0 else g.net)
    ensures BuyNets([f, g]) == (if f.isBuy then f.net else 0) + (if g.isBuy then g.net else 0)
    ensures forall c :: Traded([f], c) == if f.code != c then 0 else if f.isBuy then f.volume else -f.volume
    ensures forall c :: Traded([f, g], c)
                        == Traded([f], c) + if g.code != c then 0 else if g.isBuy then g.volume else -g.volume
  {
    assert [f, g][..1] == [f] && [f][..0] == [];
    assert SellNets([f]) == if f.isBuy then 0 else f.net;
    assert BuyNets([f]) == if f.isBuy then f.net else 0;
  }

  // ---------------------------------------------------------------- priced runs pass the whole audit

  /** The final holdings as the run reports them. */
  function FinalHoldings(lots: Holdings): seq<Held> {
    HeldAmong(SortedElements(Visible(lots).Keys), Visible(lots))
  }

  function HeldAmong(codes: seq<string>, lots: Holdings): seq<Held>
    requires forall c :: c in codes ==> c in lots
  {
    if codes == [] then []
    else HeldAmong(codes[..|codes| - 1], lots) + [Held(codes[|codes| - 1], lots[codes[|codes| - 1]].volume)]
  }

  lemma {:induction false} HeldAmongIs(codes: seq<string>, lots: Holdings)
    requires forall c :: c in codes ==> c in lots
    ensures forall c :: c in HeldMap(HeldAmong(codes, lots)) <==> c in codes
    ensures forall c :: c in codes ==> HeldMap(HeldAmong(codes, lots))[c] == lots[c].volume
  {
    if codes != [] {
      var n := |codes| - 1;
      HeldAmongIs(codes[..n], lots);
      HeldMapAppend(HeldAmong(codes[..n], lots), Held(codes[n], lots[codes[n]].volume));
      assert codes == codes[..n] + [codes[n]];
    }
  }

  lemma HeldMapAppend(held: seq<Held>, h: Held)
    ensures HeldMap(held + [h]) == HeldMap(held)[h.code := h.volume]
  {
    assert (held + [h])[..|held|] == held;
  }

  lemma FinalHoldingsPass(opening: seq<Position>, fills: seq<AppliedFill>, a: Account, b: Account)
    requires SameBook(a, b) && forall c :: NetShares(opening, fills, c) == Volume(b.lots, c)
    ensures PositionsHold(opening, fills, FinalHoldings(a.lots))
  {
    var visible := Visible(a.lots);
    HeldAmongIs(SortedElements(visible.Keys), visible);
    var held := HeldMap(FinalHoldings(a.lots));
    forall c
      ensures Volume(b.lots, c) >= 0
      ensures if Volume(b.lots, c) > 0 then c in held && held[c] == Volume(b.lots, c) else c !in held
    {
      VisibleVolume(a, b, c);
      assert c in held <==> c in visible;
    }
  }

  /** The fill records what pricing its order gave, with or without board slippage. */
  ghost predicate PricedBy(f: AppliedFill, orderPrice: int, slippage: bool, params: FrictionParams, e: FillEconomics) {
    && ComputeFillEconomics(f.isBuy, orderPrice, f.volume, f.board, f.transferApplies, params, slippage) == Ok(e)
    && f.fillPrice == e.fillPrice && f.gross == e.gross && f.commission == e.commission
    && f.stampTax == e.stampTax && f.transferFee == e.transferFee && f.net == e.net
  }

  lemma PricedFillPasses(f: AppliedFill, orderPrice: int, slippage: bool, params: FrictionParams, e: FillEconomics)
    requires PricedBy(f, orderPrice, slippage, params, e) && f.fillPrice > 0
    ensures Settled(f) && FeesHold(f, params)
  {
    RepricingReproduces(f.isBuy, orderPrice, f.volume, f.board, f.transferApplies, params, slippage, e);
    SettleBounds(f.isBuy, orderPrice, e.fillPrice, f.volume, f.transferApplies, params);
    EconomicsAre(f.isBuy, orderPrice, f.volume, f.board, f.transferApplies, params, slippage, e);
  }

  lemma EconomicsAre(isBuy: bool, orderPrice: int, volume: int, board: string, transferApplies: bool,
                     params: FrictionParams, slippage: bool, e: FillEconomics)
    requires ComputeFillEconomics(isBuy, orderPrice, volume, board, transferApplies, params, slippage) == Ok(e)
    ensures volume > 0 && e == Settle(isBuy, orderPrice, e.fillPrice, volume, transferApplies, params)
    ensures e.gross == volume * e.fillPrice && (isBuy ==> e.stampTax == 0)
  {}

  /**
   * Auditor soundness: a run whose fills were priced by the friction model at positive fill prices, and that
   * never sells more than it holds, has no cash, position or fee violation.
   */
  lemma PricedRunPassesAudit(cash: int, opening: seq<Position>, fills: seq<AppliedFill>, params: FrictionParams,
                             orders: seq<int>, slippage: seq<bool>, economics: seq<FillEconomics>, caps: (int, int))
    requires UniqueCodes(opening) && NonNegative(OpeningLots(opening))
    requires |orders| == |slippage| == |economics| == |fills|
    requires forall i :: 0 <= i < |fills| ==>
               PricedBy(fills[i], orders[i], slippage[i], params, economics[i]) && fills[i].fillPrice > 0
    requires NoOverSellInAnyPrefix(opening, fills)
    ensures AllSettled(fills) && ApplyFills(Open(cash, opening), RecordedFills(fills)).Ok?
    ensures var b := ApplyFills(Open(cash, opening), RecordedFills(fills)).value;
            BooksHold(Audit(cash, fills, b.cash, opening, FinalHoldings(b.lots), params, [], caps.0, caps.1))
  {
    forall i | 0 <= i < |fills| ensures Settled(fills[i]) && FeesHold(fills[i], params) {
      PricedFillPasses(fills[i], orders[i], slippage[i], params, economics[i]);
    }
    ReplayAcceptsIffEveryPrefixAudits(cash, opening, fills);
    var b := ApplyFills(Open(cash, opening), RecordedFills(fills)).value;
    ReplayMeetsClosedForm(cash, opening, fills);
    ApplyFillsNonNegative(Open(cash, opening), RecordedFills(fills));
    FinalHoldingsPass(opening, fills, b, b);
  }
}
