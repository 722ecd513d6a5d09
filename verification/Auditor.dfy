/** The closed-form auditor of backend/backtest/invariants.py: what each check decides, and the verdict. */
module Auditor {
  import opened Outcome
  import opened Lexicographic
  import opened Friction
  import opened Ledger
  import opened Comparator
  import opened Portfolio

  datatype Observation = Observation(date: string, code: string, positionValue: int, holdingsValue: int, equity: int)

  /** The recorded amounts the fee check recomputes. */
  datatype Charge = Commission | StampTax | TransferFee | NetAmount

  datatype Violation =
    | CashBroken(expected: int, final: int)
    | OverSold(code: string, volume: int)
    | HoldingsDiffer(recorded: map<string, int>, recomputed: map<string, int>)
    | FeeMismatch(date: string, code: string, fields: seq<Charge>)
    | SingleStockCap(observation: Observation)
    | TotalPositionCap(observation: Observation)

  datatype Verdict = Consistent | Divergent
  datatype Report = Report(verdict: Verdict, violations: seq<Violation>)

  // ---------------------------------------------------------------- cash

  function SellNets(fills: seq<AppliedFill>): int {
    if fills == [] then 0
    else
      var f := fills[|fills| - 1];
      SellNets(fills[..|fills| - 1]) + if f.isBuy then 0 else f.net
  }

  function BuyNets(fills: seq<AppliedFill>): int {
    if fills == [] then 0
    else
      var f := fills[|fills| - 1];
      BuyNets(fills[..|fills| - 1]) + if f.isBuy then f.net else 0
  }

  ghost predicate CashHolds(initialCash: int, fills: seq<AppliedFill>, finalCash: int) {
    finalCash == initialCash + SellNets(fills) - BuyNets(fills)
  }

  method CheckCash(initialCash: int, fills: seq<AppliedFill>, finalCash: int) returns (v: seq<Violation>)
    ensures v == [] <==> CashHolds(initialCash, fills, finalCash)
    ensures v != [] ==> v == [CashBroken(initialCash + SellNets(fills) - BuyNets(fills), finalCash)]
  {
    var delta := 0;
    for i := 0 to |fills|
      invariant delta == SellNets(fills[..i]) - BuyNets(fills[..i])
    {
      assert fills[..i + 1][..i] == fills[..i];
      if fills[i].isBuy { delta := delta - fills[i].net; } else { delta := delta + fills[i].net; }
    }
    assert fills[..|fills|] == fills;
    v := if initialCash + delta != finalCash then [CashBroken(initialCash + delta, finalCash)] else [];
  }

  // ---------------------------------------------------------------- positions

  function Opened(opening: seq<Position>, code: string): int {
    if opening == [] then 0
    else
      var p := opening[|opening| - 1];
      Opened(opening[..|opening| - 1], code) + if p.code == code then p.volume else 0
  }

  function Traded(fills: seq<AppliedFill>, code: string): int {
    if fills == [] then 0
    else
      var f := fills[|fills| - 1];
      Traded(fills[..|fills| - 1], code) + if f.code != code then 0 else if f.isBuy then f.volume else -f.volume
  }

  /** Opening shares plus bought minus sold. */
  function NetShares(opening: seq<Position>, fills: seq<AppliedFill>, code: string): int {
    Opened(opening, code) + Traded(fills, code)
  }

  /** The recorded holdings as a dictionary; a repeated code keeps its last volume. */
  function HeldMap(final: seq<Held>): map<string, int> {
    if final == [] then map[]
    else HeldMap(final[..|final| - 1])[final[|final| - 1].code := final[|final| - 1].volume]
  }

  /** No code is over-sold and the recorded holdings are exactly the positive net volumes. */
  ghost predicate PositionsHold(opening: seq<Position>, fills: seq<AppliedFill>, final: seq<Held>) {
    forall c ::
      var net := NetShares(opening, fills, c);
      net >= 0 && (if net > 0 then c in HeldMap(final) && HeldMap(final)[c] == net else c !in HeldMap(final))
  }

  function Count(net: map<string, int>, code: string): int { if code in net then net[code] else 0 }

  method NetVolumes(opening: seq<Position>, fills: seq<AppliedFill>) returns (net: map<string, int>)
    ensures forall c :: Count(net, c) == NetShares(opening, fills, c)
  {
    net := map[];
    for i := 0 to |opening|
      invariant forall c :: Count(net, c) == Opened(opening[..i], c)
    {
      assert opening[..i + 1][..i] == opening[..i];
      net := net[opening[i].code := Count(net, opening[i].code) + opening[i].volume];
    }
    assert opening[..|opening|] == opening;
    for i := 0 to |fills|
      invariant forall c :: Count(net, c) == Opened(opening, c) + Traded(fills[..i], c)
    {
      assert fills[..i + 1][..i] == fills[..i];
      var step := if fills[i].isBuy then fills[i].volume else -fills[i].volume;
      net := net[fills[i].code := Count(net, fills[i].code) + step];
    }
    assert fills[..|fills|] == fills;
  }

  method OverSoldCodes(net: map<string, int>, codes: seq<string>) returns (v: seq<Violation>)
    requires forall c :: c in codes ==> c in net
    ensures forall x :: x in v ==> x.OverSold? && x.code in codes && net[x.code] == x.volume < 0
    ensures forall c :: c in codes && net[c] < 0 ==> OverSold(c, net[c]) in v
  {
    v := [];
    for i := 0 to |codes|
      invariant forall x :: x in v ==> x.OverSold? && x.code in codes && net[x.code] == x.volume < 0
      invariant forall k :: 0 <= k < i && net[codes[k]] < 0 ==> OverSold(codes[k], net[codes[k]]) in v
    {
      if net[codes[i]] < 0 { v := v + [OverSold(codes[i], net[codes[i]])]; }
    }
  }

  method CheckPositions(opening: seq<Position>, fills: seq<AppliedFill>, final: seq<Held>)
    returns (v: seq<Violation>)
    ensures v == [] <==> PositionsHold(opening, fills, final)
    ensures forall c :: NetShares(opening, fills, c) < 0 ==> OverSold(c, NetShares(opening, fills, c)) in v
  {
    var net := NetVolumes(opening, fills);
    v := OverSoldCodes(net, SortedElements(net.Keys));
    var recorded := HeldMap(final);
    var expected := map c | c in net && net[c] > 0 :: net[c];
    assert expected == recorded <==> HoldingsAre(net, recorded) by { ExpectedIs(net, recorded); }
    forall c | NetShares(opening, fills, c) < 0 ensures OverSold(c, NetShares(opening, fills, c)) in v {
      assert Count(net, c) < 0;
    }
    assert v == [] <==> forall c :: Count(net, c) >= 0 by {
      if v != [] { assert v[0] in v && Count(net, v[0].code) < 0; }
    }
    if recorded != expected {
      v := v + [HoldingsDiffer(recorded, expected)];
    }
    assert (forall c :: Count(net, c) >= 0) && HoldingsAre(net, recorded) <==> PositionsHold(opening, fills, final);
  }

  ghost predicate HoldingsAre(net: map<string, int>, recorded: map<string, int>) {
    forall c :: if Count(net, c) > 0 then c in recorded && recorded[c] == Count(net, c) else c !in recorded
  }

  lemma ExpectedIs(net: map<string, int>, recorded: map<string, int>)
    ensures (map c | c in net && net[c] > 0 :: net[c]) == recorded <==> HoldingsAre(net, recorded)
  {
    var expected := map c | c in net && net[c] > 0 :: net[c];
    assert forall c :: c in expected <==> Count(net, c) > 0;
    if HoldingsAre(net, recorded) {
      assert forall c :: c in expected <==> c in recorded;
    }
  }

  // ---------------------------------------------------------------- fees

  /** The recorded fees and net amount are what pricing the fill at its own price gives. */
  ghost predicate FeesHold(f: AppliedFill, params: FrictionParams) {
    var econ := ComputeFillEconomics(f.isBuy, f.fillPrice, f.volume, f.board, f.transferApplies, params, false);
    && econ.Ok?
    && f.commission == econ.value.commission && f.stampTax == econ.value.stampTax
    && f.transferFee == econ.value.transferFee && f.net == econ.value.net
  }

  predicate Repriceable(f: AppliedFill) { f.volume > 0 && f.fillPrice > 0 }

  /** The recorded charges that differ from the recomputed ones. */
  function WrongFields(f: AppliedFill, e: FillEconomics): (fields: seq<Charge>)
    ensures Commission in fields <==> f.commission != e.commission
    ensures StampTax in fields <==> f.stampTax != e.stampTax
    ensures TransferFee in fields <==> f.transferFee != e.transferFee
    ensures NetAmount in fields <==> f.net != e.net
    ensures forall i, j :: 0 <= i < j < |fields| ==> fields[i] != fields[j]
  {
    (if f.commission != e.commission then [Commission] else [])
    + (if f.stampTax != e.stampTax then [StampTax] else [])
    + (if f.transferFee != e.transferFee then [TransferFee] else [])
    + (if f.net != e.net then [NetAmount] else [])
  }

  lemma NoWrongFieldsIff(f: AppliedFill, params: FrictionParams, e: FillEconomics)
    requires ComputeFillEconomics(f.isBuy, f.fillPrice, f.volume, f.board, f.transferApplies, params, false) == Ok(e)
    ensures Repriceable(f)
    ensures WrongFields(f, e) == [] <==> FeesHold(f, params)
  {
    var fields := WrongFields(f, e);
    if fields != [] { assert fields[0] in fields; }
  }

  /** The violation for one fill names its date, its code and exactly its wrong charges. */
  ghost predicate FillFindings(v: seq<Violation>, f: AppliedFill, params: FrictionParams) {
    var econ := ComputeFillEconomics(f.isBuy, f.fillPrice, f.volume, f.board, f.transferApplies, params, false);
    && econ.Ok?
    && v == if FeesHold(f, params) then [] else [FeeMismatch(f.date, f.code, WrongFields(f, econ.value))]
  }

  method CheckFill(f: AppliedFill, params: FrictionParams) returns (r: Outcome<seq<Violation>, FrictionError>)
    ensures r.Ok? <==> Repriceable(f)
    ensures r.Ok? ==> FillFindings(r.value, f, params)
  {
    var econ := ComputeFillEconomics(f.isBuy, f.fillPrice, f.volume, f.board, f.transferApplies, params, false);
    if econ.Err? { return Err(econ.error); }
    NoWrongFieldsIff(f, params, econ.value);
    var fields := WrongFields(f, econ.value);
    r := Ok(if fields == [] then [] else [FeeMismatch(f.date, f.code, fields)]);
  }

  ghost function Flatten(found: seq<seq<Violation>>): seq<Violation> {
    if found == [] then [] else Flatten(found[..|found| - 1]) + found[|found| - 1]
  }

  ghost predicate FindingsPerFill(found: seq<seq<Violation>>, fills: seq<AppliedFill>, params: FrictionParams) {
    |found| == |fills| && forall i :: 0 <= i < |fills| ==> FillFindings(found[i], fills[i], params)
  }

  /** The reported list is the fills' own findings in fill order. */
  ghost predicate ReportsFees(v: seq<Violation>, fills: seq<AppliedFill>, params: FrictionParams) {
    exists found :: FindingsPerFill(found, fills, params) && v == Flatten(found)
  }

  lemma OneMoreFill(found: seq<seq<Violation>>, fills: seq<AppliedFill>, i: nat, w: seq<Violation>,
                    params: FrictionParams)
    requires i < |fills| && FindingsPerFill(found, fills[..i], params) && FillFindings(w, fills[i], params)
    ensures FindingsPerFill(found + [w], fills[..i + 1], params)
    ensures Flatten(found + [w]) == Flatten(found) + w
  {
    assert (found + [w])[..|found|] == found;
  }

  lemma {:induction false} NoFindingsIff(found: seq<seq<Violation>>, fills: seq<AppliedFill>, params: FrictionParams)
    requires FindingsPerFill(found, fills, params)
    ensures Flatten(found) == [] <==> AllFeesHold(fills, params)
  {
    if fills != [] {
      var n := |fills| - 1;
      NoFindingsIff(found[..n], fills[..n], params);
      assert FillFindings(found[n], fills[n], params);
      OneMoreHolds(fills, params);
    }
  }

  lemma OneMoreHolds(fills: seq<AppliedFill>, params: FrictionParams)
    requires fills != []
    ensures AllFeesHold(fills, params)
            <==> AllFeesHold(fills[..|fills| - 1], params) && FeesHold(fills[|fills| - 1], params)
  {}

  lemma ReportIs(found: seq<seq<Violation>>, fills: seq<AppliedFill>, params: FrictionParams)
    requires FindingsPerFill(found, fills, params)
    ensures ReportsFees(Flatten(found), fills, params)
    ensures Flatten(found) == [] <==> AllFeesHold(fills, params)
    ensures forall i :: 0 <= i < |fills| ==> Repriceable(fills[i])
  {
    NoFindingsIff(found, fills, params);
    forall i | 0 <= i < |fills| ensures Repriceable(fills[i]) {
      assert FillFindings(found[i], fills[i], params);
    }
  }

  /** Raises on the first fill that cannot be re-priced; otherwise one violation per fill with a wrong field. */
  method CheckFees(fills: seq<AppliedFill>, params: FrictionParams) returns (r: Outcome<seq<Violation>, FrictionError>)
    ensures r.Ok? <==> forall i :: 0 <= i < |fills| ==> Repriceable(fills[i])
    ensures r.Ok? ==> (r.value == [] <==> AllFeesHold(fills, params))
    ensures r.Ok? ==> ReportsFees(r.value, fills, params)
  {
    var v := [];
    ghost var found: seq<seq<Violation>> := [];
    for i := 0 to |fills|
      invariant FindingsPerFill(found, fills[..i], params) && v == Flatten(found)
    {
      var w := CheckFill(fills[i], params);
      if w.Err? { return Err(w.error); }
      OneMoreFill(found, fills, i, w.value, params);
      v, found := v + w.value, found + [w.value];
    }
    assert fills[..|fills|] == fills;
    ReportIs(found, fills, params);
    r := Ok(v);
  }

  // ---------------------------------------------------------------- exposure caps

  ghost predicate CapsHold(o: Observation, singleCap: int, totalCap: int) {
    o.positionValue * 100 <= o.equity * singleCap && o.holdingsValue * 100 <= o.equity * totalCap
  }

  method CheckCaps(exposures: seq<Observation>, singleCap: int, totalCap: int) returns (v: seq<Violation>)
    ensures v == [] <==> forall i :: 0 <= i < |exposures| ==> CapsHold(exposures[i], singleCap, totalCap)
    ensures forall o :: SingleStockCap(o) in v <==> o in exposures && o.positionValue * 100 > o.equity * singleCap
    ensures forall o :: TotalPositionCap(o) in v <==> o in exposures && o.holdingsValue * 100 > o.equity * totalCap
  {
    v := [];
    for i := 0 to |exposures|
      invariant v == [] <==> forall k :: 0 <= k < i ==> CapsHold(exposures[k], singleCap, totalCap)
      invariant forall o :: SingleStockCap(o) in v <==>
                  o in exposures[..i] && o.positionValue * 100 > o.equity * singleCap
      invariant forall o :: TotalPositionCap(o) in v <==>
                  o in exposures[..i] && o.holdingsValue * 100 > o.equity * totalCap
    {
      var o := exposures[i];
      assert exposures[..i + 1] == exposures[..i] + [o];
      if o.positionValue * 100 > o.equity * singleCap { v := v + [SingleStockCap(o)]; }
      if o.holdingsValue * 100 > o.equity * totalCap { v := v + [TotalPositionCap(o)]; }
    }
    assert exposures[..|exposures|] == exposures;
  }

  // ---------------------------------------------------------------- the verdict

  datatype Audit = Audit(
    initialCash: int, fills: seq<AppliedFill>, finalCash: int, opening: seq<Position>, finalPositions: seq<Held>,
    params: FrictionParams, exposures: seq<Observation>, singleCap: int, totalCap: int)

  /** Everything the audit re-derives holds. */
  ghost predicate BooksHold(x: Audit) {
    && CashHolds(x.initialCash, x.fills, x.finalCash)
    && PositionsHold(x.opening, x.fills, x.finalPositions)
    && AllFeesHold(x.fills, x.params)
    && (forall i :: 0 <= i < |x.exposures| ==> CapsHold(x.exposures[i], x.singleCap, x.totalCap))
  }

  /** Every finding of every fill is in the report. */
  ghost predicate FeesReported(v: seq<Violation>, fills: seq<AppliedFill>, params: FrictionParams) {
    exists found :: FindingsPerFill(found, fills, params) && forall x :: x in Flatten(found) ==> x in v
  }

  /** Nothing that is wrong is left unreported. */
  ghost predicate Complete(x: Audit, v: seq<Violation>) {
    && (!CashHolds(x.initialCash, x.fills, x.finalCash) ==>
          CashBroken(x.initialCash + SellNets(x.fills) - BuyNets(x.fills), x.finalCash) in v)
    && (forall c :: NetShares(x.opening, x.fills, c) < 0 ==> OverSold(c, NetShares(x.opening, x.fills, c)) in v)
    && FeesReported(v, x.fills, x.params)
    && CapsReported(v, x.exposures, x.singleCap, x.totalCap)
  }

  ghost predicate CapsReported(v: seq<Violation>, exposures: seq<Observation>, singleCap: int, totalCap: int) {
    forall o :: o in exposures ==>
      && (o.positionValue * 100 > o.equity * singleCap ==> SingleStockCap(o) in v)
      && (o.holdingsValue * 100 > o.equity * totalCap ==> TotalPositionCap(o) in v)
  }

  /** `check_invariants`: raises exactly when some fill cannot be re-priced, CONSISTENT exactly when the books hold. */
  method CheckInvariants(x: Audit) returns (r: Outcome<Report, FrictionError>)
    ensures r.Ok? <==> forall i :: 0 <= i < |x.fills| ==> Repriceable(x.fills[i])
    ensures r.Ok? ==> (r.value.verdict.Consistent? <==> BooksHold(x))
    ensures r.Ok? ==> (r.value.verdict.Consistent? <==> r.value.violations == [])
    ensures r.Ok? ==> Complete(x, r.value.violations)
  {
    var cash := CheckCash(x.initialCash, x.fills, x.finalCash);
    var positions := CheckPositions(x.opening, x.fills, x.finalPositions);
    var fees := CheckFees(x.fills, x.params);
    if fees.Err? { return Err(fees.error); }
    var caps := CheckCaps(x.exposures, x.singleCap, x.totalCap);
    var violations := cash + positions + fees.value + caps;
    FeesInReport(fees.value, violations, x.fills, x.params);
    r := Ok(Report(if violations == [] then Consistent else Divergent, violations));
  }

  lemma FeesInReport(fees: seq<Violation>, all: seq<Violation>, fills: seq<AppliedFill>, params: FrictionParams)
    requires ReportsFees(fees, fills, params) && forall v :: v in fees ==> v in all
    ensures FeesReported(all, fills, params)
  {
    var found :| FindingsPerFill(found, fills, params) && fees == Flatten(found);
  }

  // ---------------------------------------------------------------- what tampering the audit sees

  /** A different final cash, or different final holdings, is always found. */
  lemma TamperedTotalsAreFound(x: Audit, cash: int, held: seq<Held>)
    requires BooksHold(x)
    ensures cash != x.finalCash ==> !BooksHold(x.(finalCash := cash))
    ensures HeldMap(held) != HeldMap(x.finalPositions) ==> !BooksHold(x.(finalPositions := held))
  {
    if BooksHold(x.(finalPositions := held)) {
      var m, n := HeldMap(held), HeldMap(x.finalPositions);
      forall c ensures c in m <==> c in n
               ensures c in m ==> m[c] == n[c]
      {
        assert NetShares(x.opening, x.fills, c) >= 0;
      }
      assert m == n;
    }
  }

  /** The same fill as far as pricing is concerned. */
  ghost predicate SameTrade(f: AppliedFill, g: AppliedFill) {
    && f.isBuy == g.isBuy && f.fillPrice == g.fillPrice && f.volume == g.volume
    && f.board == g.board && f.transferApplies == g.transferApplies
  }

  ghost predicate SameCharges(f: AppliedFill, g: AppliedFill) {
    f.commission == g.commission && f.stampTax == g.stampTax && f.transferFee == g.transferFee && f.net == g.net
  }

  /** Changing any recorded fee or net amount of one fill is always found. */
  lemma TamperedFeeIsFound(x: Audit, i: nat, g: AppliedFill)
    requires i < |x.fills| && BooksHold(x) && SameTrade(x.fills[i], g) && !SameCharges(x.fills[i], g)
    ensures !BooksHold(x.(fills := x.fills[i := g]))
  {
    var y := x.(fills := x.fills[i := g]);
    assert FeesHold(x.fills[i], x.params);
    assert y.fills[i] == g && !FeesHold(g, x.params);
  }

  lemma {:induction false} SameTotals(fs: seq<AppliedFill>, i: nat, g: AppliedFill)
    requires i < |fs| && fs[i].isBuy == g.isBuy && fs[i].volume == g.volume && fs[i].code == g.code && fs[i].net == g.net
    ensures SellNets(fs[i := g]) == SellNets(fs) && BuyNets(fs[i := g]) == BuyNets(fs)
    ensures forall c :: Traded(fs[i := g], c) == Traded(fs, c)
  {
    var n := |fs| - 1;
    if i == n {
      assert fs[i := g][..n] == fs[..n];
    } else {
      SameTotals(fs[..n], i, g);
      assert fs[i := g][..n] == fs[..n][i := g];
    }
  }

  /**
   * The audit's blind spot: a fill that keeps its trade, code and charges may carry any recorded
   * gross, slippage and date without changing the verdict.
   */
  lemma GrossAndSlippageAreNotAudited(x: Audit, i: nat, gross: int, slippage: int, date: string)
    requires i < |x.fills|
    ensures BooksHold(x.(fills := x.fills[i := x.fills[i].(gross := gross, slippage := slippage, date := date)]))
            <==> BooksHold(x)
  {
    var g := x.fills[i].(gross := gross, slippage := slippage, date := date);
    SameTotals(x.fills, i, g);
    SamePositions(x.opening, x.fills, x.fills[i := g], x.finalPositions);
    SameFees(x.fills, i, g, x.params);
  }

  lemma SamePositions(opening: seq<Position>, fs: seq<AppliedFill>, gs: seq<AppliedFill>, final: seq<Held>)
    requires forall c :: Traded(gs, c) == Traded(fs, c)
    ensures PositionsHold(opening, gs, final) <==> PositionsHold(opening, fs, final)
  {
    assert forall c :: NetShares(opening, gs, c) == NetShares(opening, fs, c);
  }

  ghost predicate AllFeesHold(fs: seq<AppliedFill>, params: FrictionParams) {
    forall i :: 0 <= i < |fs| ==> FeesHold(fs[i], params)
  }

  lemma SameFees(fs: seq<AppliedFill>, i: nat, g: AppliedFill, params: FrictionParams)
    requires i < |fs| && (FeesHold(g, params) <==> FeesHold(fs[i], params))
    ensures AllFeesHold(fs[i := g], params) <==> AllFeesHold(fs, params)
  {
    var gs := fs[i := g];
    assert AllFeesHold(fs, params) ==> FeesHold(fs[i], params);
    assert AllFeesHold(gs, params) ==> FeesHold(gs[i], params);
    forall k | 0 <= k < |fs| && k != i ensures fs[k] == gs[k] {}
  }
}
