/**
 * The accounting of a whole backtest run (backend/backtest/harness.py) for arbitrary orders, bars and
 * harsh-fill outcomes: fill the pending orders at the open, mark the book, carry the closes forward.
 */
module Harness {
  import opened Outcome
  import opened Lexicographic
  import opened Friction
  import opened Ledger
  import opened Checkpoint
  import opened Comparator
  import opened GoldenReplay
  import opened Portfolio
  import opened Auditor
  import opened AuditRefinement

  datatype Bar = Bar(open: int, close: int, board: string, transferApplies: bool)

  /** A pending order and what the harsh matching decided for it (shares and price in cents), if anything. */
  datatype Order = Order(code: string, isBuy: bool, harsh: Option<(int, int)>)

  datatype TradingDay = TradingDay(date: string, orders: seq<Order>, bars: map<string, Bar>)

  datatype Spec = Spec(cash: int, frozen: int, opening: seq<Position>)

  datatype RunError =
    | OpeningRefused(opening: PortfolioError)
    | FrictionRaised(friction: FrictionError)
    | MarkRaised(mark: ConservationError)

  /** The book together with the fills applied so far today. */
  datatype Filling = Filling(account: Account, fills: seq<AppliedFill>)

  function ToApplied(date: string, o: Order, bar: Bar, volume: int, price: int, e: FillEconomics): AppliedFill {
    AppliedFill(date, o.code, o.isBuy, volume, price, e.gross, e.commission, e.stampTax, e.transferFee,
                Abs(price - bar.open) * volume, e.net, bar.board, bar.transferApplies)
  }

  /** One pending order: it lapses when untradable, unfilled, unaffordable or over-selling. */
  function FillOrder(s: Filling, date: string, bars: map<string, Bar>, o: Order, params: FrictionParams)
    : Outcome<Filling, FrictionError>
  {
    if o.code !in bars || o.harsh.None? || o.harsh.value.0 <= 0 then Ok(s)
    else
      var bar, volume, price := bars[o.code], o.harsh.value.0, o.harsh.value.1;
      var econ := ComputeFillEconomics(o.isBuy, price, volume, bar.board, bar.transferApplies, params, false);
      if econ.Err? then Err(econ.error)
      else if o.isBuy && econ.value.net > s.account.cash then Ok(s)
      else
        var f := ToApplied(date, o, bar, volume, price, econ.value);
        var after := ApplyToBook(s.account, f);
        if after.Err? then Ok(s) else Ok(Filling(after.value, s.fills + [f]))
  }

  function FillOrders(a: Account, date: string, bars: map<string, Bar>, orders: seq<Order>, params: FrictionParams)
    : Outcome<Filling, FrictionError>
  {
    if orders == [] then Ok(Filling(a, []))
    else
      var before := FillOrders(a, date, bars, orders[..|orders| - 1], params);
      if before.Err? then before else FillOrder(before.value, date, bars, orders[|orders| - 1], params)
  }

  /** Today's close for a held code with a bar, else its last known close, else no mark. */
  function ClosingMarks(lots: Holdings, bars: map<string, Bar>, lastClose: map<string, int>): map<string, int> {
    map c | c in lots && lots[c].volume > 0 && (c in bars || c in lastClose) ::
      if c in bars then bars[c].close else lastClose[c]
  }

  function Closes(bars: map<string, Bar>): map<string, int> { map c | c in bars :: bars[c].close }

  /** `log` is the run as the golden replay would record it: date, fills and closing marks per day. */
  datatype State = State(account: Account, lastClose: map<string, int>, fills: seq<AppliedFill>,
                         snapshots: seq<EquityPoint>, log: seq<ReplayDay>)

  function OpeningCloses(opening: seq<Position>): map<string, int> {
    if opening == [] then map[]
    else OpeningCloses(opening[..|opening| - 1])[opening[|opening| - 1].code := opening[|opening| - 1].cost]
  }

  function Start(spec: Spec): State {
    State(Open(spec.cash, spec.opening), OpeningCloses(spec.opening), [], [], [])
  }

  /** Today's fills as the replay records them; every fill the harness applies is settled (see Faithful). */
  function LogFills(fills: seq<AppliedFill>): seq<ReplayFill> {
    if forall i :: 0 <= i < |fills| ==> Settled(fills[i]) then RecordedFills(fills) else []
  }

  function Advance(s: State, day: TradingDay, filled: Filling, marks: map<string, int>, row: EquityPoint): State {
    State(filled.account, s.lastClose + Closes(day.bars), s.fills + filled.fills, s.snapshots + [row],
          s.log + [ReplayDay(day.date, LogFills(filled.fills), marks)])
  }

  function RunDay(s: State, frozen: int, day: TradingDay, params: FrictionParams): Outcome<State, RunError> {
    var filled := FillOrders(s.account, day.date, day.bars, day.orders, params);
    if filled.Err? then Err(FrictionRaised(filled.error))
    else
      var a := filled.value.account;
      var marks := ClosingMarks(a.lots, day.bars, s.lastClose);
      var row := CloseDay(a, frozen, day.date, marks);
      if row.Err? then Err(MarkRaised(row.error)) else Ok(Advance(s, day, filled.value, marks, row.value))
  }

  function RunDays(spec: Spec, days: seq<TradingDay>, params: FrictionParams): Outcome<State, RunError> {
    if days == [] then Ok(Start(spec))
    else
      var before := RunDays(spec, days[..|days| - 1], params);
      if before.Err? then before else RunDay(before.value, spec.frozen, days[|days| - 1], params)
  }

  // ---------------------------------------------------------------- the run in place

  method FillPending(p: BacktestPortfolio, date: string, bars: map<string, Bar>, orders: seq<Order>,
                     params: FrictionParams) returns (r: Outcome<seq<AppliedFill>, FrictionError>)
    modifies p
    ensures p.frozen == old(p.frozen)
    ensures
      var spec := FillOrders(old(p.View()), date, bars, orders, params);
      if spec.Ok? then r == Ok(spec.value.fills) && p.View() == spec.value.account else r == Err(spec.error)
  {
    var fills: seq<AppliedFill> := [];
    ghost var start := p.View();
    for i := 0 to |orders|
      invariant p.frozen == old(p.frozen)
      invariant FillOrders(start, date, bars, orders[..i], params) == Ok(Filling(p.View(), fills))
    {
      var o := orders[i];
      assert orders[..i + 1][..i] == orders[..i];
      if o.code !in bars || o.harsh.None? || o.harsh.value.0 <= 0 {
        continue;
      }
      var bar, volume, price := bars[o.code], o.harsh.value.0, o.harsh.value.1;
      var econ := ComputeFillEconomics(o.isBuy, price, volume, bar.board, bar.transferApplies, params, false);
      if econ.Err? {
        FirstRaiseWins(start, date, bars, orders, params, i + 1);
        return Err(econ.error);
      }
      if o.isBuy && econ.value.net > p.cash {
        continue;
      }
      var f := ToApplied(date, o, bar, volume, price, econ.value);
      var applied := p.Apply(f);
      if applied.Ok? {
        fills := fills + [f];
      }
    }
    assert orders[..|orders|] == orders;
    r := Ok(fills);
  }

  lemma {:induction false} FirstRaiseWins(a: Account, date: string, bars: map<string, Bar>, orders: seq<Order>,
                                          params: FrictionParams, k: nat)
    requires k <= |orders| && FillOrders(a, date, bars, orders[..k], params).Err?
    ensures FillOrders(a, date, bars, orders, params) == FillOrders(a, date, bars, orders[..k], params)
  {
    if k == |orders| {
      assert orders[..k] == orders;
    } else {
      var n := |orders| - 1;
      assert orders[..n][..k] == orders[..k];
      FirstRaiseWins(a, date, bars, orders[..n], params, k);
    }
  }

  lemma {:induction false} FirstBadDayEnds(spec: Spec, days: seq<TradingDay>, params: FrictionParams, k: nat)
    requires k <= |days| && RunDays(spec, days[..k], params).Err?
    ensures RunDays(spec, days, params) == RunDays(spec, days[..k], params)
    decreases |days| - k
  {
    if k == |days| {
      assert days[..k] == days;
    } else {
      ErrorStays(spec, days, params, k);
      FirstBadDayEnds(spec, days, params, k + 1);
    }
  }

  lemma ErrorStays(spec: Spec, days: seq<TradingDay>, params: FrictionParams, k: nat)
    requires k < |days| && RunDays(spec, days[..k], params).Err?
    ensures RunDays(spec, days[..k + 1], params) == RunDays(spec, days[..k], params)
  {
    assert days[..k + 1][..k] == days[..k];
  }

  method SeedCloses(opening: seq<Position>) returns (lastClose: map<string, int>)
    ensures lastClose == OpeningCloses(opening)
  {
    lastClose := map[];
    for i := 0 to |opening|
      invariant lastClose == OpeningCloses(opening[..i])
    {
      assert opening[..i + 1][..i] == opening[..i];
      lastClose := lastClose[opening[i].code := opening[i].cost];
    }
    assert opening[..|opening|] == opening;
  }

  /** The accounting part of `run_backtest`, day by day on one mutable portfolio. */
  method RunBacktest(spec: Spec, days: seq<TradingDay>, params: FrictionParams) returns (r: Outcome<State, RunError>)
    ensures ValidOpening(spec.cash, spec.frozen, spec.opening) ==> r == RunDays(spec, days, params)
    ensures !ValidOpening(spec.cash, spec.frozen, spec.opening) ==> r.Err? && r.error.OpeningRefused?
  {
    var p := new BacktestPortfolio();
    var seeded := p.Seed(spec.cash, spec.frozen, spec.opening);
    if seeded.Err? { return Err(OpeningRefused(seeded.error)); }
    var lastClose := SeedCloses(spec.opening);
    var fills, snapshots, log := [], [], [];
    for i := 0 to |days|
      invariant fresh(p) && p.frozen == spec.frozen
      invariant RunDays(spec, days[..i], params) == Ok(State(p.View(), lastClose, fills, snapshots, log))
    {
      var day := days[i];
      assert days[..i + 1][..i] == days[..i];
      var filled := FillPending(p, day.date, day.bars, day.orders, params);
      if filled.Err? {
        FirstBadDayEnds(spec, days, params, i + 1);
        return Err(FrictionRaised(filled.error));
      }
      var marks := ClosingMarks(p.lots, day.bars, lastClose);
      var row := p.Mark(day.date, marks);
      if row.Err? {
        FirstBadDayEnds(spec, days, params, i + 1);
        return Err(MarkRaised(row.error));
      }
      fills, snapshots := fills + filled.value, snapshots + [row.value];
      log := log + [ReplayDay(day.date, LogFills(filled.value), marks)];
      lastClose := lastClose + Closes(day.bars);
    }
    assert days[..|days|] == days;
    r := Ok(State(Account(p.cash, p.lots), lastClose, fills, snapshots, log));
  }

  // ---------------------------------------------------------------- what every step keeps

  /** A book the harness can be in: solvent, every lot positive, every held code markable. */
  ghost predicate Sound(a: Account, known: set<string>) {
    a.cash >= 0 && forall c :: c in a.lots ==> a.lots[c].volume > 0 && c in known
  }

  /** A fill the harness recorded: its amounts hang together and its fees recompute. */
  ghost predicate Priced(f: AppliedFill, params: FrictionParams) {
    Settled(f) && FeesHold(f, params)
  }

  lemma OrderIsPriced(date: string, o: Order, bar: Bar, volume: int, price: int, params: FrictionParams,
                      e: FillEconomics)
    requires ComputeFillEconomics(o.isBuy, price, volume, bar.board, bar.transferApplies, params, false) == Ok(e)
    ensures Priced(ToApplied(date, o, bar, volume, price, e), params)
    ensures var f := ToApplied(date, o, bar, volume, price, e);
            && (price >= bar.open ==> f.gross - f.slippage == bar.open * volume)
            && (price <= bar.open ==> f.gross + f.slippage == bar.open * volume)
  {
    SlippageAgainstOpen(price, bar.open, volume);
    PricedFillPasses(ToApplied(date, o, bar, volume, price, e), price, false, params, e);
  }

  lemma SlippageAgainstOpen(price: int, open: int, volume: int)
    ensures price >= open ==> price * volume - (price - open) * volume == open * volume
    ensures price <= open ==> price * volume + (open - price) * volume == open * volume
  {}

  lemma ApplyKeepsSound(a: Account, f: AppliedFill, known: set<string>)
    requires Sound(a, known) && Settled(f) && f.code in known && ApplyToBook(a, f).Ok?
    requires f.isBuy ==> f.net <= a.cash
    ensures Sound(ApplyToBook(a, f).value, known)
  {}

  /** Today's fills, replayed as recorded, keep the replay's book indistinguishable from the portfolio's. */
  ghost predicate Tracks(b: Account, filled: Filling) {
    && AllSettled(filled.fills)
    && ApplyFills(b, RecordedFills(filled.fills)).Ok?
    && SameBook(filled.account, ApplyFills(b, RecordedFills(filled.fills)).value)
  }

  lemma FillOrderKeeps(s: Filling, date: string, bars: map<string, Bar>, o: Order, params: FrictionParams,
                       known: set<string>, b: Account)
    requires FillOrder(s, date, bars, o, params).Ok?
    requires Sound(s.account, known) && bars.Keys <= known && Tracks(b, s)
    requires AllPriced(s.fills, params)
    ensures var t := FillOrder(s, date, bars, o, params).value;
            && Sound(t.account, known) && Tracks(b, t)
            && AllPriced(t.fills, params)
  {
    var t := FillOrder(s, date, bars, o, params).value;
    if t != s {
      var bar, volume, price := bars[o.code], o.harsh.value.0, o.harsh.value.1;
      var e := ComputeFillEconomics(o.isBuy, price, volume, bar.board, bar.transferApplies, params, false).value;
      var f := ToApplied(date, o, bar, volume, price, e);
      OrderIsPriced(date, o, bar, volume, price, params, e);
      ApplyKeepsSound(s.account, f, known);
      TracksOne(s, f, b);
    }
  }

  lemma TracksOne(s: Filling, f: AppliedFill, b: Account)
    requires Tracks(b, s) && Settled(f) && ApplyToBook(s.account, f).Ok?
    ensures Tracks(b, Filling(ApplyToBook(s.account, f).value, s.fills + [f]))
  {
    var fills := s.fills + [f];
    assert fills[..|s.fills|] == s.fills;
    assert RecordedFills(fills)[..|s.fills|] == RecordedFills(s.fills);
    TwinStep(s.account, ApplyFills(b, RecordedFills(s.fills)).value, f);
  }

  lemma {:induction false} FillOrdersKeep(a: Account, date: string, bars: map<string, Bar>, orders: seq<Order>,
                                          params: FrictionParams, known: set<string>, b: Account)
    requires FillOrders(a, date, bars, orders, params).Ok?
    requires Sound(a, known) && bars.Keys <= known && SameBook(a, b)
    ensures var t := FillOrders(a, date, bars, orders, params).value;
            && Sound(t.account, known) && Tracks(b, t)
            && AllPriced(t.fills, params)
  {
    if orders != [] {
      var n := |orders| - 1;
      FillOrdersKeep(a, date, bars, orders[..n], params, known, b);
      FillOrderKeeps(FillOrders(a, date, bars, orders[..n], params).value, date, bars, orders[n], params, known, b);
    }
  }

  /** Every held code gets a mark, so marking never fails. */
  lemma {:induction false} MarkCodesSucceeds(codes: seq<string>, lots: Holdings, date: string, marks: map<string, int>)
    requires forall c :: c in codes ==> c in lots
    requires forall c :: c in lots && lots[c].volume > 0 ==> c in marks
    ensures MarkCodes(codes, lots, date, marks).Ok?
  {
    if codes != [] {
      MarkCodesSucceeds(codes[..|codes| - 1], lots, date, marks);
    }
  }

  lemma MarksCover(a: Account, frozen: int, date: string, bars: map<string, Bar>, lastClose: map<string, int>)
    requires Sound(a, bars.Keys + lastClose.Keys)
    ensures CloseDay(a, frozen, date, ClosingMarks(a.lots, bars, lastClose)).Ok?
  {
    var marks := ClosingMarks(a.lots, bars, lastClose);
    forall c | c in a.lots && a.lots[c].volume > 0 ensures c in marks {}
    MarkCodesSucceeds(SortedElements(a.lots.Keys), a.lots, date, marks);
  }

  // ---------------------------------------------------------------- what every run keeps

  /** The state of a run against its specification: solvent and markable, priced fills, and a faithful log. */
  ghost predicate Faithful(spec: Spec, s: State, params: FrictionParams) {
    && Sound(s.account, s.lastClose.Keys)
    && AllPriced(s.fills, params)
    && SolventRows(s.snapshots)
    && LogIsFills(s)
    && Logged(Open(spec.cash, spec.opening), spec.frozen, s)
  }

  ghost predicate AllPriced(fills: seq<AppliedFill>, params: FrictionParams) {
    forall i :: 0 <= i < |fills| ==> Priced(fills[i], params)
  }

  ghost predicate LogIsFills(s: State) {
    AllSettled(s.fills) && AllFills(s.log) == RecordedFills(s.fills)
  }

  /** Replaying the log from the opening gives the run's snapshots and an indistinguishable book. */
  ghost predicate Logged(a: Account, frozen: int, s: State) {
    var r := Run(a, frozen, s.log);
    r.Ok? && r.value.curve == s.snapshots && SameBook(s.account, r.value.account)
  }

  lemma {:induction false} OpeningIsSound(opening: seq<Position>)
    requires forall i :: 0 <= i < |opening| ==> opening[i].volume > 0
    ensures forall c :: c in OpeningLots(opening) ==> OpeningLots(opening)[c].volume > 0 && c in OpeningCloses(opening)
  {
    if opening != [] {
      OpeningIsSound(opening[..|opening| - 1]);
    }
  }

  lemma RecordedConcat(xs: seq<AppliedFill>, ys: seq<AppliedFill>)
    requires AllSettled(xs) && AllSettled(ys)
    ensures AllSettled(xs + ys) && RecordedFills(xs + ys) == RecordedFills(xs) + RecordedFills(ys)
  {}

  /** One day: it never fails for want of a mark, and keeps the run faithful. */
  lemma RunDayKeeps(spec: Spec, s: State, day: TradingDay, params: FrictionParams)
    requires Faithful(spec, s, params)
    ensures var r := RunDay(s, spec.frozen, day, params);
            if r.Ok? then Faithful(spec, r.value, params) else r.error.FrictionRaised?
  {
    var filled := FillOrders(s.account, day.date, day.bars, day.orders, params);
    if filled.Ok? {
      var replayed := Run(Open(spec.cash, spec.opening), spec.frozen, s.log).value;
      var known := day.bars.Keys + s.lastClose.Keys;
      FillOrdersKeep(s.account, day.date, day.bars, day.orders, params, known, replayed.account);
      var a := filled.value.account;
      MarksCover(a, spec.frozen, day.date, day.bars, s.lastClose);
      var marks := ClosingMarks(a.lots, day.bars, s.lastClose);
      var row := CloseDay(a, spec.frozen, day.date, marks).value;
      AdvanceKeeps(spec, s, day, filled.value, marks, row, params);
    }
  }

  lemma AdvanceKeeps(spec: Spec, s: State, day: TradingDay, filled: Filling, marks: map<string, int>,
                     row: EquityPoint, params: FrictionParams)
    requires Faithful(spec, s, params) && AllPriced(filled.fills, params)
    requires Sound(filled.account, day.bars.Keys + s.lastClose.Keys)
    requires Tracks(Run(Open(spec.cash, spec.opening), spec.frozen, s.log).value.account, filled)
    requires CloseDay(filled.account, spec.frozen, day.date, marks) == Ok(row)
    ensures Faithful(spec, Advance(s, day, filled, marks, row), params)
  {
    var t := Advance(s, day, filled, marks, row);
    assert t.lastClose.Keys == day.bars.Keys + s.lastClose.Keys;
    PricedConcat(s.fills, filled.fills, params);
    SnapshotsStaySolvent(s.snapshots, filled.account, spec.frozen, day.date, marks, row);
    LogOneDay(spec, s, filled.account, filled.fills, day.date, marks);
    LogGrows(s, t, filled.fills);
  }

  lemma PricedConcat(xs: seq<AppliedFill>, ys: seq<AppliedFill>, params: FrictionParams)
    requires AllPriced(xs, params) && AllPriced(ys, params)
    ensures AllPriced(xs + ys, params)
  {}

  ghost predicate SolventRows(rows: seq<EquityPoint>) {
    forall i :: 0 <= i < |rows| ==> rows[i].cash >= 0
  }

  lemma SnapshotsStaySolvent(rows: seq<EquityPoint>, a: Account, frozen: int, date: string, marks: map<string, int>,
                             row: EquityPoint)
    requires SolventRows(rows) && a.cash >= 0 && CloseDay(a, frozen, date, marks) == Ok(row)
    ensures SolventRows(rows + [row])
  {}

  lemma LogGrows(s: State, t: State, fills: seq<AppliedFill>)
    requires LogIsFills(s) && AllSettled(fills) && t.fills == s.fills + fills
    requires |t.log| == |s.log| + 1 && t.log[..|s.log|] == s.log && t.log[|s.log|].fills == RecordedFills(fills)
    ensures LogIsFills(t)
  {
    RecordedConcat(s.fills, fills);
  }

  lemma LogOneDay(spec: Spec, s: State, a: Account, fills: seq<AppliedFill>, date: string, marks: map<string, int>)
    requires Logged(Open(spec.cash, spec.opening), spec.frozen, s)
    requires Tracks(Run(Open(spec.cash, spec.opening), spec.frozen, s.log).value.account, Filling(a, fills))
    requires CloseDay(a, spec.frozen, date, marks).Ok?
    ensures
      var r := Run(Open(spec.cash, spec.opening), spec.frozen, s.log + [ReplayDay(date, RecordedFills(fills), marks)]);
      && r.Ok? && SameBook(a, r.value.account)
      && r.value.curve == s.snapshots + [CloseDay(a, spec.frozen, date, marks).value]
  {
    var day := ReplayDay(date, RecordedFills(fills), marks);
    var log := s.log + [day];
    assert log[..|log| - 1] == s.log && log[|log| - 1] == day;
    var before := Run(Open(spec.cash, spec.opening), spec.frozen, s.log).value;
    CloseDaySameBook(a, ApplyFills(before.account, day.fills).value, spec.frozen, date, marks);
  }

  lemma {:induction false} RunIsFaithful(spec: Spec, days: seq<TradingDay>, params: FrictionParams)
    requires ValidOpening(spec.cash, spec.frozen, spec.opening)
    ensures var r := RunDays(spec, days, params);
            if r.Ok? then Faithful(spec, r.value, params) else r.error.FrictionRaised?
  {
    if days == [] {
      OpeningIsSound(spec.opening);
    } else {
      var n := |days| - 1;
      RunIsFaithful(spec, days[..n], params);
      var before := RunDays(spec, days[..n], params);
      if before.Ok? { RunDayKeeps(spec, before.value, days[n], params); }
    }
  }

  /**
   * Every run of the harness, whatever the orders, bars and matching outcomes: it fails only if pricing
   * raises; otherwise cash never goes negative, the golden replay of its own fills and marks reproduces its
   * equity curve exactly, and the auditor finds no cash, position or fee violation.
   */
  lemma EveryRunIsSound(spec: Spec, days: seq<TradingDay>, params: FrictionParams)
    requires ValidOpening(spec.cash, spec.frozen, spec.opening)
    ensures RunDays(spec, days, params).Err? ==> RunDays(spec, days, params).error.FrictionRaised?
    ensures RunDays(spec, days, params).Ok? ==>
              var s := RunDays(spec, days, params).value;
              && s.account.cash >= 0 && SolventRows(s.snapshots)
              && Replay(Open(spec.cash, spec.opening), spec.frozen, s.log) == Ok(s.snapshots)
              && CashHolds(spec.cash, s.fills, s.account.cash)
              && PositionsHold(spec.opening, s.fills, FinalHoldings(s.account.lots))
              && AllFeesHold(s.fills, params)
  {
    RunIsFaithful(spec, days, params);
    if RunDays(spec, days, params).Ok? {
      var s := RunDays(spec, days, params).value;
      var a := Open(spec.cash, spec.opening);
      RunAccount(a, spec.frozen, s.log);
      ReplayMeetsClosedForm(spec.cash, spec.opening, s.fills);
      FinalHoldingsPass(spec.opening, s.fills, s.account, Run(a, spec.frozen, s.log).value.account);
    }
  }

  // ---------------------------------------------------------------- what a halted holding is worth

  /** A code's latest close over the days, or its opening cost while it has had no bar. */
  ghost function LatestClose(opening: seq<Position>, days: seq<TradingDay>, code: string): Option<int> {
    if days == [] then
      if code in OpeningCloses(opening) then Some(OpeningCloses(opening)[code]) else None
    else if code in days[|days| - 1].bars then Some(days[|days| - 1].bars[code].close)
    else LatestClose(opening, days[..|days| - 1], code)
  }

  ghost predicate IsLatest(m: map<string, int>, opening: seq<Position>, days: seq<TradingDay>, code: string) {
    LatestClose(opening, days, code) == if code in m then Some(m[code]) else None
  }

  lemma {:induction false} LastCloseIsLatest(spec: Spec, days: seq<TradingDay>, params: FrictionParams, code: string)
    requires RunDays(spec, days, params).Ok?
    ensures IsLatest(RunDays(spec, days, params).value.lastClose, spec.opening, days, code)
  {
    if days != [] {
      var n := |days| - 1;
      LastCloseIsLatest(spec, days[..n], params, code);
      var before, after := RunDays(spec, days[..n], params).value, RunDays(spec, days, params).value;
      assert after.lastClose == before.lastClose + Closes(days[n].bars);
    }
  }

  /**
   * On the last day of every run each held code is marked at its latest close: today's when it traded, else
   * the last one known, down to its opening cost. It is never dropped and never marked at zero by default.
   */
  lemma HaltedCodesCarryForward(spec: Spec, days: seq<TradingDay>, params: FrictionParams, code: string)
    requires days != [] && RunDays(spec, days, params).Ok?
    requires ValidOpening(spec.cash, spec.frozen, spec.opening)
    requires code in RunDays(spec, days, params).value.account.lots
    ensures |RunDays(spec, days, params).value.log| > 0
    ensures var log := RunDays(spec, days, params).value.log;
            var marks := log[|log| - 1].marks;
            code in marks && LatestClose(spec.opening, days, code) == Some(marks[code])
  {
    var n := |days| - 1;
    RunIsFaithful(spec, days, params);
    var before := RunDays(spec, days[..n], params).value;
    LastCloseIsLatest(spec, days[..n], params, code);
    LastCloseIsLatest(spec, days, params, code);
    var after := RunDays(spec, days, params).value;
    assert after.log[|after.log| - 1].marks == ClosingMarks(after.account.lots, days[n].bars, before.lastClose);
    assert after.lastClose == before.lastClose + Closes(days[n].bars);
  }
}
