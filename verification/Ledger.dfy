/**
 * The integer-cent accounting of backend/backtest/golden_replay.py as functions: what one fill, one
 * day's fills, one mark-to-market and one whole replay compute, including every error path.
 */
module Ledger {
  import opened Outcome
  import opened Lexicographic

  datatype Side = Buy | Sell

  datatype RawFill = RawFill(code: string, side: Side, volume: int, price: int, cost: int) {
    predicate Valid() { volume > 0 && price > 0 && cost >= 0 }

    function Gross(): int { volume * price }

    /** Signed share count: positive for a BUY. */
    function Step(): int { if side.Buy? then volume else -volume }

    /** Signed cash effect. */
    function CashEffect(): int { if side.Buy? then -(Gross() + cost) else Gross() - cost }
  }

  type ReplayFill = f: RawFill | f.Valid() witness RawFill("", Buy, 1, 1, 0)

  datatype FillError = BadSide(side: string) | BadVolume(v: int) | BadPrice(p: int) | BadCost(c: int)

  /** The fill constructor: an unknown side, a non-positive volume or price, or a negative cost is refused. */
  function MakeFill(code: string, side: string, volume: int, price: int, cost: int)
    : (r: Outcome<ReplayFill, FillError>)
    ensures r.Ok? <==> side in {"BUY", "SELL"} && volume > 0 && price > 0 && cost >= 0
    ensures r.Ok? ==> r.value == RawFill(code, if side == "BUY" then Buy else Sell, volume, price, cost)
  {
    if side != "BUY" && side != "SELL" then Err(BadSide(side))
    else if volume <= 0 then Err(FillError.BadVolume(volume))
    else if price <= 0 then Err(FillError.BadPrice(price))
    else if cost < 0 then Err(BadCost(cost))
    else Ok(RawFill(code, if side == "BUY" then Buy else Sell, volume, price, cost))
  }

  datatype Lot = Lot(volume: int, cost: int)
  type Holdings = map<string, Lot>
  datatype Account = Account(cash: int, lots: Holdings)

  datatype Position = Position(code: string, volume: int, cost: int)
  datatype ReplayDay = ReplayDay(date: string, fills: seq<ReplayFill>, marks: map<string, int>)
  datatype EquityPoint = EquityPoint(date: string, cash: int, marketValue: int, totalEquity: int,
                                     positions: seq<Position>)
  datatype ConservationError = Oversell(code: string, wanted: int, held: int) | MissingMark(date: string, code: string)

  /** Python's floor division; Dafny's `/` floors only for a positive divisor. */
  function FloorDiv(a: int, b: int): int
    requires b != 0
  {
    if b > 0 then a / b else (-a) / (-b)
  }

  function LotOf(lots: Holdings, code: string): Lot {
    if code in lots then lots[code] else Lot(0, 0)
  }

  function Volume(lots: Holdings, code: string): int { LotOf(lots, code).volume }

  /** Weighted-average basis after a BUY that costs `paid` in total. */
  function Bought(lot: Lot, volume: int, paid: int): Lot {
    var v := lot.volume + volume;
    Lot(v, if v != 0 then FloorDiv(lot.volume * lot.cost + paid, v) else 0)
  }

  function ApplyFill(a: Account, f: ReplayFill): Outcome<Account, ConservationError> {
    if f.side.Buy? then
      Ok(Account(a.cash - (f.Gross() + f.cost),
                 a.lots[f.code := Bought(LotOf(a.lots, f.code), f.volume, f.Gross() + f.cost)]))
    else if f.code !in a.lots || a.lots[f.code].volume < f.volume then
      Err(Oversell(f.code, f.volume, Volume(a.lots, f.code)))
    else
      var lot := a.lots[f.code];
      Ok(Account(a.cash + (f.Gross() - f.cost), a.lots[f.code := lot.(volume := lot.volume - f.volume)]))
  }

  function ApplyFills(a: Account, fills: seq<ReplayFill>): Outcome<Account, ConservationError> {
    if fills == [] then Ok(a)
    else
      var before := ApplyFills(a, fills[..|fills| - 1]);
      if before.Err? then before else ApplyFill(before.value, fills[|fills| - 1])
  }

  datatype Valuation = Valuation(marketValue: int, positions: seq<Position>)

  /** Mark one more code: a flat lot is skipped, a held code without a mark is an error. */
  function MarkOne(before: Outcome<Valuation, ConservationError>, code: string, lot: Lot, date: string,
                   marks: map<string, int>): Outcome<Valuation, ConservationError>
  {
    if before.Err? || lot.volume <= 0 then before
    else if code !in marks then Err(MissingMark(date, code))
    else Ok(Valuation(before.value.marketValue + lot.volume * marks[code],
                      before.value.positions + [Position(code, lot.volume, lot.cost)]))
  }

  function MarkCodes(codes: seq<string>, lots: Holdings, date: string, marks: map<string, int>)
    : Outcome<Valuation, ConservationError>
    requires forall c :: c in codes ==> c in lots
  {
    if codes == [] then Ok(Valuation(0, []))
    else
      var code := codes[|codes| - 1];
      MarkOne(MarkCodes(codes[..|codes| - 1], lots, date, marks), code, lots[code], date, marks)
  }

  function Mark(lots: Holdings, date: string, marks: map<string, int>): Outcome<Valuation, ConservationError> {
    MarkCodes(SortedElements(lots.Keys), lots, date, marks)
  }

  function Row(cash: int, frozen: int, date: string, v: Valuation): EquityPoint {
    EquityPoint(date, cash, v.marketValue, cash + frozen + v.marketValue, v.positions)
  }

  function CloseDay(a: Account, frozen: int, date: string, marks: map<string, int>)
    : Outcome<EquityPoint, ConservationError>
  {
    var v := Mark(a.lots, date, marks);
    if v.Err? then Err(v.error) else Ok(Row(a.cash, frozen, date, v.value))
  }

  datatype Progress = Progress(account: Account, curve: seq<EquityPoint>)

  /** All fills of one day, then its closing row. */
  function StepDay(p: Progress, frozen: int, day: ReplayDay): Outcome<Progress, ConservationError> {
    var after := ApplyFills(p.account, day.fills);
    if after.Err? then Err(after.error)
    else
      var row := CloseDay(after.value, frozen, day.date, day.marks);
      if row.Err? then Err(row.error) else Ok(Progress(after.value, p.curve + [row.value]))
  }

  function Run(a: Account, frozen: int, days: seq<ReplayDay>): Outcome<Progress, ConservationError> {
    if days == [] then Ok(Progress(a, []))
    else
      var before := Run(a, frozen, days[..|days| - 1]);
      if before.Err? then before else StepDay(before.value, frozen, days[|days| - 1])
  }

  /** The curve that `replay_equity_curve` returns. */
  function Replay(a: Account, frozen: int, days: seq<ReplayDay>): Outcome<seq<EquityPoint>, ConservationError> {
    var r := Run(a, frozen, days);
    if r.Err? then Err(r.error) else Ok(r.value.curve)
  }

  /** The opening dictionary; a repeated code keeps its last entry. */
  function OpeningLots(opening: seq<Position>): Holdings {
    if opening == [] then map[]
    else
      var p := opening[|opening| - 1];
      OpeningLots(opening[..|opening| - 1])[p.code := Lot(p.volume, p.cost)]
  }

  function Open(cash: int, opening: seq<Position>): Account {
    Account(cash, OpeningLots(opening))
  }

  /** No short positions; opening volumes are not validated by the program, so this is stated where needed. */
  ghost predicate NonNegative(lots: Holdings) {
    forall c :: c in lots ==> lots[c].volume >= 0
  }

  // ---------------------------------------------------------------- composition

  lemma {:induction false} ApplyFillsConcat(a: Account, xs: seq<ReplayFill>, ys: seq<ReplayFill>)
    ensures ApplyFills(a, xs + ys) ==
            var mid := ApplyFills(a, xs); if mid.Err? then mid else ApplyFills(mid.value, ys)
  {
    if ys == [] {
      assert xs + ys == xs;
    } else {
      var n := |ys| - 1;
      ApplyFillsConcat(a, xs, ys[..n]);
      assert (xs + ys)[..|xs + ys| - 1] == xs + ys[..n];
    }
  }

  function Prepend(curve: seq<EquityPoint>, r: Outcome<Progress, ConservationError>)
    : Outcome<Progress, ConservationError>
  {
    if r.Err? then r else Ok(Progress(r.value.account, curve + r.value.curve))
  }

  lemma StepDayPrepend(p: Progress, pre: seq<EquityPoint>, frozen: int, day: ReplayDay)
    ensures StepDay(Progress(p.account, pre + p.curve), frozen, day) == Prepend(pre, StepDay(p, frozen, day))
  {
    var after := ApplyFills(p.account, day.fills);
    if after.Ok? {
      var row := CloseDay(after.value, frozen, day.date, day.marks);
      if row.Ok? {
        assert pre + p.curve + [row.value] == pre + (p.curve + [row.value]);
      }
    }
  }

  lemma {:induction false} RunConcat(a: Account, frozen: int, xs: seq<ReplayDay>, ys: seq<ReplayDay>)
    ensures Run(a, frozen, xs + ys) ==
            var mid := Run(a, frozen, xs);
            if mid.Err? then mid else Prepend(mid.value.curve, Run(mid.value.account, frozen, ys))
  {
    if ys == [] {
      assert xs + ys == xs;
      var mid := Run(a, frozen, xs);
      if mid.Ok? { assert mid.value.curve + [] == mid.value.curve; }
    } else {
      var n := |ys| - 1;
      RunConcat(a, frozen, xs, ys[..n]);
      var mid := Run(a, frozen, xs);
      if mid.Ok? {
        var before := Run(mid.value.account, frozen, ys[..n]);
        if before.Ok? { StepDayPrepend(before.value, mid.value.curve, frozen, ys[n]); }
      }
      assert (xs + ys)[..|xs + ys| - 1] == xs + ys[..n];
    }
  }

  function AllFills(days: seq<ReplayDay>): seq<ReplayFill> {
    if days == [] then [] else AllFills(days[..|days| - 1]) + days[|days| - 1].fills
  }

  /** A replay that succeeds has applied the whole stream, one row per day, and ends on its last account. */
  lemma {:induction false} RunAccount(a: Account, frozen: int, days: seq<ReplayDay>)
    requires Run(a, frozen, days).Ok?
    ensures ApplyFills(a, AllFills(days)) == Ok(Run(a, frozen, days).value.account)
    ensures |Run(a, frozen, days).value.curve| == |days|
    ensures days != [] ==>
              CloseDay(Run(a, frozen, days).value.account, frozen, days[|days| - 1].date, days[|days| - 1].marks)
              == Ok(Run(a, frozen, days).value.curve[|days| - 1])
  {
    if days != [] {
      var n := |days| - 1;
      RunAccount(a, frozen, days[..n]);
      ApplyFillsConcat(a, AllFills(days[..n]), days[n].fills);
    }
  }

  /** The first n days of a replay are the replay of the first n days. */
  lemma {:induction false} RunPrefix(a: Account, frozen: int, days: seq<ReplayDay>, n: nat)
    requires n <= |days| && Run(a, frozen, days).Ok?
    ensures Run(a, frozen, days[..n]).Ok?
    ensures |Run(a, frozen, days).value.curve| == |days|
    ensures Run(a, frozen, days[..n]).value.curve == Run(a, frozen, days).value.curve[..n]
  {
    assert days == days[..n] + days[n..];
    RunConcat(a, frozen, days[..n], days[n..]);
    RunAccount(a, frozen, days);
    RunAccount(a, frozen, days[..n]);
  }

  lemma {:induction false} ApplyFillsNonNegative(a: Account, fills: seq<ReplayFill>)
    requires NonNegative(a.lots) && ApplyFills(a, fills).Ok?
    ensures NonNegative(ApplyFills(a, fills).value.lots)
  {
    if fills != [] {
      ApplyFillsNonNegative(a, fills[..|fills| - 1]);
    }
  }

  lemma PrefixRow(a: Account, frozen: int, days: seq<ReplayDay>, n: nat)
    requires n <= |days| && NonNegative(a.lots) && Run(a, frozen, days).Ok?
    ensures |Run(a, frozen, days).value.curve| == |days|
    ensures Run(a, frozen, days[..n]).Ok? && NonNegative(Run(a, frozen, days[..n]).value.account.lots)
    ensures n > 0 ==>
              CloseDay(Run(a, frozen, days[..n]).value.account, frozen, days[n - 1].date, days[n - 1].marks)
              == Ok(Run(a, frozen, days).value.curve[n - 1])
  {
    RunPrefix(a, frozen, days, n);
    RunAccount(a, frozen, days[..n]);
    ApplyFillsNonNegative(a, AllFills(days[..n]));
  }

  lemma RunStep(a: Account, frozen: int, days: seq<ReplayDay>, i: nat)
    requires i < |days| && Run(a, frozen, days[..i + 1]).Ok?
    ensures Run(a, frozen, days[..i]).Ok?
    ensures ApplyFills(Run(a, frozen, days[..i]).value.account, days[i].fills)
            == Ok(Run(a, frozen, days[..i + 1]).value.account)
  {
    assert days[..i + 1][..i] == days[..i];
  }

  /** Row i of a replay closes the account reached after day i, which day i's fills reach from day i - 1. */
  lemma CurveRow(a: Account, frozen: int, days: seq<ReplayDay>, i: nat)
    requires i < |days| && NonNegative(a.lots) && Run(a, frozen, days).Ok?
    ensures |Run(a, frozen, days).value.curve| == |days|
    ensures Run(a, frozen, days[..i]).Ok? && Run(a, frozen, days[..i + 1]).Ok?
    ensures
      var before := Run(a, frozen, days[..i]).value.account;
      var after := Run(a, frozen, days[..i + 1]).value.account;
      && ApplyFills(before, days[i].fills) == Ok(after)
      && NonNegative(before.lots) && NonNegative(after.lots)
      && CloseDay(after, frozen, days[i].date, days[i].marks) == Ok(Run(a, frozen, days).value.curve[i])
  {
    PrefixRow(a, frozen, days, i + 1);
    PrefixRow(a, frozen, days, i);
    RunStep(a, frozen, days, i);
  }
}
