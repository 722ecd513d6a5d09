/**
 * When the order of fills matters to the replay: which streams it accepts, which swaps leave its curve
 * unchanged, and which only change the (uncompared) cost basis.
 */
module Commutation {
  import opened Outcome
  import opened Lexicographic
  import opened Ledger
  import opened Checkpoint
  import opened Comparator

  // ---------------------------------------------------------------- which streams are accepted

  /** Opening volume plus bought minus sold: the closed form of one code's holding. */
  function Net(lots: Holdings, fills: seq<ReplayFill>, code: string): int {
    if fills == [] then Volume(lots, code)
    else
      var f := fills[|fills| - 1];
      Net(lots, fills[..|fills| - 1], code) + if f.code == code then f.Step() else 0
  }

  ghost predicate NeverShort(lots: Holdings, fills: seq<ReplayFill>) {
    forall k, code :: 0 <= k <= |fills| ==> Net(lots, fills[..k], code) >= 0
  }

  lemma {:induction false} VolumesAreNet(a: Account, fills: seq<ReplayFill>)
    requires ApplyFills(a, fills).Ok?
    ensures forall code :: Volume(ApplyFills(a, fills).value.lots, code) == Net(a.lots, fills, code)
  {
    if fills != [] {
      VolumesAreNet(a, fills[..|fills| - 1]);
    }
  }

  /** The replay accepts a stream exactly when no prefix of it, summed in closed form, is short of any code. */
  lemma {:induction false} AcceptedIffNeverShort(a: Account, fills: seq<ReplayFill>)
    requires NonNegative(a.lots)
    ensures ApplyFills(a, fills).Ok? <==> NeverShort(a.lots, fills)
  {
    if fills == [] {
      assert forall k :: 0 <= k <= 0 ==> fills[..k] == [];
    } else {
      var n := |fills| - 1;
      AcceptedIffNeverShort(a, fills[..n]);
      forall k | 0 <= k <= n ensures fills[..n][..k] == fills[..k] {}
      assert fills[..n + 1] == fills;
      if ApplyFills(a, fills).Ok? {
        AcceptedStays(a, fills);
      }
      if NeverShort(a.lots, fills) {
        forall k, code | 0 <= k <= n ensures Net(a.lots, fills[..n][..k], code) >= 0 {}
        VolumesAreNet(a, fills[..n]);
        assert Net(a.lots, fills[..n + 1], fills[n].code) >= 0;
      }
    }
  }

  lemma AcceptedStays(a: Account, fills: seq<ReplayFill>)
    requires NonNegative(a.lots) && fills != [] && ApplyFills(a, fills).Ok?
    requires NeverShort(a.lots, fills[..|fills| - 1])
    ensures NeverShort(a.lots, fills)
  {
    var n := |fills| - 1;
    VolumesAreNet(a, fills);
    ApplyFillsNonNegative(a, fills);
    forall k, code | 0 <= k <= |fills| ensures Net(a.lots, fills[..k], code) >= 0 {
      if k == |fills| {
        assert fills[..k] == fills;
        assert Volume(ApplyFills(a, fills).value.lots, code) >= 0;
      } else {
        assert fills[..n][..k] == fills[..k];
      }
    }
  }

  // ---------------------------------------------------------------- swapping fills of different codes

  /** Success does not depend on which is run; nor does the result, when there is one. */
  ghost predicate SameSuccess<T, E>(r: Outcome<T, E>, s: Outcome<T, E>) {
    if r.Ok? then s == r else s.Err?
  }

  lemma SwapTwo(a: Account, f: ReplayFill, g: ReplayFill)
    requires f.code != g.code
    ensures SameSuccess(ApplyFills(a, [f, g]), ApplyFills(a, [g, f]))
  {
    TwoFills(a, f, g);
    TwoFills(a, g, f);
    FillIsLocal(a, f);
    FillIsLocal(a, g);
    if ApplyFill(a, f).Ok? { FillIsLocal(ApplyFill(a, f).value, g); }
    if ApplyFill(a, g).Ok? { FillIsLocal(ApplyFill(a, g).value, f); }
    var x, y := LotAfter(LotOf(a.lots, f.code), f), LotAfter(LotOf(a.lots, g.code), g);
    assert a.lots[f.code := x][g.code := y] == a.lots[g.code := y][f.code := x];
  }

  function LotAfter(lot: Lot, f: ReplayFill): Lot {
    if f.side.Buy? then Bought(lot, f.volume, f.Gross() + f.cost) else lot.(volume := lot.volume - f.volume)
  }

  /** A fill succeeds by looking at its own lot only, and changes cash and that lot only; a refusal names the lot. */
  lemma FillIsLocal(a: Account, f: ReplayFill)
    ensures ApplyFill(a, f).Ok? <==> f.side.Buy? || Volume(a.lots, f.code) >= f.volume
    ensures ApplyFill(a, f).Err? ==> ApplyFill(a, f).error == Oversell(f.code, f.volume, Volume(a.lots, f.code))
    ensures ApplyFill(a, f).Ok? ==>
              ApplyFill(a, f).value
              == Account(a.cash + f.CashEffect(), a.lots[f.code := LotAfter(LotOf(a.lots, f.code), f)])
  {}

  lemma TwoFills(a: Account, f: ReplayFill, g: ReplayFill)
    ensures ApplyFills(a, [f, g]) == var r := ApplyFill(a, f); if r.Err? then r else ApplyFill(r.value, g)
  {
    assert [f, g][..1] == [f] && [f][..0] == [];
    assert ApplyFills(a, [f]) == ApplyFill(a, f);
  }

  lemma ThreeParts(a: Account, xs: seq<ReplayFill>, mid: seq<ReplayFill>, ys: seq<ReplayFill>)
    ensures ApplyFills(a, xs + mid + ys) ==
            var p := ApplyFills(a, xs);
            if p.Err? then p
            else var q := ApplyFills(p.value, mid); if q.Err? then q else ApplyFills(q.value, ys)
  {
    ApplyFillsConcat(a, xs + mid, ys);
    ApplyFillsConcat(a, xs, mid);
  }

  lemma SwapFills(a: Account, xs: seq<ReplayFill>, f: ReplayFill, g: ReplayFill, ys: seq<ReplayFill>)
    requires f.code != g.code
    ensures SameSuccess(ApplyFills(a, xs + [f, g] + ys), ApplyFills(a, xs + [g, f] + ys))
  {
    ThreeParts(a, xs, [f, g], ys);
    ThreeParts(a, xs, [g, f], ys);
    var p := ApplyFills(a, xs);
    if p.Ok? { SwapTwo(p.value, f, g); }
  }

  /** Swapping adjacent same-day fills of different codes changes neither success nor the curve. */
  lemma SwapWithinDay(a: Account, frozen: int, before: seq<ReplayDay>, day: ReplayDay, after: seq<ReplayDay>,
                      xs: seq<ReplayFill>, f: ReplayFill, g: ReplayFill, ys: seq<ReplayFill>)
    requires f.code != g.code && day.fills == xs + [f, g] + ys
    ensures SameSuccess(Replay(a, frozen, before + [day] + after),
                        Replay(a, frozen, before + [day.(fills := xs + [g, f] + ys)] + after))
  {
    var swapped := day.(fills := xs + [g, f] + ys);
    RunParts(a, frozen, before, day, after);
    RunParts(a, frozen, before, swapped, after);
    var p := Run(a, frozen, before);
    if p.Ok? { SwapFills(p.value.account, xs, f, g, ys); }
  }

  lemma RunParts(a: Account, frozen: int, before: seq<ReplayDay>, day: ReplayDay, after: seq<ReplayDay>)
    ensures Run(a, frozen, before + [day] + after) ==
            var p := Run(a, frozen, before);
            if p.Err? then p
            else
              var q := StepDay(p.value, frozen, day);
              if q.Err? then q else Prepend(q.value.curve, Run(q.value.account, frozen, after))
  {
    RunConcat(a, frozen, before + [day], after);
    assert (before + [day])[..|before|] == before;
  }

  // ---------------------------------------------------------------- moving a BUY ahead of a SELL

  ghost predicate SameVolumes(a: Account, b: Account) {
    a.cash == b.cash && forall c :: Volume(a.lots, c) == Volume(b.lots, c)
  }

  ghost predicate VolumesOutcome(r: Outcome<Account, ConservationError>, s: Outcome<Account, ConservationError>) {
    if r.Ok? then s.Ok? && SameVolumes(r.value, s.value) else s == Err(r.error)
  }

  lemma BuyFirst(a: Account, sell: ReplayFill, buy: ReplayFill)
    requires sell.side.Sell? && buy.side.Buy? && sell.code == buy.code
    requires ApplyFills(a, [sell, buy]).Ok?
    ensures ApplyFills(a, [buy, sell]).Ok?
    ensures SameVolumes(ApplyFills(a, [sell, buy]).value, ApplyFills(a, [buy, sell]).value)
  {
    TwoFills(a, sell, buy);
    TwoFills(a, buy, sell);
  }

  lemma ApplyFillSameVolumes(a: Account, b: Account, f: ReplayFill)
    requires SameVolumes(a, b)
    ensures VolumesOutcome(ApplyFill(a, f), ApplyFill(b, f))
  {
    assert Volume(a.lots, f.code) == Volume(b.lots, f.code);
    if ApplyFill(a, f).Ok? {
      var x, y := ApplyFill(a, f).value, ApplyFill(b, f).value;
      forall c ensures Volume(x.lots, c) == Volume(y.lots, c) {
        assert Volume(a.lots, c) == Volume(b.lots, c);
      }
    }
  }

  lemma {:induction false} ApplyFillsSameVolumes(a: Account, b: Account, fills: seq<ReplayFill>)
    requires SameVolumes(a, b)
    ensures VolumesOutcome(ApplyFills(a, fills), ApplyFills(b, fills))
  {
    if fills != [] {
      var n := |fills| - 1;
      ApplyFillsSameVolumes(a, b, fills[..n]);
      var r, s := ApplyFills(a, fills[..n]), ApplyFills(b, fills[..n]);
      if r.Ok? { ApplyFillSameVolumes(r.value, s.value, fills[n]); }
    }
  }

  ghost predicate SameValuation(r: Outcome<Valuation, ConservationError>, s: Outcome<Valuation, ConservationError>) {
    if r.Ok? then
      s.Ok? && r.value.marketValue == s.value.marketValue && HeldOf(r.value.positions) == HeldOf(s.value.positions)
    else s == Err(r.error)
  }

  lemma HeldAppend(v: seq<Position>, p: Position)
    ensures HeldOf(v + [p]) == HeldOf(v) + [Held(p.code, p.volume)]
  {}

  lemma MarkOneSame(r: Outcome<Valuation, ConservationError>, s: Outcome<Valuation, ConservationError>, code: string,
                    x: Lot, y: Lot, date: string, marks: map<string, int>)
    requires SameValuation(r, s) && x.volume == y.volume
    ensures SameValuation(MarkOne(r, code, x, date, marks), MarkOne(s, code, y, date, marks))
  {
    if r.Ok? {
      HeldAppend(r.value.positions, Position(code, x.volume, x.cost));
      HeldAppend(s.value.positions, Position(code, y.volume, y.cost));
    }
  }

  lemma {:induction false} MarkCodesSame(codes: seq<string>, x: Holdings, y: Holdings, date: string,
                                         marks: map<string, int>)
    requires forall c :: c in codes ==> c in x && c in y && x[c].volume == y[c].volume
    ensures SameValuation(MarkCodes(codes, x, date, marks), MarkCodes(codes, y, date, marks))
  {
    if codes != [] {
      var n := |codes| - 1;
      MarkCodesSame(codes[..n], x, y, date, marks);
      MarkOneSame(MarkCodes(codes[..n], x, date, marks), MarkCodes(codes[..n], y, date, marks), codes[n],
                  x[codes[n]], y[codes[n]], date, marks);
    }
  }

  lemma SameVisibleCodes(a: Account, b: Account)
    requires SameVolumes(a, b)
    ensures Visible(a.lots).Keys == Visible(b.lots).Keys
    ensures forall c :: c in Visible(a.lots) ==> Visible(a.lots)[c].volume == Visible(b.lots)[c].volume
  {
    forall c ensures c in Visible(a.lots) <==> c in Visible(b.lots) {
      assert Volume(a.lots, c) == Volume(b.lots, c);
    }
    forall c | c in Visible(a.lots) ensures Visible(a.lots)[c].volume == Visible(b.lots)[c].volume {
      assert Volume(a.lots, c) == Volume(b.lots, c);
    }
  }

  lemma MarkSameVolumes(a: Account, b: Account, date: string, marks: map<string, int>)
    requires SameVolumes(a, b)
    ensures SameValuation(Mark(a.lots, date, marks), Mark(b.lots, date, marks))
  {
    MarkVisible(a.lots, date, marks);
    MarkVisible(b.lots, date, marks);
    SameVisibleCodes(a, b);
    var x, y := Visible(a.lots), Visible(b.lots);
    MarkCodesSame(SortedElements(x.Keys), x, y, date, marks);
  }

  ghost predicate MatchingRun(r: Outcome<Progress, ConservationError>, s: Outcome<Progress, ConservationError>) {
    if r.Ok? then
      s.Ok? && SameVolumes(r.value.account, s.value.account) && Matches(r.value.curve, s.value.curve, 0)
    else s == Err(r.error)
  }

  lemma RowSameVolumes(a: Account, b: Account, frozen: int, date: string, marks: map<string, int>)
    requires SameVolumes(a, b)
    ensures
      var r, s := CloseDay(a, frozen, date, marks), CloseDay(b, frozen, date, marks);
      if r.Ok? then s.Ok? && RowMatches(r.value, s.value, 0) else s == Err(r.error)
  {
    MarkSameVolumes(a, b, date, marks);
  }

  lemma CloseSameVolumes(p: Progress, q: Progress, frozen: int, day: ReplayDay, fills: seq<ReplayFill>)
    requires Matches(p.curve, q.curve, 0)
    requires ApplyFills(p.account, day.fills).Ok? && ApplyFills(q.account, fills).Ok?
    requires SameVolumes(ApplyFills(p.account, day.fills).value, ApplyFills(q.account, fills).value)
    ensures MatchingRun(StepDay(p, frozen, day), StepDay(q, frozen, day.(fills := fills)))
  {
    RowSameVolumes(ApplyFills(p.account, day.fills).value, ApplyFills(q.account, fills).value, frozen, day.date,
                   day.marks);
  }

  lemma StepDaySameVolumes(p: Progress, q: Progress, frozen: int, day: ReplayDay)
    requires Matches(p.curve, q.curve, 0) && SameVolumes(p.account, q.account)
    ensures MatchingRun(StepDay(p, frozen, day), StepDay(q, frozen, day))
  {
    ApplyFillsSameVolumes(p.account, q.account, day.fills);
    var x, y := ApplyFills(p.account, day.fills), ApplyFills(q.account, day.fills);
    if x.Ok? { CloseSameVolumes(p, q, frozen, day, day.fills); }
  }

  lemma {:induction false} RunSameVolumes(p: Progress, q: Progress, frozen: int, days: seq<ReplayDay>)
    requires Matches(p.curve, q.curve, 0) && SameVolumes(p.account, q.account)
    ensures MatchingRun(Prepend(p.curve, Run(p.account, frozen, days)), Prepend(q.curve, Run(q.account, frozen, days)))
  {
    if days == [] {
      assert p.curve + [] == p.curve && q.curve + [] == q.curve;
    } else {
      var n := |days| - 1;
      RunSameVolumes(p, q, frozen, days[..n]);
      var r, s := Run(p.account, frozen, days[..n]), Run(q.account, frozen, days[..n]);
      if r.Ok? {
        StepDayPrepend(r.value, p.curve, frozen, days[n]);
        StepDayPrepend(s.value, q.curve, frozen, days[n]);
        StepDaySameVolumes(Prepend(p.curve, r).value, Prepend(q.curve, s).value, frozen, days[n]);
      }
    }
  }

  /**
   * Moving a BUY ahead of the preceding same-day SELL of the same code never turns success into failure,
   * and the new curve matches the old one to the cent: only the cost basis may differ.
   */
  lemma BuyBeforeSellWithinDay(a: Account, frozen: int, before: seq<ReplayDay>, day: ReplayDay, after: seq<ReplayDay>,
                               xs: seq<ReplayFill>, sell: ReplayFill, buy: ReplayFill, ys: seq<ReplayFill>)
    requires sell.side.Sell? && buy.side.Buy? && sell.code == buy.code
    requires day.fills == xs + [sell, buy] + ys
    requires Replay(a, frozen, before + [day] + after).Ok?
    ensures Replay(a, frozen, before + [day.(fills := xs + [buy, sell] + ys)] + after).Ok?
    ensures Matches(Replay(a, frozen, before + [day] + after).value,
                    Replay(a, frozen, before + [day.(fills := xs + [buy, sell] + ys)] + after).value, 0)
  {
    var moved := day.(fills := xs + [buy, sell] + ys);
    RunParts(a, frozen, before, day, after);
    RunParts(a, frozen, before, moved, after);
    var p := Run(a, frozen, before).value;
    MovedDay(p, frozen, day, xs, sell, buy, ys);
    var q, r := StepDay(p, frozen, day).value, StepDay(p, frozen, moved).value;
    RunSameVolumes(q, r, frozen, after);
  }

  lemma MovedDay(p: Progress, frozen: int, day: ReplayDay, xs: seq<ReplayFill>, sell: ReplayFill, buy: ReplayFill,
                 ys: seq<ReplayFill>)
    requires sell.side.Sell? && buy.side.Buy? && sell.code == buy.code
    requires day.fills == xs + [sell, buy] + ys && StepDay(p, frozen, day).Ok?
    ensures MatchingRun(StepDay(p, frozen, day), StepDay(p, frozen, day.(fills := xs + [buy, sell] + ys)))
  {
    var a := p.account;
    ThreeParts(a, xs, [sell, buy], ys);
    ThreeParts(a, xs, [buy, sell], ys);
    var mid := ApplyFills(a, xs).value;
    BuyFirst(mid, sell, buy);
    ApplyFillsSameVolumes(ApplyFills(mid, [sell, buy]).value, ApplyFills(mid, [buy, sell]).value, ys);
    var moved := day.(fills := xs + [buy, sell] + ys);
    ExactMatchEquivalence(p.curve, p.curve, p.curve);
    CloseSameVolumes(p, p, frozen, day, moved.fills);
  }
}
