/**
 * Checkpoint and resume: a replay may be cut after any day and continued from nothing but the cash and
 * the positions of the last emitted row. Fully sold lots stay in the program's dictionary with a stale
 * cost; the proof shows that they can never be told apart from absent ones.
 */
module Checkpoint {
  import opened Outcome
  import opened Lexicographic
  import opened Ledger

  /** The lots that a closing row shows. */
  function Visible(lots: Holdings): Holdings {
    map c | c in lots && lots[c].volume > 0 :: lots[c]
  }

  function PositiveCodes(codes: seq<string>, lots: Holdings): seq<string>
    requires forall c :: c in codes ==> c in lots
  {
    if codes == [] then []
    else
      var rest := PositiveCodes(codes[..|codes| - 1], lots);
      var code := codes[|codes| - 1];
      if lots[code].volume > 0 then rest + [code] else rest
  }

  lemma {:induction false} PositiveCodesElements(codes: seq<string>, lots: Holdings)
    requires forall c :: c in codes ==> c in lots
    ensures forall c :: c in PositiveCodes(codes, lots) <==> c in codes && lots[c].volume > 0
  {
    if codes != [] {
      var n := |codes| - 1;
      PositiveCodesElements(codes[..n], lots);
      assert codes == codes[..n] + [codes[n]];
    }
  }

  lemma {:induction false} PositiveCodesAre(codes: seq<string>, lots: Holdings)
    requires StrictlySorted(codes) && forall c :: c in codes ==> c in lots
    ensures StrictlySorted(PositiveCodes(codes, lots))
    ensures forall c :: c in PositiveCodes(codes, lots) <==> c in codes && lots[c].volume > 0
  {
    PositiveCodesElements(codes, lots);
    if codes != [] {
      var n := |codes| - 1;
      PositiveCodesAre(codes[..n], lots);
      SortedAppend(PositiveCodes(codes[..n], lots), codes);
    }
  }

  lemma SortedAppend(rest: seq<string>, codes: seq<string>)
    requires codes != [] && StrictlySorted(codes) && StrictlySorted(rest)
    requires forall c :: c in rest ==> c in codes[..|codes| - 1]
    ensures StrictlySorted(rest + [codes[|codes| - 1]])
  {
    forall i | 0 <= i < |rest| ensures Less(rest[i], codes[|codes| - 1]) {
      assert rest[i] in rest;
    }
  }

  lemma {:induction false} MarkPositiveCodes(codes: seq<string>, lots: Holdings, date: string, marks: map<string, int>)
    requires StrictlySorted(codes) && forall c :: c in codes ==> c in lots
    requires forall c :: c in PositiveCodes(codes, lots) ==> c in Visible(lots)
    ensures MarkCodes(codes, lots, date, marks) == MarkCodes(PositiveCodes(codes, lots), Visible(lots), date, marks)
  {
    if codes != [] {
      var n := |codes| - 1;
      PositiveCodesAre(codes[..n], lots);
      MarkPositiveCodes(codes[..n], lots, date, marks);
      var rest := PositiveCodes(codes[..n], lots);
      if lots[codes[n]].volume > 0 {
        var all := rest + [codes[n]];
        assert all[..|all| - 1] == rest && all[|all| - 1] == codes[n];
        assert Visible(lots)[codes[n]] == lots[codes[n]];
      }
    }
  }

  /** Marking never looks at flat lots. */
  lemma MarkVisible(lots: Holdings, date: string, marks: map<string, int>)
    ensures Mark(lots, date, marks) == Mark(Visible(lots), date, marks)
  {
    var codes := SortedElements(lots.Keys);
    PositiveCodesAre(codes, lots);
    SortedUnique(PositiveCodes(codes, lots), SortedElements(Visible(lots).Keys));
    MarkPositiveCodes(codes, lots, date, marks);
  }

  function PositionCodes(positions: seq<Position>): seq<string> {
    seq(|positions|, i requires 0 <= i < |positions| => positions[i].code)
  }

  lemma AppendPosition(v: seq<Position>, p: Position)
    ensures PositionCodes(v + [p]) == PositionCodes(v) + [p.code]
    ensures OpeningLots(v + [p]) == OpeningLots(v)[p.code := Lot(p.volume, p.cost)]
  {
    assert (v + [p])[..|v|] == v;
  }

  function VisibleAmong(codes: seq<string>, lots: Holdings): Holdings
    requires forall c :: c in codes ==> c in lots
  {
    map c | c in codes && lots[c].volume > 0 :: lots[c]
  }

  lemma {:induction false} MarkedPositions(codes: seq<string>, lots: Holdings, date: string, marks: map<string, int>)
    requires forall c :: c in codes ==> c in lots
    requires MarkCodes(codes, lots, date, marks).Ok?
    ensures PositionCodes(MarkCodes(codes, lots, date, marks).value.positions) == PositiveCodes(codes, lots)
    ensures OpeningLots(MarkCodes(codes, lots, date, marks).value.positions) == VisibleAmong(codes, lots)
  {
    if codes != [] {
      var n := |codes| - 1;
      var lot := lots[codes[n]];
      var before := MarkCodes(codes[..n], lots, date, marks);
      MarkedPositions(codes[..n], lots, date, marks);
      VisibleAmongAppend(codes, lots);
      if lot.volume > 0 {
        AppendPosition(before.value.positions, Position(codes[n], lot.volume, lot.cost));
      }
    }
  }

  lemma VisibleAmongAppend(codes: seq<string>, lots: Holdings)
    requires codes != [] && forall c :: c in codes ==> c in lots
    ensures var n := |codes| - 1;
            VisibleAmong(codes, lots) ==
            if lots[codes[n]].volume > 0 then VisibleAmong(codes[..n], lots)[codes[n] := lots[codes[n]]]
            else VisibleAmong(codes[..n], lots)
  {
    var n := |codes| - 1;
    assert codes == codes[..n] + [codes[n]];
  }

  /** The emitted positions are strictly sorted by code and rebuild exactly the visible lots. */
  lemma EmittedPositions(a: Account, frozen: int, date: string, marks: map<string, int>)
    requires CloseDay(a, frozen, date, marks).Ok?
    ensures var row := CloseDay(a, frozen, date, marks).value;
            && StrictlySorted(PositionCodes(row.positions))
            && Open(row.cash, row.positions) == Account(a.cash, Visible(a.lots))
  {
    var codes := SortedElements(a.lots.Keys);
    PositiveCodesAre(codes, a.lots);
    MarkedPositions(codes, a.lots, date, marks);
    assert VisibleAmong(codes, a.lots) == Visible(a.lots);
  }

  /** Two books that no row can tell apart. */
  ghost predicate SameBook(a: Account, b: Account) {
    a.cash == b.cash && Visible(a.lots) == Visible(b.lots) && NonNegative(a.lots) && NonNegative(b.lots)
  }

  ghost predicate SameOutcome(r: Outcome<Account, ConservationError>, s: Outcome<Account, ConservationError>) {
    if r.Ok? then s.Ok? && SameBook(r.value, s.value) else s == Err(r.error)
  }

  lemma VisibleVolume(a: Account, b: Account, c: string)
    requires SameBook(a, b)
    ensures Volume(a.lots, c) == Volume(b.lots, c)
    ensures Volume(a.lots, c) > 0 ==> LotOf(a.lots, c) == LotOf(b.lots, c)
  {
    assert c in Visible(a.lots) <==> c in a.lots && a.lots[c].volume > 0;
    assert c in Visible(b.lots) <==> c in b.lots && b.lots[c].volume > 0;
    if c in Visible(a.lots) { assert Visible(a.lots)[c] == Visible(b.lots)[c]; }
  }

  lemma ApplyFillSameBook(a: Account, b: Account, f: ReplayFill)
    requires SameBook(a, b)
    ensures SameOutcome(ApplyFill(a, f), ApplyFill(b, f))
  {
    VisibleVolume(a, b, f.code);
    if ApplyFill(a, f).Ok? {
      var a', b' := ApplyFill(a, f).value, ApplyFill(b, f).value;
      assert f.side.Buy? ==> a'.lots[f.code] == b'.lots[f.code];
      forall c ensures c in Visible(a'.lots) <==> c in Visible(b'.lots)
               ensures c in Visible(a'.lots) ==> Visible(a'.lots)[c] == Visible(b'.lots)[c]
      {
        VisibleVolume(a, b, c);
      }
      assert Visible(a'.lots) == Visible(b'.lots);
    }
  }

  lemma {:induction false} ApplyFillsSameBook(a: Account, b: Account, fills: seq<ReplayFill>)
    requires SameBook(a, b)
    ensures SameOutcome(ApplyFills(a, fills), ApplyFills(b, fills))
  {
    if fills != [] {
      var n := |fills| - 1;
      ApplyFillsSameBook(a, b, fills[..n]);
      var r, s := ApplyFills(a, fills[..n]), ApplyFills(b, fills[..n]);
      if r.Ok? { ApplyFillSameBook(r.value, s.value, fills[n]); }
    }
  }

  ghost predicate SameRun(r: Outcome<Progress, ConservationError>, s: Outcome<Progress, ConservationError>) {
    if r.Ok? then s.Ok? && SameBook(r.value.account, s.value.account) && r.value.curve == s.value.curve
    else s == Err(r.error)
  }

  lemma StepDaySameBook(p: Progress, q: Progress, frozen: int, day: ReplayDay)
    requires SameBook(p.account, q.account) && p.curve == q.curve
    ensures SameRun(StepDay(p, frozen, day), StepDay(q, frozen, day))
  {
    ApplyFillsSameBook(p.account, q.account, day.fills);
    var x, y := ApplyFills(p.account, day.fills), ApplyFills(q.account, day.fills);
    if x.Ok? { CloseDaySameBook(x.value, y.value, frozen, day.date, day.marks); }
  }

  lemma CloseDaySameBook(a: Account, b: Account, frozen: int, date: string, marks: map<string, int>)
    requires SameBook(a, b)
    ensures CloseDay(a, frozen, date, marks) == CloseDay(b, frozen, date, marks)
  {
    MarkVisible(a.lots, date, marks);
    MarkVisible(b.lots, date, marks);
  }

  lemma {:induction false} RunSameBook(a: Account, b: Account, frozen: int, days: seq<ReplayDay>)
    requires SameBook(a, b)
    ensures SameRun(Run(a, frozen, days), Run(b, frozen, days))
  {
    if days != [] {
      var n := |days| - 1;
      RunSameBook(a, b, frozen, days[..n]);
      var r, s := Run(a, frozen, days[..n]), Run(b, frozen, days[..n]);
      if r.Ok? { StepDaySameBook(r.value, s.value, frozen, days[n]); }
    }
  }

  function AppendCurve(curve: seq<EquityPoint>, r: Outcome<seq<EquityPoint>, ConservationError>)
    : Outcome<seq<EquityPoint>, ConservationError>
  {
    if r.Err? then r else Ok(curve + r.value)
  }

  /**
   * Replaying A then B is replaying A, reopening from the cash and positions of A's last row alone, and
   * replaying B: the same curve, and the same error when there is one.
   */
  lemma CheckpointResume(a: Account, frozen: int, first: seq<ReplayDay>, rest: seq<ReplayDay>)
    requires NonNegative(a.lots) && first != []
    ensures Replay(a, frozen, first).Ok? ==> |Replay(a, frozen, first).value| == |first|
    ensures
      var head := Replay(a, frozen, first);
      Replay(a, frozen, first + rest) ==
      if head.Err? then head
      else
        var row := head.value[|first| - 1];
        AppendCurve(head.value, Replay(Open(row.cash, row.positions), frozen, rest))
  {
    RunConcat(a, frozen, first, rest);
    var head := Run(a, frozen, first);
    if head.Ok? {
      RunAccount(a, frozen, first);
      var last := first[|first| - 1];
      var mid := head.value.account;
      EmittedPositions(mid, frozen, last.date, last.marks);
      ApplyFillsNonNegative(a, AllFills(first));
      assert Visible(Visible(mid.lots)) == Visible(mid.lots);
      RunSameBook(mid, Account(mid.cash, Visible(mid.lots)), frozen, rest);
    }
  }
}
