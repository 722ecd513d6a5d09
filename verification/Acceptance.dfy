/** Exactly when the replay of backend/backtest/golden_replay.py accepts its input, and what it blames. */
module Acceptance {
  import opened Outcome
  import opened Lexicographic
  import opened Ledger
  import opened Commutation

  /** Held and not marked. */
  predicate Unmarked(lots: Holdings, marks: map<string, int>, code: string) {
    code in lots && lots[code].volume > 0 && code !in marks
  }

  lemma {:induction false} MarkCodesFailsIff(codes: seq<string>, lots: Holdings, date: string, marks: map<string, int>)
    requires forall c :: c in codes ==> c in lots
    ensures MarkCodes(codes, lots, date, marks).Ok?
            <==> forall i :: 0 <= i < |codes| ==> !Unmarked(lots, marks, codes[i])
    ensures MarkCodes(codes, lots, date, marks).Err? ==>
              exists i :: 0 <= i < |codes| && Blames(codes, i, lots, date, marks)
  {
    if codes != [] {
      var n := |codes| - 1;
      MarkCodesFailsIff(codes[..n], lots, date, marks);
      var before := MarkCodes(codes[..n], lots, date, marks);
      if before.Err? {
        var i :| 0 <= i < n && Blames(codes[..n], i, lots, date, marks);
        assert forall k :: 0 <= k < n ==> codes[..n][k] == codes[k];
        assert Blames(codes, i, lots, date, marks);
      } else if Unmarked(lots, marks, codes[n]) {
        assert forall k :: 0 <= k < n ==> codes[..n][k] == codes[k];
        assert Blames(codes, n, lots, date, marks);
      }
    }
  }

  /** Marking fails on the i-th code, the first of them that is held and not marked. */
  ghost predicate Blames(codes: seq<string>, i: nat, lots: Holdings, date: string, marks: map<string, int>)
    requires i < |codes| && forall c :: c in codes ==> c in lots
  {
    && MarkCodes(codes, lots, date, marks) == Err(MissingMark(date, codes[i]))
    && Unmarked(lots, marks, codes[i])
    && forall k :: 0 <= k < i ==> !Unmarked(lots, marks, codes[k])
  }

  /** Marking fails if and only if some held code has no mark, and it names the first such code in code order. */
  lemma MarkFailsIff(lots: Holdings, date: string, marks: map<string, int>)
    ensures Mark(lots, date, marks).Err? <==> exists c :: Unmarked(lots, marks, c)
    ensures Mark(lots, date, marks).Err? ==>
              var e := Mark(lots, date, marks).error;
              && e.MissingMark? && e.date == date && Unmarked(lots, marks, e.code)
              && forall c :: Unmarked(lots, marks, c) && c != e.code ==> Less(e.code, c)
  {
    var codes := SortedElements(lots.Keys);
    MarkCodesFailsIff(codes, lots, date, marks);
    assert forall c :: Unmarked(lots, marks, c) ==> c in codes;
    if Mark(lots, date, marks).Err? {
      var i :| 0 <= i < |codes| && Blames(codes, i, lots, date, marks);
      forall c | Unmarked(lots, marks, c) && c != codes[i] ensures Less(codes[i], c) {
        var k :| 0 <= k < |codes| && codes[k] == c;
        assert i < k;
      }
    }
  }

  /** Every code that the opening and the fills up to the day's close leave in hand is marked that day. */
  ghost predicate MarksCoverNet(lots: Holdings, days: seq<ReplayDay>, i: nat)
    requires i < |days|
  {
    forall c :: Net(lots, AllFills(days[..i + 1]), c) > 0 ==> c in days[i].marks
  }

  lemma ClosesIff(a: Account, frozen: int, fills: seq<ReplayFill>, day: ReplayDay)
    requires NonNegative(a.lots) && ApplyFills(a, fills).Ok?
    ensures CloseDay(ApplyFills(a, fills).value, frozen, day.date, day.marks).Ok?
            <==> forall c :: Net(a.lots, fills, c) > 0 ==> c in day.marks
  {
    var lots := ApplyFills(a, fills).value.lots;
    MarkFailsIff(lots, day.date, day.marks);
    VolumesAreNet(a, fills);
    forall c ensures Unmarked(lots, day.marks, c) <==> Net(a.lots, fills, c) > 0 && c !in day.marks {
      assert Volume(lots, c) == Net(a.lots, fills, c);
    }
  }

  lemma LastDaySucceedsIff(a: Account, frozen: int, days: seq<ReplayDay>)
    requires NonNegative(a.lots) && days != []
    ensures Run(a, frozen, days).Ok? <==>
            && Run(a, frozen, days[..|days| - 1]).Ok? && ApplyFills(a, AllFills(days)).Ok?
            && MarksCoverNet(a.lots, days, |days| - 1)
  {
    var n := |days| - 1;
    assert days[..n + 1] == days;
    if Run(a, frozen, days[..n]).Ok? {
      RunAccount(a, frozen, days[..n]);
      ApplyFillsConcat(a, AllFills(days[..n]), days[n].fills);
      if ApplyFills(a, AllFills(days)).Ok? { ClosesIff(a, frozen, AllFills(days), days[n]); }
    }
  }

  lemma PrefixAccepted(a: Account, days: seq<ReplayDay>)
    requires days != [] && ApplyFills(a, AllFills(days)).Ok?
    ensures ApplyFills(a, AllFills(days[..|days| - 1])).Ok?
  {
    ApplyFillsConcat(a, AllFills(days[..|days| - 1]), days[|days| - 1].fills);
  }

  ghost predicate AllMarksCover(lots: Holdings, days: seq<ReplayDay>) {
    forall i :: 0 <= i < |days| ==> MarksCoverNet(lots, days, i)
  }

  lemma OneMoreDayCovered(lots: Holdings, days: seq<ReplayDay>)
    requires days != []
    ensures AllMarksCover(lots, days)
            <==> AllMarksCover(lots, days[..|days| - 1]) && MarksCoverNet(lots, days, |days| - 1)
  {
    var n := |days| - 1;
    forall i | 0 <= i < n ensures MarksCoverNet(lots, days[..n], i) <==> MarksCoverNet(lots, days, i) {
      assert days[..n][..i + 1] == days[..i + 1] && days[..n][i] == days[i];
    }
  }

  lemma {:induction false} RunSucceedsIff(a: Account, frozen: int, days: seq<ReplayDay>)
    requires NonNegative(a.lots)
    ensures Run(a, frozen, days).Ok? <==> ApplyFills(a, AllFills(days)).Ok? && AllMarksCover(a.lots, days)
  {
    if days != [] {
      RunSucceedsIff(a, frozen, days[..|days| - 1]);
      LastDaySucceedsIff(a, frozen, days);
      OneMoreDayCovered(a.lots, days);
      if ApplyFills(a, AllFills(days)).Ok? { PrefixAccepted(a, days); }
    }
  }

  /**
   * The replay succeeds if and only if no prefix of the whole fill stream is short of any code and, on every
   * day, every code whose net volume is positive has a mark. Both are sums over the input, with no book.
   */
  lemma ReplaySucceedsIff(a: Account, frozen: int, days: seq<ReplayDay>)
    requires NonNegative(a.lots)
    ensures Replay(a, frozen, days).Ok? <==> NeverShort(a.lots, AllFills(days)) && AllMarksCover(a.lots, days)
  {
    RunSucceedsIff(a, frozen, days);
    AcceptedIffNeverShort(a, AllFills(days));
  }
}
