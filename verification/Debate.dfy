/**
 * The bull/bear debate loop (backend/agents/graph.py and its two nodes) and the collector that records it
 * (backend/agents/collector.py). Argument texts are arbitrary strings.
 */
module Debate {
  import opened Outcome
  import opened RoundOrder

  datatype Agent = Bull | Bear | Other(name: string)

  datatype DebateState = DebateState(history: string, bullHistory: string, bearHistory: string, current: string,
                                     count: int)

  datatype Next = BullResearcher | BearResearcher | RiskOfficer

  predicate StartsWith(s: string, prefix: string) { prefix <= s }

  function Router(s: DebateState, maxRounds: int): Next {
    if s.count >= 2 * maxRounds then RiskOfficer
    else if StartsWith(s.current, "Bull:") then BearResearcher
    else BullResearcher
  }

  function InitDebate(): DebateState { DebateState("", "", "", "", 0) }

  function Heading(side: Agent): string {
    if side.Bull? then "\n\n【看多研究员】\n" else "\n\n【看空研究员】\n"
  }

  function BullNode(s: DebateState, argument: string): DebateState {
    DebateState(s.history + (Heading(Bull) + argument), s.bullHistory + ("\n" + argument), s.bearHistory,
                "Bull: " + argument, s.count + 1)
  }

  function BearNode(s: DebateState, argument: string): DebateState {
    DebateState(s.history + (Heading(Bear) + argument), s.bullHistory, s.bearHistory + ("\n" + argument),
                "Bear: " + argument, s.count + 1)
  }

  /** The debate branch of `extract_content`: strip the first matching speaker tag. */
  function ExtractContent(current: string): string {
    if StartsWith(current, "Bull: ") then current[6..]
    else if StartsWith(current, "Bear: ") then current[6..]
    else current
  }

  datatype StepRecord = StepRecord(agent: Agent, round: int, content: string)

  // ---------------------------------------------------------------- the closed form of a debate

  function Speaker(turn: nat): Agent { if turn % 2 == 0 then Bull else Bear }

  /** The first n turns: strictly alternating from bull, two per round, each argument verbatim. */
  function Transcript(n: nat, speak: nat -> string): (t: seq<StepRecord>)
    ensures |t| == n
  {
    if n == 0 then [] else Transcript(n - 1, speak) + [Turn(n - 1, speak)]
  }

  lemma {:induction false} TranscriptAt(n: nat, speak: nat -> string, i: nat)
    requires i < n
    ensures Transcript(n, speak)[i] == Turn(i, speak)
  {
    if i < n - 1 { TranscriptAt(n - 1, speak, i); }
  }

  function Turn(i: nat, speak: nat -> string): StepRecord { StepRecord(Speaker(i), i / 2 + 1, speak(i)) }

  function Turns(maxRounds: int): nat { if maxRounds <= 0 then 0 else 2 * maxRounds }

  /** One side's history: its arguments in order, each on a new line. */
  function SideHistory(n: nat, speak: nat -> string, side: Agent): string {
    if n == 0 then ""
    else SideHistory(n - 1, speak, side) + if Speaker(n - 1) == side then "\n" + speak(n - 1) else []
  }

  /** The shared history: every argument in order, under its side's heading. */
  function FullHistory(n: nat, speak: nat -> string): string {
    if n == 0 then "" else FullHistory(n - 1, speak) + (Heading(Speaker(n - 1)) + speak(n - 1))
  }

  /** Each node writes its own heading above its argument. */
  lemma NodesWriteHeadings(s: DebateState, argument: string)
    ensures BullNode(s, argument).history == s.history + ("\n\n【看多研究员】\n" + argument)
    ensures BearNode(s, argument).history == s.history + ("\n\n【看空研究员】\n" + argument)
  {}

  /** The debate opens under the bull's heading and goes on under the bear's. */
  lemma DebateOpens(speak: nat -> string)
    ensures FullHistory(1, speak) == "\n\n【看多研究员】\n" + speak(0)
    ensures FullHistory(2, speak) == FullHistory(1, speak) + ("\n\n【看空研究员】\n" + speak(1))
  {
    assert FullHistory(0, speak) == "";
    assert Speaker(0) == Bull && Speaker(1) == Bear;
  }

  datatype DebateRound = DebateRound(round: int, bull: Option<StepRecord>, bear: Option<StepRecord>)

  /** The rounds a transcript of n turns groups into; a last odd turn leaves its round without a bear. */
  function Rounds(n: nat, speak: nat -> string): seq<DebateRound> {
    seq((n + 1) / 2, r requires 0 <= r < (n + 1) / 2 => RoundAt(n, speak, r))
  }

  function RoundAt(n: nat, speak: nat -> string, r: nat): DebateRound {
    DebateRound(r + 1, Some(Turn(2 * r, speak)), if 2 * r + 1 < n then Some(Turn(2 * r + 1, speak)) else None)
  }

  // ---------------------------------------------------------------- the collector

  predicate IsDebate(s: StepRecord) { !s.agent.Other? && s.round > 0 }

  /** The last step of a side in a round. */
  function LastStep(steps: seq<StepRecord>, side: Agent, round: int): Option<StepRecord> {
    if steps == [] then None
    else
      var s := steps[|steps| - 1];
      if s.agent == side && s.round == round then Some(s) else LastStep(steps[..|steps| - 1], side, round)
  }

  function RoundNumbers(steps: seq<StepRecord>): set<int> { set s | s in steps && IsDebate(s) :: s.round }

  /** The dictionary `by_round`: for each round number, the last step of each side. */
  ghost predicate ByRoundIs(byRound: map<int, (Option<StepRecord>, Option<StepRecord>)>, steps: seq<StepRecord>) {
    && byRound.Keys == RoundNumbers(steps)
    && forall r :: r in byRound ==> byRound[r] == (LastStep(steps, Bull, r), LastStep(steps, Bear, r))
  }

  function PutStep(byRound: map<int, (Option<StepRecord>, Option<StepRecord>)>, s: StepRecord)
    : map<int, (Option<StepRecord>, Option<StepRecord>)>
  {
    var bucket := if s.round in byRound then byRound[s.round] else (None, None);
    byRound[s.round := if s.agent.Bull? then (Some(s), bucket.1) else (bucket.0, Some(s))]
  }

  lemma PutStepKeeps(byRound: map<int, (Option<StepRecord>, Option<StepRecord>)>, steps: seq<StepRecord>, s: StepRecord)
    requires ByRoundIs(byRound, steps)
    ensures ByRoundIs(if IsDebate(s) then PutStep(byRound, s) else byRound, steps + [s])
  {
    var after := if IsDebate(s) then PutStep(byRound, s) else byRound;
    assert RoundNumbers(steps + [s]) == RoundNumbers(steps) + if IsDebate(s) then {s.round} else {};
    if IsDebate(s) && s.round !in byRound { NoEarlierStep(steps, s.round); }
    forall r | r in after ensures after[r] == (LastStep(steps + [s], Bull, r), LastStep(steps + [s], Bear, r)) {
      LastStepAppend(steps, s, Bull, r);
      LastStepAppend(steps, s, Bear, r);
      assert r in byRound || (IsDebate(s) && r == s.round);
    }
  }

  method GroupSteps(steps: seq<StepRecord>) returns (byRound: map<int, (Option<StepRecord>, Option<StepRecord>)>)
    ensures ByRoundIs(byRound, steps)
  {
    byRound := map[];
    for i := 0 to |steps|
      invariant ByRoundIs(byRound, steps[..i])
    {
      var s := steps[i];
      PutStepKeeps(byRound, steps[..i], s);
      assert steps[..i + 1] == steps[..i] + [s];
      if s.agent.Other? || s.round <= 0 {
        continue;
      }
      byRound := PutStep(byRound, s);
    }
    assert steps[..|steps|] == steps;
  }

  /** The given rounds, each with the last step of each side. */
  function Grouped(steps: seq<StepRecord>, numbers: seq<int>): (g: seq<DebateRound>)
    ensures |g| == |numbers|
    ensures forall k :: 0 <= k < |g| ==>
              g[k] == DebateRound(numbers[k], LastStep(steps, Bull, numbers[k]), LastStep(steps, Bear, numbers[k]))
  {
    if numbers == [] then []
    else
      var r := numbers[|numbers| - 1];
      Grouped(steps, numbers[..|numbers| - 1]) + [DebateRound(r, LastStep(steps, Bull, r), LastStep(steps, Bear, r))]
  }

  class RunCollector {
    var steps: seq<StepRecord>

    constructor ()
      ensures steps == []
    {
      steps := [];
    }

    method OnAgentCompleted(agent: Agent, round: int, current: string)
      modifies this
      ensures steps == old(steps) + [StepRecord(agent, round, ExtractContent(current))]
    {
      steps := steps + [StepRecord(agent, round, ExtractContent(current))];
    }

    /** `_build_debate_rounds`: one record per round number, holding the last step of each side. */
    method BuildDebateRounds() returns (rounds: seq<DebateRound>)
      ensures rounds == Grouped(steps, SortedRounds(RoundNumbers(steps)))
    {
      var byRound := GroupSteps(steps);
      rounds := ListRounds(byRound, steps, SortedRounds(byRound.Keys));
    }
  }

  method ListRounds(byRound: map<int, (Option<StepRecord>, Option<StepRecord>)>, ghost steps: seq<StepRecord>,
                    numbers: seq<int>) returns (rounds: seq<DebateRound>)
    requires ByRoundIs(byRound, steps) && forall r :: r in numbers ==> r in byRound
    ensures rounds == Grouped(steps, numbers)
  {
    rounds := [];
    for k := 0 to |numbers|
      invariant rounds == Grouped(steps, numbers[..k])
    {
      GroupedExtend(steps, numbers, k);
      var b := byRound[numbers[k]];
      rounds := rounds + [DebateRound(numbers[k], b.0, b.1)];
    }
    assert numbers[..|numbers|] == numbers;
  }

  lemma GroupedExtend(steps: seq<StepRecord>, numbers: seq<int>, k: nat)
    requires k < |numbers|
    ensures Grouped(steps, numbers[..k + 1])
            == Grouped(steps, numbers[..k])
               + [DebateRound(numbers[k], LastStep(steps, Bull, numbers[k]), LastStep(steps, Bear, numbers[k]))]
  {
    assert numbers[..k + 1][..k] == numbers[..k];
  }

  lemma LastStepAppend(steps: seq<StepRecord>, s: StepRecord, side: Agent, r: int)
    ensures LastStep(steps + [s], side, r)
            == if s.agent == side && s.round == r then Some(s) else LastStep(steps, side, r)
  {
    assert (steps + [s])[..|steps|] == steps;
  }

  lemma {:induction false} NoEarlierStep(steps: seq<StepRecord>, round: int)
    requires round > 0 && round !in RoundNumbers(steps)
    ensures LastStep(steps, Bull, round).None? && LastStep(steps, Bear, round).None?
  {
    if steps != [] {
      var n := |steps| - 1;
      assert steps[n] in steps;
      assert steps == steps[..n] + [steps[n]];
      NoEarlierStep(steps[..n], round);
    }
  }

  // ---------------------------------------------------------------- the loop

  lemma TagsStrip(argument: string)
    ensures ExtractContent("Bull: " + argument) == argument && ExtractContent("Bear: " + argument) == argument
    ensures StartsWith("Bull: " + argument, "Bull:") && !StartsWith("Bear: " + argument, "Bull:")
  {
    var x, y := "Bull: " + argument, "Bear: " + argument;
    assert x[..6] == "Bull: " && y[..6] == "Bear: ";
    assert x[..5] == "Bull:" && y[1] == 'e' && x[1] == 'u';
  }

  ghost predicate HistoriesAre(s: DebateState, n: nat, speak: nat -> string) {
    && s.history == FullHistory(n, speak)
    && s.bullHistory == SideHistory(n, speak, Bull) && s.bearHistory == SideHistory(n, speak, Bear)
  }

  /** What the debate state is after n turns. */
  ghost predicate AfterTurns(s: DebateState, n: nat, speak: nat -> string) {
    && s.count == n && HistoriesAre(s, n, speak)
    && s.current == if n == 0 then "" else (if Speaker(n - 1).Bull? then "Bull: " else "Bear: ") + speak(n - 1)
  }

  /** The router always lets the right side speak next. */
  lemma RouterAlternates(s: DebateState, n: nat, speak: nat -> string, maxRounds: int)
    requires AfterTurns(s, n, speak)
    ensures Router(s, maxRounds) == NextSpeaker(n, maxRounds)
  {
    if n > 0 { TagsStrip(speak(n - 1)); }
  }

  lemma BullTurn(s: DebateState, n: nat, speak: nat -> string)
    requires AfterTurns(s, n, speak) && Speaker(n).Bull?
    ensures AfterTurns(BullNode(s, speak(n)), n + 1, speak)
    ensures StepRecord(Bull, s.count / 2 + 1, ExtractContent(BullNode(s, speak(n)).current)) == Turn(n, speak)
  {
    TagsStrip(speak(n));
  }

  lemma BearTurn(s: DebateState, n: nat, speak: nat -> string)
    requires AfterTurns(s, n, speak) && Speaker(n).Bear?
    ensures AfterTurns(BearNode(s, speak(n)), n + 1, speak)
    ensures StepRecord(Bear, s.count / 2 + 1, ExtractContent(BearNode(s, speak(n)).current)) == Turn(n, speak)
  {
    TagsStrip(speak(n));
  }

  /** Who speaks after n turns, in closed form. */
  function NextSpeaker(n: nat, maxRounds: int): Next {
    if n >= 2 * maxRounds then RiskOfficer else if Speaker(n).Bull? then BullResearcher else BearResearcher
  }

  /** The `init_debate` node and its conditional edge. */
  method BeginDebate(maxRounds: int, ghost speak: nat -> string) returns (s: DebateState, next: Next)
    ensures AfterTurns(s, 0, speak) && next == NextSpeaker(0, maxRounds)
  {
    s := InitDebate();
    RouterAlternates(s, 0, speak, maxRounds);
    next := Router(s, maxRounds);
  }

  /** One node execution and its conditional edge: the step is recorded with the speaker tag stripped. */
  method TakeTurn(collector: RunCollector, s: DebateState, side: Next, maxRounds: int, speak: nat -> string,
                  ghost n: nat) returns (t: DebateState, next: Next)
    requires AfterTurns(s, n, speak) && side == NextSpeaker(n, maxRounds) && !side.RiskOfficer?
    modifies collector
    ensures AfterTurns(t, n + 1, speak) && next == NextSpeaker(n + 1, maxRounds)
    ensures collector.steps == old(collector.steps) + [Turn(n, speak)]
  {
    var round := s.count / 2 + 1;
    var argument := speak(s.count);
    if side == BullResearcher {
      BullTurn(s, n, speak);
      t := BullNode(s, argument);
      collector.OnAgentCompleted(Bull, round, t.current);
    } else {
      BearTurn(s, n, speak);
      t := BearNode(s, argument);
      collector.OnAgentCompleted(Bear, round, t.current);
    }
    RouterAlternates(t, n + 1, speak, maxRounds);
    next := Router(t, maxRounds);
  }

  lemma TranscriptGrows(before: seq<StepRecord>, n: nat, speak: nat -> string)
    ensures before + Transcript(n + 1, speak) == before + Transcript(n, speak) + [Turn(n, speak)]
  {
    assert before + (Transcript(n, speak) + [Turn(n, speak)]) == before + Transcript(n, speak) + [Turn(n, speak)];
  }

  /**
   * The debate loop: for every round limit and all argument texts it ends after exactly max(0, 2 * rounds)
   * turns and records the closed-form transcript.
   */
  method RunDebate(collector: RunCollector, maxRounds: int, speak: nat -> string) returns (final: DebateState)
    modifies collector
    ensures AfterTurns(final, Turns(maxRounds), speak)
    ensures collector.steps == old(collector.steps) + Transcript(Turns(maxRounds), speak)
  {
    var next;
    final, next := BeginDebate(maxRounds, speak);
    ghost var n: nat := 0;
    ghost var start := collector.steps;
    while next != RiskOfficer
      invariant n <= Turns(maxRounds) && AfterTurns(final, n, speak) && next == NextSpeaker(n, maxRounds)
      invariant collector.steps == start + Transcript(n, speak)
      decreases 2 * maxRounds - n
    {
      TranscriptGrows(start, n, speak);
      final, next := TakeTurn(collector, final, next, maxRounds, speak, n);
      n := n + 1;
    }
  }

  // ---------------------------------------------------------------- grouping a debate into rounds

  ghost predicate NoDebate(steps: seq<StepRecord>) { forall s :: s in steps ==> s.agent.Other? }

  predicate IsStepOf(s: StepRecord, side: Agent, r: int) { s.agent == side && s.round == r }

  lemma {:induction false} LastStepIs(steps: seq<StepRecord>, side: Agent, r: int, i: nat)
    requires i < |steps| && IsStepOf(steps[i], side, r)
    requires forall j :: i < j < |steps| ==> !IsStepOf(steps[j], side, r)
    ensures LastStep(steps, side, r) == Some(steps[i])
  {
    if i < |steps| - 1 { LastStepIs(steps[..|steps| - 1], side, r, i); }
  }

  lemma {:induction false} LastStepIsNone(steps: seq<StepRecord>, side: Agent, r: int)
    requires forall j :: 0 <= j < |steps| ==> !IsStepOf(steps[j], side, r)
    ensures LastStep(steps, side, r).None?
  {
    if steps != [] { LastStepIsNone(steps[..|steps| - 1], side, r); }
  }

  function TurnOf(side: Agent, r: int): int { 2 * (r - 1) + if side.Bull? then 0 else 1 }

  /** The step of a side in a round among the first n turns. */
  function TurnStep(n: nat, speak: nat -> string, side: Agent, r: int): Option<StepRecord> {
    if r >= 1 && TurnOf(side, r) < n then Some(Turn(TurnOf(side, r), speak)) else None
  }

  lemma WhoseTurn(i: nat, side: Agent, r: int)
    requires !side.Other?
    ensures Speaker(i) == side && i / 2 + 1 == r <==> r >= 1 && i == TurnOf(side, r)
  {}

  lemma RoundNumbersOfTranscript(before: seq<StepRecord>, n: nat, speak: nat -> string, after: seq<StepRecord>)
    requires NoDebate(before) && NoDebate(after)
    ensures forall x :: x in RoundNumbers(before + Transcript(n, speak) + after) <==> 1 <= x < 1 + (n + 1) / 2
  {
    var t := Transcript(n, speak);
    var all := before + t + after;
    forall x | 1 <= x < 1 + (n + 1) / 2 ensures x in RoundNumbers(all) {
      var s := all[|before| + 2 * (x - 1)];
      TranscriptAt(n, speak, 2 * (x - 1));
      assert s in all && IsDebate(s) && s.round == x;
    }
    forall x | x in RoundNumbers(all) ensures 1 <= x < 1 + (n + 1) / 2 {
      var s :| s in all && IsDebate(s) && s.round == x;
      assert s in t;
      var i :| 0 <= i < n && t[i] == s;
      TranscriptAt(n, speak, i);
    }
  }

  /**
   * However many turns were recorded between other agents' steps, the collector groups them into rounds
   * 1, 2, ... each with its bull and its bear (the last bear missing when the number of turns is odd).
   */
  lemma DebateGroupsIntoRounds(before: seq<StepRecord>, n: nat, speak: nat -> string, after: seq<StepRecord>)
    requires NoDebate(before) && NoDebate(after)
    ensures var steps := before + Transcript(n, speak) + after;
            Grouped(steps, SortedRounds(RoundNumbers(steps))) == Rounds(n, speak)
  {
    var steps := before + Transcript(n, speak) + after;
    var numbers := SortedRounds(RoundNumbers(steps));
    RoundNumbersOfTranscript(before, n, speak, after);
    CountingIsSorted(numbers, 1, (n + 1) / 2);
    forall k: nat | k < (n + 1) / 2 ensures RoundIs(steps, n, speak, k) {
      GroupedRound(before, n, speak, after, k);
    }
    GroupedAre(steps, numbers, n, speak);
  }

  ghost predicate RoundIs(steps: seq<StepRecord>, n: nat, speak: nat -> string, k: nat) {
    RoundAt(n, speak, k) == DebateRound(k + 1, LastStep(steps, Bull, k + 1), LastStep(steps, Bear, k + 1))
  }

  lemma GroupedAre(steps: seq<StepRecord>, numbers: seq<int>, n: nat, speak: nat -> string)
    requires |numbers| == (n + 1) / 2 && forall k :: 0 <= k < |numbers| ==> numbers[k] == 1 + k
    requires forall k: nat :: k < (n + 1) / 2 ==> RoundIs(steps, n, speak, k)
    ensures Grouped(steps, numbers) == Rounds(n, speak)
  {
    forall k: nat | k < |numbers| ensures Grouped(steps, numbers)[k] == Rounds(n, speak)[k] {
      assert RoundIs(steps, n, speak, k);
    }
  }

  lemma GroupedRound(before: seq<StepRecord>, n: nat, speak: nat -> string, after: seq<StepRecord>, k: nat)
    requires NoDebate(before) && NoDebate(after) && k < (n + 1) / 2
    ensures RoundIs(before + Transcript(n, speak) + after, n, speak, k)
  {
    LastStepInRun(before, n, speak, after, Bull, k + 1);
    LastStepInRun(before, n, speak, after, Bear, k + 1);
  }

  lemma LastStepInRun(before: seq<StepRecord>, n: nat, speak: nat -> string, after: seq<StepRecord>, side: Agent, r: int)
    requires NoDebate(before) && NoDebate(after) && !side.Other?
    ensures LastStep(before + Transcript(n, speak) + after, side, r) == TurnStep(n, speak, side, r)
  {
    var steps := before + Transcript(n, speak) + after;
    forall j | 0 <= j < |steps|
      ensures IsStepOf(steps[j], side, r) <==> r >= 1 && TurnOf(side, r) < n && j == |before| + TurnOf(side, r)
    {
      StepAt(before, n, speak, after, side, r, j);
    }
    if TurnStep(n, speak, side, r).Some? {
      TranscriptAt(n, speak, TurnOf(side, r));
      LastStepIs(steps, side, r, |before| + TurnOf(side, r));
    } else {
      LastStepIsNone(steps, side, r);
    }
  }

  lemma StepAt(before: seq<StepRecord>, n: nat, speak: nat -> string, after: seq<StepRecord>, side: Agent, r: int, j: nat)
    requires NoDebate(before) && NoDebate(after) && !side.Other? && j < |before| + n + |after|
    ensures IsStepOf((before + Transcript(n, speak) + after)[j], side, r)
            <==> r >= 1 && TurnOf(side, r) < n && j == |before| + TurnOf(side, r)
  {
    var s := (before + Transcript(n, speak) + after)[j];
    if j < |before| {
      assert s == before[j] && s in before;
    } else if j < |before| + n {
      TranscriptAt(n, speak, j - |before|);
      WhoseTurn(j - |before|, side, r);
    } else {
      assert s == after[j - |before| - n] && s in after;
    }
  }
}
