/**
 * The agents_team decision graph (backend/agents_team): three analysts in parallel, a debate fan-in, the
 * fund manager, the risk gate and the builder. Every LLM reply, the JSON extraction and the risk engine
 * are arbitrary; the graph around them is proved to decide from a handful of bits.
 */
module Team {
  import opened Outcome

  // ---------------------------------------------------------------- text

  predicate IsSpace(c: char) {
    || '\t' <= c <= '\r' || '\U{1C}' <= c <= ' ' || c == '\U{85}' || c == '\U{A0}' || c == '\U{1680}'
    || '\U{2000}' <= c <= '\U{200A}' || c == '\U{2028}' || c == '\U{2029}' || c == '\U{202F}' || c == '\U{205F}'
    || c == '\U{3000}'
  }

  function LeftStrip(s: string): string { if s != [] && IsSpace(s[0]) then LeftStrip(s[1..]) else s }

  function RightStrip(s: string): string {
    if s != [] && IsSpace(s[|s| - 1]) then RightStrip(s[..|s| - 1]) else s
  }

  function Strip(s: string): string { RightStrip(LeftStrip(s)) }

  function Truncate(s: string): (r: string)
    ensures r <= s && |r| == (if |s| < 4096 then |s| else 4096) && (|s| <= 4096 ==> r == s)
  {
    if |s| <= 4096 then s else s[..4096]
  }

  ghost predicate IsBlank(s: string) { forall i :: 0 <= i < |s| ==> IsSpace(s[i]) }

  lemma {:induction false} RightStripBlank(s: string)
    ensures RightStrip(s) == "" <==> IsBlank(s)
  {
    if s != [] && IsSpace(s[|s| - 1]) { RightStripBlank(s[..|s| - 1]); }
  }

  lemma {:induction false} LeftStripBlank(s: string)
    ensures IsBlank(LeftStrip(s)) <==> IsBlank(s)
  {
    if s != [] && IsSpace(s[0]) {
      LeftStripBlank(s[1..]);
      assert s == [s[0]] + s[1..];
    }
  }

  lemma StripBlank(s: string)
    ensures Strip(s) == "" <==> IsBlank(s)
  {
    RightStripBlank(LeftStrip(s));
    LeftStripBlank(s);
  }

  /** The slice of s with nothing but blanks around it and no blank at either end. */
  ghost predicate IsTrim(s: string, r: string) {
    exists i: nat, j: nat :: i <= j <= |s| && TrimmedAt(s, r, i, j)
  }

  ghost predicate TrimmedAt(s: string, r: string, i: nat, j: nat)
    requires i <= j <= |s|
  {
    && r == s[i..j]
    && (forall k :: 0 <= k < i ==> IsSpace(s[k])) && (forall k :: j <= k < |s| ==> IsSpace(s[k]))
    && (r != "" ==> !IsSpace(r[0]) && !IsSpace(r[|r| - 1]))
  }

  lemma {:induction false} LeftStripAt(s: string) returns (i: nat)
    ensures i <= |s| && LeftStrip(s) == s[i..] && IsBlank(s[..i]) && (i < |s| ==> !IsSpace(s[i]))
  {
    if s != [] && IsSpace(s[0]) {
      var k := LeftStripAt(s[1..]);
      i := k + 1;
      assert s[1..][k..] == s[i..] && s[..i] == [s[0]] + s[1..][..k];
    } else {
      i := 0;
    }
  }

  lemma {:induction false} RightStripAt(s: string) returns (j: nat)
    ensures j <= |s| && RightStrip(s) == s[..j] && IsBlank(s[j..]) && (j > 0 ==> !IsSpace(s[j - 1]))
  {
    if s != [] && IsSpace(s[|s| - 1]) {
      var n := |s| - 1;
      j := RightStripAt(s[..n]);
      assert s[..n][..j] == s[..j] && s[j..] == s[..n][j..] + [s[n]];
    } else {
      j := |s|;
    }
  }

  lemma StripIsTrim(s: string)
    ensures IsTrim(s, Strip(s))
  {
    var i := LeftStripAt(s);
    var left := s[i..];
    var j := RightStripAt(left);
    assert left[..j] == s[i..i + j];
    forall k | 0 <= k < i ensures IsSpace(s[k]) { assert s[..i][k] == s[k]; }
    forall k | i + j <= k < |s| ensures IsSpace(s[k]) { assert left[j..][k - i - j] == s[k]; }
    assert TrimmedAt(s, Strip(s), i, i + j);
  }

  /** There is only one such slice, so trimming is determined by its ends. */
  lemma TrimIsUnique(s: string, r: string, t: string)
    requires IsTrim(s, r) && IsTrim(s, t)
    ensures r == t
  {
    var i: nat, j: nat :| i <= j <= |s| && TrimmedAt(s, r, i, j);
    var k: nat, l: nat :| k <= l <= |s| && TrimmedAt(s, t, k, l);
    EndsInside(s, r, i, j, t, k, l);
    EndsInside(s, t, k, l, r, i, j);
  }

  lemma EndsInside(s: string, r: string, i: nat, j: nat, t: string, k: nat, l: nat)
    requires i <= j <= |s| && TrimmedAt(s, r, i, j) && k <= l <= |s| && TrimmedAt(s, t, k, l)
    ensures r != "" ==> k <= i && j <= l
  {
    if r != "" { assert r[0] == s[i] && r[|r| - 1] == s[j - 1]; }
  }

  /** The first 4096 characters of the trimmed text. */
  ghost predicate IsTrimmedCut(s: string, r: string) {
    exists t :: IsTrim(s, t) && r <= t && |r| == if |t| < 4096 then |t| else 4096
  }

  lemma CutOfStrip(s: string)
    ensures IsTrimmedCut(s, Truncate(Strip(s)))
    ensures !IsBlank(s) ==> !IsBlank(Truncate(Strip(s)))
  {
    StripIsTrim(s);
    StripBlank(s);
    var cut := Truncate(Strip(s));
    if !IsBlank(s) { assert cut[0] == Strip(s)[0]; }
  }

  lemma NotesAreNotBlank()
    ensures !IsBlank("(no reasoning supplied)") && !IsBlank("LLM response could not be parsed (forced HOLD)")
  {
    assert "(no reasoning supplied)"[22] == ')' && "LLM response could not be parsed (forced HOLD)"[45] == ')';
  }

  // ---------------------------------------------------------------- agents

  datatype Agent = FundamentalAnalyst | TechnicalAnalyst | RiskOfficer | FundManager

  datatype Reply = Raised | BadShape | NotText | Text(content: string)

  datatype Direction = BUY | SELL | HOLD | Unset

  /** What the JSON extraction finds in a reply: the action and the reasoning, as strings. */
  datatype Envelope = Envelope(action: string, reasoning: string)

  datatype Order = Order(code: string, volume: int, price: real, direction: Direction)
  datatype RiskResult = RiskResult(passed: bool, rule: string)

  datatype Context = Context(
    router: Option<Agent -> Reply>,
    extract: string -> Option<Envelope>,
    engine: Order -> RiskResult,
    hasDailyState: bool,
    hasStockMeta: bool,
    traderAdvice: string)

  datatype Candidate = Candidate(code: string, volume: int, price: real)

  datatype Decision = BuildOk | DecidedHold | Rejected
  datatype Reason =
    | MandatoryMissing(agents: seq<Agent>) | NoDebateRound | FundManagerHold(direction: Direction)
    | RiskRejected(rule: string) | AllGatesPassed

  datatype TeamState = TeamState(
    candidate: Candidate, fundamental: string, technical: string, riskOfficer: string, reasoning: string,
    rounds: int, advice: string, direction: Direction, parseOk: bool, risk: RiskResult,
    decision: Option<(Decision, Reason)>)

  function Initial(c: Candidate): TeamState {
    TeamState(c, "", "", "", "", 0, "", Unset, false, RiskResult(false, ""), None)
  }

  /** Fail-closed completion: no router, an exception, a bad shape or a blank text all give the empty report. */
  function Complete(ctx: Context, agent: Agent): string {
    if ctx.router.None? then ""
    else
      match ctx.router.value(agent)
      case Text(content) => if Strip(content) == "" then "" else content
      case _ => ""
  }

  /** A report is the reply verbatim, and it is there exactly when the router answered with a text that is not blank. */
  lemma CompletionFailsClosed(ctx: Context, agent: Agent)
    ensures Complete(ctx, agent) != "" <==>
            && ctx.router.Some? && ctx.router.value(agent).Text? && !IsBlank(ctx.router.value(agent).content)
    ensures Complete(ctx, agent) != "" ==> Complete(ctx, agent) == ctx.router.value(agent).content
  {
    if ctx.router.Some? && ctx.router.value(agent).Text? { StripBlank(ctx.router.value(agent).content); }
  }

  function AnalystNode(s: TeamState, ctx: Context, agent: Agent): TeamState {
    match agent
    case FundamentalAnalyst => s.(fundamental := Complete(ctx, agent))
    case TechnicalAnalyst => s.(technical := Complete(ctx, agent))
    case RiskOfficer => s.(riskOfficer := Complete(ctx, agent))
    case FundManager => s
  }

  function DebateNode(s: TeamState): TeamState { s.(rounds := 1) }

  function TradersNode(s: TeamState, ctx: Context): TeamState { s.(advice := ctx.traderAdvice) }

  function ActionDirection(action: string): Option<Direction> {
    if action == "买入" then Some(BUY)
    else if action == "卖出" then Some(SELL)
    else if action == "持有" then Some(HOLD)
    else None
  }

  datatype Parsed = Parsed(direction: Direction, reasoning: string, ok: bool)

  function ParseFundManager(ctx: Context, raw: string): Parsed {
    var data := ctx.extract(raw);
    var direction := if data.None? then None else ActionDirection(data.value.action);
    if direction.Some? then
      var reasoning := Strip(data.value.reasoning);
      var text :=
        if reasoning != "" then reasoning else if Strip(raw) != "" then Strip(raw) else "(no reasoning supplied)";
      Parsed(direction.value, Truncate(text), true)
    else
      Parsed(HOLD, if Strip(raw) != "" then Truncate(Strip(raw)) else "LLM response could not be parsed (forced HOLD)",
             false)
  }

  function FundManagerNode(s: TeamState, ctx: Context): TeamState {
    var p := ParseFundManager(ctx, Complete(ctx, FundManager));
    s.(direction := p.direction, reasoning := p.reasoning, parseOk := p.ok)
  }

  // ---------------------------------------------------------------- deterministic gates

  predicate Routable(d: Direction) { d.BUY? || d.SELL? }

  function DeriveOrder(s: TeamState): Order {
    Order(s.candidate.code, s.candidate.volume, s.candidate.price, s.direction)
  }

  function RiskGateNode(s: TeamState, ctx: Context): TeamState {
    s.(risk :=
      if !Routable(s.direction) then RiskResult(false, "not_routed")
      else if !ctx.hasDailyState || !ctx.hasStockMeta then RiskResult(false, "risk_context_incomplete")
      else ctx.engine(DeriveOrder(s)))
  }

  function MissingMandatory(s: TeamState): seq<Agent> {
    (if s.fundamental == "" then [FundamentalAnalyst] else [])
    + (if s.technical == "" then [TechnicalAnalyst] else [])
    + (if s.riskOfficer == "" then [RiskOfficer] else [])
    + (if s.reasoning == "" then [FundManager] else [])
  }

  function BuilderNode(s: TeamState): TeamState {
    s.(decision := Some(
      if MissingMandatory(s) != [] then (DecidedHold, MandatoryMissing(MissingMandatory(s)))
      else if s.rounds < 1 then (DecidedHold, NoDebateRound)
      else if !Routable(s.direction) then (DecidedHold, FundManagerHold(s.direction))
      else if !s.risk.passed then (Rejected, RiskRejected(s.risk.rule))
      else (BuildOk, AllGatesPassed)))
  }

  // ---------------------------------------------------------------- the graph

  function RunAnalysts(s: TeamState, ctx: Context, schedule: seq<Agent>): TeamState {
    if schedule == [] then s
    else AnalystNode(RunAnalysts(s, ctx, schedule[..|schedule| - 1]), ctx, schedule[|schedule| - 1])
  }

  /** A schedule of the parallel stage: each analyst completes once, in some order. */
  predicate IsSchedule(schedule: seq<Agent>) {
    |schedule| == 3 && FundamentalAnalyst in schedule && TechnicalAnalyst in schedule && RiskOfficer in schedule
  }

  function RunTeam(c: Candidate, ctx: Context, schedule: seq<Agent>): TeamState {
    var analysed := RunAnalysts(Initial(c), ctx, schedule);
    BuilderNode(RiskGateNode(FundManagerNode(TradersNode(DebateNode(analysed), ctx), ctx), ctx))
  }

  // ---------------------------------------------------------------- what the decision depends on

  /** Whatever the completion order, each report key holds its own analyst's completion. */
  lemma ScheduleIsIrrelevant(s: TeamState, ctx: Context, schedule: seq<Agent>)
    requires IsSchedule(schedule)
    ensures RunAnalysts(s, ctx, schedule)
            == s.(fundamental := Complete(ctx, FundamentalAnalyst), technical := Complete(ctx, TechnicalAnalyst),
                  riskOfficer := Complete(ctx, RiskOfficer))
  {
    var x, y, z := schedule[0], schedule[1], schedule[2];
    assert schedule == [x, y, z];
    assert schedule[..2] == [x, y] && [x, y][..1] == [x] && [x][..0] == [];
    assert RunAnalysts(s, ctx, [x]) == AnalystNode(s, ctx, x);
    assert RunAnalysts(s, ctx, [x, y]) == AnalystNode(AnalystNode(s, ctx, x), ctx, y);
  }

  function Proposal(ctx: Context): Parsed { ParseFundManager(ctx, Complete(ctx, FundManager)) }

  /** The mandatory analysts whose report is empty, in the fixed order. */
  function MissingAnalysts(ctx: Context): seq<Agent> {
    (if Complete(ctx, FundamentalAnalyst) == "" then [FundamentalAnalyst] else [])
    + (if Complete(ctx, TechnicalAnalyst) == "" then [TechnicalAnalyst] else [])
    + (if Complete(ctx, RiskOfficer) == "" then [RiskOfficer] else [])
  }

  /** The terminal decision as a function of three emptiness bits, the direction, the context and the engine. */
  function Verdict(c: Candidate, missing: seq<Agent>, direction: Direction, ctx: Context): (Decision, Reason) {
    if missing != [] then (DecidedHold, MandatoryMissing(missing))
    else if !Routable(direction) then (DecidedHold, FundManagerHold(direction))
    else if !ctx.hasDailyState || !ctx.hasStockMeta then (Rejected, RiskRejected("risk_context_incomplete"))
    else
      var r := ctx.engine(Order(c.code, c.volume, c.price, direction));
      if r.passed then (BuildOk, AllGatesPassed) else (Rejected, RiskRejected(r.rule))
  }

  /** The fund manager always leaves a reasoning, so its own mandatory gate can never fire. */
  lemma FundManagerIsNeverMissing(ctx: Context, raw: string)
    ensures ParseFundManager(ctx, raw).reasoning != ""
    ensures ParseFundManager(ctx, raw).direction.Unset? == false
    ensures !ParseFundManager(ctx, raw).ok ==> ParseFundManager(ctx, raw).direction == HOLD
  {}

  lemma ParsedReasoningIs(ctx: Context, raw: string)
    requires ParseFundManager(ctx, raw).ok
    ensures
      var given, text := ctx.extract(raw).value.reasoning, ParseFundManager(ctx, raw).reasoning;
      && !IsBlank(text) && |text| <= 4096
      && if !IsBlank(given) then IsTrimmedCut(given, text)
         else if !IsBlank(raw) then IsTrimmedCut(raw, text)
         else text == "(no reasoning supplied)"
  {
    var given := ctx.extract(raw).value.reasoning;
    CutOfStrip(given);
    StripBlank(given);
    CutOfStrip(raw);
    StripBlank(raw);
    NotesAreNotBlank();
  }

  lemma UnparsedReasoningIs(ctx: Context, raw: string)
    requires !ParseFundManager(ctx, raw).ok
    ensures
      var text := ParseFundManager(ctx, raw).reasoning;
      && !IsBlank(text) && |text| <= 4096
      && if !IsBlank(raw) then IsTrimmedCut(raw, text) else text == "LLM response could not be parsed (forced HOLD)"
  {
    CutOfStrip(raw);
    StripBlank(raw);
    NotesAreNotBlank();
  }

  /**
   * The proposal's text: the extracted reasoning of a parsed reply, else the whole reply, trimmed and cut at
   * 4096 characters; a fixed note when both are blank.
   */
  lemma ReasoningIs(ctx: Context, raw: string)
    ensures
      var found, p := ctx.extract(raw), ParseFundManager(ctx, raw);
      && !IsBlank(p.reasoning) && |p.reasoning| <= 4096
      && if p.ok && !IsBlank(found.value.reasoning) then IsTrimmedCut(found.value.reasoning, p.reasoning)
         else if !IsBlank(raw) then IsTrimmedCut(raw, p.reasoning)
         else p.reasoning == if p.ok then "(no reasoning supplied)" else "LLM response could not be parsed (forced HOLD)"
  {
    if ParseFundManager(ctx, raw).ok { ParsedReasoningIs(ctx, raw); } else { UnparsedReasoningIs(ctx, raw); }
  }

  /** The proposal is a trade exactly when the extracted action names that trade; any other action is a parse failure. */
  lemma DirectionIsTheAction(ctx: Context, raw: string)
    ensures
      var found, p := ctx.extract(raw), ParseFundManager(ctx, raw);
      && (p.direction == BUY <==> found.Some? && found.value.action == "买入")
      && (p.direction == SELL <==> found.Some? && found.value.action == "卖出")
      && (p.ok <==> found.Some? && found.value.action in {"买入", "卖出", "持有"})
  {
    assert "买入"[0] != "卖出"[0] && "买入"[0] != "持有"[0] && "卖出"[0] != "持有"[0];
  }

  lemma DecisionIsVerdict(c: Candidate, ctx: Context, schedule: seq<Agent>)
    requires IsSchedule(schedule)
    ensures RunTeam(c, ctx, schedule).decision
            == Some(Verdict(c, MissingAnalysts(ctx), Proposal(ctx).direction, ctx))
  {
    ScheduleIsIrrelevant(Initial(c), ctx, schedule);
    FundManagerIsNeverMissing(ctx, Complete(ctx, FundManager));
    MissingIs(RunTeam(c, ctx, schedule), ctx);
  }

  lemma MissingIs(s: TeamState, ctx: Context)
    requires s.fundamental == Complete(ctx, FundamentalAnalyst) && s.technical == Complete(ctx, TechnicalAnalyst)
    requires s.riskOfficer == Complete(ctx, RiskOfficer) && s.reasoning != ""
    ensures MissingMandatory(s) == MissingAnalysts(ctx)
  {}

  /**
   * Non-interference: two runs on the same candidate, risk context and engine, with entirely different LLM
   * replies, extraction, traders and analyst schedules, end in the same decision for the same reason as soon
   * as the same analysts are silent and the same direction is proposed.
   */
  lemma DecisionNonInterference(c: Candidate, x: Context, y: Context, s: seq<Agent>, t: seq<Agent>)
    requires IsSchedule(s) && IsSchedule(t)
    requires x.engine == y.engine && x.hasDailyState == y.hasDailyState && x.hasStockMeta == y.hasStockMeta
    requires MissingAnalysts(x) == MissingAnalysts(y) && Proposal(x).direction == Proposal(y).direction
    ensures RunTeam(c, x, s).decision == RunTeam(c, y, t).decision
  {
    DecisionIsVerdict(c, x, s);
    DecisionIsVerdict(c, y, t);
  }

  /** BUILD_OK exactly when nothing is missing and the engine passed the order built from the numbers alone. */
  lemma BuildOkIff(c: Candidate, ctx: Context, schedule: seq<Agent>)
    requires IsSchedule(schedule)
    ensures
      RunTeam(c, ctx, schedule).decision.value.0.BuildOk? <==>
        && Complete(ctx, FundamentalAnalyst) != "" && Complete(ctx, TechnicalAnalyst) != ""
        && Complete(ctx, RiskOfficer) != ""
        && Proposal(ctx).ok && Routable(Proposal(ctx).direction)
        && ctx.hasDailyState && ctx.hasStockMeta
        && ctx.engine(Order(c.code, c.volume, c.price, Proposal(ctx).direction)).passed
  {
    DecisionIsVerdict(c, ctx, schedule);
    FundManagerIsNeverMissing(ctx, Complete(ctx, FundManager));
  }

  /** Without a router, or when the proposal cannot be parsed, the run ends in HOLD. */
  lemma FailuresHold(c: Candidate, ctx: Context, schedule: seq<Agent>)
    requires IsSchedule(schedule) && (ctx.router.None? || !Proposal(ctx).ok)
    ensures RunTeam(c, ctx, schedule).decision.value.0 == DecidedHold
  {
    DecisionIsVerdict(c, ctx, schedule);
    FundManagerIsNeverMissing(ctx, Complete(ctx, FundManager));
  }

  // ---------------------------------------------------------------- the bridge to the plan builder

  datatype FundManagerOutput = FundManagerOutput(side: Direction, proposalText: string, parseOk: bool)

  function ToFundManagerOutput(s: TeamState): FundManagerOutput {
    var text := Strip(s.reasoning);
    FundManagerOutput(if s.direction.Unset? then HOLD else s.direction,
                      Truncate(if text != "" then text else "(no reasoning supplied)"), s.parseOk)
  }

  lemma BridgeTrims(s: TeamState)
    requires !IsBlank(s.reasoning) && |s.reasoning| <= 4096
    ensures var text := ToFundManagerOutput(s).proposalText; IsTrim(s.reasoning, text) && 0 < |text| <= 4096
  {
    StripIsTrim(s.reasoning);
    StripBlank(s.reasoning);
  }

  /** The bridge carries the very direction the risk gate checked, and a parse failure never carries a trade. */
  lemma BridgeIsFaithful(c: Candidate, ctx: Context, schedule: seq<Agent>)
    requires IsSchedule(schedule)
    ensures var s := RunTeam(c, ctx, schedule);
            var out := ToFundManagerOutput(s);
            && out.side == DeriveOrder(s).direction
            && out.parseOk == Proposal(ctx).ok && (!out.parseOk ==> out.side == HOLD)
            && 0 < |out.proposalText| <= 4096
            && IsTrim(Proposal(ctx).reasoning, out.proposalText)
  {
    ScheduleIsIrrelevant(Initial(c), ctx, schedule);
    FundManagerIsNeverMissing(ctx, Complete(ctx, FundManager));
    ReasoningIs(ctx, Complete(ctx, FundManager));
    BridgeTrims(RunTeam(c, ctx, schedule));
  }
}
