# QuantMind: a verified model of the backtest ledger and its decision machinery

QuantMind is an A-share research and simulated-trading system. Its backtest engine keeps integer-cent
books twice, once step by step and once in closed form, and refuses any run in which the two disagree.
Around it sit a lazily assembled daily market frame shared by many cron jobs, a bull/bear debate between
LLM agents, a team graph that turns arbitrary LLM text into a gated decision, and a handful of calendar
and performance loops. This project models that logic in Dafny and proves what it promises.

## What is modelled and proved

**The ledger** (`Ledger`, `GoldenReplay`, `Checkpoint`, `Attribution`, `Commutation`, `Acceptance`, `Comparator`).
A replay applies recorded fills to cash and a dictionary of lots, marks the book at the close and emits a
curve. The loops are methods proved equal to functions; about those functions:

- a replay can be cut after any day and resumed from the cash and positions of the last row alone, with
  the same curve and the same error. This needs fully sold lots, which stay in the dictionary with a stale
  cost, to be indistinguishable from absent ones;
- cash plus the book at cost drifts from opening value plus realised profit only by a floor-division dust
  with an explicit bound;
- every day's change in equity splits exactly into price moves, fills and fees, whatever mark is assumed
  for codes that end the day flat;
- a replay succeeds exactly when no prefix of its fill stream is short of any code and every day marks every
  code of positive net volume, both sums over the input; swapping same-day fills of different codes
  changes nothing; moving a BUY ahead of a SELL never breaks a replay and gives a curve that the comparator
  accepts at tolerance 0;
- the comparator matches exactly when dates, amounts within tolerance and (code, volume) multisets agree;
  it is an equivalence at tolerance 0 and tolerances add up.

**Friction** (`Rounding`, `Friction`). A fill is priced with exact real rates and half-even rounding
(roundTiesToEven, section 4.3.1 of IEEE 754-2019). A round trip never gains, and loses exactly both
slippages plus all fees if and only if the SELL clamp is idle; the unvalidated slippage table is safe for
round trips if and only if it lies in [0, 10000] bps (outside, free profit exists for every value); splitting
an order into k lowers each fee by at most (k + 1) / 2 cents.

**Auditor, portfolio and harness** (`Auditor`, `AuditRefinement`, `Portfolio`, `Harness`, `Execution`). The verdict is
CONSISTENT exactly when the cash identity, the per-code net volumes, every recorded fee and every cap hold.
Tampering with a total or a fee is always found; recorded gross and slippage amounts are never looked at.
The running portfolio, which deletes sold-out lots, is a twin of the replay, which keeps them. Every
backtest run, for arbitrary orders, bars and matching outcomes, stays solvent, never fails for want of a
closing mark, is reproduced exactly by replaying its own fills, and passes the cash, position and fee checks.
Its fills are exactly the matched orders that the closed forms of cash and shares cover, in order.

**State machines** (`FrameCache`, `Debate`, `Team`). The frame cache under any interleaving of any number of
callers, with failures and cancellations; the debate loop and its collector in closed form; the team graph's
decision as a function of three emptiness bits, a direction, the risk context and the engine.

**Loops against simple specifications** (`Calendar`, `Clock`, `Drawdown`, `PointInTime`). Trading-day walks as
select and rank including the 366-day bound, the no-look-ahead clock, the running-peak drawdown against the
quadratic definition, and the point-in-time filter.

## Results that differ from the documentation

- `agents_team` documents that a missing fund manager degrades to HOLD through the mandatory-agent gate
  (backend/agents_team/nodes.py:134-142). The parser always leaves a non-empty reasoning, so that entry of the
  gate can never fire; the HOLD then comes from the direction (`Team.FundManagerIsNeverMissing`,
  `Team.FailuresHold`). The debate-round gate cannot fire either, because the debate node always writes 1.
- The auditor re-derives fees and nets but not the recorded gross or slippage fields
  (`Auditor.GrossAndSlippageAreNotAudited`), and a SELL recorded before its BUY passes it while the replay
  refuses it (`AuditRefinement.SellBeforeBuySlipsPastTheAudit`); the two agree exactly when the auditor is
  applied to every prefix (`AuditRefinement.ReplayAcceptsIffEveryPrefixAudits`).
- The running-peak drawdown equals the worst loss over earlier positive values at every index whose value is not
  negative; at a negative value it does if and only if all positive values so far equal the peak
  (`Drawdown.NegativeValueBreaksIt`).

## Conventions

Money is integer cents. Rates, slippage bps, prices of the team graph and performance values are exact reals,
where the program uses binary floats. Raised exceptions are `Outcome.Err` values carrying the offending data
instead of a formatted message. Python's `//` is `FloorDiv`, `round` is `RoundHalfEven`, `sorted` on strings is
`SortedElements` over code points. Opening codes are assumed distinct and opening volumes non-negative exactly
where a lemma says so, because the replay checks neither; the portfolio's constructor checks both and is
modelled with its checks.

## Model

| member | source | states |
|---|---|---|
| Ledger.MakeFill | backend/backtest/golden_replay.py:62-74 | a fill is constructed exactly for a BUY/SELL side, positive volume and price, and non-negative cost |
| GoldenReplay.Book.constructor | backend/backtest/golden_replay.py:153-155 | the opening dictionary, a repeated code keeping its last lot |
| GoldenReplay.Book.ApplyFill | backend/backtest/golden_replay.py:188-211 | one fill mutates cash and its lot as the ledger function says; an over-sell is an error and changes nothing |
| GoldenReplay.Book.ApplyFills | backend/backtest/golden_replay.py:158-160 | a day's fills in order, stopping at the first error |
| GoldenReplay.MarkLots | backend/backtest/golden_replay.py:161-175 | marking in code order skips flat lots and fails at the first held code without a mark |
| GoldenReplay.Book.CloseDay | backend/backtest/golden_replay.py:161-184 | the closing row: the given date and cash, the marked value of the lots, their sum with the frozen cash, and positions that never repeat a code |
| GoldenReplay.AcceptsPositions | backend/backtest/golden_replay.py:102-109 | the row constructor accepts exactly the position lists without a repeated code |
| GoldenReplay.ReplayEquityCurve | backend/backtest/golden_replay.py:138-185 | the whole replay computes the specified curve or the first error, and the row constructor never rejects; Attribution.EveryRowMeans says what its rows are and Acceptance.ReplaySucceedsIff when it succeeds |
| GoldenReplay.AssertConservation | backend/backtest/golden_replay.py:214-238 | passes exactly when final cash is initial cash plus sale proceeds minus purchase outlays |
| GoldenReplay.ReplayConservesCash | backend/backtest/golden_replay.py:138-238 | the last cash of every successful replay satisfies the conservation identity |
| Ledger.RunConcat | backend/backtest/golden_replay.py:158-185 | replaying two blocks of days is replaying the first and then the second from the account it reached |
| Ledger.CurveRow | backend/backtest/golden_replay.py:158-185 | row i closes the account that day i's fills reach from day i - 1, and volumes stay non-negative |
| Checkpoint.MarkVisible | backend/backtest/golden_replay.py:163-166 | marking never looks at flat lots |
| Checkpoint.EmittedPositions | backend/backtest/golden_replay.py:163-184 | emitted positions are strictly sorted by code and rebuild exactly the visible lots |
| Checkpoint.ApplyFillSameBook | backend/backtest/golden_replay.py:188-211 | books that differ only in flat lots accept the same fills with the same result or the same error |
| Checkpoint.CheckpointResume | backend/backtest/golden_replay.py:152-211 | resuming from the last row's cash and positions alone gives the rest of the curve, or the same error |
| Attribution.CostBasisDust | backend/backtest/golden_replay.py:188-211 | cash plus book at cost equals opening value plus realised profit minus a dust between 0 and the sum over BUYs of new volume - 1 |
| Attribution.MarketValueIsValue | backend/backtest/golden_replay.py:161-184 | a closing row carries its date, the cash, the sum of volume times mark over the book whatever is assumed for flat codes, and the total with frozen cash |
| Attribution.EveryRowMeans | backend/backtest/golden_replay.py:158-185 | row i of a replay: day i's date, the closed-form cash of all fills so far, the book then held valued at day i's marks, the total, and positions that rebuild that book |
| Attribution.DailyAttribution | backend/backtest/golden_replay.py:158-184 | the change in equity is start volumes times mark changes plus signed fills times (mark - price) minus fees |
| Attribution.FirstDayAttribution | backend/backtest/golden_replay.py:152-184 | the same identity for the first row, from the opening book |
| Commutation.VolumesAreNet | backend/backtest/golden_replay.py:188-211 | after any accepted stream each holding is opening plus bought minus sold |
| Commutation.AcceptedIffNeverShort | backend/backtest/golden_replay.py:203-210 | a stream is accepted if and only if no prefix, summed in closed form, is short of any code |
| Acceptance.MarkFailsIff | backend/backtest/golden_replay.py:163-172 | marking fails if and only if some held code has no mark, and names the first such code in code order |
| Acceptance.ReplaySucceedsIff | backend/backtest/golden_replay.py:138-211 | a replay succeeds if and only if no prefix of the whole stream is short of a code and every day marks every code of positive net volume |
| Commutation.SwapWithinDay | backend/backtest/golden_replay.py:158-211 | swapping adjacent same-day fills of different codes changes neither success nor the curve |
| Commutation.BuyBeforeSellWithinDay | backend/backtest/golden_replay.py:158-211 | moving a BUY ahead of a same-code SELL keeps success and gives a curve that matches at tolerance 0 |
| Comparator.SortedEqualIff | backend/backtest/golden_replay.py:290-295 | comparing sorted (code, volume) lists compares multisets |
| Comparator.CompareRow | backend/backtest/golden_replay.py:267-303 | no divergence exactly when date, amounts within [-tolerance, tolerance] and holdings agree; every difference is reported and nothing else |
| Comparator.CompareToGolden | backend/backtest/golden_replay.py:241-306 | matched exactly when lengths, dates, amounts within tolerance and holdings agree on every row; the list is exactly the differences |
| Comparator.ExactMatchEquivalence | backend/backtest/golden_replay.py:241-306 | at tolerance 0 matching is reflexive, symmetric and transitive |
| Comparator.MatchesCompose | backend/backtest/golden_replay.py:278-288 | matches at tolerances s and t compose to a match at s + t |
| Rounding.RoundHalfEven | backend/backtest/friction.py:113-115 | the nearest integer, an even one on ties |
| Rounding.RoundMonotone | backend/backtest/friction.py:113-115 | rounding is monotone |
| Rounding.Rounded4Determined | backend/api/performance.py:136 | rounding to four decimals gives the one multiple of 1/10000 within 1/20000, the even one on ties |
| Friction.MakeParams | backend/backtest/friction.py:60-72 | parameters are accepted exactly when the three rates and the minimum commission are non-negative |
| Friction.SlippageIsTheTable | backend/backtest/friction.py:108-115 | the fill price moves by price times bps / 10000, up for a BUY and down for a SELL, to the nearest cent with ties to even |
| Friction.SettleBounds | backend/backtest/friction.py:153-179 | on a non-negative notional every fee is non-negative, a BUY pays gross plus fees and a SELL credits max(0, gross - fees) |
| Friction.FeesAreHalfEvenCharges | backend/backtest/friction.py:156-165 | commission is max(rate * gross, floor), stamp tax rate * gross on SELLs only, the transfer fee only where it applies, each to the nearest cent with ties to even, on the post-slippage notional |
| Friction.FeeNearCharged | backend/backtest/friction.py:156-165 | a fee is the integer nearest to max(rate * gross, floor), or to rate * gross, and the even one of two |
| Friction.PricingRefusesIff | backend/backtest/friction.py:118-150 | pricing raises exactly for a non-positive volume, a non-positive price or a board missing from the table, in that order |
| Friction.NoFreeRoundTrip | backend/backtest/friction.py:108-188 | BUY net >= SELL net >= 0, and the loss is both slippages plus all fees if and only if the SELL's fees fit in its gross |
| Friction.RoundTripSafeIff | backend/backtest/friction.py:108-188 | no round trip gains, for all prices, volumes and rates, if and only if the board's slippage lies in [0, 10000] bps |
| Friction.OrderSplittingBound | backend/backtest/friction.py:156-165 | splitting an order into k lowers commission, stamp tax and transfer fee by at most (k + 1) / 2 cents each |
| Friction.RepricingReproduces | backend/backtest/friction.py:118-188 | re-pricing at the fill price is accepted exactly when it is positive and then reproduces every fee and the net |
| Portfolio.BacktestPortfolio.Seed | backend/backtest/portfolio.py:113-137 | opens exactly with non-negative cash, distinct codes and positive volumes |
| Portfolio.BacktestPortfolio.Apply | backend/backtest/portfolio.py:151-178 | one fill as specified, a sold-out lot deleted; a refused fill changes nothing |
| Portfolio.BacktestPortfolio.Mark | backend/backtest/portfolio.py:180-217 | the closing row of the current book: date, cash, marked value of the lots and total with frozen cash |
| Portfolio.TwinStep | backend/backtest/portfolio.py:151-178 | a portfolio and a golden replay that look alike stay alike after a fill, or refuse it alike |
| Auditor.CheckCash | backend/backtest/invariants.py:84-105 | no violation exactly when final cash is initial plus SELL nets minus BUY nets |
| Auditor.CheckPositions | backend/backtest/invariants.py:108-138 | no violation exactly when no net volume is negative and the recorded holdings are the positive net volumes |
| Auditor.CheckFees | backend/backtest/invariants.py:141-178 | raises exactly for a fill that cannot be re-priced; otherwise one violation, in fill order, for each fill with a wrong charge, naming exactly its wrong charges |
| Auditor.CheckCaps | backend/backtest/invariants.py:181-217 | exactly the observations that break the single-stock inequality and those that break the total inequality are reported |
| Auditor.CheckInvariants | backend/backtest/invariants.py:220-255 | CONSISTENT exactly when cash, positions, fees and caps all hold; every broken identity, over-sold code, wrong fee and broken cap is in the report |
| Auditor.TamperedTotalsAreFound | backend/backtest/invariants.py:84-138 | changing the final cash or the final holdings of a consistent run makes it divergent |
| Auditor.TamperedFeeIsFound | backend/backtest/invariants.py:141-178 | changing any recorded fee or net of one fill makes a consistent run divergent |
| Auditor.GrossAndSlippageAreNotAudited | backend/backtest/invariants.py:141-178 | the verdict does not depend on recorded gross, slippage or date |
| AuditRefinement.ReplayPassesAudit | backend/backtest/invariants.py:84-138 | the last row of a successful replay passes the cash and position checks on the same fills |
| AuditRefinement.ReplayAcceptsIffEveryPrefixAudits | backend/backtest/invariants.py:108-138 | the replay accepts a stream if and only if the over-sold test passes on every prefix |
| AuditRefinement.SellBeforeBuySlipsPastTheAudit | backend/backtest/invariants.py:84-138 | a SELL recorded before a BUY of the same shares passes the audit and is refused by the replay |
| AuditRefinement.PricedRunPassesAudit | backend/backtest/invariants.py:84-255 | a run priced by the friction model that never over-sells has no cash, position or fee violation |
| Harness.FillPending | backend/backtest/harness.py:271-359 | pending orders fill, lapse or raise on the mutable portfolio as FillOrders says; Execution.OrderFillsIff says exactly when each |
| Harness.RunBacktest | backend/backtest/harness.py:145-256 | the day loop computes RunDays, and refuses exactly the invalid openings; Execution.RunExecutes says which orders it executes |
| Harness.FillOrdersKeep | backend/backtest/harness.py:287-358 | after any orders the book is solvent, its lots positive and markable, and its fills priced and replayable |
| Harness.MarksCover | backend/backtest/harness.py:111-129 | every held code has a closing mark, so marking never fails |
| Harness.OrderIsPriced | backend/backtest/harness.py:314-351 | an applied fill recomputes its fees, and its gross differs from the open's notional by exactly the recorded slippage |
| Harness.HaltedCodesCarryForward | backend/backtest/harness.py:111-129 | each held code is marked at its latest close, today's or the last known, down to its opening cost |
| Harness.EveryRunIsSound | backend/backtest/harness.py:145-456 | every run fails only if pricing raises; else cash never goes negative, replaying its fills gives its curve, and cash, positions and fees audit clean |
| Execution.OrderFillsIff | backend/backtest/harness.py:288-352 | a matched order at a positive price is executed if and only if a BUY's net is at most cash or a SELL's volume at most the holding; then cash, that code's shares and the fill list move by exactly it; else nothing changes, or a non-positive price raises |
| Execution.RunExecutes | backend/backtest/harness.py:145-359 | the fills of every run are exactly the matched orders covered by the cash and shares that the earlier fills leave in closed form, in order, each recorded as priced |
| Execution.RunSucceedsIff | backend/backtest/harness.py:145-359 | a run from a valid opening succeeds if and only if every matched order has a positive price |
| Execution.OneSnapshotPerDay | backend/backtest/harness.py:207-218 | one snapshot and one log entry per trading day, with that day's date |
| Execution.OpeningClosesAre | backend/backtest/harness.py:177-179 | the last known closes start as the opening codes at their opening costs |
| FrameCache.RunKeepsInv | backend/main.py:650-711 | every reachable state: the lock holder is the one caller inside, the cache is the last stored date, and only misses assemble |
| FrameCache.MutualExclusion | backend/main.py:655-711 | at most one caller is inside the locked block, and it holds the lock |
| FrameCache.LockIsFreeInTheEnd | backend/main.py:655-711 | the lock is free once every caller has returned or been cancelled |
| FrameCache.ConsecutiveStoresDiffer | backend/main.py:656-677 | for arbitrary dates, two consecutively stored frames carry different dates |
| FrameCache.AtMostOneAssemblySucceeds | backend/main.py:650-677 | if all callers want one date, a stored frame is the last event and its date stays cached |
| FrameCache.OneSuccessServesAll | backend/main.py:650-677 | a run with a success step in which all want d ends with d cached, and after that step nothing succeeds, nothing begins and every second check returns |
| FrameCache.WarmCacheNeverAssembles | backend/main.py:652-659 | a cache that holds the wanted date is never reassembled |
| FrameCache.HitReturnsAtOnce | backend/main.py:652-654 | a caller returns without the lock exactly when its date is cached |
| FrameCache.OnlySuccessWrites | backend/main.py:677-711 | every step but a successful assembly leaves the cache as it was |
| FrameCache.SuccessWrites | backend/main.py:660-676 | a successful assembly caches the caller's date, records one store, frees the lock and returns |
| FrameCache.SecondCheckDecides | backend/main.py:655-660 | under the lock, an assembly begins exactly on a miss; a hit frees the lock and returns |
| FrameCache.FailureWritesNothing | backend/main.py:677-711 | a failed assembly writes nothing and frees the lock, at once or after the alert |
| FrameCache.LeavingFreesTheLock | backend/main.py:655-711 | in every reachable state, leaving the locked block by any step frees the lock, and any other step inside keeps it |
| FrameCache.StepsAreBounded | backend/main.py:650-711 | each own step brings a caller closer to returning, and no other caller's step moves it |
| FrameCache.NoDeadlock | backend/main.py:650-711 | while a caller has not left, some caller can take a step |
| Debate.RouterAlternates | backend/agents/graph.py:36-56 | after n turns the router picks bull on even n, bear on odd n, and ends at 2 * max_rounds |
| Debate.TagsStrip | backend/agents/collector.py:53-59 | stripping the speaker tag recovers the argument, even one that begins with a tag |
| Debate.RunCollector.OnAgentCompleted | backend/agents/collector.py:126-147 | appends the step with the tag stripped |
| Debate.RunCollector.BuildDebateRounds | backend/agents/collector.py:330-351 | one record per round number in order, holding the last step of each side |
| Debate.TakeTurn | backend/agents/graph.py:87-116 | one node execution extends the histories and records the closed-form step |
| Debate.NodesWriteHeadings | backend/agents/bull_researcher.py:59-66 | each side appends its argument under its own heading text |
| Debate.DebateOpens | backend/agents/bear_researcher.py:55-62 | the history opens with the bull's heading and first argument, then the bear's |
| Debate.RunDebate | backend/agents/graph.py:223-258 | ends after exactly max(0, 2 * max_rounds) turns with the closed-form histories and transcript |
| Debate.DebateGroupsIntoRounds | backend/agents/collector.py:330-351 | any number of turns groups into rounds 1, 2, ... with one bull and one bear each, the last bear missing if odd |
| Team.ScheduleIsIrrelevant | backend/agents_team/graph.py:114-121 | any completion order of the three analysts gives the same state |
| Team.CompletionFailsClosed | backend/agents_team/agents.py:76-114 | a report is the reply verbatim, present exactly when the router answered with a non-blank text |
| Team.DirectionIsTheAction | backend/agents_team/agents.py:338-354 | BUY and SELL exactly for their extracted actions, and a parse failure exactly for any other |
| Team.FundManagerIsNeverMissing | backend/agents_team/agents.py:338-354 | the parsed reasoning is never empty, and a parse failure proposes HOLD |
| Team.ReasoningIs | backend/agents_team/agents.py:338-354 | the text is the extracted reasoning, or failing that the reply, trimmed and cut at 4096 characters, or a fixed note when both are blank |
| Team.TrimIsUnique | backend/agents_team/agents.py:338-354 | a text has one trimming: the slice with only blanks around it and none at its ends |
| Team.DecisionIsVerdict | backend/agents_team/nodes.py:74-173 | the decision and its reason are a function of the silent analysts, the direction, the risk context and the engine |
| Team.DecisionNonInterference | backend/agents_team/nodes.py:54-173 | different texts, extraction, traders and schedules cannot change the decision while those bits agree |
| Team.BuildOkIff | backend/agents_team/nodes.py:145-173 | BUILD_OK exactly when all reports are present, a BUY or SELL was parsed, the risk context is complete and the engine passes |
| Team.FailuresHold | backend/agents_team/agents.py:76-114 | a missing router or a parse failure always ends in HOLD |
| Team.BridgeIsFaithful | backend/agents_team/agents.py:362-382 | the bridge carries the direction the risk gate checked, HOLD on a parse failure, and the proposal's text trimmed again, 1 to 4096 characters |
| Calendar.NextTradingDay | backend/data/trading_calendar.py:55-64 | the least later trading day, or an error exactly when none lies within 366 days |
| Calendar.IterTradingDays | scripts/simulate_n_trading_days.py:157-173 | yields the first count trading days from start; fails exactly when a gap over 366 days comes before the last |
| Calendar.WalkNTradingDays | scripts/acceptance_dashboard.py:190-203 | the trading day with exactly n trading days in [start, d]; fails exactly under the same condition |
| Calendar.CountTradingDays | backend/main.py:726-753 | None exactly for a malformed or future date, else the number of trading days in (date, end] |
| Calendar.RankAdditive | backend/main.py:748-753 | counting is additive over adjacent intervals |
| Calendar.NthUnique | scripts/acceptance_dashboard.py:190-203 | the n-th trading day is unique |
| Calendar.SelectAndRankAreInverse | scripts/simulate_n_trading_days.py:157-173 | the iterated days are exactly the trading days up to the walked day, each at the index of its rank |
| Clock.MakeClock | backend/backtest/event_loop.py:101-109 | a clock over the sorted distinct days, refused exactly for no days or a malformed date |
| Clock.BacktestClock.Advance | backend/backtest/event_loop.py:123-128 | moves to a strictly later day, or returns None exactly at the last day without moving |
| Clock.BacktestClock.AssertReadable | backend/backtest/event_loop.py:130-139 | refuses exactly the days after the cursor |
| Clock.VisitsEveryDayInOrder | backend/backtest/event_loop.py:94-128 | the k-th advance reaches day k, none skipped or repeated, and rests on the last |
| Clock.ReadableIffVisited | backend/backtest/event_loop.py:130-139 | a calendar day is readable exactly when it has been visited |
| Clock.ReadableForever | backend/backtest/event_loop.py:123-139 | a readable day stays readable over any further calls |
| Clock.LexicographicIsNumeric | backend/backtest/event_loop.py:28-29 | on equally long digit strings, string order is numeric order |
| Drawdown.ComputeDrawdownCurve | backend/api/performance.py:125-137 | every point is the running-peak drawdown to four decimals; at a non-negative value, the worst loss over earlier positive values rounded half-even to 1/10000 |
| Drawdown.DrawdownIsWorstLoss | backend/api/performance.py:125-137 | at a non-negative value it is the worst loss over earlier positive values, or 0 when there is none |
| Drawdown.NegativeValueBreaksIt | backend/api/performance.py:125-137 | at a negative value it is if and only if all positive values so far equal the peak |
| Drawdown.MaxDrawdownLoop | backend/api/performance.py:169-177 | the least of 0 and all drawdowns |
| Drawdown.LeastDrawdownIsMaxLoss | backend/api/performance.py:169-177 | on non-negative values the loop's minimum is the least of 0 and every loss from an earlier positive value |
| Drawdown.MaxDrawdownMetric | backend/api/performance.py:140-207 | the reported maximum is the least point of the curve, including the early exits, and on non-negative values the least of 0 and all losses, rounded half-even to 1/10000 |
| PointInTime.ObservableIndexCloses | backend/main.py:240-288 | the closes of the observable rows, or nothing when there are none or the last is stale |
| PointInTime.FreshResultSelects | backend/main.py:262-288 | a fresh result lists the closes of exactly the observable rows in row order; any other result is empty |
| PointInTime.UnobservableRowsAreInvisible | backend/main.py:262-284 | rows after the cutoff or with unusable closes or dates never change the result |
| PointInTime.FreshnessIff | backend/main.py:284-288 | on ascending rows the result is non-empty exactly when some observable row is recent enough |
| PointInTime.EarlierCutoffIsPrefix | backend/main.py:262-288 | non-empty results for two cutoffs are prefixes of one another |

## Left out

- Binary floating point: rates, slippage and performance values are exact reals; rounding error of floats is not modelled.
- The strategy, score provider, harsh-fill pricing and the next-bar decision step: orders and matching outcomes are arbitrary inputs of the run.
- Recording of exposure observations and the harness statistics: the caps check takes any observations.
- Per-position market values in the portfolio's snapshots: the closing row carries code, volume and cost.
- The decision-vector comparator of backend/backtest/golden_vector.py and the bar gates of event_loop.py: easy comparisons.
- The tick loop of scripts/simulate_n_trading_days.py beyond its calendar walk, and the pass-date projection.
- What an assembly does and the alert it sends: it succeeds with the wanted date, fails, or is cancelled; alert de-duplication is not modelled.
- Prompts and the way reports flow into them: every reply is arbitrary, which covers any prompt. The trader block is an arbitrary string.
- The risk engine and the JSON extraction: arbitrary functions. Timestamps and order ids of the risk-check order are dropped.
- The collector's timing, event emission, failed-step status and the assembled analysis record other than its rounds.
- A node raising in mid-debate: the run then ends; the grouping lemma covers every number of recorded turns.
- LangGraph's recursion limit and checkpointing, budget reservation in run_shortlist, persona registry, audit stores, API routes, data fetching and the frontend.
- Unicode digits that `isdigit` accepts beyond ASCII, and the ends of Python's date range.
- Annualised return, Sharpe ratio, win rate and turnover of the performance report.
