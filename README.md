# AI-augmented swing trading: the backtest engine and its rules, in Dafny

This project models the deterministic core of a long-only BTCUSDT swing-trading
system. Rules produce a trade candidate. An AI decision provider then says
ALLOW, DENY or REDUCE, and risk rules size, stop and guard the trade. A
backtest replays 4h bars in three experiment modes:

- `baseline` never asks the AI;
- `ai_filter` skips DENY decisions;
- `ai_filter_sizing` also scales the risk budget by the AI's confidence.

Metrics and a four-check go/no-go gate then compare the AI modes against the
baseline.

Modules, following the source files. `Domain` gathers the records of two
files, and `RunnerProperties` holds the lemmas about the runner:

- `Wrappers`: `Option` and `Result`.
- `Schemas` (`ai/schemas.py`): the strict decision schema, the conservative
  DENY record, the fail-to-DENY parsing of model text, and snapshot validation.
- `Domain` (`types.py`, `backtest/types.py`): the records; slippage-adjusted
  fills and realised P&L; the weekly-drawdown formula shared by the backtest
  and the paper account.
- `RiskRules` (`risk/rules.py`): global guards, position size, ATR stop, time stop.
- `Candidates` (`strategy/candidates.py`): the pullback candidate filter.
- `AiProvider` (`backtest/ai_provider.py`): the heuristic offline decision ladder.
- `Pipeline` (`pipeline.py`): the live risk-budget policy, the live degraded
  decision, the exposure cap and the ATR label.
- `Paper` (`exec/paper.py`): the paper account as a class whose methods update
  its fields in place.
- `Metrics` (`backtest/metrics.py`): summary metrics, max drawdown with
  recovery bars, segments, and the go/no-go gate. The two loops of the source
  are methods proved against specification functions.
- `Runner` (`backtest/runner.py`): the pure helpers, the bar loop as a fold
  `RunTo` of `Step` over the bars with an imperative `RunSingleMode` proved
  equal to it, and the three-mode suite.
- `RunnerProperties`: what every run keeps true:
  - equity is the initial equity plus the realised P&L;
  - the loss streak counts the trailing losing trades;
  - one curve point per processed bar;
  - trades in time order;
  - only the forced close is `end_of_data`;
  - a provider that always denies never trades;
  - the baseline ignores the provider.

Modelling conventions:

- Prices and equity are `real`.
- Timestamps are integer seconds.
- The ISO week number is a function given to the run.
- The indicator computation and the decision provider are parameters of the
  run. The indicators may fail with a message; the provider answers with a
  decision or a transport error.

## Model

| member | source | states |
|---|---|---|
| Schemas.DenyDefault | src/ai_trading/ai/schemas.py:41-49 | a valid DENY with confidence 0, flag INVALID_RESPONSE and the given reason |
| Schemas.Validate | src/ai_trading/ai/schemas.py:31-39 | an accepted payload yields a valid decision, has no extra keys, and carries that decision and confidence; the list fields are the payload's strings, [] when absent |
| Schemas.StringListOf | src/ai_trading/ai/schemas.py:37-38 | an absent list field is [], a non-list is "not a list", an array is its strings or "not a string" |
| Schemas.BadListFieldIsDenied | src/ai_trading/ai/schemas.py:37-38 | a `risk_flags` or `key_reasons` value that is not an array of strings fails validation and gives the DENY default |
| Schemas.ParseStrict | src/ai_trading/ai/schemas.py:51-57 | always a valid decision: the validated one, or DENY with INVALID_RESPONSE when validation fails |
| Schemas.ParseStrictRoundTrip | src/ai_trading/ai/schemas.py:31-57 | a valid decision written as its JSON object parses back to itself |
| Schemas.StringConfidenceIsDenied | src/ai_trading/ai/schemas.py:36 | the non-numeric confidence `"bad"` is refused: DENY with INVALID_RESPONSE |
| Schemas.Strings | src/ai_trading/ai/schemas.py:37-38 | the strings of a list field, element for element, or None |
| Schemas.Strip | src/ai_trading/ai/schemas.py:71 | empty exactly for an all-whitespace text; otherwise the text minus exactly its leading and trailing whitespace runs, with no whitespace at either end |
| Schemas.LeadingSpaces | src/ai_trading/ai/schemas.py:71 | the length of the whitespace run at the start |
| Schemas.TrailingSpaces | src/ai_trading/ai/schemas.py:71 | the length of the whitespace run at the end |
| Schemas.SkipSpacesIsGreedy | src/ai_trading/ai/schemas.py:78 | the greedy `\s*` skip passes only whitespace and stops at the first non-space |
| Schemas.LazyCloseIsFirst | src/ai_trading/ai/schemas.py:78 | the lazy `.*?\}\s*```` tail ends on the first `}` followed by whitespace and a closing fence, and there is none exactly when no `}` is so followed |
| Schemas.FenceAtMatches | src/ai_trading/ai/schemas.py:78 | a group at a start exactly when the fenced pattern (fence, optional `json`, whitespace, `{`, first fence-closing `}`) matches there, and the group is that match's |
| Schemas.FirstFence | src/ai_trading/ai/schemas.py:78 | the leftmost start at which the fenced pattern matches; None exactly when it matches nowhere |
| Schemas.FencedFrom | src/ai_trading/ai/schemas.py:78-79 | a group exactly when some start matches, and then the group of the leftmost match |
| Schemas.FirstIndexOf | src/ai_trading/ai/schemas.py:85 | the first occurrence of a character, or None when it is absent |
| Schemas.LastIndexOf | src/ai_trading/ai/schemas.py:85 | the last occurrence of a character, or None when it is absent |
| Schemas.BraceSpan | src/ai_trading/ai/schemas.py:85-86 | exists exactly when a `{` comes before a `}`, and is the text from the first `{` to the last `}` |
| Schemas.JsonCandidate | src/ai_trading/ai/schemas.py:71-92 | the braced stripped text first, else the leftmost fenced group, else the widest brace span; always braced |
| Schemas.NoCandidateIffNoBraceSpan | src/ai_trading/ai/schemas.py:71-92 | nothing is decoded exactly when the stripped text has no `{` before a `}` |
| Schemas.ExtractJsonObj | src/ai_trading/ai/schemas.py:69-92 | no `{` before a `}` gives `model_response_not_json`; an accepted object is what the decoder made of the selected text |
| Schemas.ExtractJsonObjPrecedence | src/ai_trading/ai/schemas.py:71-90 | the braced stripped text is decoded first, else the leftmost fenced group, else the widest brace span |
| Schemas.ParseResponseText | src/ai_trading/ai/schemas.py:59-66 | never fails and is always valid: DENY with the extraction error, or the strict parse of the object |
| Schemas.OnlyFirstFormDecoded | src/ai_trading/ai/schemas.py:71-92 | only the first matching form is decoded: decoders that agree on it give the same decision |
| Schemas.NoBraceIsDenied | src/ai_trading/ai/schemas.py:60-92 | a response with no `{` is DENY with reason `model_response_not_json` |
| Schemas.StripSurrounded | src/ai_trading/ai/schemas.py:71 | stripping removes exactly the whitespace around a text with non-space ends |
| Schemas.WrappedObjectParses | tests/test_ai_schemas.py:4-15 | a whitespace-wrapped JSON object encoding a valid decision parses to that decision |
| Schemas.FencedBlockAfterProse | src/ai_trading/ai/schemas.py:78-83 | in prose followed by a fenced `json` block, the block's object is what is decoded, whatever braces the prose holds |
| Schemas.NewSnapshot | src/ai_trading/ai/schemas.py:12-28 | a snapshot is built exactly when the symbol matches `[A-Z0-9]+` and the ATR quantile is in [0, 1]; event risk defaults to NO |
| Domain.ExitAtEntryCostsSlippage | src/ai_trading/exec/paper.py:89-91 | exiting at the entry price loses exactly the slippage cost, which is never positive |
| Domain.WeeklyDrawdownPct | src/ai_trading/exec/paper.py:132-142 | never negative; 0 without a positive watermark or at or above it; else the percentage fall from it |
| RiskRules.CheckGlobalGuards | src/ai_trading/risk/rules.py:17-36 | each reason appears exactly on its own condition (`>=`, `>=`, strict `>`), in fixed order; allowed iff no reason; budget is the configured one |
| RiskRules.LossLimitReachedBlocks | src/ai_trading/risk/rules.py:25-26 | reaching the loss limit exactly blocks |
| RiskRules.ComputePositionSize | src/ai_trading/risk/rules.py:38-53 | never negative; 0 for non-positive inputs or entry at or below stop; else qty·(entry−stop) = equity·budget/100 |
| RiskRules.PositionSizeExample | src/ai_trading/risk/rules.py:46-53 | equity 10000, entry 50000, stop 49500, budget 0.5% gives 0.1 |
| RiskRules.BuildStopLoss | src/ai_trading/risk/rules.py:55-60 | 0 for non-positive inputs; otherwise max(0, entry − atr·mult), below the entry and never negative |
| RiskRules.CheckTimeStop | src/ai_trading/risk/rules.py:62-73 | true exactly when the position has been held at least the maximum days of 86400 seconds |
| RiskRules.TimeStopMonotone | src/ai_trading/risk/rules.py:72-73 | once the time stop fires it fires at every later time |
| Candidates.GenerateCandidate | src/ai_trading/strategy/candidates.py:13-56 | a candidate exactly when trend is UP, atr > 0 and both thresholds hold with equality passing; it is BTCUSDT, UP, priced at the indicators, with funding and OI passed through and the fixed reasons |
| Candidates.DownTrendHasNoCandidate | src/ai_trading/strategy/candidates.py:21-23 | a DOWN trend never yields a candidate |
| AiProvider.HeuristicEvaluate | src/ai_trading/backtest/ai_provider.py:32-63 | always valid; DENY exactly on event risk; REDUCE 0.5 VOLATILE on high ATR, else REDUCE 0.6 CROWDING on funding above 0.01, else ALLOW 0.85 |
| AiProvider.FundingAtThresholdAllows | src/ai_trading/backtest/ai_provider.py:47-51 | funding of exactly 0.01 is not crowding |
| Pipeline.Clamp | src/ai_trading/pipeline.py:277-278 | the result is within the bounds and equals the input when already inside |
| Pipeline.LiveDegradedDecision | src/ai_trading/pipeline.py:136-143 | the live fallback is a valid ALLOW at confidence 1.0 flagged AI_UNAVAILABLE |
| Pipeline.EffectiveRiskBudget | src/ai_trading/pipeline.py:272-278 | degraded halves the budget; REDUCE scales it into [0, base]; ALLOW or DENY scales it into [base/2, base] |
| Pipeline.ScaledWithin | src/ai_trading/pipeline.py:277-278 | scaling a non-negative base by a clamped factor stays between the scaled bounds |
| Pipeline.LiveDegradedBudgetIsHalf | src/ai_trading/pipeline.py:272-275 | a live AI failure always risks exactly half the base budget |
| Pipeline.MaxQtyByExposure | src/ai_trading/pipeline.py:265-269 | 0 for any non-positive input; else qty·entry = equity·pct/100 |
| Pipeline.AtrLabelOf | src/ai_trading/pipeline.py:281-286 | LOW below 0.33, NORMAL in [0.33, 0.8), HIGH from 0.8, each both ways |
| Paper.ExposurePct | src/ai_trading/exec/paper.py:143-148 | 0 without a position or positive equity; else pct·equity = qty·mark·100 with the mark defaulting to the entry |
| Paper.PaperExecutor.constructor | src/ai_trading/exec/paper.py:27-36 | a fresh account: initial equity, no losses, watermark at the initial equity, no position |
| Paper.PaperExecutor.OpenLong | src/ai_trading/exec/paper.py:46-73 | refuses qty ≤ 0 and a second position and changes nothing then; else opens at entry·(1 + bps/10000) |
| Paper.PaperExecutor.ClosePosition | src/ai_trading/exec/paper.py:75-107 | refuses no position or a symbol mismatch with nothing changed; else realises (fill − entry)·qty into equity, updates the streak, rolls the week, clears the position |
| Paper.PaperExecutor.MarkToMarket | src/ai_trading/exec/paper.py:109-127 | records (last − entry)·qty on the position and reports equity plus it, a loss exactly below the entry; stored equity untouched; no position reports 0 |
| Paper.PaperExecutor.GetRiskStats | src/ai_trading/exec/paper.py:129-153 | rolls the week, then reports the streak, the weekly drawdown and the exposure of the account, never negative at a non-negative mark |
| Paper.PaperExecutor.UpdateConsecutiveLosses | src/ai_trading/exec/paper.py:195-199 | the streak grows on a loss and resets otherwise |
| Paper.PaperExecutor.RollWeekIfNeeded | src/ai_trading/exec/paper.py:201-207 | a new watermark at current equity exactly when the ISO week number differs |
| Metrics.BuildDefaultSegments | src/ai_trading/backtest/metrics.py:12-27 | [] below two points; else window_a from point 0 to mid−1 and window_b from mid to last, mid = n div 2 |
| Metrics.DefaultSegmentsPartition | src/ai_trading/backtest/metrics.py:12-27 | with ascending timestamps the windows are disjoint and each point is in exactly the window of its half |
| Metrics.PeakIndex | src/ai_trading/backtest/metrics.py:163-166 | the running peak's index is at or before the current index |
| Metrics.PeakIndexIsFirstMax | src/ai_trading/backtest/metrics.py:163-166 | the running peak is the first maximum of the prefix |
| Metrics.Scan | src/ai_trading/backtest/metrics.py:157-171 | the largest drawdown is non-negative and is attained at its trough from that trough's running peak |
| Metrics.ScanIsDeepest | src/ai_trading/backtest/metrics.py:163-171 | no point draws down more than the scan's maximum, and points before the trough draw down strictly less |
| Metrics.FirstReach | src/ai_trading/backtest/metrics.py:178-181 | the first index from the start that reaches the target, or None when none does |
| Metrics.MaxDrawdown | src/ai_trading/backtest/metrics.py:154-182 | (0, None) when empty; ≥ 0 and ≥ every point's drawdown; (0, 0) when there is none; else recovery is the distance from the trough to the first later recovery of the peak, ≥ 1, or None |
| Metrics.MaxDrawdownWithRecovery | src/ai_trading/backtest/metrics.py:154-182 | the two loops compute exactly `MaxDrawdown` |
| Metrics.ScanDrawdown | src/ai_trading/backtest/metrics.py:157-171 | the first loop computes `Scan` of the whole sequence |
| Metrics.FindRecovery | src/ai_trading/backtest/metrics.py:176-181 | the second loop with its break computes `FirstReach` |
| Metrics.MaxDrawdownAtMost100 | src/ai_trading/backtest/metrics.py:167 | for non-negative equity the max drawdown is at most 100 |
| Metrics.MaxDrawdownExample | src/ai_trading/backtest/metrics.py:154-182 | [10000, 9800, 10200] gives (2.0, 1) |
| Metrics.WinCount | src/ai_trading/backtest/metrics.py:53 | at most the trade count, equal to it exactly when every trade made a strict profit |
| Metrics.EquityValues | src/ai_trading/backtest/metrics.py:46 | the curve's equities, point for point |
| Metrics.DurationDays | src/ai_trading/backtest/metrics.py:56-58 | the elapsed days, floored at 1e-9 |
| Metrics.Ratio | src/ai_trading/backtest/metrics.py:49 | the quotient: r·d = x, non-negative for non-negative x, at most 1 when x ≤ d |
| Metrics.TotalReturnPct | src/ai_trading/backtest/metrics.py:49 | (end/start − 1)·100 for a positive start, else 0 |
| Metrics.Mean | src/ai_trading/backtest/metrics.py:52 | the mean P&L per trade, 0 without trades |
| Metrics.PerThirtyDays | src/ai_trading/backtest/metrics.py:59 | count/days·30, non-negative |
| Metrics.WinRatePct | src/ai_trading/backtest/metrics.py:54 | wins as a percentage of trades, within [0, 100], 0 without trades |
| Metrics.ComputeSummaryMetrics | src/ai_trading/backtest/metrics.py:30-69 | empty curve gives zeros and no recovery whatever the trades; else each figure is its defining formula over the curve and trades |
| Metrics.ToMetrics | src/ai_trading/backtest/metrics.py:61-69 | the metric dictionary has exactly the seven keys |
| Metrics.FloatMetric | src/ai_trading/backtest/metrics.py:202-206 | missing or None reads 0.0, otherwise the number |
| Metrics.Truncate | src/ai_trading/backtest/metrics.py:213 | truncation toward zero |
| Metrics.IntMetric | src/ai_trading/backtest/metrics.py:209-213 | missing or None reads None, otherwise the integer, truncated |
| Metrics.MetricsReadBack | src/ai_trading/backtest/metrics.py:202-213 | reading the written dictionary back gives the summary's figures |
| Metrics.SegmentPoints | src/ai_trading/backtest/metrics.py:82-86 | exactly the points inside the segment, both ends inclusive |
| Metrics.SegmentTrades | src/ai_trading/backtest/metrics.py:87-89 | exactly the trades whose close time is inside the segment |
| Metrics.SegmentPointsDistributes | src/ai_trading/backtest/metrics.py:82-86 | the point filter keeps order and repetitions: it distributes over concatenation and keeps one point exactly when it is inside |
| Metrics.SegmentTradesDistributes | src/ai_trading/backtest/metrics.py:87-89 | the trade filter keeps order and repetitions, judging each trade by its close time |
| Metrics.ComputeSegmentMetrics | src/ai_trading/backtest/metrics.py:72-91 | one key per segment name |
| Metrics.SegmentMetricsValues | src/ai_trading/backtest/metrics.py:79-90 | each name maps to the summary of its segment's points and trades, the last segment of that name winning |
| Metrics.ImprovingSegments | src/ai_trading/backtest/metrics.py:194-198 | the improving names are among the compared names |
| Metrics.SegmentConsistencyOk | src/ai_trading/backtest/metrics.py:185-199 | the counting loop decides exactly the consistency vote |
| Metrics.AllSegmentsImprovedIsConsistent | src/ai_trading/backtest/metrics.py:189-199 | every shared segment improving passes the vote |
| Metrics.NoSegmentImprovedIsInconsistent | src/ai_trading/backtest/metrics.py:189-199 | no shared segment improving fails it |
| Metrics.CompareExperiments | src/ai_trading/backtest/metrics.py:110-145 | each of the four checks holds exactly on its condition, with the 0.9 factor only for a positive baseline expectancy |
| Metrics.EvaluateGoNoGo | src/ai_trading/backtest/metrics.py:94-151 | missing runs give no-go with `missing_baseline_or_ai_results`; sizing is preferred; go iff all four checks pass |
| Metrics.CopyOfBaselineIsNoGo | src/ai_trading/backtest/metrics.py:110-146 | an AI run with the baseline's metrics is never a go |
| Metrics.HigherFrequencyIsNoGo | src/ai_trading/backtest/metrics.py:124-146 | trading more often than the baseline is never a go |
| Runner.BaselineDecision | src/ai_trading/backtest/runner.py:376-382 | baseline's synthetic ALLOW, 1.0, no flags, `baseline_no_ai` |
| Runner.BacktestDegradedDecision | src/ai_trading/backtest/runner.py:385-391 | the backtest fallback is a valid ALLOW at 0.5 flagged AI_UNAVAILABLE |
| Runner.ResolveAiDecision | src/ai_trading/backtest/runner.py:370-391 | baseline never consults the provider; other modes take its decision, or the degraded ALLOW on a transport error |
| Runner.ResolveRiskBudget | src/ai_trading/backtest/runner.py:394-398 | only ai_filter_sizing scales the base by the clamped confidence; always within [0, base] |
| Runner.DegradedBudgetByMode | src/ai_trading/backtest/runner.py:385-398 | a transport failure halves the budget in ai_filter_sizing, keeps it in ai_filter, and halves it in the live cycle |
| Runner.NormalizeTrend | src/ai_trading/backtest/runner.py:407-411 | UP and DOWN are kept, anything else becomes NEUTRAL |
| Runner.BuildSnapshot | src/ai_trading/backtest/runner.py:401-427 | the snapshot validates exactly when the schema's constraints hold, without funding or OI, with the ATR label and four indicators |
| Runner.SafePct | src/ai_trading/backtest/runner.py:445-448 | 0 for a zero denominator, else r·d = value·100 |
| Runner.EntryQty | src/ai_trading/backtest/runner.py:218-231 | the smaller of the risk size and the exposure cap; a positive size stays within the exposure limit |
| Runner.CloseTrade | src/ai_trading/backtest/runner.py:348-366 | exit fill raw·(1 − slippage), P&L (fill − entry)·qty, the position's fields carried over |
| Runner.TryClose | src/ai_trading/backtest/runner.py:318-367 | stop-loss first at the stop, then the time stop at the close, otherwise no close |
| Runner.DailyUpTo | src/ai_trading/backtest/runner.py:140 | exactly the daily bars closed by the time |
| Runner.DailyUpToDistributes | src/ai_trading/backtest/runner.py:140-141 | the daily filter keeps order and repetitions, so its length is the count compared with the minimum |
| Runner.RollWeek | src/ai_trading/backtest/runner.py:132-137 | the first week is recorded; a changed week number resets the watermark to current equity; nothing else changes |
| Runner.NewWeekHasNoDrawdown | src/ai_trading/backtest/runner.py:198-200 | right after a week change the weekly drawdown is 0 |
| Runner.RunSingleMode | src/ai_trading/backtest/runner.py:104-280 | the loop computes the fold `RunSpec`: fails on warm-up ≤ 0 or too few bars, else every bar then the forced close |
| Runner.RunBars | src/ai_trading/backtest/runner.py:129-245 | the bar loop from the warm-up index computes the fold `RunTo` over every bar, stopping at the first failure |
| Runner.ProcessBar | src/ai_trading/backtest/runner.py:129-245 | one bar of the loop computes `Step` |
| Runner.CloseOrMark | src/ai_trading/backtest/runner.py:154-177 | a bar with a position computes `ManageOpen`: close and realise, or mark at the close |
| Runner.EnterIfAllowed | src/ai_trading/backtest/runner.py:179-245 | a flat bar computes `TryEnter`: curve point, candidate, logged decision, DENY filter, guards, budget, stop and size |
| Runner.CloseAtEndOfData | src/ai_trading/backtest/runner.py:247-280 | the end of the loop computes `Finish` |
| Runner.RunModes | src/ai_trading/backtest/runner.py:70-79 | a successful sequence of runs has one result per mode |
| Runner.RunModesErrPersists | src/ai_trading/backtest/runner.py:71-79 | a failing run ends the suite with its error |
| Runner.ErrPersists | src/ai_trading/backtest/runner.py:129-245 | an error in the loop is final |
| Runner.RunBacktestSuite | src/ai_trading/backtest/runner.py:58-99 | computes `SuiteSpec`: all modes, the segments, the segment metrics, then the gate |
| Runner.RunEveryMode | src/ai_trading/backtest/runner.py:70-79 | the mode loop computes `RunModes` |
| Runner.AttachSegmentMetrics | src/ai_trading/backtest/runner.py:84-89 | every run gets the metrics of every segment |
| RunnerProperties.TrailingLosses | src/ai_trading/backtest/runner.py:168 | the trailing losing trades: all strictly negative, and the one before them is not |
| RunnerProperties.ProcessedCount | src/ai_trading/backtest/runner.py:141-148 | the number of bars passing the daily and indicator checks, at most the bars run |
| RunnerProperties.CandidateCount | src/ai_trading/backtest/runner.py:180-182 | the processed bars that yield a candidate, at most the processed ones |
| RunnerProperties.StepEffect | src/ai_trading/backtest/runner.py:129-245 | a bar closes nothing, possibly opening a positive position at its time, or closes the open one at its time; a processed bar adds one curve point |
| RunnerProperties.RunAccounted | src/ai_trading/backtest/runner.py:122-245 | over the loop: equity = initial + Σ P&L, streak = trailing losses, open size > 0, no end_of_data trade, one curve point per processed bar |
| RunnerProperties.RunOrdered | src/ai_trading/backtest/runner.py:154-245 | with ascending bar times each trade opens before it closes and closes before the next opens |
| RunnerProperties.RunResult | src/ai_trading/backtest/runner.py:247-280 | the result is in its mode with metrics of its own curve and trades; only the last trade may be end_of_data, adding the one extra curve point |
| RunnerProperties.FinishOrdered | src/ai_trading/backtest/runner.py:247-270 | the forced close keeps the trades in order |
| RunnerProperties.RunResultOrdered | src/ai_trading/backtest/runner.py:154-280 | reported trades are in time order; only the forced close may open and close at one time |
| RunnerProperties.AlwaysDenyNeverTrades | src/ai_trading/backtest/runner.py:179-196 | an always-DENY provider in an AI mode: no position, no trade, flat equity and curve, one logged decision per candidate bar |
| RunnerProperties.AlwaysDenyReportsNoTrades | src/ai_trading/backtest/runner.py:104-280 | its result has no trade, a flat curve and one decision per candidate bar |
| RunnerProperties.RunIgnoresProvider | src/ai_trading/backtest/runner.py:370-382 | two baseline runs over the same data and settings agree bar by bar whatever their providers |
| RunnerProperties.BaselineIgnoresProvider | src/ai_trading/backtest/runner.py:376-382 | the baseline run is the same whatever the provider |
| RunnerProperties.OpenedWithinExposureCap | src/ai_trading/backtest/runner.py:218-245 | an opened position is positive, within the exposure cap at the candidate price, filled at price·(1 + slippage), at the bar's time |
| RunnerProperties.AttachedRunsSelectSizing | src/ai_trading/backtest/runner.py:84-91 | with all three runs the gate selects ai_filter_sizing, and every run has every segment's metrics |
| RunnerProperties.SuiteResult | src/ai_trading/backtest/runner.py:58-99 | a suite holds the three runs in their modes, segment metrics per segment name, selects ai_filter_sizing, and defaults to the baseline's split |

## Left out

- Writing the report files, the report's `started_at` and `source`, and every
  `datetime.now`, are not modelled. This covers `write_backtest_artifacts`,
  `_write_json` and `_write_go_no_go_markdown`. These are file system and clock.
- The timestamp and ISO-week handling is left out. That includes
  `_to_utc_iso`, `fromisoformat` and `isocalendar`. Times are integer seconds
  and the week number is a function given to the run.
- The paper account's week check reads the clock's day and the stored
  week-start date. Both are day numbers given to the methods.
- The indicator computation (EMA and ATR over pandas) is a parameter of the
  run. Its `ValueError` is an error message.
- Data loading, the exchange client, the HTTP client with its retries, and
  the client's success flag are not modelled. The provider is a function of
  the bar index and the snapshot, answering a decision or a transport error.
  Provider exceptions other than the transport error are not modelled; the
  source lets them propagate.
- `_load_state` from an existing file and `_persist` are not modelled. The
  constructor is the no-file case.
- `run_trading_cycle` orchestration is not modelled: fetching, journal writes
  and the broad exception catch. Its degraded decision, risk budget, exposure
  cap and ATR label are modelled.
- Floating-point rounding and `fmean` are modelled as exact `real`
  arithmetic. The 1e-9 day floor is exact.
- Schemas.ConfidenceOf: refuses every string confidence. Pydantic's lax mode
  accepts a numeric string such as `"0.5"` and the model does not; string
  parsing of numbers is not modelled.
- Pydantic's lax coercions are not modelled. Only a JSON number or a string
  and the declared literals are modelled, and validation messages are not
  reproduced word for word. `Schemas.ParseStrict` reports the first failing
  field in declaration order.
- Whitespace for `strip` and `\s` is Python's set of ASCII and common Unicode
  spaces as listed in `Schemas.IsSpace`. Full Unicode categories are not
  modelled.
- The snapshot's constant fields `candidate_type` and `position_side` are not
  modelled, nor is a candidate's `side` and `created_at`.
- In `build_default_segments`, the `mid > 0` alternative is unreachable
  because it only runs with at least two points. The model takes `mid − 1`
  directly.
- `_try_close_open_position` appends the trade itself in the source. In the
  model `ManageOpen` appends it, at the same point of the bar.
- The snapshot the runner builds can fail validation, for example on an ATR
  quantile outside [0, 1]. The source raises then. The model ends the run
  with `SnapshotInvalid`.
- RunnerProperties.RunOrdered and RunnerProperties.RunResultOrdered: chronology is stated
  under the assumption that bar close times strictly increase. The source
  does not check this.
- RunnerProperties.AlwaysDenyReportsNoTrades: it states one logged
  decision per candidate bar rather than "non-empty". A run whose data
  produces no candidate logs none.
