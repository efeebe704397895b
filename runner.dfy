/** The bar-by-bar backtest of one experiment mode and the three-mode suite
    (src/ai_trading/backtest/runner.py). Bars are 4h candles with close times
    in seconds; the indicator computation and the decision provider are
    parameters of the run, and the ISO week number of a time is given as a
    function. Writing the report files is not modelled. */
module Runner {
  import opened Wrappers
  import opened Schemas
  import opened Domain
  import opened RiskRules
  import opened Candidates
  import opened Pipeline
  import opened Metrics

  // ---------------------------------------------------------------------------
  // Pure helpers of the loop

  /** The decision the baseline mode uses without asking any provider. */
  function BaselineDecision(): (d: LLMDecision)
    ensures ValidDecision(d) && d.decision == Allow && d.confidence == 1.0
    ensures d.riskFlags == [] && d.keyReasons == ["baseline_no_ai"]
  {
    LLMDecision(Allow, 1.0, [], ["baseline_no_ai"])
  }

  /** The backtest's stand-in when the provider's transport fails: a
      half-confidence ALLOW flagged AI_UNAVAILABLE (the live cycle's differs,
      see `Pipeline.LiveDegradedDecision`). */
  function BacktestDegradedDecision(message: string): (d: LLMDecision)
    ensures ValidDecision(d) && d.decision == Allow && d.confidence == 0.5
    ensures d.riskFlags == ["AI_UNAVAILABLE"]
    ensures d.keyReasons == ["fallback_to_rules:" + message]
  {
    LLMDecision(Allow, 0.5, ["AI_UNAVAILABLE"], ["fallback_to_rules:" + message])
  }

  /** Baseline never consults the provider; other modes take its decision, or
      the degraded ALLOW on a transport error. */
  function ResolveAiDecision(mode: Mode, provider: (nat, MarketSnapshot) -> AiOutcome, idx: nat, snapshot: MarketSnapshot)
    : (d: LLMDecision)
    ensures mode == Baseline ==> d == BaselineDecision()
    ensures mode != Baseline && provider(idx, snapshot).Decided? ==> d == provider(idx, snapshot).decision
    ensures mode != Baseline && provider(idx, snapshot).TransportError? ==>
      d == BacktestDegradedDecision(provider(idx, snapshot).message)
  {
    if mode == Baseline then BaselineDecision()
    else
      match provider(idx, snapshot)
      case Decided(decision) => decision
      case TransportError(message) => BacktestDegradedDecision(message)
  }

  /** Only ai_filter_sizing scales the budget, by the confidence clamped to
      [0, 1]; the other modes risk the full base budget. */
  function ResolveRiskBudget(mode: Mode, base: real, decision: LLMDecision): (r: real)
    ensures mode != AiFilterSizing ==> r == base
    ensures mode == AiFilterSizing ==> r == base * Clamp(decision.confidence, 0.0, 1.0)
    ensures base >= 0.0 ==> 0.0 <= r <= base
  {
    var confidence := Clamp(decision.confidence, 0.0, 1.0);
    if mode == AiFilterSizing then
      assert base >= 0.0 ==> 0.0 <= base * confidence <= base by {
        if base >= 0.0 { ScaledWithin(base, confidence, 0.0, 1.0); }
      }
      base * confidence
    else base
  }

  /** A transport failure halves the budget in ai_filter_sizing and leaves it
      whole in ai_filter; the live cycle always halves it. */
  lemma DegradedBudgetByMode(base: real, message: string)
    requires base > 0.0
    ensures ResolveRiskBudget(AiFilterSizing, base, BacktestDegradedDecision(message)) == base * 0.5
    ensures ResolveRiskBudget(AiFilter, base, BacktestDegradedDecision(message)) == base
    ensures EffectiveRiskBudget(base, LiveDegradedDecision(message), true) == base * 0.5
  {
    assert Clamp(0.5, 0.0, 1.0) == 0.5;
  }

  /** Any trend text other than UP, DOWN and NEUTRAL becomes NEUTRAL. */
  function NormalizeTrend(trend: string): (t: Trend)
    ensures t == Up <==> trend == "UP"
    ensures t == Down <==> trend == "DOWN"
    ensures trend != "UP" && trend != "DOWN" ==> t == Neutral
  {
    if trend == "UP" then Up
    else if trend == "DOWN" then Down
    else Neutral
  }

  /** The four indicator values the snapshot carries. */
  function SnapshotIndicators(ind: Indicators): map<string, real>
  {
    map["price" := ind.price, "ema20_4h" := ind.ema20_4h,
        "ema50_1d" := ind.ema50_1d, "atr_14_4h" := ind.atr14_4h]
  }

  /** The snapshot for the provider, without funding or open-interest data;
      it fails validation exactly when the symbol or the ATR quantile does. */
  function BuildSnapshot(symbol: string, trend: string, ind: Indicators): (r: Result<MarketSnapshot, string>)
    ensures r.Ok? <==> IsSymbol(symbol) && 0.0 <= ind.atrQuantile <= 1.0
    ensures r.Ok? ==>
      && r.value.symbol == symbol
      && r.value.trend == NormalizeTrend(trend)
      && r.value.atrQuantile == ind.atrQuantile
      && r.value.atrLabel == AtrLabelOf(ind.atrQuantile)
      && r.value.fundingRate.None? && !r.value.fundingAvailable
      && r.value.openInterest.None? && !r.value.openInterestAvailable
      && r.value.eventRisk == No
      && r.value.indicators.Keys == {"price", "ema20_4h", "ema50_1d", "atr_14_4h"}
  {
    NewSnapshot(symbol, NormalizeTrend(trend), ind.atrQuantile, AtrLabelOf(ind.atrQuantile),
                None, false, None, false, SnapshotIndicators(ind))
  }

  /** `value` as a percentage of `denominator`; 0 for a zero denominator. */
  function SafePct(value: real, denominator: real): (r: real)
    ensures denominator == 0.0 ==> r == 0.0
    ensures denominator != 0.0 ==> r * denominator == value * 100.0
  {
    if denominator == 0.0 then 0.0
    else
      var q := value / denominator;
      assert q * 100.0 * denominator == (q * denominator) * 100.0;
      q * 100.0
  }

  /** The size to open: the risk-budget size capped by the exposure limit. */
  function EntryQty(equity: real, entry: real, stop: real, riskBudgetPct: real, maxExposurePct: real): (qty: real)
    ensures qty <= ComputePositionSize(equity, entry, stop, riskBudgetPct)
    ensures qty <= MaxQtyByExposure(equity, entry, maxExposurePct)
    ensures qty == ComputePositionSize(equity, entry, stop, riskBudgetPct)
         || qty == MaxQtyByExposure(equity, entry, maxExposurePct)
    ensures qty > 0.0 ==> qty * entry <= equity * maxExposurePct / 100.0
  {
    var bySize := ComputePositionSize(equity, entry, stop, riskBudgetPct);
    var byExposure := MaxQtyByExposure(equity, entry, maxExposurePct);
    var qty := if bySize <= byExposure then bySize else byExposure;
    assert qty > 0.0 ==> qty * entry <= byExposure * entry by {
      if qty > 0.0 { assert entry > 0.0; assert (byExposure - qty) * entry >= 0.0; }
    }
    qty
  }

  /** The backtest's open position, with the decision that allowed it. */
  datatype OpenPosition = OpenPosition(
    symbol: string,
    qty: real,
    entryPrice: real,
    stopLoss: real,
    openedAt: int,
    aiDecision: Decision,
    aiConfidence: real)

  /** The trade a close of `p` at `rawExit` records. */
  function CloseTrade(mode: Mode, p: OpenPosition, closedAt: int, reason: CloseReason, rawExit: real, slippage: real)
    : (t: TradeRecord)
    ensures t.exitPrice == ExitFill(rawExit, slippage)
    ensures t.pnl == RealizedPnl(p.entryPrice, t.exitPrice, p.qty)
    ensures t.pnlPct == SafePct(t.pnl, p.entryPrice * p.qty)
    ensures t.mode == mode && t.symbol == p.symbol && t.openedAt == p.openedAt
    ensures t.closedAt == closedAt && t.closeReason == reason
    ensures t.qty == p.qty && t.entryPrice == p.entryPrice && t.stopLoss == p.stopLoss
    ensures t.aiDecision == p.aiDecision && t.aiConfidence == p.aiConfidence
  {
    var exitFill := ExitFill(rawExit, slippage);
    var pnl := RealizedPnl(p.entryPrice, exitFill, p.qty);
    TradeRecord(mode, p.symbol, p.openedAt, closedAt, reason, p.qty, p.entryPrice, exitFill,
                p.stopLoss, pnl, SafePct(pnl, p.entryPrice * p.qty), p.aiDecision, p.aiConfidence)
  }

  /** The time stop reads the position as the paper account would hold it. */
  function AsPositionState(p: OpenPosition): PositionState
  {
    PositionState(p.symbol, p.qty, p.entryPrice, p.stopLoss, p.openedAt, 0.0)
  }

  /** Stop-loss first (a low at or below the stop exits at the stop), then the
      time stop (exits at the close); otherwise the position stays open. */
  function TryClose(mode: Mode, p: OpenPosition, now: int, close: real, low: real, slippage: real, maxHoldingDays: int)
    : (r: Option<TradeRecord>)
    ensures low <= p.stopLoss ==> r == Some(CloseTrade(mode, p, now, StopLoss, p.stopLoss, slippage))
    ensures low > p.stopLoss && now - p.openedAt >= maxHoldingDays * RiskRules.SecondsPerDay ==>
      r == Some(CloseTrade(mode, p, now, TimeStop, close, slippage))
    ensures low > p.stopLoss && now - p.openedAt < maxHoldingDays * RiskRules.SecondsPerDay ==> r.None?
  {
    if low <= p.stopLoss then Some(CloseTrade(mode, p, now, StopLoss, p.stopLoss, slippage))
    else if CheckTimeStop(AsPositionState(p), now, maxHoldingDays) then
      Some(CloseTrade(mode, p, now, TimeStop, close, slippage))
    else None
  }

  /** The daily bars closed by time `t`. */
  function DailyUpTo(daily: seq<Bar>, t: int): (r: seq<Bar>)
    ensures |r| <= |daily|
    ensures forall b :: b in r <==> b in daily && b.closeTime <= t
  {
    if daily == [] then []
    else
      var rest := DailyUpTo(daily[1..], t);
      assert forall b :: b in daily <==> b == daily[0] || b in daily[1..];
      if daily[0].closeTime <= t then [daily[0]] + rest else rest
  }

  /** The daily filter keeps order and repetitions, so its length is the
      number of daily bars closed by `t`: it distributes over concatenation
      and keeps a single bar exactly when it has closed. */
  lemma {:induction false} DailyUpToDistributes(a: seq<Bar>, b: seq<Bar>, t: int)
    ensures DailyUpTo(a + b, t) == DailyUpTo(a, t) + DailyUpTo(b, t)
    ensures forall bar :: DailyUpTo([bar], t) == if bar.closeTime <= t then [bar] else []
  {
    if a == [] {
      assert a + b == b;
    } else {
      var ab := a + b;
      assert ab[0] == a[0] && ab[1..] == a[1..] + b;
      DailyUpToDistributes(a[1..], b, t);
      assert DailyUpTo(ab, t) == (if a[0].closeTime <= t then [a[0]] else []) + DailyUpTo(a[1..] + b, t);
    }
    forall bar
      ensures DailyUpTo([bar], t) == if bar.closeTime <= t then [bar] else []
    {
      assert [bar][1..] == [];
    }
  }

  /** Guard reasons joined with commas. */
  function JoinComma(items: seq<string>): string
  {
    if items == [] then ""
    else if |items| == 1 then items[0]
    else items[0] + "," + JoinComma(items[1..])
  }

  // ---------------------------------------------------------------------------
  // The run as a fold over the bars

  /** What one run reads: the mode, the settings, the bars, the indicator
      computation (an error message stands for its ValueError), the decision
      provider (asked with the bar index and the snapshot) and the ISO week
      number of a time. */
  datatype Env = Env(
    mode: Mode,
    settings: Settings,
    config: BacktestConfig,
    bars: seq<Bar>,
    daily: seq<Bar>,
    indicators: (seq<Bar>, seq<Bar>) -> Result<Indicators, string>,
    provider: (nat, MarketSnapshot) -> AiOutcome,
    isoWeek: int -> int)

  /** The loop's variables and the growing result lists. */
  datatype SimState = SimState(
    equity: real,
    weekStartEquity: real,
    weekId: Option<int>,
    losses: nat,
    position: Option<OpenPosition>,
    trades: seq<TradeRecord>,
    curve: seq<EquityPoint>,
    decisions: seq<DecisionLog>,
    warnings: seq<string>)

  /** The ways a run stops early. */
  datatype RunError = WarmupNotPositive | InsufficientBars | SnapshotInvalid

  function RunErrorMessage(e: RunError): string
  {
    match e
    case WarmupNotPositive => "warmup_4h_bars_must_be_positive"
    case InsufficientBars => "insufficient_4h_bars_for_warmup"
    case SnapshotInvalid => "snapshot_validation_error"
  }

  function Initial(env: Env): SimState
  {
    SimState(env.config.initialEquity, env.config.initialEquity, None, 0, None, [], [], [], [])
  }

  /** The week watermark: taken at the first bar's week, and reset to the
      current equity whenever the week number changes. */
  function RollWeek(s: SimState, week: int): (r: SimState)
    ensures r.weekId == Some(week)
    ensures s.weekId.Some? && s.weekId.value != week ==> r.weekStartEquity == s.equity
    ensures s.weekId.None? || s.weekId.value == week ==> r.weekStartEquity == s.weekStartEquity
    ensures r == s.(weekStartEquity := r.weekStartEquity, weekId := r.weekId)
  {
    if s.weekId.None? then s.(weekId := Some(week))
    else if week != s.weekId.value then s.(weekStartEquity := s.equity, weekId := Some(week))
    else s
  }

  /** Right after a week change the weekly drawdown is 0, so the weekly
      guard cannot fire on the first bar of a week. */
  lemma NewWeekHasNoDrawdown(s: SimState, week: int)
    requires s.weekId.Some? && s.weekId.value != week
    ensures WeeklyDrawdownPct(RollWeek(s, week).weekStartEquity, RollWeek(s, week).equity) == 0.0
  {
  }

  /** With a position open: close it if a stop fires (realising the P&L and
      updating the loss streak), otherwise mark it at the close; either way
      one curve point. */
  function ManageOpen(env: Env, s: SimState, bar: Bar, regime: string): (r: SimState)
    requires s.position.Some?
  {
    var p := s.position.value;
    var now := bar.closeTime;
    match TryClose(env.mode, p, now, bar.close, bar.low, SlippageOf(env.config.slippageBps), env.settings.maxHoldingDays)
    case Some(trade) =>
      var equity := s.equity + trade.pnl;
      s.(equity := equity,
         losses := if trade.pnl < 0.0 then s.losses + 1 else 0,
         position := None,
         trades := s.trades + [trade],
         curve := s.curve + [EquityPoint(now, equity, regime)])
    case None =>
      var unrealized := RealizedPnl(p.entryPrice, bar.close, p.qty);
      s.(curve := s.curve + [EquityPoint(now, s.equity + unrealized, regime)])
  }

  /** Without a position: record the curve point, then candidate, decision,
      guards, budget, stop and size, each of which may end the bar. */
  function TryEnter(env: Env, s: SimState, idx: nat, ind: Indicators): (r: Result<SimState, RunError>)
    requires idx < |env.bars| && s.position.None?
  {
    var now := env.bars[idx].closeTime;
    var s1 := s.(curve := s.curve + [EquityPoint(now, s.equity, ind.trend)]);
    match GenerateCandidate(ind, env.settings, None, None)
    case None => Ok(s1)
    case Some(c) =>
      match BuildSnapshot(c.symbol, c.trend, ind)
      case Err(_) => Err(SnapshotInvalid)
      case Ok(snapshot) =>
        var d := ResolveAiDecision(env.mode, env.provider, idx, snapshot);
        var s2 := s1.(decisions := s1.decisions + [DecisionLog(now, env.mode, d.decision, d.confidence, d.riskFlags)]);
        if env.mode != Baseline && d.decision == Deny then Ok(s2)
        else
          var guard := CheckGlobalGuards(env.settings,
            RiskStats(s2.losses, WeeklyDrawdownPct(s2.weekStartEquity, s2.equity), 0.0));
          if !guard.allowed then Ok(s2.(warnings := s2.warnings + ["risk_guard_block:" + JoinComma(guard.reasons)]))
          else
            var budget := ResolveRiskBudget(env.mode, env.settings.riskPerTradePct, d);
            var stop := BuildStopLoss(c.entryPrice, c.atr, env.settings.stopLossAtrMultiplier);
            var qty := EntryQty(s2.equity, c.entryPrice, stop, budget, env.settings.maxTotalExposurePct);
            if qty <= 0.0 then Ok(s2.(warnings := s2.warnings + ["qty_zero_after_risk"]))
            else
              var fill := EntryFill(c.entryPrice, SlippageOf(env.config.slippageBps));
              Ok(s2.(position := Some(OpenPosition(c.symbol, qty, fill, stop, now, d.decision, d.confidence))))
  }

  /** Whether bar `idx` gets past the daily-bar count and the indicators. */
  predicate Processed(env: Env, idx: nat)
    requires idx < |env.bars|
  {
    var daily := DailyUpTo(env.daily, env.bars[idx].closeTime);
    |daily| >= env.config.min1dBars && env.indicators(env.bars[..idx + 1], daily).Ok?
  }

  /** One bar of the loop. */
  function Step(env: Env, s: SimState, idx: nat): (r: Result<SimState, RunError>)
    requires idx < |env.bars|
  {
    var bar := env.bars[idx];
    var now := bar.closeTime;
    var s1 := RollWeek(s, env.isoWeek(now));
    var daily := DailyUpTo(env.daily, now);
    if |daily| < env.config.min1dBars then Ok(s1)
    else
      match env.indicators(env.bars[..idx + 1], daily)
      case Err(e) => Ok(s1.(warnings := s1.warnings + ["indicator_error:" + e]))
      case Ok(ind) =>
        if s1.position.Some? then Ok(ManageOpen(env, s1, bar, ind.trend))
        else TryEnter(env, s1, idx, ind)
  }

  /** The state after the bars from the warm-up index up to `k`. */
  function RunTo(env: Env, k: nat): Result<SimState, RunError>
    requires 0 <= env.config.warmup4hBars <= k <= |env.bars|
    decreases k
  {
    if k == env.config.warmup4hBars then Ok(Initial(env))
    else
      match RunTo(env, k - 1)
      case Err(e) => Err(e)
      case Ok(s) => Step(env, s, k - 1)
  }

  /** The forced close at the last bar's close of a position still open. */
  function FinalTrade(env: Env, p: OpenPosition): TradeRecord
    requires |env.bars| > 0
  {
    var last := env.bars[|env.bars| - 1];
    CloseTrade(env.mode, p, last.closeTime, EndOfData, last.close, SlippageOf(env.config.slippageBps))
  }

  /** The result of a finished loop: a still-open position is closed at the
      end of the data with one more curve point, and the metrics are those of
      the final curve and trades. */
  function Finish(env: Env, s: SimState): (r: ExperimentResult)
    requires |env.bars| > 0
  {
    var trades := if s.position.Some? then s.trades + [FinalTrade(env, s.position.value)] else s.trades;
    var curve :=
      if s.position.Some? then
        var regime := if s.curve != [] then s.curve[|s.curve| - 1].regime else "UNKNOWN";
        s.curve + [EquityPoint(env.bars[|env.bars| - 1].closeTime, s.equity + FinalTrade(env, s.position.value).pnl, regime)]
      else s.curve;
    ExperimentResult(env.mode, trades, curve, s.decisions, s.warnings,
                     ToMetrics(ComputeSummaryMetrics(curve, trades)), map[])
  }

  /** `run_single_mode` as a function of its inputs. */
  function RunSpec(env: Env): Result<ExperimentResult, RunError>
  {
    if env.config.warmup4hBars <= 0 then Err(WarmupNotPositive)
    else if |env.bars| <= env.config.warmup4hBars then Err(InsufficientBars)
    else
      match RunTo(env, |env.bars|)
      case Err(e) => Err(e)
      case Ok(s) => Ok(Finish(env, s))
  }

  // ---------------------------------------------------------------------------
  // The loop itself

  /** Runs one mode bar by bar. */
  method RunSingleMode(env: Env) returns (r: Result<ExperimentResult, RunError>)
    ensures r == RunSpec(env)
  {
    if env.config.warmup4hBars <= 0 {
      return Err(WarmupNotPositive);
    }
    if |env.bars| <= env.config.warmup4hBars {
      return Err(InsufficientBars);
    }
    var loop := RunBars(env);
    if loop.Err? {
      return Err(loop.error);
    }
    var result := CloseAtEndOfData(env, loop.value);
    return Ok(result);
  }

  /** The bar loop from the warm-up index to the last bar, stopping at the
      first failing bar. */
  method RunBars(env: Env) returns (r: Result<SimState, RunError>)
    requires 0 <= env.config.warmup4hBars <= |env.bars|
    ensures r == RunTo(env, |env.bars|)
  {
    var state := Initial(env);
    for idx := env.config.warmup4hBars to |env.bars|
      invariant RunTo(env, idx) == Ok(state)
    {
      var next := ProcessBar(env, state, idx);
      RunToNext(env, idx + 1, state);
      if next.Err? {
        ErrPersists(env, idx + 1, |env.bars|);
        return Err(next.error);
      }
      state := next.value;
    }
    return Ok(state);
  }

  /** One bar: roll the week, skip the bar without enough daily bars or
      without indicators, then manage the open position or look for an
      entry. */
  method ProcessBar(env: Env, s: SimState, idx: nat) returns (r: Result<SimState, RunError>)
    requires idx < |env.bars|
    ensures r == Step(env, s, idx)
  {
    var state := s;
    var bar := env.bars[idx];
    var now := bar.closeTime;
    var currentWeekId := env.isoWeek(now);
    if state.weekId.None? {
      state := state.(weekId := Some(currentWeekId));
    } else if currentWeekId != state.weekId.value {
      state := state.(weekStartEquity := state.equity, weekId := Some(currentWeekId));
    }
    assert state == RollWeek(s, currentWeekId);

    var bars1d := DailyUpTo(env.daily, now);
    if |bars1d| < env.config.min1dBars {
      return Ok(state);
    }
    var computed := env.indicators(env.bars[..idx + 1], bars1d);
    if computed.Err? {
      return Ok(state.(warnings := state.warnings + ["indicator_error:" + computed.error]));
    }
    var indicators := computed.value;
    if state.position.Some? {
      state := CloseOrMark(env, state, bar, indicators.trend);
      return Ok(state);
    }
    r := EnterIfAllowed(env, state, idx, indicators);
  }

  /** A bar with a position open: a stop closes it, realising the P&L into
      equity and the loss streak; otherwise it is marked at the close. */
  method CloseOrMark(env: Env, s: SimState, bar: Bar, regime: string) returns (r: SimState)
    requires s.position.Some?
    ensures r == ManageOpen(env, s, bar, regime)
  {
    r := s;
    var position := s.position.value;
    var now := bar.closeTime;
    var closed := TryClose(env.mode, position, now, bar.close, bar.low,
                           SlippageOf(env.config.slippageBps), env.settings.maxHoldingDays);
    if closed.Some? {
      var realizedPnl := closed.value.pnl;
      r := r.(trades := r.trades + [closed.value]);
      r := r.(equity := r.equity + realizedPnl);
      r := r.(losses := if realizedPnl < 0.0 then r.losses + 1 else 0);
      r := r.(position := None);
      r := r.(curve := r.curve + [EquityPoint(now, r.equity, regime)]);
      return;
    }
    var unrealized := RealizedPnl(position.entryPrice, bar.close, position.qty);
    r := r.(curve := r.curve + [EquityPoint(now, r.equity + unrealized, regime)]);
  }

  /** A flat bar: one curve point, then candidate, snapshot, decision (logged),
      the DENY filter, the global guards, and the stop and size before
      opening. */
  method EnterIfAllowed(env: Env, s: SimState, idx: nat, indicators: Indicators) returns (r: Result<SimState, RunError>)
    requires idx < |env.bars| && s.position.None?
    ensures r == TryEnter(env, s, idx, indicators)
  {
    var state := s;
    var now := env.bars[idx].closeTime;
    state := state.(curve := state.curve + [EquityPoint(now, state.equity, indicators.trend)]);
    var candidate := GenerateCandidate(indicators, env.settings, None, None);
    if candidate.None? {
      return Ok(state);
    }
    var c := candidate.value;
    var snapshot := BuildSnapshot(c.symbol, c.trend, indicators);
    if snapshot.Err? {
      return Err(SnapshotInvalid);
    }
    var aiDecision := ResolveAiDecision(env.mode, env.provider, idx, snapshot.value);
    state := state.(decisions := state.decisions
      + [DecisionLog(now, env.mode, aiDecision.decision, aiDecision.confidence, aiDecision.riskFlags)]);
    if env.mode != Baseline && aiDecision.decision == Deny {
      return Ok(state);
    }

    var weeklyDrawdownPct := WeeklyDrawdownPct(state.weekStartEquity, state.equity);
    var guard := CheckGlobalGuards(env.settings, RiskStats(state.losses, weeklyDrawdownPct, 0.0));
    if !guard.allowed {
      return Ok(state.(warnings := state.warnings + ["risk_guard_block:" + JoinComma(guard.reasons)]));
    }

    var riskBudgetPct := ResolveRiskBudget(env.mode, env.settings.riskPerTradePct, aiDecision);
    var stopLoss := BuildStopLoss(c.entryPrice, c.atr, env.settings.stopLossAtrMultiplier);
    var qty := EntryQty(state.equity, c.entryPrice, stopLoss, riskBudgetPct, env.settings.maxTotalExposurePct);
    if qty <= 0.0 {
      return Ok(state.(warnings := state.warnings + ["qty_zero_after_risk"]));
    }
    var entryFill := EntryFill(c.entryPrice, SlippageOf(env.config.slippageBps));
    state := state.(position := Some(OpenPosition(c.symbol, qty, entryFill, stopLoss, now,
                                                  aiDecision.decision, aiDecision.confidence)));
    return Ok(state);
  }

  /** After the last bar: a position still open is closed at the last close
      with reason end_of_data and one more curve point; then the metrics. */
  method CloseAtEndOfData(env: Env, s: SimState) returns (result: ExperimentResult)
    requires |env.bars| > 0
    ensures result == Finish(env, s)
  {
    var equity := s.equity;
    var trades := s.trades;
    var curve := s.curve;
    if s.position.Some? {
      var finalBar := env.bars[|env.bars| - 1];
      var trade := CloseTrade(env.mode, s.position.value, finalBar.closeTime, EndOfData, finalBar.close,
                              SlippageOf(env.config.slippageBps));
      equity := equity + trade.pnl;
      trades := trades + [trade];
      var regime := if |curve| > 0 then curve[|curve| - 1].regime else "UNKNOWN";
      curve := curve + [EquityPoint(finalBar.closeTime, equity, regime)];
      assert trade == FinalTrade(env, s.position.value);
    }
    assert trades == Finish(env, s).trades && curve == Finish(env, s).equityCurve;
    var metrics := ToMetrics(ComputeSummaryMetrics(curve, trades));
    result := ExperimentResult(env.mode, trades, curve, s.decisions, s.warnings, metrics, map[]);
  }

  // ---------------------------------------------------------------------------
  // The suite of three modes

  /** The three runs, their segments and the gate's verdict. */
  datatype SuiteReport = SuiteReport(
    symbol: string,
    segments: seq<SegmentSpec>,
    experiments: map<Mode, ExperimentResult>,
    goNoGo: GoNoGo)

  /** The runs of `modes` in order, stopping at the first failing one. */
  function RunModes(env: Env, modes: seq<Mode>): (r: Result<map<Mode, ExperimentResult>, RunError>)
    ensures r.Ok? ==> r.value.Keys == set m | m in modes
  {
    if modes == [] then Ok(map[])
    else
      var last := modes[|modes| - 1];
      assert forall m :: m in modes <==> m in modes[..|modes| - 1] || m == last;
      match RunModes(env, modes[..|modes| - 1])
      case Err(e) => Err(e)
      case Ok(runs) =>
        match RunSpec(env.(mode := last))
        case Err(e) => Err(e)
        case Ok(result) => Ok(runs[last := result])
  }

  function WithSegmentMetrics(result: ExperimentResult, segments: seq<SegmentSpec>): ExperimentResult
  {
    result.(segmentMetrics := ComputeSegmentMetrics(result.equityCurve, result.trades, segments))
  }

  /** `run_backtest_suite` up to the gate: every mode over the same data, the
      given segments or else the default split of the baseline curve, the
      segment metrics of every run, and the go/no-go verdict. */
  function SuiteSpec(env: Env, segments: Option<seq<SegmentSpec>>): Result<SuiteReport, RunError>
  {
    match RunModes(env, ExperimentModes)
    case Err(e) => Err(e)
    case Ok(runs) =>
      assert Baseline in runs.Keys;
      var segs := if segments.Some? then segments.value else BuildDefaultSegments(runs[Baseline].equityCurve);
      var experiments := map m | m in runs :: WithSegmentMetrics(runs[m], segs);
      Ok(SuiteReport(env.config.symbol, segs, experiments, EvaluateGoNoGo(experiments)))
  }

  /** A failed run ends the suite: later modes do not change the error. */
  lemma {:induction false} RunModesErrPersists(env: Env, modes: seq<Mode>, j: nat)
    requires j <= |modes| && RunModes(env, modes[..j]).Err?
    ensures RunModes(env, modes) == RunModes(env, modes[..j])
    decreases |modes| - j
  {
    if j < |modes| {
      assert modes[..j + 1][..j] == modes[..j];
      RunModesErrPersists(env, modes, j + 1);
    } else {
      assert modes[..j] == modes;
    }
  }

  /** Runs the modes one after the other, then attaches segment metrics and
      evaluates the gate. */
  method RunBacktestSuite(env: Env, segments: Option<seq<SegmentSpec>>) returns (r: Result<SuiteReport, RunError>)
    ensures r == SuiteSpec(env, segments)
  {
    var runs := RunEveryMode(env);
    if runs.Err? {
      return Err(runs.error);
    }
    var experiments := runs.value;
    assert Baseline in experiments;
    var segs := if segments.Some? then segments.value else BuildDefaultSegments(experiments[Baseline].equityCurve);
    var attached := AttachSegmentMetrics(experiments, segs);
    r := Ok(SuiteReport(env.config.symbol, segs, attached, EvaluateGoNoGo(attached)));
  }

  /** One run per mode, in the order of `ExperimentModes`; the first failure
      ends the suite. */
  method RunEveryMode(env: Env) returns (r: Result<map<Mode, ExperimentResult>, RunError>)
    ensures r == RunModes(env, ExperimentModes)
  {
    var experiments: map<Mode, ExperimentResult> := map[];
    for i := 0 to |ExperimentModes|
      invariant RunModes(env, ExperimentModes[..i]) == Ok(experiments)
    {
      var mode := ExperimentModes[i];
      var result := RunSingleMode(env.(mode := mode));
      assert ExperimentModes[..i + 1][..i] == ExperimentModes[..i];
      if result.Err? {
        RunModesErrPersists(env, ExperimentModes, i + 1);
        return Err(result.error);
      }
      experiments := experiments[mode := result.value];
    }
    assert ExperimentModes[..|ExperimentModes|] == ExperimentModes;
    r := Ok(experiments);
  }

  /** Every run of the suite gets the metrics of every segment. */
  method AttachSegmentMetrics(runs: map<Mode, ExperimentResult>, segs: seq<SegmentSpec>)
    returns (attached: map<Mode, ExperimentResult>)
    requires runs.Keys == set m | m in ExperimentModes
    ensures attached == map m | m in runs :: WithSegmentMetrics(runs[m], segs)
  {
    attached := map[];
    for i := 0 to |ExperimentModes|
      invariant forall m :: m in attached <==> m in ExperimentModes[..i]
      invariant forall m :: m in attached ==> attached[m] == WithSegmentMetrics(runs[m], segs)
    {
      var mode := ExperimentModes[i];
      assert ExperimentModes[..i + 1] == ExperimentModes[..i] + [mode];
      attached := attached[mode := WithSegmentMetrics(runs[mode], segs)];
    }
    assert ExperimentModes[..|ExperimentModes|] == ExperimentModes;
  }

  /** A successful prefix followed by one more bar. */
  lemma RunToNext(env: Env, k: nat, s: SimState)
    requires 0 <= env.config.warmup4hBars < k <= |env.bars|
    requires RunTo(env, k - 1) == Ok(s)
    ensures RunTo(env, k) == Step(env, s, k - 1)
  {
  }

  /** An early stop is final: every later prefix of the run fails the same
      way. */
  lemma {:induction false} ErrPersists(env: Env, k: nat, n: nat)
    requires 0 <= env.config.warmup4hBars <= k <= n <= |env.bars|
    requires RunTo(env, k).Err?
    ensures RunTo(env, n) == RunTo(env, k)
    decreases n - k
  {
    if k < n {
      assert RunTo(env, k + 1) == RunTo(env, k);
      ErrPersists(env, k + 1, n);
    }
  }
}
