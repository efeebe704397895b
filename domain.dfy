/** The records shared by the live pipeline and the backtest
    (src/ai_trading/types.py, src/ai_trading/backtest/types.py), the settings
    the rules read, and the fill and weekly-drawdown arithmetic both the
    backtest loop and the paper account use. */
module Domain {
  import opened Wrappers
  import opened Schemas

  datatype Mode = Baseline | AiFilter | AiFilterSizing

  /** The three experiment modes, in the order the suite runs them. */
  const ExperimentModes: seq<Mode> := [Baseline, AiFilter, AiFilterSizing]

  /** The settings the risk rules, the candidate filter and the loop read.
      Timestamps elsewhere are whole seconds. */
  datatype Settings = Settings(
    riskPerTradePct: real,
    stopLossAtrMultiplier: real,
    maxHoldingDays: int,
    maxConsecutiveLosses: int,
    maxWeeklyDrawdownPct: real,
    maxTotalExposurePct: real,
    pullbackAtrThreshold: real,
    atrHighQuantile: real)

  /** The bounds the settings loader enforces on each field. */
  predicate ValidSettings(s: Settings)
  {
    && 0.1 <= s.riskPerTradePct <= 2.0
    && 1.0 <= s.stopLossAtrMultiplier <= 5.0
    && 1 <= s.maxHoldingDays <= 30
    && 1 <= s.maxConsecutiveLosses <= 10
    && 1.0 <= s.maxWeeklyDrawdownPct <= 10.0
    && 1.0 <= s.maxTotalExposurePct <= 50.0
    && 0.1 <= s.pullbackAtrThreshold <= 2.0
    && 0.5 <= s.atrHighQuantile <= 0.99
  }

  /** The indicator snapshot the indicator function produces for the bars so
      far; `trend` is kept as the string it is in the source. */
  datatype Indicators = Indicators(
    trend: string,
    price: real,
    ema20_4h: real,
    ema50_1d: real,
    atr14_4h: real,
    atrQuantile: real,
    distanceToEma20Atr: real)

  /** A long-only candidate (the side is always LONG and is not stored). */
  datatype TradeCandidate = TradeCandidate(
    symbol: string,
    entryPrice: real,
    atr: real,
    ema20_4h: real,
    ema50_1d: real,
    trend: string,
    fundingRate: Option<real>,
    openInterest: Option<real>,
    reasons: seq<string>)

  /** An open long position of the paper account. */
  datatype PositionState = PositionState(
    symbol: string,
    qty: real,
    entryPrice: real,
    stopLoss: real,
    openedAt: int,
    unrealizedPnl: real)

  /** The account statistics the global guards read. */
  datatype RiskStats = RiskStats(
    consecutiveLosses: int,
    weeklyDrawdownPct: real,
    totalExposurePct: real)

  datatype RiskCheckResult = RiskCheckResult(
    allowed: bool,
    riskBudgetPct: real,
    reasons: seq<string>)

  /** One OHLCV candle; times are seconds. */
  datatype Bar = Bar(
    openTime: int,
    open: real,
    high: real,
    low: real,
    close: real,
    volume: real,
    closeTime: int)

  datatype BacktestConfig = BacktestConfig(
    symbol: string,
    initialEquity: real,
    slippageBps: real,
    warmup4hBars: int,
    min1dBars: int)

  datatype CloseReason = StopLoss | TimeStop | EndOfData

  function CloseReasonName(r: CloseReason): string
  {
    match r
    case StopLoss => "stop_loss"
    case TimeStop => "time_stop"
    case EndOfData => "end_of_data"
  }

  datatype TradeRecord = TradeRecord(
    mode: Mode,
    symbol: string,
    openedAt: int,
    closedAt: int,
    closeReason: CloseReason,
    qty: real,
    entryPrice: real,
    exitPrice: real,
    stopLoss: real,
    pnl: real,
    pnlPct: real,
    aiDecision: Decision,
    aiConfidence: real)

  datatype EquityPoint = EquityPoint(timestamp: int, equity: real, regime: string)

  /** A named window, inclusive at both ends. */
  datatype SegmentSpec = SegmentSpec(name: string, startAt: int, endAt: int)

  /** One value of a metrics dictionary: an int, a float or None. */
  datatype MetricValue = MInt(i: int) | MFloat(r: real) | MNone

  type Metrics = map<string, MetricValue>

  /** One entry of a run's decision log. */
  datatype DecisionLog = DecisionLog(
    timestamp: int,
    mode: Mode,
    decision: Decision,
    confidence: real,
    riskFlags: seq<string>)

  datatype ExperimentResult = ExperimentResult(
    mode: Mode,
    trades: seq<TradeRecord>,
    equityCurve: seq<EquityPoint>,
    decisions: seq<DecisionLog>,
    warnings: seq<string>,
    metrics: Metrics,
    segmentMetrics: map<string, Metrics>)

  /** What the decision provider answers: a decision, or the one transport
      error kind the callers catch. */
  datatype AiOutcome = Decided(decision: LLMDecision) | TransportError(message: string)

  // ---------------------------------------------------------------------------
  // Fills and realised P&L

  /** A fill's fractional slippage from basis points. */
  function SlippageOf(bps: real): real
  {
    bps / 10000.0
  }

  /** A buy fills above the quoted price. */
  function EntryFill(raw: real, slippage: real): real
  {
    raw * (1.0 + slippage)
  }

  /** A sell fills below the quoted price. */
  function ExitFill(raw: real, slippage: real): real
  {
    raw * (1.0 - slippage)
  }

  function RealizedPnl(entryFill: real, exitFill: real, qty: real): real
  {
    (exitFill - entryFill) * qty
  }

  /** Closing at the price one entered at costs exactly the slippage. */
  lemma ExitAtEntryCostsSlippage(entry: real, qty: real, slippage: real)
    requires entry >= 0.0 && qty >= 0.0 && slippage >= 0.0
    ensures RealizedPnl(entry, ExitFill(entry, slippage), qty) == -(entry * slippage * qty)
    ensures RealizedPnl(entry, ExitFill(entry, slippage), qty) <= 0.0
  {
    assert ExitFill(entry, slippage) - entry == -(entry * slippage);
    assert entry * slippage >= 0.0;
    assert entry * slippage * qty >= 0.0;
  }

  // ---------------------------------------------------------------------------
  // Weekly drawdown

  /** Percentage lost since the week's start equity, never negative, and 0
      when the start equity is not positive. */
  function WeeklyDrawdownPct(weekStartEquity: real, equity: real): (r: real)
    ensures r >= 0.0
    ensures weekStartEquity <= 0.0 ==> r == 0.0
    ensures weekStartEquity > 0.0 && equity >= weekStartEquity ==> r == 0.0
    ensures weekStartEquity > 0.0 && equity < weekStartEquity ==>
      r * weekStartEquity == (weekStartEquity - equity) * 100.0
  {
    if weekStartEquity > 0.0 then
      var dd := (weekStartEquity - equity) / weekStartEquity * 100.0;
      if dd > 0.0 then dd else 0.0
    else 0.0
  }
}
