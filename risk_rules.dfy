/** The hard risk rules: global guards, position sizing from a risk budget,
    the ATR stop and the time stop (src/ai_trading/risk/rules.py). The engine's
    only state is its read-only settings, passed here as a parameter. */
module RiskRules {
  import opened Domain

  const ConsecutiveLossesReason := "max_consecutive_losses_reached"
  const WeeklyDrawdownReason := "max_weekly_drawdown_reached"
  const ExposureReason := "max_total_exposure_exceeded"

  /** The position of a guard reason in the fixed reporting order. */
  function ReasonRank(reason: string): int
  {
    if reason == ConsecutiveLossesReason then 0
    else if reason == WeeklyDrawdownReason then 1
    else if reason == ExposureReason then 2
    else 3
  }

  /** Three independent guards; each adds its reason, in a fixed order. */
  function CheckGlobalGuards(settings: Settings, stats: RiskStats): (r: RiskCheckResult)
    ensures r.allowed <==> r.reasons == []
    ensures r.riskBudgetPct == settings.riskPerTradePct
    ensures ConsecutiveLossesReason in r.reasons <==> stats.consecutiveLosses >= settings.maxConsecutiveLosses
    ensures WeeklyDrawdownReason in r.reasons <==> stats.weeklyDrawdownPct >= settings.maxWeeklyDrawdownPct
    ensures ExposureReason in r.reasons <==> stats.totalExposurePct > settings.maxTotalExposurePct
    ensures forall i :: 0 <= i < |r.reasons| ==> ReasonRank(r.reasons[i]) < 3
    ensures forall i, j :: 0 <= i < j < |r.reasons| ==> ReasonRank(r.reasons[i]) < ReasonRank(r.reasons[j])
  {
    var reasons :=
      (if stats.consecutiveLosses >= settings.maxConsecutiveLosses then [ConsecutiveLossesReason] else [])
      + (if stats.weeklyDrawdownPct >= settings.maxWeeklyDrawdownPct then [WeeklyDrawdownReason] else [])
      + (if stats.totalExposurePct > settings.maxTotalExposurePct then [ExposureReason] else []);
    RiskCheckResult(reasons == [], settings.riskPerTradePct, reasons)
  }

  /** Reaching the loss limit exactly blocks, as the rules' own test expects. */
  lemma LossLimitReachedBlocks(settings: Settings)
    ensures !CheckGlobalGuards(settings, RiskStats(settings.maxConsecutiveLosses, 0.0, 0.0)).allowed
  {
    assert ConsecutiveLossesReason in CheckGlobalGuards(settings, RiskStats(settings.maxConsecutiveLosses, 0.0, 0.0)).reasons;
  }

  /** Units to buy so that hitting the stop loses `riskBudgetPct` percent of
      equity; 0 when the inputs cannot define a long risk. */
  function ComputePositionSize(equity: real, entry: real, stop: real, riskBudgetPct: real): (qty: real)
    ensures qty >= 0.0
    ensures equity <= 0.0 || entry <= 0.0 || stop <= 0.0 || entry <= stop ==> qty == 0.0
    ensures equity > 0.0 && stop > 0.0 && entry > stop && riskBudgetPct >= 0.0 ==>
      qty * (entry - stop) == equity * riskBudgetPct / 100.0
    ensures equity > 0.0 && stop > 0.0 && entry > stop && riskBudgetPct < 0.0 ==> qty == 0.0
  {
    if equity <= 0.0 || entry <= 0.0 || stop <= 0.0 then 0.0
    else
      var perUnitRisk := entry - stop;
      if perUnitRisk <= 0.0 then 0.0
      else
        var riskAmount := equity * (riskBudgetPct / 100.0);
        var qty := riskAmount / perUnitRisk;
        if qty > 0.0 then qty else 0.0
  }

  /** The rules' own example: 10000 equity, entry 50000, stop 49500, 0.5%. */
  lemma PositionSizeExample()
    ensures ComputePositionSize(10000.0, 50000.0, 49500.0, 0.5) == 0.1
  {
  }

  /** A long stop `atr * multiplier` below entry, floored at 0; 0 means "no
      valid stop". */
  function BuildStopLoss(entry: real, atr: real, atrMultiplier: real): (stop: real)
    ensures entry <= 0.0 || atr <= 0.0 || atrMultiplier <= 0.0 ==> stop == 0.0
    ensures 0.0 <= stop
    ensures entry > 0.0 && atr > 0.0 && atrMultiplier > 0.0 ==>
      stop < entry && (stop == entry - atr * atrMultiplier || (stop == 0.0 && entry <= atr * atrMultiplier))
  {
    if entry <= 0.0 || atr <= 0.0 || atrMultiplier <= 0.0 then 0.0
    else
      var stop := entry - atr * atrMultiplier;
      if stop > 0.0 then stop else 0.0
  }

  const SecondsPerDay := 86400

  /** True once the position has been held `maxHoldingDays` days or more. */
  function CheckTimeStop(position: PositionState, now: int, maxHoldingDays: int): (expired: bool)
    ensures expired <==> now - position.openedAt >= maxHoldingDays * SecondsPerDay
  {
    var heldDays := (now - position.openedAt) as real / SecondsPerDay as real;
    heldDays >= maxHoldingDays as real
  }

  /** Once the time stop fires it stays fired. */
  lemma TimeStopMonotone(position: PositionState, now: int, later: int, maxHoldingDays: int)
    requires now <= later
    requires CheckTimeStop(position, now, maxHoldingDays)
    ensures CheckTimeStop(position, later, maxHoldingDays)
  {
  }
}
