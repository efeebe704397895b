/** The pure policies of the live trading cycle (src/ai_trading/pipeline.py):
    the degraded decision used when the AI call fails, the effective risk
    budget, the exposure cap and the ATR label. The backtest runner has
    identical copies of the last two (src/ai_trading/backtest/runner.py:430-442)
    and uses these. */
module Pipeline {
  import opened Schemas

  function Clamp(x: real, lo: real, hi: real): (r: real)
    requires lo <= hi
    ensures lo <= r <= hi
    ensures lo <= x <= hi ==> r == x
  {
    if x < lo then lo else if x > hi then hi else x
  }

  /** The live cycle's stand-in when the AI call fails: a full-confidence
      ALLOW flagged AI_UNAVAILABLE. The backtest's stand-in differs
      (`Runner.BacktestDegradedDecision`, confidence 0.5). */
  function LiveDegradedDecision(message: string): (d: LLMDecision)
    ensures ValidDecision(d)
    ensures d.decision == Allow && d.confidence == 1.0
    ensures d.riskFlags == ["AI_UNAVAILABLE"]
    ensures d.keyReasons == ["fallback_to_rules: " + message]
  {
    LLMDecision(Allow, 1.0, ["AI_UNAVAILABLE"], ["fallback_to_rules: " + message])
  }

  /** `_effective_risk_budget`: a degraded call halves the base budget; REDUCE
      scales it by the confidence clamped to [0, 1]; ALLOW and DENY scale it
      by the confidence clamped to [0.5, 1]. */
  function EffectiveRiskBudget(base: real, decision: LLMDecision, degraded: bool): (r: real)
    ensures degraded ==> r == base * 0.5
    ensures !degraded && decision.decision == Reduce ==> r == base * Clamp(decision.confidence, 0.0, 1.0)
    ensures !degraded && decision.decision != Reduce ==> r == base * Clamp(decision.confidence, 0.5, 1.0)
    ensures base >= 0.0 && !degraded && decision.decision == Reduce ==> 0.0 <= r <= base
    ensures base >= 0.0 && !degraded && decision.decision != Reduce ==> 0.5 * base <= r <= base
    ensures base >= 0.0 ==> 0.0 <= r <= base
  {
    if degraded then base * 0.5
    else if decision.decision == Reduce then
      var c := Clamp(decision.confidence, 0.0, 1.0);
      assert base >= 0.0 ==> 0.0 <= base * c <= base by {
        if base >= 0.0 { ScaledWithin(base, c, 0.0, 1.0); }
      }
      base * c
    else
      var c := Clamp(decision.confidence, 0.5, 1.0);
      assert base >= 0.0 ==> 0.5 * base <= base * c <= base by {
        if base >= 0.0 { ScaledWithin(base, c, 0.5, 1.0); }
      }
      base * c
  }

  /** Scaling a non-negative base by a factor within [lo, hi]. */
  lemma ScaledWithin(base: real, factor: real, lo: real, hi: real)
    requires base >= 0.0 && lo <= factor <= hi
    ensures base * lo <= base * factor <= base * hi
  {
    assert base * (factor - lo) >= 0.0;
    assert base * (hi - factor) >= 0.0;
  }

  /** The degraded decision's own confidence of 1.0 never reaches the budget:
      the degraded flag wins and the budget is exactly half the base. */
  lemma LiveDegradedBudgetIsHalf(base: real, message: string)
    ensures EffectiveRiskBudget(base, LiveDegradedDecision(message), true) == base * 0.5
    ensures base > 0.0 ==> EffectiveRiskBudget(base, LiveDegradedDecision(message), true)
                           < EffectiveRiskBudget(base, LiveDegradedDecision(message), false)
  {
  }

  /** The most units the exposure limit allows; 0 when any input is not positive. */
  function MaxQtyByExposure(equity: real, entryPrice: real, maxExposurePct: real): (qty: real)
    ensures equity <= 0.0 || entryPrice <= 0.0 || maxExposurePct <= 0.0 ==> qty == 0.0
    ensures equity > 0.0 && entryPrice > 0.0 && maxExposurePct > 0.0 ==>
      qty > 0.0 && qty * entryPrice == equity * maxExposurePct / 100.0
  {
    if equity <= 0.0 || entryPrice <= 0.0 || maxExposurePct <= 0.0 then 0.0
    else
      var maxNotional := equity * maxExposurePct / 100.0;
      maxNotional / entryPrice
  }

  /** `_atr_label`: LOW below 0.33, NORMAL below 0.8, HIGH from 0.8 on. */
  function AtrLabelOf(quantile: real): (lab: AtrLabel)
    ensures lab == Low <==> quantile < 0.33
    ensures lab == Normal <==> 0.33 <= quantile < 0.8
    ensures lab == High <==> quantile >= 0.8
  {
    if quantile < 0.33 then Low
    else if quantile < 0.8 then Normal
    else High
  }
}
