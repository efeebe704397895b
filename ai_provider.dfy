/** The deterministic offline decision provider used for reproducible
    backtests (src/ai_trading/backtest/ai_provider.py). */
module AiProvider {
  import opened Wrappers
  import opened Schemas

  /** Funding is crowded when it is reported and strictly above 1%. */
  predicate FundingCrowded(s: MarketSnapshot)
  {
    s.fundingAvailable && s.fundingRate.Some? && s.fundingRate.value > 0.01
  }

  /** `HeuristicDecisionProvider.evaluate`: event risk denies, high volatility
      or crowded funding reduces, anything else allows. */
  function HeuristicEvaluate(s: MarketSnapshot): (d: LLMDecision)
    ensures ValidDecision(d)
    ensures d.decision == Deny <==> s.eventRisk.Yes?
    ensures s.eventRisk.Yes? ==> d == LLMDecision(Deny, 0.0, ["EVENT"], ["macro_event_window"])
    ensures d.decision == Reduce <==> s.eventRisk.No? && (s.atrLabel == High || FundingCrowded(s))
    ensures s.eventRisk.No? && s.atrLabel == High ==> d.confidence == 0.5 && d.riskFlags == ["VOLATILE"]
    ensures s.eventRisk.No? && s.atrLabel != High && FundingCrowded(s) ==>
      d.confidence == 0.6 && d.riskFlags == ["CROWDING"]
    ensures d.decision == Allow ==> d.confidence == 0.85 && d.riskFlags == []
  {
    if s.eventRisk.Yes? then
      LLMDecision(Deny, 0.0, ["EVENT"], ["macro_event_window"])
    else if s.atrLabel == High then
      LLMDecision(Reduce, 0.5, ["VOLATILE"], ["atr_high"])
    else if FundingCrowded(s) then
      LLMDecision(Reduce, 0.6, ["CROWDING"], ["funding_extreme_positive"])
    else
      LLMDecision(Allow, 0.85, [], ["regime_supportive"])
  }

  /** Funding at exactly 1% is not crowding. */
  lemma FundingAtThresholdAllows(s: MarketSnapshot)
    requires s.eventRisk.No? && s.atrLabel != High
    requires s.fundingAvailable && s.fundingRate == Some(0.01)
    ensures HeuristicEvaluate(s).decision == Allow
  {
  }
}
