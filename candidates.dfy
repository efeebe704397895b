/** The deterministic long-only candidate filter (src/ai_trading/strategy/candidates.py). */
module Candidates {
  import opened Wrappers
  import opened Domain

  const MvpSymbol := "BTCUSDT"
  const CandidateReasons: seq<string> := ["trend_up_1d", "pullback_near_ema20_4h", "atr_not_extreme"]

  /** Conditions all passing exactly when a candidate is produced: an UP trend,
      a positive ATR, an ATR quantile not above the high threshold and a
      pullback distance not above its threshold (equality passes). */
  predicate Qualifies(ind: Indicators, settings: Settings)
  {
    && ind.trend == "UP"
    && ind.atr14_4h > 0.0
    && ind.atrQuantile <= settings.atrHighQuantile
    && ind.distanceToEma20Atr <= settings.pullbackAtrThreshold
  }

  /** `generate_candidate`; the creation timestamp (the clock) is not modelled. */
  function GenerateCandidate(ind: Indicators, settings: Settings, fundingRate: Option<real>, openInterest: Option<real>): (r: Option<TradeCandidate>)
    ensures r.Some? <==> Qualifies(ind, settings)
    ensures r.Some? ==> r.value.symbol == MvpSymbol && r.value.trend == "UP"
    ensures r.Some? ==> r.value.entryPrice == ind.price && r.value.atr == ind.atr14_4h
    ensures r.Some? ==> r.value.ema20_4h == ind.ema20_4h && r.value.ema50_1d == ind.ema50_1d
    ensures r.Some? ==> r.value.fundingRate == fundingRate && r.value.openInterest == openInterest
    ensures r.Some? ==> r.value.reasons == CandidateReasons
  {
    if ind.trend != "UP" then None
    else if ind.atr14_4h <= 0.0 then None
    else if ind.atrQuantile > settings.atrHighQuantile then None
    else if ind.distanceToEma20Atr > settings.pullbackAtrThreshold then None
    else Some(TradeCandidate(
      MvpSymbol, ind.price, ind.atr14_4h, ind.ema20_4h, ind.ema50_1d, "UP",
      fundingRate, openInterest, CandidateReasons))
  }

  /** The filter's own test: a DOWN trend never yields a candidate, whatever
      the other indicators say. */
  lemma DownTrendHasNoCandidate(ind: Indicators, settings: Settings, fundingRate: Option<real>, openInterest: Option<real>)
    requires ind.trend == "DOWN"
    ensures GenerateCandidate(ind, settings, fundingRate, openInterest).None?
  {
  }
}
