/** What the backtest loop of `Runner` keeps true over a whole run: equity is
    the initial equity plus the realised P&L, the loss streak is the run of
    trailing losing trades, one curve point per processed bar, trades in time
    order, only the forced close is end_of_data, a provider that always
    denies never trades, and the baseline never depends on the provider. */
module RunnerProperties {
  import opened Wrappers
  import opened Schemas
  import opened Domain
  import opened Candidates
  import opened Metrics
  import opened Runner

  // ---------------------------------------------------------------------------
  // Reference definitions

  /** The number of losing trades at the end of `trades`. */
  function TrailingLosses(trades: seq<TradeRecord>): (n: nat)
    ensures n <= |trades|
    ensures forall i :: |trades| - n <= i < |trades| ==> trades[i].pnl < 0.0
    ensures n < |trades| ==> trades[|trades| - 1 - n].pnl >= 0.0
  {
    if trades == [] then 0
    else if trades[|trades| - 1].pnl < 0.0 then TrailingLosses(trades[..|trades| - 1]) + 1
    else 0
  }

  /** The number of bars in [warm-up, k) that pass the daily-bar count and
      the indicators. */
  function ProcessedCount(env: Env, k: nat): (n: nat)
    requires 0 <= env.config.warmup4hBars <= k <= |env.bars|
    ensures n <= k - env.config.warmup4hBars
    decreases k
  {
    if k == env.config.warmup4hBars then 0
    else ProcessedCount(env, k - 1) + (if Processed(env, k - 1) then 1 else 0)
  }

  /** The indicators of a processed bar. */
  function IndicatorsAt(env: Env, idx: nat): Indicators
    requires idx < |env.bars| && Processed(env, idx)
  {
    env.indicators(env.bars[..idx + 1], DailyUpTo(env.daily, env.bars[idx].closeTime)).value
  }

  /** The number of processed bars in [warm-up, k) that yield a candidate. */
  function CandidateCount(env: Env, k: nat): (n: nat)
    requires 0 <= env.config.warmup4hBars <= k <= |env.bars|
    ensures n <= ProcessedCount(env, k)
    decreases k
  {
    if k == env.config.warmup4hBars then 0
    else
      CandidateCount(env, k - 1)
        + (if Processed(env, k - 1) && GenerateCandidate(IndicatorsAt(env, k - 1), env.settings, None, None).Some?
           then 1 else 0)
  }

  /** Bar close times strictly increase. */
  predicate BarsAscending(bars: seq<Bar>)
  {
    forall i, j :: 0 <= i < j < |bars| ==> bars[i].closeTime < bars[j].closeTime
  }

  /** Every trade closes after it opens and before the next one opens. */
  predicate Chronological(trades: seq<TradeRecord>)
  {
    && (forall i :: 0 <= i < |trades| ==> trades[i].openedAt < trades[i].closedAt)
    && (forall i :: 0 <= i < |trades| - 1 ==> trades[i].closedAt < trades[i + 1].openedAt)
  }

  /** The provider denies every snapshot at every bar. */
  ghost predicate AlwaysDenies(provider: (nat, MarketSnapshot) -> AiOutcome)
  {
    forall i: nat, snapshot: MarketSnapshot ::
      provider(i, snapshot).Decided? && provider(i, snapshot).decision.decision == Deny
  }

  // ---------------------------------------------------------------------------
  // One bar

  /** A bar that closes nothing: the account is as before, except that a
      position may have been opened, with a positive size, at `now`. */
  predicate NoClose(s: SimState, r: SimState, now: int)
  {
    && r.trades == s.trades && r.equity == s.equity && r.losses == s.losses
    && (|| r.position == s.position
        || (s.position.None? && r.position.Some? && r.position.value.qty > 0.0 && r.position.value.openedAt == now))
  }

  /** A bar that closes the open position by a stop at `now`, appending its
      trade and realising its P&L into equity and the loss streak. */
  predicate ClosesAt(s: SimState, r: SimState, now: int)
  {
    && s.position.Some? && r.position.None?
    && |r.trades| == |s.trades| + 1 && r.trades[..|s.trades|] == s.trades
    && r.trades[|s.trades|].openedAt == s.position.value.openedAt
    && r.trades[|s.trades|].closedAt == now
    && r.trades[|s.trades|].closeReason != EndOfData
    && r.equity == s.equity + r.trades[|s.trades|].pnl
    && r.losses == (if r.trades[|s.trades|].pnl < 0.0 then s.losses + 1 else 0)
  }

  lemma ManageOpenEffect(env: Env, s: SimState, bar: Bar, regime: string)
    requires s.position.Some?
    ensures NoClose(s, ManageOpen(env, s, bar, regime), bar.closeTime)
         || ClosesAt(s, ManageOpen(env, s, bar, regime), bar.closeTime)
    ensures |ManageOpen(env, s, bar, regime).curve| == |s.curve| + 1
  {
    var r := ManageOpen(env, s, bar, regime);
    if r.position.None? {
      assert r.trades[..|s.trades|] == s.trades;
    }
  }

  lemma TryEnterEffect(env: Env, s: SimState, idx: nat, ind: Indicators)
    requires idx < |env.bars| && s.position.None? && TryEnter(env, s, idx, ind).Ok?
    ensures NoClose(s, TryEnter(env, s, idx, ind).value, env.bars[idx].closeTime)
    ensures |TryEnter(env, s, idx, ind).value.curve| == |s.curve| + 1
    ensures TryEnter(env, s, idx, ind).value.curve[|s.curve|].equity == s.equity
  {
  }

  /** One bar either closes nothing or closes the open position at the bar's
      close time; a processed bar adds exactly one curve point. */
  lemma StepEffect(env: Env, s: SimState, idx: nat)
    requires idx < |env.bars| && Step(env, s, idx).Ok?
    ensures NoClose(s, Step(env, s, idx).value, env.bars[idx].closeTime)
         || ClosesAt(s, Step(env, s, idx).value, env.bars[idx].closeTime)
    ensures |Step(env, s, idx).value.curve| == |s.curve| + (if Processed(env, idx) then 1 else 0)
  {
    var bar := env.bars[idx];
    var s1 := RollWeek(s, env.isoWeek(bar.closeTime));
    var daily := DailyUpTo(env.daily, bar.closeTime);
    if |daily| >= env.config.min1dBars && env.indicators(env.bars[..idx + 1], daily).Ok? {
      var ind := env.indicators(env.bars[..idx + 1], daily).value;
      if s1.position.Some? {
        ManageOpenEffect(env, s1, bar, ind.trend);
      } else {
        TryEnterEffect(env, s1, idx, ind);
      }
    }
  }

  // ---------------------------------------------------------------------------
  // The loop

  /** The bookkeeping every prefix of a run keeps. */
  predicate Accounted(env: Env, s: SimState, k: nat)
    requires 0 <= env.config.warmup4hBars <= k <= |env.bars|
  {
    && s.equity == env.config.initialEquity + SumPnl(s.trades)
    && s.losses == TrailingLosses(s.trades)
    && (s.position.Some? ==> s.position.value.qty > 0.0)
    && (forall i :: 0 <= i < |s.trades| ==> s.trades[i].closeReason != EndOfData)
    && |s.curve| == ProcessedCount(env, k)
  }

  /** A successful prefix is the previous successful prefix and one more bar. */
  lemma RunToStep(env: Env, k: nat)
    requires 0 <= env.config.warmup4hBars < k <= |env.bars|
    requires RunTo(env, k).Ok?
    ensures RunTo(env, k - 1).Ok?
    ensures RunTo(env, k) == Step(env, RunTo(env, k - 1).value, k - 1)
  {
  }

  /** One bar keeps the bookkeeping. */
  lemma AccountedStep(env: Env, s: SimState, r: SimState, k: nat)
    requires 0 <= env.config.warmup4hBars < k <= |env.bars|
    requires Accounted(env, s, k - 1)
    requires NoClose(s, r, env.bars[k - 1].closeTime) || ClosesAt(s, r, env.bars[k - 1].closeTime)
    requires |r.curve| == |s.curve| + (if Processed(env, k - 1) then 1 else 0)
    ensures Accounted(env, r, k)
  {
    if ClosesAt(s, r, env.bars[k - 1].closeTime) {
      assert r.trades[..|r.trades| - 1] == s.trades;
    }
  }

  /** Equity is the initial equity plus the realised P&L, the loss streak
      counts the trailing losing trades, an open position has a positive
      size, no trade of the loop is end_of_data, and there is one curve point
      per processed bar. */
  lemma {:induction false} RunAccounted(env: Env, k: nat)
    requires 0 <= env.config.warmup4hBars <= k <= |env.bars|
    requires RunTo(env, k).Ok?
    ensures Accounted(env, RunTo(env, k).value, k)
    decreases k
  {
    if k > env.config.warmup4hBars {
      RunAccounted(env, k - 1);
      RunToStep(env, k);
      StepAccounted(env, RunTo(env, k - 1).value, k);
    }
  }

  /** One successful bar after an accounted prefix is accounted. */
  lemma StepAccounted(env: Env, s: SimState, k: nat)
    requires 0 <= env.config.warmup4hBars < k <= |env.bars|
    requires Accounted(env, s, k - 1) && Step(env, s, k - 1).Ok?
    ensures Accounted(env, Step(env, s, k - 1).value, k)
  {
    StepEffect(env, s, k - 1);
    AccountedStep(env, s, Step(env, s, k - 1).value, k);
  }

  /** The trades so far are in time order, none closes after bar `k - 1`, and
      an open position opened after the last trade closed. */
  predicate OrderedUpTo(env: Env, s: SimState, k: nat)
    requires k <= |env.bars|
  {
    && Chronological(s.trades)
    && (forall i :: 0 <= i < |s.trades| ==> k > 0 && s.trades[i].closedAt <= env.bars[k - 1].closeTime)
    && (s.position.Some? ==>
          && k > 0 && s.position.value.openedAt <= env.bars[k - 1].closeTime
          && (s.trades != [] ==> s.trades[|s.trades| - 1].closedAt < s.position.value.openedAt))
  }

  /** One bar at a later time keeps the trades in order. */
  lemma OrderedStep(env: Env, s: SimState, r: SimState, k: nat)
    requires 0 < k <= |env.bars| && BarsAscending(env.bars)
    requires OrderedUpTo(env, s, k - 1)
    requires NoClose(s, r, env.bars[k - 1].closeTime) || ClosesAt(s, r, env.bars[k - 1].closeTime)
    ensures OrderedUpTo(env, r, k)
  {
    var now := env.bars[k - 1].closeTime;
    if s.trades != [] || s.position.Some? {
      assert env.bars[k - 2].closeTime < now;
    }
    if ClosesAt(s, r, now) {
      assert r.trades[..|s.trades|] == s.trades;
      forall i | 0 <= i < |r.trades| - 1
        ensures r.trades[i].closedAt < r.trades[i + 1].openedAt
      {
        if i < |s.trades| - 1 {
          assert r.trades[i] == s.trades[i] && r.trades[i + 1] == s.trades[i + 1];
        } else {
          assert r.trades[i] == s.trades[|s.trades| - 1];
        }
      }
      forall i | 0 <= i < |r.trades|
        ensures r.trades[i].openedAt < r.trades[i].closedAt
      {
        if i < |s.trades| { assert r.trades[i] == s.trades[i]; }
      }
    }
  }

  /** With strictly increasing bar times, the loop's trades stay in time
      order. */
  lemma {:induction false} RunOrdered(env: Env, k: nat)
    requires 0 <= env.config.warmup4hBars <= k <= |env.bars|
    requires BarsAscending(env.bars)
    requires RunTo(env, k).Ok?
    ensures OrderedUpTo(env, RunTo(env, k).value, k)
    decreases k
  {
    if k > env.config.warmup4hBars {
      RunOrdered(env, k - 1);
      RunToStep(env, k);
      StepOrdered(env, RunTo(env, k - 1).value, k);
    }
  }

  /** One successful later bar after an ordered prefix keeps the order. */
  lemma StepOrdered(env: Env, s: SimState, k: nat)
    requires 0 < k <= |env.bars| && BarsAscending(env.bars)
    requires OrderedUpTo(env, s, k - 1) && Step(env, s, k - 1).Ok?
    ensures OrderedUpTo(env, Step(env, s, k - 1).value, k)
  {
    StepEffect(env, s, k - 1);
    OrderedStep(env, s, Step(env, s, k - 1).value, k);
  }

  // ---------------------------------------------------------------------------
  // The finished run

  /** What a successful run reports: its own mode, metrics computed from its
      own curve and trades; equity, loss-streak and curve-length bookkeeping
      as in the loop, where only the last trade may be the end_of_data close,
      which adds the one extra curve point. */
  lemma RunResult(env: Env)
    requires RunSpec(env).Ok?
    ensures var r := RunSpec(env).value;
      && r.mode == env.mode
      && r.metrics == ToMetrics(ComputeSummaryMetrics(r.equityCurve, r.trades))
      && r.segmentMetrics == map[]
      && (forall i :: 0 <= i < |r.trades| - 1 ==> r.trades[i].closeReason != EndOfData)
      && |r.equityCurve| == ProcessedCount(env, |env.bars|)
           + (if r.trades != [] && r.trades[|r.trades| - 1].closeReason == EndOfData then 1 else 0)
  {
    RunAccounted(env, |env.bars|);
  }

  /** Appending a forced close that opened after the last trade closed keeps
      the trades in time order, except that the forced close may open and
      close at the same time. */
  lemma {:induction false} ForcedCloseKeepsOrder(trades: seq<TradeRecord>, last: TradeRecord)
    requires Chronological(trades)
    requires trades != [] ==> trades[|trades| - 1].closedAt < last.openedAt
    requires last.openedAt <= last.closedAt
    ensures var all := trades + [last];
      && (forall i :: 0 <= i < |all| ==> all[i].openedAt <= all[i].closedAt)
      && (forall i :: 0 <= i < |all| - 1 ==> all[i].openedAt < all[i].closedAt)
      && (forall i :: 0 <= i < |all| - 1 ==> all[i].closedAt < all[i + 1].openedAt)
  {
    var all := trades + [last];
    forall i | 0 <= i < |all| - 1
      ensures all[i].openedAt < all[i].closedAt
      ensures all[i].closedAt < all[i + 1].openedAt
    {
      assert all[i] == trades[i];
      if i < |trades| - 1 { assert all[i + 1] == trades[i + 1]; }
    }
  }

  /** The trades a finished run reports: the loop's, plus the forced close
      of a position still open. */
  lemma FinishTrades(env: Env, s: SimState)
    requires |env.bars| > 0
    ensures s.position.None? ==> Finish(env, s).trades == s.trades
    ensures s.position.Some? ==> Finish(env, s).trades == s.trades + [FinalTrade(env, s.position.value)]
    ensures s.position.Some? ==>
      && FinalTrade(env, s.position.value).openedAt == s.position.value.openedAt
      && FinalTrade(env, s.position.value).closedAt == env.bars[|env.bars| - 1].closeTime
  {
  }

  /** The order of reported trades: each closes no earlier than it opens,
      strictly later unless it is the end_of_data close, and before the next
      one opens. */
  predicate ReportedInOrder(trades: seq<TradeRecord>)
  {
    && (forall i :: 0 <= i < |trades| ==> trades[i].openedAt <= trades[i].closedAt)
    && (forall i :: 0 <= i < |trades| ==> trades[i].closeReason != EndOfData ==>
          trades[i].openedAt < trades[i].closedAt)
    && (forall i :: 0 <= i < |trades| - 1 ==> trades[i].closedAt < trades[i + 1].openedAt)
  }

  /** A finished loop whose trades are in order reports them in order, the
      forced close of a position still open included. */
  lemma FinishOrdered(env: Env, s: SimState, trades: seq<TradeRecord>)
    requires |env.bars| > 0 && OrderedUpTo(env, s, |env.bars|)
    requires trades == if s.position.Some? then s.trades + [FinalTrade(env, s.position.value)] else s.trades
    ensures ReportedInOrder(trades)
  {
    if s.position.Some? {
      ForcedCloseKeepsOrder(s.trades, FinalTrade(env, s.position.value));
    } else {
      assert Chronological(s.trades);
    }
  }

  /** With strictly increasing bar times the reported trades are in time
      order; only the forced close may share its opening bar's time. */
  lemma RunResultOrdered(env: Env)
    requires BarsAscending(env.bars) && RunSpec(env).Ok?
    ensures ReportedInOrder(RunSpec(env).value.trades)
  {
    var n := |env.bars|;
    RunOrdered(env, n);
    var s := RunTo(env, n).value;
    FinishTrades(env, s);
    FinishOrdered(env, s, Finish(env, s).trades);
  }

  // ---------------------------------------------------------------------------
  // Providers

  /** A flat bar under a provider that always denies: one curve point at the
      current equity, a decision logged exactly when there is a candidate,
      and nothing opened. */
  lemma TryEnterDenied(env: Env, s: SimState, idx: nat, ind: Indicators)
    requires idx < |env.bars| && s.position.None? && TryEnter(env, s, idx, ind).Ok?
    requires env.mode != Baseline && AlwaysDenies(env.provider)
    ensures var r := TryEnter(env, s, idx, ind).value;
      && r.position.None? && r.trades == s.trades && r.equity == s.equity
      && r.curve == s.curve + [EquityPoint(env.bars[idx].closeTime, s.equity, ind.trend)]
      && |r.decisions| == |s.decisions| + (if GenerateCandidate(ind, env.settings, None, None).Some? then 1 else 0)
  {
    var candidate := GenerateCandidate(ind, env.settings, None, None);
    if candidate.Some? {
      var snapshot := BuildSnapshot(candidate.value.symbol, candidate.value.trend, ind);
      assert snapshot.Ok?;
      assert env.provider(idx, snapshot.value).decision.decision == Deny;
    }
  }

  lemma StepDenied(env: Env, s: SimState, idx: nat)
    requires idx < |env.bars| && s.position.None? && Step(env, s, idx).Ok?
    requires env.mode != Baseline && AlwaysDenies(env.provider)
    ensures var r := Step(env, s, idx).value;
      && r.position.None? && r.trades == s.trades && r.equity == s.equity
      && |r.curve| >= |s.curve| && r.curve[..|s.curve|] == s.curve
      && (forall i :: |s.curve| <= i < |r.curve| ==> r.curve[i].equity == s.equity)
      && |r.decisions| == |s.decisions|
           + (if Processed(env, idx) && GenerateCandidate(IndicatorsAt(env, idx), env.settings, None, None).Some?
              then 1 else 0)
  {
    var bar := env.bars[idx];
    var s1 := RollWeek(s, env.isoWeek(bar.closeTime));
    var daily := DailyUpTo(env.daily, bar.closeTime);
    if |daily| >= env.config.min1dBars && env.indicators(env.bars[..idx + 1], daily).Ok? {
      var ind := env.indicators(env.bars[..idx + 1], daily).value;
      assert ind == IndicatorsAt(env, idx);
      TryEnterDenied(env, s1, idx, ind);
      assert Step(env, s, idx) == TryEnter(env, s1, idx, ind);
      assert (s.curve + [EquityPoint(bar.closeTime, s.equity, ind.trend)])[..|s.curve|] == s.curve;
    } else {
      assert Step(env, s, idx).value.curve == s.curve;
    }
  }

  /** No position, no trade, equity and every curve point at the initial
      equity, and one logged decision per candidate bar up to `k`. */
  predicate Flat(env: Env, s: SimState, k: nat)
    requires 0 <= env.config.warmup4hBars <= k <= |env.bars|
  {
    && s.position.None? && s.trades == []
    && s.equity == env.config.initialEquity
    && (forall i :: 0 <= i < |s.curve| ==> s.curve[i].equity == env.config.initialEquity)
    && |s.decisions| == CandidateCount(env, k)
  }

  /** One successful bar under a provider that always denies keeps the
      account flat. */
  lemma StepFlat(env: Env, s: SimState, k: nat)
    requires 0 <= env.config.warmup4hBars < k <= |env.bars|
    requires env.mode != Baseline && AlwaysDenies(env.provider)
    requires Flat(env, s, k - 1) && Step(env, s, k - 1).Ok?
    ensures Flat(env, Step(env, s, k - 1).value, k)
  {
    StepDenied(env, s, k - 1);
    var r := Step(env, s, k - 1).value;
    forall i | 0 <= i < |r.curve|
      ensures r.curve[i].equity == env.config.initialEquity
    {
      if i < |s.curve| { assert r.curve[i] == r.curve[..|s.curve|][i]; }
    }
  }

  /** In an AI mode, a provider that always denies leaves the account flat:
      no position, no trade, equity and every curve point at the initial
      equity, and one logged decision per candidate bar. */
  lemma {:induction false} AlwaysDenyNeverTrades(env: Env, k: nat)
    requires 0 <= env.config.warmup4hBars <= k <= |env.bars|
    requires env.mode != Baseline && AlwaysDenies(env.provider)
    requires RunTo(env, k).Ok?
    ensures Flat(env, RunTo(env, k).value, k)
    decreases k
  {
    if k > env.config.warmup4hBars {
      AlwaysDenyNeverTrades(env, k - 1);
      RunToStep(env, k);
      StepFlat(env, RunTo(env, k - 1).value, k);
    }
  }

  /** The same, for the reported result. */
  lemma AlwaysDenyReportsNoTrades(env: Env)
    requires env.mode != Baseline && AlwaysDenies(env.provider)
    requires RunSpec(env).Ok?
    ensures RunSpec(env).value.trades == []
    ensures |RunSpec(env).value.decisions| == CandidateCount(env, |env.bars|)
    ensures forall i :: 0 <= i < |RunSpec(env).value.equityCurve| ==>
      RunSpec(env).value.equityCurve[i].equity == env.config.initialEquity
  {
    AlwaysDenyNeverTrades(env, |env.bars|);
  }

  /** Two environments that differ at most in their provider. */
  ghost predicate SameButProvider(e1: Env, e2: Env)
  {
    && e1.mode == e2.mode && e1.settings == e2.settings && e1.config == e2.config
    && e1.bars == e2.bars && e1.daily == e2.daily
    && e1.indicators == e2.indicators && e1.isoWeek == e2.isoWeek
  }

  lemma StepIgnoresProvider(e1: Env, e2: Env, s: SimState, idx: nat)
    requires e1.mode == Baseline && SameButProvider(e1, e2) && idx < |e1.bars|
    ensures Step(e2, s, idx) == Step(e1, s, idx)
  {
    var bar := e1.bars[idx];
    var s1 := RollWeek(s, e1.isoWeek(bar.closeTime));
    var daily := DailyUpTo(e1.daily, bar.closeTime);
    if |daily| >= e1.config.min1dBars && e1.indicators(e1.bars[..idx + 1], daily).Ok? {
      var ind := e1.indicators(e1.bars[..idx + 1], daily).value;
      if s1.position.None? {
        TryEnterIgnoresProvider(e1, e2, s1, idx, ind);
      } else {
        assert ManageOpen(e2, s1, bar, ind.trend) == ManageOpen(e1, s1, bar, ind.trend);
      }
    }
  }

  lemma TryEnterIgnoresProvider(e1: Env, e2: Env, s: SimState, idx: nat, ind: Indicators)
    requires e1.mode == Baseline && SameButProvider(e1, e2) && idx < |e1.bars| && s.position.None?
    ensures TryEnter(e2, s, idx, ind) == TryEnter(e1, s, idx, ind)
  {
    var candidate := GenerateCandidate(ind, e1.settings, None, None);
    if candidate.Some? {
      var snapshot := BuildSnapshot(candidate.value.symbol, candidate.value.trend, ind);
      if snapshot.Ok? {
        assert ResolveAiDecision(Baseline, e2.provider, idx, snapshot.value)
            == ResolveAiDecision(Baseline, e1.provider, idx, snapshot.value);
      }
    }
  }

  /** Baseline runs over the same data agree bar by bar, whatever their
      providers. */
  lemma {:induction false} RunIgnoresProvider(e1: Env, e2: Env, k: nat)
    requires e1.mode == Baseline && SameButProvider(e1, e2)
    requires 0 <= e1.config.warmup4hBars <= k <= |e1.bars|
    ensures RunTo(e2, k) == RunTo(e1, k)
    decreases k
  {
    if k > e1.config.warmup4hBars {
      RunIgnoresProvider(e1, e2, k - 1);
      var prev := RunTo(e1, k - 1);
      if prev.Ok? {
        RunToNext(e1, k, prev.value);
        RunToNext(e2, k, prev.value);
        StepIgnoresProvider(e1, e2, prev.value, k - 1);
      }
    }
  }

  /** The baseline mode never consults the provider: swapping it changes
      nothing in the run. */
  lemma BaselineIgnoresProvider(env: Env, other: (nat, MarketSnapshot) -> AiOutcome, k: nat)
    requires env.mode == Baseline
    requires 0 <= env.config.warmup4hBars <= k <= |env.bars|
    ensures RunTo(env.(provider := other), k) == RunTo(env, k)
  {
    RunIgnoresProvider(env, env.(provider := other), k);
  }

  // ---------------------------------------------------------------------------
  // Entry sizing

  /** A position opened on a bar is sized within the exposure cap at the
      candidate's price, fills at the slippage-adjusted price, and opens at
      the bar's close time. */
  lemma OpenedWithinExposureCap(env: Env, s: SimState, idx: nat)
    requires idx < |env.bars| && s.position.None?
    requires Step(env, s, idx).Ok? && Step(env, s, idx).value.position.Some?
    ensures Processed(env, idx)
    ensures var p := Step(env, s, idx).value.position.value;
      var price := IndicatorsAt(env, idx).price;
      && p.qty > 0.0
      && p.qty * price <= s.equity * env.settings.maxTotalExposurePct / 100.0
      && p.entryPrice == EntryFill(price, SlippageOf(env.config.slippageBps))
      && p.openedAt == env.bars[idx].closeTime
  {
    var bar := env.bars[idx];
    var s1 := RollWeek(s, env.isoWeek(bar.closeTime));
    var daily := DailyUpTo(env.daily, bar.closeTime);
    var ind := env.indicators(env.bars[..idx + 1], daily).value;
    var c := GenerateCandidate(ind, env.settings, None, None).value;
    assert c.entryPrice == ind.price;
  }

  // ---------------------------------------------------------------------------
  // The suite

  /** One run per mode of the suite, each in its own mode. */
  predicate RunsByMode(runs: map<Mode, ExperimentResult>)
  {
    && runs.Keys == {Baseline, AiFilter, AiFilterSizing}
    && (forall m :: m in runs ==> runs[m].mode == m)
  }

  /** Attaching segment metrics keeps the runs by mode, gives each the
      metrics of every segment, and the gate then picks ai_filter_sizing. */
  lemma AttachedRunsSelectSizing(runs: map<Mode, ExperimentResult>, segs: seq<SegmentSpec>)
    requires RunsByMode(runs)
    ensures var experiments := map m | m in runs :: WithSegmentMetrics(runs[m], segs);
      && RunsByMode(experiments)
      && (forall m :: m in experiments ==>
            experiments[m].segmentMetrics.Keys == set seg | seg in segs :: seg.name)
      && EvaluateGoNoGo(experiments).selectedAiMode == Some(AiFilterSizing)
  {
    var experiments := map m | m in runs :: WithSegmentMetrics(runs[m], segs);
    assert experiments[AiFilterSizing].mode == AiFilterSizing;
  }

  /** A successful suite holds one run per mode, each in its own mode and
      with metrics for every segment; the gate always prefers
      ai_filter_sizing; without given segments the default split of the
      baseline curve is used. */
  lemma SuiteResult(env: Env, segments: Option<seq<SegmentSpec>>)
    requires SuiteSpec(env, segments).Ok?
    ensures var r := SuiteSpec(env, segments).value;
      && RunsByMode(r.experiments)
      && (forall m :: m in r.experiments ==>
            r.experiments[m].segmentMetrics.Keys == set seg | seg in r.segments :: seg.name)
      && r.goNoGo.selectedAiMode == Some(AiFilterSizing)
      && (segments.None? ==> r.segments == BuildDefaultSegments(r.experiments[Baseline].equityCurve))
      && (segments.Some? ==> r.segments == segments.value)
  {
    var runs := RunModes(env, ExperimentModes).value;
    EveryModeRunsInItsMode(env);
    var segs := if segments.Some? then segments.value else BuildDefaultSegments(runs[Baseline].equityCurve);
    AttachedRunsSelectSizing(runs, segs);
  }

  /** The runs of the suite are one per mode, each in its own mode. */
  lemma EveryModeRunsInItsMode(env: Env)
    requires RunModes(env, ExperimentModes).Ok?
    ensures RunsByMode(RunModes(env, ExperimentModes).value)
  {
    var runs := RunModes(env, ExperimentModes).value;
    assert (set m | m in ExperimentModes) == {Baseline, AiFilter, AiFilterSizing};
    forall m | m in runs
      ensures runs[m].mode == m
    {
      RunModesModes(env, ExperimentModes, m);
    }
  }

  lemma {:induction false} RunModesModes(env: Env, modes: seq<Mode>, m: Mode)
    requires RunModes(env, modes).Ok? && m in RunModes(env, modes).value
    ensures RunModes(env, modes).value[m].mode == m
    decreases |modes|
  {
    var last := modes[|modes| - 1];
    var runs := RunModes(env, modes[..|modes| - 1]).value;
    if m == last {
      RunResult(env.(mode := last));
    } else {
      assert m in runs;
      RunModesModes(env, modes[..|modes| - 1], m);
    }
  }
}
