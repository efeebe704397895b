/** Backtest metrics and the go/no-go acceptance gate
    (src/ai_trading/backtest/metrics.py): summary figures of one equity curve
    and its trades, the maximum drawdown with its recovery time, per-segment
    metrics over inclusive time windows, the default two-window split, and
    the four-check gate with segment-consistency voting. Timestamps are whole
    seconds. */
module Metrics {
  import opened Wrappers
  import opened Schemas
  import opened Domain

  // ---------------------------------------------------------------------------
  // Default segments

  /** A timestamp lies in a segment, both ends included. */
  predicate InSegment(t: int, seg: SegmentSpec)
  {
    seg.startAt <= t <= seg.endAt
  }

  predicate StrictlyAscending(curve: seq<EquityPoint>)
  {
    forall i, j :: 0 <= i < j < |curve| ==> curve[i].timestamp < curve[j].timestamp
  }

  /** Splits a curve into "window_a" (its first half) and "window_b" (the
      rest); a curve of fewer than two points has no default segments. */
  function BuildDefaultSegments(curve: seq<EquityPoint>): (segs: seq<SegmentSpec>)
    ensures |curve| < 2 ==> segs == []
    ensures |curve| >= 2 ==>
      && |segs| == 2
      && segs[0].name == "window_a" && segs[1].name == "window_b"
      && segs[0].startAt == curve[0].timestamp
      && segs[1].endAt == curve[|curve| - 1].timestamp
      && segs[0].endAt == curve[|curve| / 2 - 1].timestamp
      && segs[1].startAt == curve[|curve| / 2].timestamp
  {
    if |curve| < 2 then []
    else
      var mid := |curve| / 2;
      [ SegmentSpec("window_a", curve[0].timestamp, curve[mid - 1].timestamp),
        SegmentSpec("window_b", curve[mid].timestamp, curve[|curve| - 1].timestamp) ]
  }

  /** On a strictly ascending curve the default windows do not overlap and
      every point falls in exactly one of them: the first half in window_a,
      the rest in window_b. */
  lemma DefaultSegmentsPartition(curve: seq<EquityPoint>)
    requires |curve| >= 2 && StrictlyAscending(curve)
    ensures var segs := BuildDefaultSegments(curve);
      && segs[0].endAt < segs[1].startAt
      && forall i :: 0 <= i < |curve| ==>
           && (InSegment(curve[i].timestamp, segs[0]) <==> i < |curve| / 2)
           && (InSegment(curve[i].timestamp, segs[1]) <==> i >= |curve| / 2)
  {
    var segs := BuildDefaultSegments(curve);
    var n, mid := |curve|, |curve| / 2;
    forall i | 0 <= i < n
      ensures InSegment(curve[i].timestamp, segs[0]) <==> i < mid
      ensures InSegment(curve[i].timestamp, segs[1]) <==> i >= mid
    {
      if i < mid {
        assert i == 0 || curve[0].timestamp < curve[i].timestamp;
        assert i == mid - 1 || curve[i].timestamp < curve[mid - 1].timestamp;
        assert curve[i].timestamp < curve[mid].timestamp;
      } else {
        assert i == mid || curve[mid].timestamp < curve[i].timestamp;
        assert i == n - 1 || curve[i].timestamp < curve[n - 1].timestamp;
        assert curve[mid - 1].timestamp < curve[i].timestamp;
      }
    }
  }

  // ---------------------------------------------------------------------------
  // Maximum drawdown and recovery

  /** Percentage below a peak; 0 when the peak is not positive. */
  function Drawdown(peak: real, value: real): real
  {
    if peak <= 0.0 then 0.0 else (peak - value) / peak * 100.0
  }

  /** Index of the running peak after `i`: the first index holding the largest
      value among v[0..i] (lemma PeakIndexIsFirstMax). */
  function PeakIndex(v: seq<real>, i: nat): (p: nat)
    requires i < |v|
    ensures p <= i
  {
    if i == 0 then 0
    else
      var q := PeakIndex(v, i - 1);
      if v[i] > v[q] then i else q
  }

  lemma {:induction false} PeakIndexIsFirstMax(v: seq<real>, i: nat)
    requires i < |v|
    ensures forall j :: 0 <= j <= i ==> v[j] <= v[PeakIndex(v, i)]
    ensures forall j :: 0 <= j < PeakIndex(v, i) ==> v[j] < v[PeakIndex(v, i)]
  {
    if i > 0 {
      PeakIndexIsFirstMax(v, i - 1);
    }
  }

  /** Drawdown of v[i] below the running peak. */
  function DrawdownAt(v: seq<real>, i: nat): real
    requires i < |v|
  {
    Drawdown(v[PeakIndex(v, i)], v[i])
  }

  /** The deepest drawdown seen, the index where it is first reached, and the
      running peak at that index. */
  datatype DrawdownScan = DrawdownScan(maxDd: real, trough: nat, peak: nat)

  /** The scan of the first `k` values: `maxDd` is the largest drawdown (at
      least 0; lemma ScanIsDeepest), `trough` the first index attaining it (0
      when it is 0) and `peak` the running peak there. */
  function Scan(v: seq<real>, k: nat): (s: DrawdownScan)
    requires k <= |v|
    ensures s.maxDd >= 0.0
    ensures s.maxDd > 0.0 ==>
      && s.trough < k
      && DrawdownAt(v, s.trough) == s.maxDd
      && s.peak == PeakIndex(v, s.trough)
    ensures s.maxDd == 0.0 ==> s.trough == 0 && s.peak == 0
  {
    if k == 0 then DrawdownScan(0.0, 0, 0)
    else
      var s := Scan(v, k - 1);
      var d := DrawdownAt(v, k - 1);
      if d > s.maxDd then DrawdownScan(d, k - 1, PeakIndex(v, k - 1)) else s
  }

  lemma {:induction false} ScanIsDeepest(v: seq<real>, k: nat)
    requires k <= |v|
    ensures forall i :: 0 <= i < k ==> DrawdownAt(v, i) <= Scan(v, k).maxDd
    ensures forall i :: 0 <= i < Scan(v, k).trough ==> DrawdownAt(v, i) < Scan(v, k).maxDd
  {
    if k > 0 {
      ScanIsDeepest(v, k - 1);
    }
  }

  lemma ScanStep(v: seq<real>, k: nat)
    requires k < |v|
    ensures Scan(v, k + 1) ==
      if DrawdownAt(v, k) > Scan(v, k).maxDd then DrawdownScan(DrawdownAt(v, k), k, PeakIndex(v, k)) else Scan(v, k)
  {
  }

  /** The first index at or after `from` whose value reaches `target`. */
  function FirstReach(v: seq<real>, from: nat, target: real): (r: Option<nat>)
    requires from <= |v|
    ensures r.Some? ==>
      && from <= r.value < |v|
      && v[r.value] >= target
      && forall j :: from <= j < r.value ==> v[j] < target
    ensures r.None? ==> forall j :: from <= j < |v| ==> v[j] < target
    decreases |v| - from
  {
    if from == |v| then None
    else if v[from] >= target then Some(from)
    else FirstReach(v, from + 1, target)
  }

  /** The maximum drawdown (percent) and the bars it took to climb back to the
      peak that produced it: None when an empty series or no recovery, and
      (0, Some(0)) when there was no drawdown at all. */
  function MaxDrawdown(v: seq<real>): (r: (real, Option<int>))
    ensures |v| == 0 ==> r == (0.0, None)
    ensures r.0 >= 0.0
    ensures forall i :: 0 <= i < |v| ==> DrawdownAt(v, i) <= r.0
    ensures |v| > 0 && r.0 == 0.0 ==> r.1 == Some(0)
    ensures |v| > 0 && r.0 > 0.0 ==>
      var s := Scan(v, |v|);
      && DrawdownAt(v, s.trough) == r.0
      && (r.1.Some? <==> exists j :: s.trough < j < |v| && v[j] >= v[s.peak])
      && (r.1.Some? ==>
            && r.1.value >= 1
            && s.trough + r.1.value < |v|
            && v[s.trough + r.1.value] >= v[s.peak]
            && forall j :: s.trough < j < s.trough + r.1.value ==> v[j] < v[s.peak])
  {
    if |v| == 0 then (0.0, None)
    else
      var s := Scan(v, |v|);
      ScanIsDeepest(v, |v|);
      if s.maxDd <= 0.0 then (0.0, Some(0))
      else
        match FirstReach(v, s.trough + 1, v[s.peak])
        case None => (s.maxDd, None)
        case Some(j) => (s.maxDd, Some(j - s.trough))
  }

  /** The forward scan for the maximum drawdown, then the scan for its
      recovery. */
  method MaxDrawdownWithRecovery(values: seq<real>) returns (maxDd: real, recovery: Option<int>)
    ensures (maxDd, recovery) == MaxDrawdown(values)
  {
    if |values| == 0 {
      return 0.0, None;
    }
    var scan := ScanDrawdown(values);
    if scan.maxDd <= 0.0 {
      return 0.0, Some(0);
    }
    maxDd := scan.maxDd;
    var reached := FindRecovery(values, scan.trough + 1, values[scan.peak]);
    recovery := if reached.Some? then Some(reached.value - scan.trough) else None;
  }

  /** Tracks the running peak and keeps the first deepest drawdown. */
  method ScanDrawdown(values: seq<real>) returns (scan: DrawdownScan)
    requires |values| > 0
    ensures scan == Scan(values, |values|)
  {
    var peakValue := values[0];
    var peakIdx := 0;
    var maxDd := 0.0;
    var troughIdx := 0;
    var peakIdxForMaxDd := 0;
    var idx := 0;
    while idx < |values|
      invariant 0 <= idx <= |values|
      invariant peakIdx == PeakIndex(values, if idx == 0 then 0 else idx - 1)
      invariant peakValue == values[peakIdx]
      invariant Scan(values, idx) == DrawdownScan(maxDd, troughIdx, peakIdxForMaxDd)
    {
      var value := values[idx];
      if value > peakValue {
        peakValue := value;
        peakIdx := idx;
      }
      assert peakIdx == PeakIndex(values, idx);
      var drawdown := Drawdown(peakValue, value);
      ScanStep(values, idx);
      if drawdown > maxDd {
        maxDd := drawdown;
        troughIdx := idx;
        peakIdxForMaxDd := peakIdx;
      }
      idx := idx + 1;
    }
    scan := DrawdownScan(maxDd, troughIdx, peakIdxForMaxDd);
  }

  /** Scans forward from `from` and stops at the first value reaching
      `target`. */
  method FindRecovery(values: seq<real>, from: nat, target: real) returns (reached: Option<nat>)
    requires from <= |values|
    ensures reached == FirstReach(values, from, target)
  {
    reached := None;
    var j := from;
    while j < |values|
      invariant from <= j <= |values|
      invariant reached == None
      invariant FirstReach(values, from, target) == FirstReach(values, j, target)
    {
      if values[j] >= target {
        reached := Some(j);
        break;
      }
      j := j + 1;
    }
  }

  /** With no negative equity a drawdown never exceeds 100 percent. */
  lemma MaxDrawdownAtMost100(v: seq<real>)
    requires forall i :: 0 <= i < |v| ==> v[i] >= 0.0
    ensures MaxDrawdown(v).0 <= 100.0
  {
    if |v| > 0 && MaxDrawdown(v).0 > 0.0 {
      var s := Scan(v, |v|);
      var peak := v[PeakIndex(v, s.trough)];
      if peak > 0.0 {
        DrawdownBelowPeak(peak, v[s.trough]);
      }
    }
  }

  lemma DrawdownBelowPeak(peak: real, value: real)
    requires peak > 0.0 && value >= 0.0
    ensures Drawdown(peak, value) <= 100.0
  {
    assert (peak - value) / peak <= 1.0;
  }

  /** 10000, 9800, 10200: a 2 percent drawdown recovered one bar later. */
  lemma MaxDrawdownExample()
    ensures MaxDrawdown([10000.0, 9800.0, 10200.0]) == (2.0, Some(1))
  {
    var v := [10000.0, 9800.0, 10200.0];
    assert PeakIndex(v, 0) == 0;
    assert PeakIndex(v, 1) == 0;
    assert PeakIndex(v, 2) == 2;
    assert DrawdownAt(v, 1) == 2.0;
    assert Scan(v, 3) == DrawdownScan(2.0, 1, 0);
    assert FirstReach(v, 2, 10000.0) == Some(2);
  }

  // ---------------------------------------------------------------------------
  // Summary metrics

  function SumPnl(trades: seq<TradeRecord>): real
  {
    if trades == [] then 0.0 else SumPnl(trades[..|trades| - 1]) + trades[|trades| - 1].pnl
  }

  /** Number of strictly profitable trades. */
  function WinCount(trades: seq<TradeRecord>): (n: nat)
    ensures n <= |trades|
    ensures n == |trades| <==> forall i :: 0 <= i < |trades| ==> trades[i].pnl > 0.0
  {
    if trades == [] then 0
    else (if trades[0].pnl > 0.0 then 1 else 0) + WinCount(trades[1..])
  }

  const SecondsPerDay: real := 86400.0
  /** Floor on a curve's duration in days, so frequency is always defined. */
  const MinDurationDays: real := 0.000000001

  function EquityValues(curve: seq<EquityPoint>): (v: seq<real>)
    ensures |v| == |curve|
    ensures forall i :: 0 <= i < |curve| ==> v[i] == curve[i].equity
  {
    seq(|curve|, i requires 0 <= i < |curve| => curve[i].equity)
  }

  /** Days between two timestamps, floored at a billionth of a day. */
  function DurationDays(startAt: int, endAt: int): (d: real)
    ensures d >= MinDurationDays
    ensures d * SecondsPerDay >= (endAt - startAt) as real
    ensures (endAt - startAt) as real >= MinDurationDays * SecondsPerDay ==>
      d * SecondsPerDay == (endAt - startAt) as real
  {
    var elapsed := ((endAt - startAt) as real) / SecondsPerDay;
    if elapsed > MinDurationDays then elapsed else MinDurationDays
  }

  /** A quotient by a positive divisor. */
  function Ratio(x: real, d: real): (r: real)
    requires d > 0.0
    ensures r * d == x
    ensures x >= 0.0 ==> r >= 0.0
    ensures x <= d ==> r <= 1.0
  {
    x / d
  }

  /** Percentage gain from `start` to `end`; 0 when `start` is not positive. */
  function TotalReturnPct(start: real, end: real): (r: real)
    ensures start > 0.0 ==> r * start == (end - start) * 100.0
    ensures start <= 0.0 ==> r == 0.0
  {
    if start > 0.0 then
      var q := Ratio(end, start);
      assert (q - 1.0) * 100.0 * start == (q * start - start) * 100.0;
      (q - 1.0) * 100.0
    else 0.0
  }

  /** Average of `count` values summing to `total`; 0 when there are none. */
  function Mean(total: real, count: nat): (r: real)
    ensures count == 0 ==> r == 0.0
    ensures count > 0 ==> r * (count as real) == total
  {
    if count == 0 then 0.0 else Ratio(total, count as real)
  }

  /** How many events a 30-day period holds at the rate of `count` per
      `days`. */
  function PerThirtyDays(count: nat, days: real): (r: real)
    requires days > 0.0
    ensures r >= 0.0
    ensures r * days == (count as real) * 30.0
  {
    var perDay := Ratio(count as real, days);
    assert perDay * 30.0 * days == (perDay * days) * 30.0;
    perDay * 30.0
  }

  /** Share of winning trades in percent; 0 without trades. */
  function WinRatePct(wins: nat, count: nat): (r: real)
    requires wins <= count
    ensures count == 0 ==> r == 0.0
    ensures count > 0 ==> r * (count as real) == (wins as real) * 100.0
    ensures 0.0 <= r <= 100.0
  {
    if count == 0 then 0.0
    else
      var q := Ratio(wins as real, count as real);
      assert q * 100.0 * (count as real) == (q * (count as real)) * 100.0;
      q * 100.0
  }

  datatype Summary = Summary(
    tradeCount: nat,
    totalReturnPct: real,
    maxDrawdownPct: real,
    maxDrawdownRecoveryBars: Option<int>,
    expectancyPerTrade: real,
    tradeFrequencyPer30d: real,
    winRatePct: real)

  /** The key figures of one experiment. An empty curve gives all zeros and
      no recovery, whatever the trades. */
  function ComputeSummaryMetrics(curve: seq<EquityPoint>, trades: seq<TradeRecord>): (s: Summary)
    ensures curve == [] ==> s == Summary(0, 0.0, 0.0, None, 0.0, 0.0, 0.0)
    ensures curve != [] ==>
      && s.tradeCount == |trades|
      && s.totalReturnPct == TotalReturnPct(curve[0].equity, curve[|curve| - 1].equity)
      && (s.maxDrawdownPct, s.maxDrawdownRecoveryBars) == MaxDrawdown(EquityValues(curve))
      && s.expectancyPerTrade == Mean(SumPnl(trades), |trades|)
      && s.winRatePct == WinRatePct(WinCount(trades), |trades|)
      && s.tradeFrequencyPer30d
         == PerThirtyDays(|trades|, DurationDays(curve[0].timestamp, curve[|curve| - 1].timestamp))
  {
    if curve == [] then Summary(0, 0.0, 0.0, None, 0.0, 0.0, 0.0)
    else
      var start := curve[0].equity;
      var end := curve[|curve| - 1].equity;
      var totalReturn := TotalReturnPct(start, end);
      var dd := MaxDrawdown(EquityValues(curve));
      var expectancy := Mean(SumPnl(trades), |trades|);
      var winRate := WinRatePct(WinCount(trades), |trades|);
      var days := DurationDays(curve[0].timestamp, curve[|curve| - 1].timestamp);
      var frequency := PerThirtyDays(|trades|, days);
      Summary(|trades|, totalReturn, dd.0, dd.1, expectancy, frequency, winRate)
  }

  const TradeCountKey := "trade_count"
  const TotalReturnKey := "total_return_pct"
  const MaxDrawdownKey := "max_drawdown_pct"
  const RecoveryBarsKey := "max_drawdown_recovery_bars"
  const ExpectancyKey := "expectancy_per_trade"
  const FrequencyKey := "trade_frequency_per_30d"
  const WinRateKey := "win_rate_pct"

  /** The summary as the metrics dictionary the reports and the gate read. */
  function ToMetrics(s: Summary): (m: Metrics)
    ensures m.Keys == {TradeCountKey, TotalReturnKey, MaxDrawdownKey, RecoveryBarsKey,
                       ExpectancyKey, FrequencyKey, WinRateKey}
  {
    map[
      TradeCountKey := MInt(s.tradeCount),
      TotalReturnKey := MFloat(s.totalReturnPct),
      MaxDrawdownKey := MFloat(s.maxDrawdownPct),
      RecoveryBarsKey := (if s.maxDrawdownRecoveryBars.Some? then MInt(s.maxDrawdownRecoveryBars.value) else MNone),
      ExpectancyKey := MFloat(s.expectancyPerTrade),
      FrequencyKey := MFloat(s.tradeFrequencyPer30d),
      WinRateKey := MFloat(s.winRatePct)
    ]
  }

  /** A float reading of a metric: missing and None read as 0. */
  function FloatMetric(m: Metrics, key: string): (r: real)
    ensures key !in m || m[key].MNone? ==> r == 0.0
    ensures key in m && m[key].MInt? ==> r == m[key].i as real
    ensures key in m && m[key].MFloat? ==> r == m[key].r
  {
    if key !in m then 0.0
    else match m[key]
      case MNone => 0.0
      case MInt(i) => i as real
      case MFloat(x) => x
  }

  /** Conversion of a float to an int, truncating toward zero. */
  function Truncate(x: real): (t: int)
    ensures x >= 0.0 ==> 0 <= t && t as real <= x < t as real + 1.0
    ensures x < 0.0 ==> t <= 0 && t as real - 1.0 < x <= t as real
  {
    if x >= 0.0 then x.Floor else -((-x).Floor)
  }

  /** An int reading of a metric: missing and None stay None, floats truncate. */
  function IntMetric(m: Metrics, key: string): (r: Option<int>)
    ensures key !in m || m[key].MNone? <==> r.None?
    ensures key in m && m[key].MInt? ==> r == Some(m[key].i)
    ensures key in m && m[key].MFloat? ==> r == Some(Truncate(m[key].r))
  {
    if key !in m then None
    else match m[key]
      case MNone => None
      case MInt(i) => Some(i)
      case MFloat(x) => Some(Truncate(x))
  }

  /** The gate reads back exactly the summary figures it compares. */
  lemma MetricsReadBack(s: Summary)
    ensures FloatMetric(ToMetrics(s), MaxDrawdownKey) == s.maxDrawdownPct
    ensures IntMetric(ToMetrics(s), RecoveryBarsKey) == s.maxDrawdownRecoveryBars
    ensures FloatMetric(ToMetrics(s), FrequencyKey) == s.tradeFrequencyPer30d
    ensures FloatMetric(ToMetrics(s), ExpectancyKey) == s.expectancyPerTrade
    ensures IntMetric(ToMetrics(s), TradeCountKey) == Some(s.tradeCount)
  {
  }

  // ---------------------------------------------------------------------------
  // Segment metrics

  /** The curve points inside a segment, in order. */
  function SegmentPoints(curve: seq<EquityPoint>, seg: SegmentSpec): (r: seq<EquityPoint>)
    ensures |r| <= |curve|
    ensures forall p :: p in r <==> p in curve && InSegment(p.timestamp, seg)
  {
    if curve == [] then []
    else
      var rest := SegmentPoints(curve[1..], seg);
      assert forall p :: p in curve <==> p == curve[0] || p in curve[1..];
      if InSegment(curve[0].timestamp, seg) then [curve[0]] + rest else rest
  }

  /** The trades that closed inside a segment (when they opened does not
      matter), in order. */
  function SegmentTrades(trades: seq<TradeRecord>, seg: SegmentSpec): (r: seq<TradeRecord>)
    ensures |r| <= |trades|
    ensures forall t :: t in r <==> t in trades && InSegment(t.closedAt, seg)
  {
    if trades == [] then []
    else
      var rest := SegmentTrades(trades[1..], seg);
      assert forall t :: t in trades <==> t == trades[0] || t in trades[1..];
      if InSegment(trades[0].closedAt, seg) then [trades[0]] + rest else rest
  }

  /** The point filter keeps order and repetitions: it distributes over
      concatenation and keeps a single point exactly when it is inside. */
  lemma {:induction false} SegmentPointsDistributes(a: seq<EquityPoint>, b: seq<EquityPoint>, seg: SegmentSpec)
    ensures SegmentPoints(a + b, seg) == SegmentPoints(a, seg) + SegmentPoints(b, seg)
    ensures forall p :: SegmentPoints([p], seg) == if InSegment(p.timestamp, seg) then [p] else []
  {
    if a == [] {
      assert a + b == b;
    } else {
      var ab := a + b;
      assert ab[0] == a[0] && ab[1..] == a[1..] + b;
      SegmentPointsDistributes(a[1..], b, seg);
      assert SegmentPoints(ab, seg) == (if InSegment(a[0].timestamp, seg) then [a[0]] else []) + SegmentPoints(a[1..] + b, seg);
    }
    forall p
      ensures SegmentPoints([p], seg) == if InSegment(p.timestamp, seg) then [p] else []
    {
      assert [p][1..] == [];
    }
  }

  /** The trade filter keeps order and repetitions likewise, judging each
      trade by its close time. */
  lemma {:induction false} SegmentTradesDistributes(a: seq<TradeRecord>, b: seq<TradeRecord>, seg: SegmentSpec)
    ensures SegmentTrades(a + b, seg) == SegmentTrades(a, seg) + SegmentTrades(b, seg)
    ensures forall t :: SegmentTrades([t], seg) == if InSegment(t.closedAt, seg) then [t] else []
  {
    if a == [] {
      assert a + b == b;
    } else {
      var ab := a + b;
      assert ab[0] == a[0] && ab[1..] == a[1..] + b;
      SegmentTradesDistributes(a[1..], b, seg);
      assert SegmentTrades(ab, seg) == (if InSegment(a[0].closedAt, seg) then [a[0]] else []) + SegmentTrades(a[1..] + b, seg);
    }
    forall t
      ensures SegmentTrades([t], seg) == if InSegment(t.closedAt, seg) then [t] else []
    {
      assert [t][1..] == [];
    }
  }

  function SegmentSummary(curve: seq<EquityPoint>, trades: seq<TradeRecord>, seg: SegmentSpec): Summary
  {
    ComputeSummaryMetrics(SegmentPoints(curve, seg), SegmentTrades(trades, seg))
  }

  /** One entry per segment name; when names repeat, the last segment with
      that name wins. */
  function ComputeSegmentMetrics(curve: seq<EquityPoint>, trades: seq<TradeRecord>, segs: seq<SegmentSpec>)
    : (out: map<string, Metrics>)
    ensures out.Keys == set s | s in segs :: s.name
  {
    if segs == [] then map[]
    else
      var last := segs[|segs| - 1];
      var prefix := segs[..|segs| - 1];
      var earlier := ComputeSegmentMetrics(curve, trades, prefix);
      assert (set s | s in segs :: s.name) == (set s | s in prefix :: s.name) + {last.name} by {
        assert forall s :: s in segs <==> s in prefix || s == last;
      }
      earlier[last.name := ToMetrics(SegmentSummary(curve, trades, last))]
  }

  /** No later segment shares the name of segs[i]. */
  predicate LastWithName(segs: seq<SegmentSpec>, i: nat)
    requires i < |segs|
  {
    forall j :: i < j < |segs| ==> segs[j].name != segs[i].name
  }

  /** Each name maps to the summary of the points and trades inside the last
      segment carrying it. */
  lemma {:induction false} SegmentMetricsValues(curve: seq<EquityPoint>, trades: seq<TradeRecord>, segs: seq<SegmentSpec>)
    ensures forall i :: 0 <= i < |segs| && LastWithName(segs, i) ==>
      ComputeSegmentMetrics(curve, trades, segs)[segs[i].name] == ToMetrics(SegmentSummary(curve, trades, segs[i]))
  {
    if segs != [] {
      var n := |segs|;
      var prefix := segs[..n - 1];
      SegmentMetricsValues(curve, trades, prefix);
      var out := ComputeSegmentMetrics(curve, trades, segs);
      assert out == ComputeSegmentMetrics(curve, trades, prefix)[segs[n - 1].name := ToMetrics(SegmentSummary(curve, trades, segs[n - 1]))];
      forall i | 0 <= i < n && LastWithName(segs, i)
        ensures ComputeSegmentMetrics(curve, trades, segs)[segs[i].name]
             == ToMetrics(SegmentSummary(curve, trades, segs[i]))
      {
        if i < n - 1 {
          assert segs[i] == prefix[i];
          assert LastWithName(prefix, i);
          assert segs[n - 1].name != segs[i].name;
        }
      }
    }
  }

  // ---------------------------------------------------------------------------
  // Go / no-go gate

  /** The shared segment names whose AI drawdown is no worse than baseline's. */
  function ImprovingSegments(baseline: map<string, Metrics>, ai: map<string, Metrics>, names: set<string>)
    : (r: set<string>)
    ensures r <= names
  {
    set n | n in names && n in baseline && n in ai
      && FloatMetric(ai[n], MaxDrawdownKey) <= FloatMetric(baseline[n], MaxDrawdownKey)
  }

  function Max(a: int, b: int): int
  {
    if a >= b then a else b
  }

  /** At least half (and at least one) of the shared segments must not have a
      worse AI drawdown; with no shared segment the check fails. */
  predicate SegmentConsistency(baseline: map<string, Metrics>, ai: map<string, Metrics>)
  {
    var shared := baseline.Keys * ai.Keys;
    shared != {} && |ImprovingSegments(baseline, ai, shared)| >= Max(1, |shared| / 2)
  }

  /** Counts the improving shared segments one by one. */
  method SegmentConsistencyOk(baseline: map<string, Metrics>, ai: map<string, Metrics>) returns (ok: bool)
    ensures ok == SegmentConsistency(baseline, ai)
  {
    var comparable := baseline.Keys * ai.Keys;
    if comparable == {} {
      return false;
    }
    var improvingCount := 0;
    var remaining := comparable;
    while remaining != {}
      invariant remaining <= comparable
      invariant improvingCount == |ImprovingSegments(baseline, ai, comparable - remaining)|
      decreases |remaining|
    {
      var name :| name in remaining;
      var done := comparable - remaining;
      assert comparable - (remaining - {name}) == done + {name};
      if FloatMetric(ai[name], MaxDrawdownKey) <= FloatMetric(baseline[name], MaxDrawdownKey) {
        assert ImprovingSegments(baseline, ai, done + {name}) == ImprovingSegments(baseline, ai, done) + {name};
        improvingCount := improvingCount + 1;
      } else {
        assert ImprovingSegments(baseline, ai, done + {name}) == ImprovingSegments(baseline, ai, done);
      }
      remaining := remaining - {name};
    }
    assert comparable - remaining == comparable;
    ok := improvingCount >= Max(1, |comparable| / 2);
  }

  /** When the AI run is no worse on every shared segment, the segments are
      consistent. */
  lemma AllSegmentsImprovedIsConsistent(baseline: map<string, Metrics>, ai: map<string, Metrics>)
    requires baseline.Keys * ai.Keys != {}
    requires forall n :: n in baseline && n in ai ==>
      FloatMetric(ai[n], MaxDrawdownKey) <= FloatMetric(baseline[n], MaxDrawdownKey)
    ensures SegmentConsistency(baseline, ai)
  {
    var shared := baseline.Keys * ai.Keys;
    assert ImprovingSegments(baseline, ai, shared) == shared;
  }

  /** When the AI run is worse on every shared segment, the check fails. */
  lemma NoSegmentImprovedIsInconsistent(baseline: map<string, Metrics>, ai: map<string, Metrics>)
    requires forall n :: n in baseline && n in ai ==>
      FloatMetric(ai[n], MaxDrawdownKey) > FloatMetric(baseline[n], MaxDrawdownKey)
    ensures !SegmentConsistency(baseline, ai)
  {
    assert ImprovingSegments(baseline, ai, baseline.Keys * ai.Keys) == {};
  }

  datatype Checks = Checks(
    drawdownOrRecoveryImproved: bool,
    frequencyReduced: bool,
    expectancyNotSignificantlyWorse: bool,
    segmentConsistency: bool)

  predicate AllPass(c: Checks)
  {
    c.drawdownOrRecoveryImproved && c.frequencyReduced
    && c.expectancyNotSignificantlyWorse && c.segmentConsistency
  }

  /** The gate's verdict; `checks` is None when results were missing. */
  datatype GoNoGo = GoNoGo(
    go: bool,
    reason: Option<string>,
    selectedAiMode: Option<Mode>,
    checks: Option<Checks>)

  const MissingResults := "missing_baseline_or_ai_results"

  /** The four checks of an AI experiment against the baseline. */
  function CompareExperiments(baseline: ExperimentResult, candidate: ExperimentResult): (c: Checks)
    ensures c.drawdownOrRecoveryImproved <==>
      || FloatMetric(candidate.metrics, MaxDrawdownKey) < FloatMetric(baseline.metrics, MaxDrawdownKey)
      || (&& IntMetric(baseline.metrics, RecoveryBarsKey).Some?
          && IntMetric(candidate.metrics, RecoveryBarsKey).Some?
          && IntMetric(candidate.metrics, RecoveryBarsKey).value < IntMetric(baseline.metrics, RecoveryBarsKey).value)
    ensures c.frequencyReduced <==>
      FloatMetric(candidate.metrics, FrequencyKey) <= FloatMetric(baseline.metrics, FrequencyKey)
    ensures FloatMetric(baseline.metrics, ExpectancyKey) > 0.0 ==>
      (c.expectancyNotSignificantlyWorse <==>
        FloatMetric(candidate.metrics, ExpectancyKey) >= FloatMetric(baseline.metrics, ExpectancyKey) * 0.9)
    ensures FloatMetric(baseline.metrics, ExpectancyKey) <= 0.0 ==>
      (c.expectancyNotSignificantlyWorse <==>
        FloatMetric(candidate.metrics, ExpectancyKey) >= FloatMetric(baseline.metrics, ExpectancyKey))
    ensures c.segmentConsistency == SegmentConsistency(baseline.segmentMetrics, candidate.segmentMetrics)
  {
    var bm, am := baseline.metrics, candidate.metrics;
    var baseDd, aiDd := FloatMetric(bm, MaxDrawdownKey), FloatMetric(am, MaxDrawdownKey);
    var baseRec, aiRec := IntMetric(bm, RecoveryBarsKey), IntMetric(am, RecoveryBarsKey);
    var drawdownImproved := aiDd < baseDd || (baseRec.Some? && aiRec.Some? && aiRec.value < baseRec.value);
    var frequencyReduced := FloatMetric(am, FrequencyKey) <= FloatMetric(bm, FrequencyKey);
    var baseExp, aiExp := FloatMetric(bm, ExpectancyKey), FloatMetric(am, ExpectancyKey);
    var expectancyOk := if baseExp > 0.0 then aiExp >= baseExp * 0.9 else aiExp >= baseExp;
    Checks(drawdownImproved, frequencyReduced, expectancyOk,
           SegmentConsistency(baseline.segmentMetrics, candidate.segmentMetrics))
  }

  /** The gate: a go needs the baseline, an AI experiment (ai_filter_sizing
      preferred over ai_filter) and all four checks passing. */
  function EvaluateGoNoGo(experiments: map<Mode, ExperimentResult>): (r: GoNoGo)
    ensures Baseline !in experiments || (AiFilterSizing !in experiments && AiFilter !in experiments) ==>
      r == GoNoGo(false, Some(MissingResults), None, None)
    ensures Baseline in experiments && (AiFilterSizing in experiments || AiFilter in experiments) ==>
      var candidate := if AiFilterSizing in experiments then experiments[AiFilterSizing] else experiments[AiFilter];
      && r.reason.None?
      && r.selectedAiMode == Some(candidate.mode)
      && r.checks == Some(CompareExperiments(experiments[Baseline], candidate))
    ensures r.go <==> r.checks.Some? && AllPass(r.checks.value)
  {
    if Baseline !in experiments || (AiFilterSizing !in experiments && AiFilter !in experiments) then
      GoNoGo(false, Some(MissingResults), None, None)
    else
      var candidate := if AiFilterSizing in experiments then experiments[AiFilterSizing] else experiments[AiFilter];
      var checks := CompareExperiments(experiments[Baseline], candidate);
      GoNoGo(AllPass(checks), None, Some(candidate.mode), Some(checks))
  }

  /** An AI experiment with exactly the baseline's metrics never passes: it
      improves neither drawdown nor recovery. */
  lemma CopyOfBaselineIsNoGo(experiments: map<Mode, ExperimentResult>)
    requires Baseline in experiments && AiFilterSizing in experiments
    requires experiments[AiFilterSizing].metrics == experiments[Baseline].metrics
    ensures !EvaluateGoNoGo(experiments).go
  {
    var c := CompareExperiments(experiments[Baseline], experiments[AiFilterSizing]);
    assert !c.drawdownOrRecoveryImproved;
  }

  /** Trading more often than the baseline is always a no-go. */
  lemma HigherFrequencyIsNoGo(experiments: map<Mode, ExperimentResult>)
    requires Baseline in experiments && AiFilterSizing in experiments
    requires FloatMetric(experiments[AiFilterSizing].metrics, FrequencyKey)
           > FloatMetric(experiments[Baseline].metrics, FrequencyKey)
    ensures !EvaluateGoNoGo(experiments).go
  {
    var c := CompareExperiments(experiments[Baseline], experiments[AiFilterSizing]);
    assert !c.frequencyReduced;
  }
}
