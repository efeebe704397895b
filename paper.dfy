/** The paper-trading account: one long position at most, equity realised on
    close, a loss streak and a weekly equity watermark
    (src/ai_trading/exec/paper.py). The clock is a parameter (`now` in seconds,
    `today` as a day number) and the ISO week-number function is given at
    construction; loading and persisting the state file are not modelled. */
module Paper {
  import opened Wrappers
  import opened Domain

  datatype Order =
    | OpenOrder(symbol: string, qty: real, price: real, stopLoss: real, timestamp: int)
    | CloseOrder(symbol: string, qty: real, price: real, reason: string, realizedPnl: real, timestamp: int)

  datatype MarkReport = MarkReport(
    hasPosition: bool,
    symbol: Option<string>,
    lastPrice: Option<real>,
    unrealizedPnl: real,
    equity: real)

  /** Notional exposure as a percentage of equity, marked at `lastPrice` or,
      without one, at the entry price; 0 without a position or without
      positive equity. */
  function ExposurePct(position: Option<PositionState>, equity: real, lastPrice: Option<real>): (pct: real)
    ensures position.None? || equity <= 0.0 ==> pct == 0.0
    ensures position.Some? && equity > 0.0 ==>
      pct * equity == position.value.qty * (if lastPrice.Some? then lastPrice.value else position.value.entryPrice) * 100.0
  {
    match position
    case None => 0.0
    case Some(p) =>
      var mark := if lastPrice.Some? then lastPrice.value else p.entryPrice;
      var notional := p.qty * mark;
      if equity > 0.0 then notional / equity * 100.0 else 0.0
  }

  class PaperExecutor {
    const slippageBps: real
    /** ISO week number of a day. */
    const isoWeekOf: int -> int

    var equity: real
    var initialEquity: real
    var consecutiveLosses: nat
    var weekStartEquity: real
    /** The day the current week's watermark was taken. */
    var weekStartDay: int
    var position: Option<PositionState>

    /** Every open position has a positive size. */
    ghost predicate Valid()
      reads this
    {
      position.Some? ==> position.value.qty > 0.0
    }

    /** A fresh account, as when no state file exists yet. */
    constructor (slippageBps: real, initialEquity: real, today: int, isoWeekOf: int -> int)
      ensures Valid()
      ensures this.slippageBps == slippageBps && this.isoWeekOf == isoWeekOf
      ensures equity == initialEquity && this.initialEquity == initialEquity
      ensures consecutiveLosses == 0 && weekStartEquity == initialEquity
      ensures weekStartDay == today && position.None?
    {
      this.slippageBps := slippageBps;
      this.isoWeekOf := isoWeekOf;
      equity := initialEquity;
      this.initialEquity := initialEquity;
      consecutiveLosses := 0;
      weekStartEquity := initialEquity;
      weekStartDay := today;
      position := None;
    }

    /** Opens a long at the slippage-adjusted price; refuses a non-positive
        size and a second position. */
    method OpenLong(candidate: TradeCandidate, qty: real, stopLoss: real, now: int) returns (r: Result<Order, string>)
      requires Valid()
      modifies this`position
      ensures Valid()
      ensures qty <= 0.0 ==> r == Err("qty_must_be_positive") && position == old(position)
      ensures qty > 0.0 && old(position).Some? ==> r == Err("position_already_open") && position == old(position)
      ensures qty > 0.0 && old(position).None? ==>
        var fill := EntryFill(candidate.entryPrice, SlippageOf(slippageBps));
        && position == Some(PositionState(candidate.symbol, qty, fill, stopLoss, now, 0.0))
        && r == Ok(OpenOrder(candidate.symbol, qty, fill, stopLoss, now))
    {
      if qty <= 0.0 {
        return Err("qty_must_be_positive");
      }
      if position.Some? {
        return Err("position_already_open");
      }
      var fill := EntryFill(candidate.entryPrice, SlippageOf(slippageBps));
      position := Some(PositionState(candidate.symbol, qty, fill, stopLoss, now, 0.0));
      r := Ok(OpenOrder(candidate.symbol, qty, fill, stopLoss, now));
    }

    /** Closes the open position at the slippage-adjusted exit (the entry
        price when no exit price is given) and realises its P&L into equity. */
    method ClosePosition(requested: PositionState, reason: string, exitPrice: Option<real>, today: int, now: int)
      returns (r: Result<Order, string>)
      requires Valid()
      modifies this`equity, this`consecutiveLosses, this`weekStartEquity, this`weekStartDay, this`position
      ensures Valid()
      ensures old(position).None? ==> r == Err("no_open_position") && unchanged(this)
      ensures old(position).Some? && old(position).value.symbol != requested.symbol ==>
        r == Err("position_mismatch") && unchanged(this)
      ensures old(position).Some? && old(position).value.symbol == requested.symbol ==>
        var active := old(position).value;
        var raw := if exitPrice.Some? then exitPrice.value else active.entryPrice;
        var fill := ExitFill(raw, SlippageOf(slippageBps));
        var pnl := RealizedPnl(active.entryPrice, fill, active.qty);
        && equity == old(equity) + pnl
        && consecutiveLosses == (if pnl < 0.0 then old(consecutiveLosses) + 1 else 0)
        && position.None?
        && (if isoWeekOf(today) != isoWeekOf(old(weekStartDay))
            then weekStartEquity == equity && weekStartDay == today
            else weekStartEquity == old(weekStartEquity) && weekStartDay == old(weekStartDay))
        && r == Ok(CloseOrder(active.symbol, active.qty, fill, reason, pnl, now))
    {
      if position.None? {
        return Err("no_open_position");
      }
      var active := position.value;
      if active.symbol != requested.symbol {
        return Err("position_mismatch");
      }
      var raw := if exitPrice.None? then active.entryPrice else exitPrice.value;
      var fill := ExitFill(raw, SlippageOf(slippageBps));
      var pnl := RealizedPnl(active.entryPrice, fill, active.qty);
      equity := equity + pnl;
      UpdateConsecutiveLosses(pnl);
      RollWeekIfNeeded(today);
      position := None;
      r := Ok(CloseOrder(active.symbol, active.qty, fill, reason, pnl, now));
    }

    /** Records the unrealised P&L at `lastPrice`; stored equity is untouched. */
    method MarkToMarket(lastPrice: real) returns (report: MarkReport)
      requires Valid()
      modifies this`position
      ensures Valid()
      ensures old(position).None? ==>
        position == old(position) && report == MarkReport(false, None, None, 0.0, equity)
      ensures old(position).Some? ==>
        position == Some(old(position).value.(unrealizedPnl :=
          RealizedPnl(old(position).value.entryPrice, lastPrice, old(position).value.qty)))
      ensures old(position).Some? ==>
        var unrealized := RealizedPnl(old(position).value.entryPrice, lastPrice, old(position).value.qty);
        report == MarkReport(true, Some(old(position).value.symbol), Some(lastPrice), unrealized, equity + unrealized)
      ensures old(position).Some? ==>
        (report.unrealizedPnl < 0.0 <==> lastPrice < old(position).value.entryPrice)
    {
      if position.None? {
        return MarkReport(false, None, None, 0.0, equity);
      }
      var p := position.value;
      var unrealized := RealizedPnl(p.entryPrice, lastPrice, p.qty);
      position := Some(p.(unrealizedPnl := unrealized));
      report := MarkReport(true, Some(p.symbol), Some(lastPrice), unrealized, equity + unrealized);
    }

    /** The statistics the global guards read, after rolling the week. */
    method GetRiskStats(lastPrice: Option<real>, today: int) returns (stats: RiskStats)
      requires Valid()
      modifies this`weekStartEquity, this`weekStartDay
      ensures Valid()
      ensures isoWeekOf(today) != isoWeekOf(old(weekStartDay)) ==>
        weekStartEquity == equity && weekStartDay == today
      ensures isoWeekOf(today) == isoWeekOf(old(weekStartDay)) ==>
        weekStartEquity == old(weekStartEquity) && weekStartDay == old(weekStartDay)
      ensures stats.consecutiveLosses == consecutiveLosses
      ensures stats.weeklyDrawdownPct == WeeklyDrawdownPct(weekStartEquity, equity)
      ensures stats.totalExposurePct == ExposurePct(position, equity, lastPrice)
      ensures position.Some? && (if lastPrice.Some? then lastPrice.value else position.value.entryPrice) >= 0.0 ==>
        stats.totalExposurePct >= 0.0
    {
      RollWeekIfNeeded(today);
      var exposure := 0.0;
      if position.Some? {
        var mark := if lastPrice.Some? then lastPrice.value else position.value.entryPrice;
        var notional := position.value.qty * mark;
        if equity > 0.0 {
          exposure := notional / equity * 100.0;
        }
      }
      stats := RiskStats(consecutiveLosses, WeeklyDrawdownPct(weekStartEquity, equity), exposure);
    }

    /** The loss streak grows on a loss and resets on anything else. */
    method UpdateConsecutiveLosses(pnl: real)
      modifies this`consecutiveLosses
      ensures consecutiveLosses == if pnl < 0.0 then old(consecutiveLosses) + 1 else 0
    {
      if pnl < 0.0 {
        consecutiveLosses := consecutiveLosses + 1;
      } else {
        consecutiveLosses := 0;
      }
    }

    /** Takes a new watermark when today's ISO week number differs from the
        week-start day's. */
    method RollWeekIfNeeded(today: int)
      modifies this`weekStartEquity, this`weekStartDay
      ensures isoWeekOf(today) != isoWeekOf(old(weekStartDay)) ==>
        weekStartEquity == equity && weekStartDay == today
      ensures isoWeekOf(today) == isoWeekOf(old(weekStartDay)) ==>
        weekStartEquity == old(weekStartEquity) && weekStartDay == old(weekStartDay)
    {
      if isoWeekOf(today) != isoWeekOf(weekStartDay) {
        weekStartEquity := equity;
        weekStartDay := today;
      }
    }
  }
}
