/**
 * The live decision engine: the per-tick state machine FLAT <-> IN_POSITION
 * of the scalping bot, with the flip-on-loss rule and the kill switch.
 */
module Bot {
  import opened Wrappers
  import opened Types
  import opened Ema
  import Strategy
  import KillSwitch
  import StateMachine
  import Trading
  import Performance
  import Numbers

  /**
   * The bot's trimming of the candle window: once longer than `maxCandles`, keep
   * `slice(-maxCandles)`. Since `-0` is `0`, a capacity of zero keeps everything.
   */
  function KeepNewest(cs: seq<Candle>, maxCandles: nat): (r: seq<Candle>)
    ensures |r| <= |cs| && r == cs[|cs| - |r|..]
    ensures maxCandles > 0 ==> |r| == if |cs| <= maxCandles then |cs| else maxCandles
  {
    if |cs| > maxCandles then (if maxCandles == 0 then cs else cs[|cs| - maxCandles..]) else cs
  }

  /** The side a trend points to: UP is LONG, anything else SHORT. */
  function TrendDirection(trend: Trend): Direction {
    if trend == UP then LONG else SHORT
  }

  /** The side of a new entry: the trend's for the first trade ever, the stored bias afterwards. */
  function EntryDirection(tradeCount: nat, trend: Trend, currentDirection: Direction): (d: Direction)
    ensures tradeCount == 0 && trend == UP ==> d == LONG
    ensures tradeCount == 0 && trend == DOWN ==> d == SHORT
    ensures tradeCount > 0 ==> d == currentDirection
  {
    if tradeCount == 0 then TrendDirection(trend) else currentDirection
  }

  /**
   * The first entry does not store its side as the bias: from a session with no
   * trades, a tick that opens takes the trend's side and leaves the bias as it
   * was. If that position then stops out, the bias becomes the flip of the old
   * bias, and every later entry takes that side whatever the trend.
   */
  lemma FirstEntryLeavesBias(config: Config, s: BotState, price: real, trend: Trend, now: int, exitPrice: real, later: int)
    requires price > 0.0 && s.trades == [] && s.position.None?
    ensures var o := AfterTick(config, s, price, trend, now);
      && o.currentDirection == s.currentDirection
      && (o.position.Some? ==> o.position.value.direction == TrendDirection(trend))
    ensures var o := AfterTick(config, s, price, trend, now);
      o.position.Some? && !Strategy.CheckTPSL(o.position.value, exitPrice).hitTp
        && Strategy.CheckTPSL(o.position.value, exitPrice).hitSl ==>
      var c := AfterManage(config, o, exitPrice, later);
      && c.currentDirection == Strategy.FlipDirection(s.currentDirection)
      && forall t :: EntryDirection(|c.trades|, t, c.currentDirection) == Strategy.FlipDirection(s.currentDirection)
  {
  }

  /** The position opened at `price` with `equity` on the books. */
  function OpenedPosition(config: Config, equity: real, price: real, direction: Direction, now: int): (p: Position)
    requires price > 0.0
    ensures PositionFits(p, config)
    ensures p.direction == direction && p.entryPrice == price && p.openedAt == now
    ensures p.margin * 100.0 == equity * config.marginPct
  {
    Strategy.SizingRelations(equity, config.marginPct, config.maxLeverage, price);
    var sizing := Strategy.CalculatePositionSize(equity, config.marginPct, config.maxLeverage, price);
    var targets := Strategy.CalculateTPSL(direction, price, config.tpBps, config.slBps);
    Position(direction, price, sizing.size, sizing.margin, config.maxLeverage, targets.tpPrice, targets.slPrice, now)
  }

  /** What every open position satisfies: targets fixed from its entry, configured leverage, consistent size. */
  predicate PositionFits(p: Position, config: Config) {
    && Strategy.TargetsFromEntry(p, config.tpBps, config.slBps)
    && p.leverage == config.maxLeverage
    && p.entryPrice > 0.0
    && p.size * p.entryPrice == p.margin * p.leverage
  }

  /** The trade recorded when `p` is closed at `exitPrice`. */
  function ClosedTrade(p: Position, exitPrice: real, feeBps: real, hitTp: bool, hitSl: bool, now: int): Trade {
    var r := Strategy.CalculatePnL(p, exitPrice, feeBps);
    Trade(p.direction, p.entryPrice, exitPrice, p.size, r.pnl, r.pnlPct, hitTp, hitSl, now)
  }

  /** Recording a trade with one outcome and booking its PnL keeps the equity and outcome invariants. */
  lemma RecordedTradeKeepsInvariant(initialEquity: real, currentEquity: real, trades: seq<Trade>, t: Trade)
    requires currentEquity == initialEquity + Performance.TotalPnl(trades)
    requires Performance.OneOutcomeEach(trades) && t.hitTp != t.hitSl
    ensures currentEquity + t.pnl == initialEquity + Performance.TotalPnl(trades + [t])
    ensures Performance.OneOutcomeEach(trades + [t])
  {
    Performance.AppendTrade(trades, t);
    var ts := trades + [t];
    forall i | 0 <= i < |ts| ensures ts[i].hitTp != ts[i].hitSl {
      if i < |trades| { assert ts[i] == trades[i]; }
    }
  }

  /**
   * The invariant the engine keeps on its session record: trading is off exactly
   * when a kill reason is recorded, an open position fits the configuration, the
   * equity is the initial equity plus the realised PnL of the history, and every
   * recorded trade has exactly one outcome.
   */
  ghost predicate Sound(config: Config, s: BotState) {
    && (s.tradingEnabled <==> s.killSwitchReason.None?)
    && (s.position.Some? ==> PositionFits(s.position.value, config))
    && s.currentEquity == s.initialEquity + Performance.TotalPnl(s.trades)
    && Performance.OneOutcomeEach(s.trades)
  }

  // The session record after each operation of the bot. The class below is
  // proved against these; the lemmas after them state what each one does.

  /** Trading turned off; the first reason recorded is kept. */
  function AfterDisable(s: BotState, reason: KillReason): BotState {
    if s.tradingEnabled then s.(tradingEnabled := false, killSwitchReason := Some(reason)) else s
  }

  /** A position opened at `price` in `direction`, stamped `now` and counted in the hourly window. */
  function AfterOpen(config: Config, s: BotState, price: real, direction: Direction, now: int): BotState
    requires price > 0.0
  {
    s.(position := Some(OpenedPosition(config, s.currentEquity, price, direction, now)),
       lastTradeTime := Some(now),
       tradesThisHour := s.tradesThisHour + 1)
  }

  /** The open position closed at `exitPrice`: PnL booked, one trade recorded, the streak counters updated. */
  function AfterClose(config: Config, s: BotState, exitPrice: real, hitTp: bool, hitSl: bool, now: int): BotState
    requires s.position.Some?
  {
    var t := ClosedTrade(s.position.value, exitPrice, config.feeBps, hitTp, hitSl, now);
    s.(currentEquity := s.currentEquity + t.pnl,
       trades := s.trades + [t],
       consecLosses := if hitTp then 0 else if hitSl then s.consecLosses + 1 else s.consecLosses,
       consecErrors := if hitTp then 0 else s.consecErrors,
       position := None,
       lastTradeTime := Some(now))
  }

  /** The open position checked at `price`: take-profit first, then stop-loss with the bias flipped. */
  function AfterManage(config: Config, s: BotState, price: real, now: int): BotState
    requires s.position.Some?
  {
    var hits := Strategy.CheckTPSL(s.position.value, price);
    if hits.hitTp then AfterClose(config, s, price, true, false, now)
    else if hits.hitSl then
      var c := AfterClose(config, s, price, false, true, now);
      c.(currentDirection := Strategy.FlipDirection(c.currentDirection))
    else s
  }

  /** An entry considered at `price`: the cooldown gate, then the kill switch, then the open. */
  function AfterConsider(config: Config, s: BotState, price: real, trend: Trend, now: int): BotState
    requires price > 0.0
  {
    if !StateMachine.CheckCooldown(s, config, now) then s
    else
      var ks := KillSwitch.CheckKillSwitch(s, config);
      if ks.triggered then AfterDisable(s, ks.reason.value)
      else AfterOpen(config, s, price, EntryDirection(|s.trades|, trend, s.currentDirection), now)
  }

  /** The decision of a tick: manage an open position, else consider an entry when enabled and trending. */
  function AfterDecision(config: Config, s: BotState, price: real, trend: Trend, now: int): BotState
    requires price > 0.0
  {
    if s.position.Some? then AfterManage(config, s, price, now)
    else if s.tradingEnabled && trend != NEUTRAL then AfterConsider(config, s, price, trend, now)
    else s
  }

  /** A whole tick for the session record: the decision, then the hourly and the daily roll. */
  function AfterTick(config: Config, s: BotState, price: real, trend: Trend, now: int): BotState
    requires price > 0.0
  {
    var d := AfterDecision(config, s, price, trend, now);
    StateMachine.ResetDailyCounters(StateMachine.ResetHourlyCounters(d, now), now)
  }

  /** A failed tick: the error counted, then the kill switch consulted. */
  function AfterFault(config: Config, s: BotState): BotState {
    var e := s.(consecErrors := s.consecErrors + 1);
    var ks := KillSwitch.CheckKillSwitch(e, config);
    if ks.triggered then AfterDisable(e, ks.reason.value) else e
  }

  /** Closing with exactly one outcome keeps the invariant. */
  lemma AfterCloseKeepsSound(config: Config, s: BotState, exitPrice: real, hitTp: bool, hitSl: bool, now: int)
    requires Sound(config, s) && s.position.Some? && hitTp != hitSl
    ensures Sound(config, AfterClose(config, s, exitPrice, hitTp, hitSl, now))
  {
    var t := ClosedTrade(s.position.value, exitPrice, config.feeBps, hitTp, hitSl, now);
    RecordedTradeKeepsInvariant(s.initialEquity, s.currentEquity, s.trades, t);
  }

  /** Managing the open position keeps the invariant. */
  lemma AfterManageKeepsSound(config: Config, s: BotState, price: real, now: int)
    requires Sound(config, s) && s.position.Some?
    ensures Sound(config, AfterManage(config, s, price, now))
  {
    var hits := Strategy.CheckTPSL(s.position.value, price);
    if hits.hitTp {
      AfterCloseKeepsSound(config, s, price, true, false, now);
    } else if hits.hitSl {
      AfterCloseKeepsSound(config, s, price, false, true, now);
    }
  }

  /** A tick keeps the invariant, whatever the price, the trend and the clock. */
  lemma AfterTickKeepsSound(config: Config, s: BotState, price: real, trend: Trend, now: int)
    requires Sound(config, s) && price > 0.0
    ensures Sound(config, AfterDecision(config, s, price, trend, now))
    ensures Sound(config, AfterTick(config, s, price, trend, now))
  {
    if s.position.Some? {
      AfterManageKeepsSound(config, s, price, now);
    }
  }

  /** A failed tick keeps the invariant. */
  lemma AfterFaultKeepsSound(config: Config, s: BotState)
    requires Sound(config, s)
    ensures Sound(config, AfterFault(config, s))
  {
  }

  /**
   * A tick records at most one trade and never rewrites history; it records one
   * exactly when a position was open and one of its targets was hit.
   */
  lemma AtMostOneTradePerTick(config: Config, s: BotState, price: real, trend: Trend, now: int)
    requires price > 0.0
    ensures var t := AfterTick(config, s, price, trend, now);
      && s.trades <= t.trades && |t.trades| <= |s.trades| + 1
      && (|t.trades| == |s.trades| + 1 <==>
            s.position.Some? && var h := Strategy.CheckTPSL(s.position.value, price); h.hitTp || h.hitSl)
  {
  }

  /**
   * A tick opens a position only from flat, with trading enabled, a trend, the
   * cooldown elapsed and no guard breached; the opened position fits and is
   * counted in the hourly window unless that window rolls over.
   */
  lemma OpensOnlyWhenAllowed(config: Config, s: BotState, price: real, trend: Trend, now: int)
    requires price > 0.0
    ensures var t := AfterTick(config, s, price, trend, now);
      s.position.None? && t.position.Some? <==>
        && s.position.None? && s.tradingEnabled && trend != NEUTRAL
        && StateMachine.CheckCooldown(s, config, now)
        && !KillSwitch.CheckKillSwitch(s, config).triggered
    ensures var t := AfterTick(config, s, price, trend, now);
      s.position.None? && t.position.Some? ==>
        && PositionFits(t.position.value, config)
        && t.position.value.entryPrice == price && t.position.value.openedAt == now
        && t.lastTradeTime == Some(now)
        && (now - s.hourStartTime < StateMachine.HourMs ==> t.tradesThisHour == s.tradesThisHour + 1)
  {
  }

  /**
   * Take-profit keeps the bias and clears both streaks; stop-loss flips the bias
   * and lengthens the loss streak; the position is closed in both cases.
   */
  lemma OutcomeSetsBias(config: Config, s: BotState, price: real, now: int)
    requires s.position.Some?
    ensures var h := Strategy.CheckTPSL(s.position.value, price);
            var t := AfterManage(config, s, price, now);
      && (h.hitTp ==>
            t.currentDirection == s.currentDirection && t.consecLosses == 0 && t.consecErrors == 0
            && t.position.None? && t.trades[|t.trades| - 1].hitTp)
      && (!h.hitTp && h.hitSl ==>
            t.currentDirection != s.currentDirection && t.consecLosses == s.consecLosses + 1
            && t.position.None? && t.trades[|t.trades| - 1].hitSl)
      && (!h.hitTp && !h.hitSl ==> t == s)
  {
  }

  /**
   * On the entry path, a guard that fires turns trading off and records its
   * reason; no position is opened and no trade recorded.
   */
  lemma EntryKillDisables(config: Config, s: BotState, price: real, trend: Trend, now: int)
    requires price > 0.0 && s.position.None? && s.tradingEnabled && trend != NEUTRAL
    requires StateMachine.CheckCooldown(s, config, now) && KillSwitch.CheckKillSwitch(s, config).triggered
    ensures var t := AfterTick(config, s, price, trend, now);
      && !t.tradingEnabled && t.killSwitchReason == KillSwitch.CheckKillSwitch(s, config).reason
      && t.position.None? && t.trades == s.trades
  {
  }

  /** Once the kill switch has fired, neither a tick nor a failure turns trading back on or replaces the reason. */
  lemma KillSwitchLatches(config: Config, s: BotState, price: real, trend: Trend, now: int)
    requires price > 0.0 && !s.tradingEnabled
    ensures var t := AfterTick(config, s, price, trend, now);
      !t.tradingEnabled && t.killSwitchReason == s.killSwitchReason
    ensures var t := AfterFault(config, s);
      !t.tradingEnabled && t.killSwitchReason == s.killSwitchReason
    ensures s.position.None? ==> AfterTick(config, s, price, trend, now).position.None?
  {
  }

  /** A failed tick only counts the error and, when a guard is breached, disables trading with its reason. */
  lemma FaultDisablesOnBreach(config: Config, s: BotState)
    requires s.tradingEnabled && s.killSwitchReason.None?
    ensures var t := AfterFault(config, s);
            var ks := KillSwitch.CheckKillSwitch(s.(consecErrors := s.consecErrors + 1), config);
      && t.consecErrors == s.consecErrors + 1
      && (t.tradingEnabled <==> !ks.triggered)
      && t.killSwitchReason == ks.reason
      && t.(consecErrors := s.consecErrors, tradingEnabled := true, killSwitchReason := None) == s
  {
  }

  class RaydiumScalpingBot {
    const config: Config
    var state: BotState
    var candles: seq<Candle>

    /** The engine's invariant. */
    ghost predicate Valid()
      reads this
    {
      && config.HasPeriods()
      && |candles| <= config.MaxCandles()
      && Sound(config, state)
    }

    constructor (config: Config, initialEquity: real, now: int)
      requires config.HasPeriods()
      ensures Valid()
      ensures this.config == config && candles == [] && state == InitialState(initialEquity, now)
    {
      this.config := config;
      candles := [];
      state := InitialState(initialEquity, now);
    }

    /** Turns trading off for good; the first reason recorded is kept. */
    method DisableTrading(reason: KillReason)
      requires Valid()
      modifies this`state
      ensures Valid()
      ensures state == AfterDisable(old(state), reason)
    {
      if state.tradingEnabled {
        state := state.(tradingEnabled := false);
        state := state.(killSwitchReason := Some(reason));
      }
    }

    /** Opens a position at `price`: sized from current equity, targets from the entry price. */
    method OpenPosition(price: real, direction: Direction, now: int)
      requires Valid() && price > 0.0
      modifies this`state
      ensures Valid()
      ensures state == AfterOpen(config, old(state), price, direction, now)
    {
      var sizing := Trading.CalculatePositionSize(state.currentEquity, config.marginPct, config.maxLeverage, price);
      var targets := Trading.CalculateTPSL(direction, price, config.tpBps, config.slBps);
      state := state.(position := Some(Position(direction, price, sizing.size, sizing.margin, config.maxLeverage,
                                                targets.tpPrice, targets.slPrice, now)));
      state := state.(lastTradeTime := Some(now));
      state := state.(tradesThisHour := state.tradesThisHour + 1);
    }

    /** Closes the open position: realises its PnL, records one trade and updates the loss streak. */
    method ClosePosition(exitPrice: real, hitTp: bool, hitSl: bool, now: int)
      requires Valid() && state.position.Some? && hitTp != hitSl
      modifies this`state
      ensures Valid()
      ensures state == AfterClose(config, old(state), exitPrice, hitTp, hitSl, now)
    {
      AfterCloseKeepsSound(config, state, exitPrice, hitTp, hitSl, now);
      var position := state.position.value;
      var r := Trading.CalculatePnL(position, exitPrice, config.feeBps);
      state := state.(currentEquity := state.currentEquity + r.pnl);
      var trade := Trade(position.direction, position.entryPrice, exitPrice, position.size,
                         r.pnl, r.pnlPct, hitTp, hitSl, now);
      state := state.(trades := state.trades + [trade]);
      if hitTp {
        state := state.(consecLosses := 0);
        state := state.(consecErrors := 0);
      } else if hitSl {
        state := state.(consecLosses := state.consecLosses + 1);
      }
      state := state.(position := None);
      state := state.(lastTradeTime := Some(now));
    }

    /** Checks the open position against its targets and closes it on a hit. */
    method ManagePosition(price: real, now: int)
      requires Valid() && state.position.Some?
      modifies this`state
      ensures Valid()
      ensures state == AfterManage(config, old(state), price, now)
    {
      var hits := Trading.CheckTPSL(state.position.value, price);
      if hits.hitTp {
        ClosePosition(price, true, false, now);
      } else if hits.hitSl {
        ClosePosition(price, false, true, now);
        state := state.(currentDirection := Trading.FlipDirection(state.currentDirection));
      }
    }

    /** Gates a new entry by cooldown and kill switch, then opens in the chosen direction. */
    method ConsiderNewTrade(price: real, trend: Trend, now: int)
      requires Valid() && price > 0.0
      modifies this`state
      ensures Valid()
      ensures state == AfterConsider(config, old(state), price, trend, now)
    {
      if !Trading.CheckCooldown(state, config, now) {
        return;
      }
      var killSwitch := Trading.CheckKillSwitch(state, config);
      if killSwitch.triggered {
        DisableTrading(killSwitch.reason.value);
        return;
      }
      var trendDirection := if trend == UP then LONG else SHORT;
      var direction := if |state.trades| == 0 then trendDirection else state.currentDirection;
      OpenPosition(price, direction, now);
    }

    /** Restarts the hourly window once an hour has elapsed. */
    method ResetHourlyCounters(now: int)
      requires Valid()
      modifies this`state
      ensures Valid()
      ensures state == StateMachine.ResetHourlyCounters(old(state), now)
    {
      var elapsed := now - state.hourStartTime;
      if elapsed >= 3600000 {
        state := state.(tradesThisHour := 0);
        state := state.(hourStartTime := now);
      }
    }

    /** Re-bases the daily equity once a day has elapsed. */
    method ResetDailyCounters(now: int)
      requires Valid()
      modifies this`state
      ensures Valid()
      ensures state == StateMachine.ResetDailyCounters(old(state), now)
    {
      var elapsed := now - state.dailyStartTime;
      if elapsed >= 86400000 {
        state := state.(dailyStartEquity := state.currentEquity);
        state := state.(dailyStartTime := now);
      }
    }

    /** Appends the tick's candle and keeps the newest MaxCandles() of the window. */
    method PushCandle(price: real, now: int)
      requires Valid()
      modifies this`candles
      ensures Valid()
      ensures candles == KeepNewest(old(candles) + [Candle(now, price)], config.MaxCandles())
    {
      candles := candles + [Candle(now, price)];
      var maxCandles := config.MaxCandles();
      if |candles| > maxCandles {
        candles := candles[|candles| - maxCandles..];
      }
    }

    /** The fast and slow EMAs of the window, compared. */
    method CurrentTrend() returns (trend: Trend)
      requires Valid()
      ensures trend == WindowTrend(candles, config)
      ensures trend != NEUTRAL ==> |candles| >= config.emaFast && |candles| >= config.emaSlow
    {
      var emaFast := CalculateEMA(candles, config.emaFast);
      var emaSlow := CalculateEMA(candles, config.emaSlow);
      trend := DetermineTrend(emaFast, emaSlow);
    }

    /** One tick: extend and trim the window, compute the trend, then manage or consider, then roll the counters. */
    method Tick(price: real, now: int)
      requires Valid() && price > 0.0
      modifies this
      ensures Valid()
      ensures candles == KeepNewest(old(candles) + [Candle(now, price)], config.MaxCandles())
      ensures state == AfterTick(config, old(state), price, WindowTrend(candles, config), now)
    {
      PushCandle(price, now);
      var trend := CurrentTrend();
      if state.position.Some? {
        ManagePosition(price, now);
      } else if state.tradingEnabled && trend != NEUTRAL {
        ConsiderNewTrade(price, trend, now);
      }
      ResetHourlyCounters(now);
      ResetDailyCounters(now);
    }

    /**
     * One pass of the run loop: a tick, or, when the price cannot be fetched,
     * the error path that counts the error and re-runs the kill switch.
     */
    method Step(price: Option<real>, now: int)
      requires Valid() && (price.Some? ==> price.value > 0.0)
      modifies this
      ensures Valid()
      ensures price.Some? ==>
        && candles == KeepNewest(old(candles) + [Candle(now, price.value)], config.MaxCandles())
        && state == AfterTick(config, old(state), price.value, WindowTrend(candles, config), now)
      ensures price.None? ==> candles == old(candles) && state == AfterFault(config, old(state))
    {
      if price.Some? {
        Tick(price.value, now);
      } else {
        state := state.(consecErrors := state.consecErrors + 1);
        var killSwitch := Trading.CheckKillSwitch(state, config);
        if killSwitch.triggered {
          DisableTrading(killSwitch.reason.value);
        }
      }
    }

    /** The performance figures of the session so far. */
    function GetStats(): (s: Performance.Stats)
      reads this
      requires Valid()
      ensures s.totalTrades == |state.trades|
      ensures s.winningTrades == Performance.Wins(state.trades) && s.losingTrades == Performance.Losses(state.trades)
      ensures s.winningTrades + s.losingTrades == s.totalTrades
      ensures s.totalPnL == Performance.TotalPnl(state.trades)
      ensures s.totalTrades > 0 ==> s.winRate * s.totalTrades as real == s.winningTrades as real * 100.0
      ensures s.totalTrades == 0 ==> s.winRate == 0.0
      ensures state.initialEquity != 0.0 ==> s.totalPnLPct == Numbers.Finite(s.totalPnL / state.initialEquity * 100.0)
      ensures state.initialEquity == 0.0 ==> !s.totalPnLPct.Finite?
    {
      Performance.ComputeStats(state.trades, state.initialEquity, state.currentEquity)
    }
  }
}
