/**
 * The second copy of the position math, the kill switch and the cooldown
 * check, the one the live bot uses. Each function is written as that copy
 * writes it and is proved to compute the same as the first copy.
 */
module Trading {
  import opened Wrappers
  import opened Numbers
  import opened Types
  import Strategy
  import KillSwitch
  import StateMachine

  function CalculateTPSL(direction: Direction, entryPrice: real, tpBps: real, slBps: real): (t: Strategy.Targets)
    ensures t == Strategy.CalculateTPSL(direction, entryPrice, tpBps, slBps)
  {
    if direction == LONG then
      Strategy.Targets(entryPrice * (1.0 + tpBps / 10000.0), entryPrice * (1.0 - slBps / 10000.0))
    else
      Strategy.Targets(entryPrice * (1.0 - tpBps / 10000.0), entryPrice * (1.0 + slBps / 10000.0))
  }

  function CalculatePositionSize(equity: real, marginPct: real, leverage: real, price: real): (s: Strategy.Sizing)
    requires price != 0.0
    ensures s == Strategy.CalculatePositionSize(equity, marginPct, leverage, price)
  {
    var margin := equity * marginPct / 100.0;
    var notional := margin * leverage;
    Strategy.Sizing(margin, notional / price)
  }

  function CalculatePnL(position: Position, exitPrice: real, feeBps: real): (r: Strategy.Pnl)
    ensures r == Strategy.CalculatePnL(position, exitPrice, feeBps)
  {
    var notional := position.size * position.entryPrice;
    var priceDiff := if position.direction == LONG then exitPrice - position.entryPrice
                     else position.entryPrice - exitPrice;
    var grossPnl := priceDiff * position.size;
    var totalFees := notional * 2.0 * feeBps / 10000.0;
    var pnl := grossPnl - totalFees;
    Strategy.Pnl(pnl, Scale(Divide(pnl, position.margin), 100.0))
  }

  function CheckTPSL(position: Position, currentPrice: real): (h: Strategy.Hits)
    ensures h == Strategy.CheckTPSL(position, currentPrice)
  {
    if position.direction == LONG then
      Strategy.Hits(currentPrice >= position.tpPrice, currentPrice <= position.slPrice)
    else
      Strategy.Hits(currentPrice <= position.tpPrice, currentPrice >= position.slPrice)
  }

  function FlipDirection(direction: Direction): (r: Direction)
    ensures r == Strategy.FlipDirection(direction)
  {
    if direction == LONG then SHORT else LONG
  }

  function CheckKillSwitch(state: BotState, config: Config): (r: KillSwitch.KillSwitchResult)
    ensures r == KillSwitch.CheckKillSwitch(state, config)
  {
    var dailyLossPct := Scale(Divide(state.dailyStartEquity - state.currentEquity, state.dailyStartEquity), 100.0);
    if AtLeast(dailyLossPct, config.maxDailyLossPct) then
      KillSwitch.KillSwitchResult(true, Some(DailyLoss(dailyLossPct, config.maxDailyLossPct)))
    else if state.consecLosses >= config.maxConsecLosses then
      KillSwitch.KillSwitchResult(true, Some(ConsecutiveLosses(state.consecLosses, config.maxConsecLosses)))
    else if state.consecErrors >= config.maxConsecErrors then
      KillSwitch.KillSwitchResult(true, Some(ConsecutiveErrors(state.consecErrors, config.maxConsecErrors)))
    else if state.tradesThisHour >= config.maxTradesPerHour then
      KillSwitch.KillSwitchResult(true, Some(TradesThisHour(state.tradesThisHour, config.maxTradesPerHour)))
    else
      KillSwitch.KillSwitchResult(false, None)
  }

  function CheckCooldown(state: BotState, config: Config, now: int): (ok: bool)
    ensures ok == StateMachine.CheckCooldown(state, config, now)
  {
    if state.lastTradeTime.None? then true
    else
      var cooldownMs := if config.mode == Live then config.cooldownMsLive else config.cooldownMsPaper;
      var elapsed := now - state.lastTradeTime.value;
      elapsed >= cooldownMs
  }
}
