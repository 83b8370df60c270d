/**
 * Session counters and the cooldown gate: the hourly and daily windows that
 * reset once their length has elapsed, and the minimum time between trades.
 */
module StateMachine {
  import opened Wrappers
  import opened Types

  /** One hour and one day, in milliseconds. */
  const HourMs: int := 3600000
  const DayMs: int := 86400000

  /** The cooldown length: the live value in live mode, the paper value in quote and paper modes. */
  function CooldownMs(config: Config): int {
    if config.mode == Live then config.cooldownMsLive else config.cooldownMsPaper
  }

  /** Whether a new trade may be considered at time `now`. */
  function CheckCooldown(state: BotState, config: Config, now: int): (ok: bool)
    ensures state.lastTradeTime.None? ==> ok
    ensures state.lastTradeTime.Some? ==> (ok <==> now - state.lastTradeTime.value >= CooldownMs(config))
  {
    if state.lastTradeTime.None? then true
    else
      var elapsed := now - state.lastTradeTime.value;
      elapsed >= CooldownMs(config)
  }

  /** Once the cooldown has elapsed it stays elapsed as time goes on. */
  lemma CooldownMonotone(state: BotState, config: Config, now: int, later: int)
    requires now <= later && CheckCooldown(state, config, now)
    ensures CheckCooldown(state, config, later)
  {
  }

  /** A 200 ms paper cooldown blocks 100 ms after a trade and allows 300 ms after it. */
  lemma CooldownExample(state: BotState, config: Config, t: int)
    requires config.mode == Paper && config.cooldownMsPaper == 200 && state.lastTradeTime == Some(t)
    ensures !CheckCooldown(state, config, t + 100)
    ensures CheckCooldown(state, config, t + 300)
  {
  }

  /**
   * A rolling window holding `value` since `start`: once `length` has elapsed
   * at `now`, it restarts at `now` holding `renewed`.
   */
  function Roll<T>(value: T, start: int, now: int, length: int, renewed: T): (w: (T, int))
    ensures now - start >= length ==> w == (renewed, now)
    ensures now - start < length ==> w == (value, start)
  {
    if now - start >= length then (renewed, now) else (value, start)
  }

  /** Rolling twice at the same instant is rolling once, for a window of positive length. */
  lemma RollIdempotent<T>(value: T, start: int, now: int, length: int, renewed: T)
    requires length > 0
    ensures var w := Roll(value, start, now, length, renewed);
            Roll(w.0, w.1, now, length, renewed) == w
  {
  }

  /** A window never restarts before its length has elapsed, and never moves its start backwards when time runs forward. */
  lemma RollNoEarlyReset<T>(value: T, start: int, now: int, length: int, renewed: T)
    requires start <= now
    ensures var w := Roll(value, start, now, length, renewed);
            start <= w.1 <= now && (w.1 != start ==> now - start >= length)
  {
  }

  /** The hourly window: trade count and its start time. */
  function HourlyWindow(tradesThisHour: nat, hourStartTime: int, now: int): (nat, int) {
    Roll(tradesThisHour, hourStartTime, now, HourMs, 0)
  }

  /** The daily window: the equity baseline and its start time, re-based to the current equity. */
  function DailyWindow(dailyStartEquity: real, dailyStartTime: int, currentEquity: real, now: int): (real, int) {
    Roll(dailyStartEquity, dailyStartTime, now, DayMs, currentEquity)
  }

  /** Resets the trade count once an hour has elapsed; no other field changes. */
  function ResetHourlyCounters(state: BotState, now: int): (r: BotState)
    ensures (r.tradesThisHour, r.hourStartTime) == HourlyWindow(state.tradesThisHour, state.hourStartTime, now)
    ensures r.(tradesThisHour := state.tradesThisHour, hourStartTime := state.hourStartTime) == state
  {
    var elapsed := now - state.hourStartTime;
    if elapsed >= 3600000 then state.(tradesThisHour := 0, hourStartTime := now) else state
  }

  /** Re-bases the daily equity once a day has elapsed; no other field changes. */
  function ResetDailyCounters(state: BotState, now: int): (r: BotState)
    ensures (r.dailyStartEquity, r.dailyStartTime)
         == DailyWindow(state.dailyStartEquity, state.dailyStartTime, state.currentEquity, now)
    ensures r.(dailyStartEquity := state.dailyStartEquity, dailyStartTime := state.dailyStartTime) == state
  {
    var elapsed := now - state.dailyStartTime;
    if elapsed >= 86400000 then state.(dailyStartEquity := state.currentEquity, dailyStartTime := now) else state
  }

  /** A reset at the same instant as the one before it changes nothing more. */
  lemma ResetsIdempotent(state: BotState, now: int)
    ensures ResetHourlyCounters(ResetHourlyCounters(state, now), now) == ResetHourlyCounters(state, now)
    ensures ResetDailyCounters(ResetDailyCounters(state, now), now) == ResetDailyCounters(state, now)
  {
  }

  /** Worked examples: just over an hour resets 50 trades, half an hour keeps them; a day re-bases 10000 to 10500. */
  lemma WindowExamples(t: int)
    ensures HourlyWindow(50, t - 3600001, t) == (0, t)
    ensures HourlyWindow(50, t - 1800000, t) == (50, t - 1800000)
    ensures DailyWindow(10000.0, t - 86400001, 10500.0, t) == (10500.0, t)
  {
  }
}
