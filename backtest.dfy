/**
 * The replay twin of the bot: the same decision engine run over a list of
 * historical candles, with the candle timestamps as the clock. It differs from
 * the live bot in a few places, each stated below: a close may carry both
 * outcome flags, a cooldown or kill-switch skip also skips the window resets,
 * and the error path ends the replay once the kill switch fires.
 */
module Backtest {
  import opened Wrappers
  import opened Types
  import opened Ema
  import Strategy
  import KillSwitch
  import StateMachine
  import Performance
  import Bot

  // ---------------------------------------------------------------------------
  // The interval parser: `^(\d+)([smhd])$`, the amount times the unit's seconds.

  predicate IsDigit(c: char) {
    '0' <= c <= '9'
  }

  predicate AllDigits(s: string) {
    forall k :: 0 <= k < |s| ==> IsDigit(s[k])
  }

  /** The decimal value of a string of ASCII digits (leading zeros allowed). */
  function DigitsValue(s: string): nat
    requires AllDigits(s)
  {
    if s == [] then 0 else DigitsValue(s[..|s| - 1]) * 10 + (s[|s| - 1] as int - '0' as int)
  }

  /** Seconds per unit letter: s, m, h, d; any other letter has none. */
  function UnitSeconds(u: char): Option<nat> {
    match u
    case 's' => Some(1)
    case 'm' => Some(60)
    case 'h' => Some(3600)
    case 'd' => Some(86400)
    case _ => None
  }

  /**
   * The interval in seconds: one or more digits followed by exactly one unit
   * letter, and nothing else; any other string has no value.
   */
  function IntervalToSeconds(interval: string): (r: Option<nat>)
    ensures r.Some? <==>
      && |interval| >= 2
      && AllDigits(interval[..|interval| - 1])
      && UnitSeconds(interval[|interval| - 1]).Some?
    ensures r.Some? ==>
      r.value == DigitsValue(interval[..|interval| - 1]) * UnitSeconds(interval[|interval| - 1]).value
  {
    if |interval| < 2 then None
    else
      var amount := interval[..|interval| - 1];
      var unit := UnitSeconds(interval[|interval| - 1]);
      if !AllDigits(amount) || unit.None? then None
      else Some(DigitsValue(amount) * unit.value)
  }

  /** The shortest decimal rendering of `n`. */
  function Decimal(n: nat): (s: string)
    ensures |s| >= 1 && AllDigits(s)
  {
    var last := [('0' as int + n % 10) as char];
    if n < 10 then last else Decimal(n / 10) + last
  }

  /** Reading a rendered number gives the number back. */
  lemma {:induction false} DecimalValue(n: nat)
    ensures DigitsValue(Decimal(n)) == n
  {
    var s := Decimal(n);
    if n >= 10 {
      DecimalValue(n / 10);
      assert s[..|s| - 1] == Decimal(n / 10);
    }
  }

  /** Every well-formed interval is read back exactly: `<n><unit>` is `n` times the unit's seconds. */
  lemma IntervalRoundTrip(n: nat, u: char)
    requires UnitSeconds(u).Some?
    ensures IntervalToSeconds(Decimal(n) + [u]) == Some(n * UnitSeconds(u).value)
  {
    var s := Decimal(n) + [u];
    assert s[..|s| - 1] == Decimal(n);
    DecimalValue(n);
  }

  /** `1m` is 60 s, `15s` is 15 s, `2h` is 7200 s, `1d` is 86400 s; a bare unit, a bare number, a fraction or an unknown unit has no value. */
  lemma IntervalExamples()
    ensures IntervalToSeconds("1m") == Some(60)
    ensures IntervalToSeconds("15s") == Some(15)
    ensures IntervalToSeconds("2h") == Some(7200)
    ensures IntervalToSeconds("1d") == Some(86400)
    ensures IntervalToSeconds("m") == None
    ensures IntervalToSeconds("15") == None
    ensures IntervalToSeconds("1.5m") == None
    ensures IntervalToSeconds("1w") == None
  {
    assert "1m"[..1] == "1" && AllDigits("1") && DigitsValue("1") == 1;
    assert "15s"[..2] == "15";
    assert "15"[..1] == "1";
    assert !IsDigit("1.5m"[1]);
  }

  // ---------------------------------------------------------------------------
  // The session helpers of the replay, clocked by the candle time.

  /** The cooldown gate at `currentTime` for a cooldown length given in milliseconds. */
  function CheckCooldownAt(state: BotState, cooldownMs: int, currentTime: int): (ok: bool)
    ensures state.lastTradeTime.None? ==> ok
    ensures state.lastTradeTime.Some? ==> (ok <==> currentTime - state.lastTradeTime.value >= cooldownMs)
  {
    if state.lastTradeTime.None? then true
    else
      var elapsed := currentTime - state.lastTradeTime.value;
      elapsed >= cooldownMs
  }

  /** With the mode's cooldown length the replay's gate is the bot's gate at the candle time. */
  lemma CooldownAtAgrees(state: BotState, config: Config, currentTime: int)
    ensures CheckCooldownAt(state, StateMachine.CooldownMs(config), currentTime)
         == StateMachine.CheckCooldown(state, config, currentTime)
  {
  }

  /**
   * A fresh session, as the replay creates it from the first candle's time:
   * it keeps both invariants, no cooldown holds it back, its first entry
   * follows the trend, and its figures are all zero.
   */
  lemma InitialStateFresh(config: Config, initialEquity: real, startTime: int)
    ensures var s := InitialState(initialEquity, startTime);
      && Bot.Sound(config, s) && ReplaySound(config, s)
      && s.position.None? && s.tradingEnabled && s.currentDirection == LONG
      && s.hourStartTime == startTime && s.dailyStartTime == startTime
      && (forall cooldownMs, t :: CheckCooldownAt(s, cooldownMs, t))
      && (forall trend :: Bot.EntryDirection(|s.trades|, trend, s.currentDirection) == Bot.TrendDirection(trend))
      && var st := Performance.ComputeStats(s.trades, initialEquity, s.currentEquity);
         st.totalTrades == 0 && st.winningTrades == 0 && st.losingTrades == 0 && st.totalPnL == 0.0
  {
  }

  /** The hourly reset at the candle time. */
  function ResetHourlyCountersAt(state: BotState, currentTime: int): (r: BotState)
    ensures r == StateMachine.ResetHourlyCounters(state, currentTime)
  {
    var elapsed := currentTime - state.hourStartTime;
    if elapsed >= 3600000 then state.(tradesThisHour := 0, hourStartTime := currentTime) else state
  }

  /** The daily reset at the candle time. */
  function ResetDailyCountersAt(state: BotState, currentTime: int): (r: BotState)
    ensures r == StateMachine.ResetDailyCounters(state, currentTime)
  {
    var elapsed := currentTime - state.dailyStartTime;
    if elapsed >= 86400000 then state.(dailyStartEquity := state.currentEquity, dailyStartTime := currentTime) else state
  }

  /** Opens a position with the given leverage, stamped with the wall clock, and counts it in the hour. */
  function OpenPosition(config: Config, state: BotState, price: real, direction: Direction, leverage: real, wallClock: int): (r: BotState)
    requires price > 0.0
    ensures leverage == config.maxLeverage ==>
      r.position == Some(Bot.OpenedPosition(config, state.currentEquity, price, direction, wallClock))
    ensures r.position.Some? && r.position.value.leverage == leverage && r.position.value.entryPrice == price
    ensures r.tradesThisHour == state.tradesThisHour + 1
    ensures r.(position := state.position, tradesThisHour := state.tradesThisHour) == state
  {
    var sizing := Strategy.CalculatePositionSize(state.currentEquity, config.marginPct, leverage, price);
    var targets := Strategy.CalculateTPSL(direction, price, config.tpBps, config.slBps);
    state.(position := Some(Position(direction, price, sizing.size, sizing.margin, leverage,
                                     targets.tpPrice, targets.slPrice, wallClock)),
           tradesThisHour := state.tradesThisHour + 1)
  }

  /**
   * Closes the open position and returns the recorded trade: PnL booked, the
   * trade appended, the streaks updated. Unlike the bot's close it leaves
   * `lastTradeTime` to the caller.
   */
  function ClosePosition(state: BotState, price: real, feeBps: real, hitTp: bool, hitSl: bool, wallClock: int): (r: (BotState, Trade))
    requires state.position.Some?
    ensures r.1 == Bot.ClosedTrade(state.position.value, price, feeBps, hitTp, hitSl, wallClock)
    ensures r.0.trades == state.trades + [r.1] && r.0.currentEquity == state.currentEquity + r.1.pnl
    ensures r.0.position == None
    ensures hitTp ==> r.0.consecLosses == 0 && r.0.consecErrors == 0
    ensures !hitTp && hitSl ==> r.0.consecLosses == state.consecLosses + 1 && r.0.consecErrors == state.consecErrors
    ensures !hitTp && !hitSl ==> r.0.consecLosses == state.consecLosses && r.0.consecErrors == state.consecErrors
    ensures r.0.(trades := state.trades, currentEquity := state.currentEquity, consecLosses := state.consecLosses,
                 consecErrors := state.consecErrors, position := state.position) == state
  {
    var position := state.position.value;
    var p := Strategy.CalculatePnL(position, price, feeBps);
    var trade := Trade(position.direction, position.entryPrice, price, position.size, p.pnl, p.pnlPct, hitTp, hitSl, wallClock);
    var s := state.(currentEquity := state.currentEquity + p.pnl, trades := state.trades + [trade]);
    var s' := if hitTp then s.(consecLosses := 0, consecErrors := 0)
              else if hitSl then s.(consecLosses := s.consecLosses + 1)
              else s;
    (s'.(position := None), trade)
  }

  /**
   * The replay's trim: `splice(0, length - maxCandles)` once longer than
   * `maxCandles`. It keeps the newest candles; for a capacity of zero it
   * empties the window, where the bot's `slice(-0)` keeps it whole.
   */
  function SpliceFront(window: seq<Candle>, maxCandles: nat): (r: seq<Candle>)
    ensures |r| == if |window| > maxCandles then maxCandles else |window|
    ensures r == window[|window| - |r|..]
    ensures maxCandles > 0 ==> r == Bot.KeepNewest(window, maxCandles)
  {
    if |window| > maxCandles then window[|window| - maxCandles..] else window
  }


  // ---------------------------------------------------------------------------
  // The input of the replay and its price window.

  /**
   * One element of the history as the loop body meets it: the candle, the
   * wall-clock time read while it is processed (it stamps positions and
   * trades), and whether the body throws on it.
   */
  datatype Bar = Bar(candle: Candle, wallClock: int, fault: bool)

  /** What the replay needs of its input: every price is positive. */
  ghost predicate Inputs(bars: seq<Bar>) {
    forall k :: 0 <= k < |bars| ==> bars[k].candle.price > 0.0
  }

  /** The bars after the first meet the same demand. */
  lemma InputsTail(bars: seq<Bar>)
    requires Inputs(bars) && bars != []
    ensures Inputs(bars[1..]) && bars[0].candle.price > 0.0
  {
    forall k | 0 <= k < |bars[1..]| ensures bars[1..][k].candle.price > 0.0 {
      assert bars[1..][k] == bars[k + 1];
    }
  }

  /**
   * The window after one bar: the candle pushed and the front trimmed, unless
   * the body throws first. It does not depend on the session state.
   */
  function NextWindow(config: Config, window: seq<Candle>, bar: Bar): seq<Candle> {
    if bar.fault then window else SpliceFront(window + [bar.candle], config.MaxCandles())
  }

  /** The window keeps within `maxCandles` and, after a bar whose body ran, ends with its candle. */
  lemma NextWindowBounded(config: Config, window: seq<Candle>, bar: Bar)
    requires config.HasPeriods() && |window| <= config.MaxCandles()
    ensures |NextWindow(config, window, bar)| <= config.MaxCandles()
    ensures !bar.fault ==>
      var w := NextWindow(config, window, bar);
      |w| > 0 && w[|w| - 1] == bar.candle && w[..|w| - 1] == Bot.KeepNewest(window, config.MaxCandles() - 1)
  {
    if !bar.fault {
      var w := NextWindow(config, window, bar);
      assert w[..|w| - 1] == Bot.KeepNewest(window, config.MaxCandles() - 1);
    }
  }

  /**
   * The trend the loop body computes at each bar, starting from `window`:
   * the indicator over the window that includes the bar's candle.
   */
  function TrendsFrom(config: Config, window: seq<Candle>, bars: seq<Bar>): (ts: seq<Trend>)
    requires config.HasPeriods()
    ensures |ts| == |bars|
    decreases |bars|
  {
    if bars == [] then []
    else
      var w := NextWindow(config, window, bars[0]);
      [WindowTrend(w, config)] + TrendsFrom(config, w, bars[1..])
  }

  /** The trends seen from the second bar on are those of the window after the first. */
  lemma TrendsFromStep(config: Config, window: seq<Candle>, bars: seq<Bar>)
    requires config.HasPeriods() && bars != []
    ensures var w := NextWindow(config, window, bars[0]);
      && TrendsFrom(config, window, bars)[0] == WindowTrend(w, config)
      && TrendsFrom(config, window, bars)[1..] == TrendsFrom(config, w, bars[1..])
  {
    var w := NextWindow(config, window, bars[0]);
    assert TrendsFrom(config, window, bars) == [WindowTrend(w, config)] + TrendsFrom(config, w, bars[1..]);
  }

  // ---------------------------------------------------------------------------
  // One candle of the replay, and the replay of a history.

  /** Where the replay stands after a candle: still running, or stopped by the error path. */
  datatype Run = Running(state: BotState) | Stopped(state: BotState)

  /** Both resets at the candle time, as at the end of the loop body. */
  function RollAt(state: BotState, t: int): BotState {
    ResetDailyCountersAt(ResetHourlyCountersAt(state, t), t)
  }

  /** The open position checked at the candle price: on any hit it closes, flips after a stop-loss, and stamps the candle time. */
  function ManageAt(config: Config, s: BotState, candle: Candle, wallClock: int): BotState
    requires s.position.Some?
  {
    var h := Strategy.CheckTPSL(s.position.value, candle.price);
    if h.hitTp || h.hitSl then
      var c := ClosePosition(s, candle.price, config.feeBps, h.hitTp, h.hitSl, wallClock).0;
      var f := if h.hitSl then c.(currentDirection := Strategy.FlipDirection(c.currentDirection)) else c;
      f.(lastTradeTime := Some(candle.timestamp))
    else s
  }

  /** The error path: the error counted; a firing kill switch disables trading, overwriting any earlier reason, and stops the replay. */
  function FaultAt(config: Config, s: BotState): Run {
    var e := s.(consecErrors := s.consecErrors + 1);
    var ks := KillSwitch.CheckKillSwitch(e, config);
    if ks.triggered then Stopped(e.(tradingEnabled := false, killSwitchReason := ks.reason))
    else Running(e)
  }

  /** The flat branch at candle time `t`: a cooldown or kill-switch skip ends the body before the resets. */
  function EntryAt(config: Config, s: BotState, t: int, price: real, trend: Trend, wallClock: int): BotState
    requires price > 0.0
  {
    if !CheckCooldownAt(s, StateMachine.CooldownMs(config), t) then s
    else
      var ks := KillSwitch.CheckKillSwitch(s, config);
      if ks.triggered then s.(tradingEnabled := false, killSwitchReason := ks.reason)
      else
        var direction := Bot.EntryDirection(|s.trades|, trend, s.currentDirection);
        var o := OpenPosition(config, s, price, direction, config.maxLeverage, wallClock);
        RollAt(o.(lastTradeTime := Some(t)), t)
  }

  /** The loop body once the trend of the trimmed window is known. */
  function CandleAt(config: Config, s: BotState, candle: Candle, trend: Trend, wallClock: int): BotState
    requires candle.price > 0.0
  {
    if s.position.Some? then RollAt(ManageAt(config, s, candle, wallClock), candle.timestamp)
    else if s.tradingEnabled && trend != NEUTRAL then EntryAt(config, s, candle.timestamp, candle.price, trend, wallClock)
    else RollAt(s, candle.timestamp)
  }

  /**
   * One pass of the loop body with the trend it computes. A fault stands for
   * an exception thrown before the body has any effect and takes the error path.
   */
  function ProcessCandle(config: Config, s: BotState, candle: Candle, trend: Trend, wallClock: int, fault: bool): Run
    requires candle.price > 0.0
  {
    if fault then FaultAt(config, s) else Running(CandleAt(config, s, candle, trend, wallClock))
  }

  /**
   * The replay of `bars`, standing at `run`: a stopped replay takes no further
   * bar; otherwise the first bar is processed with `trends[0]`, the trend seen
   * at it, and the replay goes on with the rest.
   */
  ghost function ReplayFrom(config: Config, run: Run, bars: seq<Bar>, trends: seq<Trend>): Run
    requires Inputs(bars) && |trends| == |bars|
    decreases |bars|
  {
    if bars == [] || run.Stopped? then run
    else
      InputsTail(bars);
      var next := ProcessCandle(config, run.state, bars[0].candle, trends[0], bars[0].wallClock, bars[0].fault);
      ReplayFrom(config, next, bars[1..], trends[1..])
  }

  /**
   * The whole replay: from the initial state stamped with the first candle's
   * time and an empty window, each bar seen with the trend its window gives.
   */
  ghost function Replay(config: Config, bars: seq<Bar>, initialEquity: real): Run
    requires config.HasPeriods() && Inputs(bars) && bars != []
  {
    ReplayFrom(config, Running(InitialState(initialEquity, bars[0].candle.timestamp)), bars, TrendsFrom(config, [], bars))
  }

  // ---------------------------------------------------------------------------
  // What the replay keeps and where it departs from the bot.

  /**
   * The replay's invariant on the session record: as the bot's, except that a
   * recorded trade has at least one outcome (it may have both).
   */
  ghost predicate ReplaySound(config: Config, s: BotState) {
    && (s.tradingEnabled <==> s.killSwitchReason.None?)
    && (s.position.Some? ==> Bot.PositionFits(s.position.value, config))
    && s.currentEquity == s.initialEquity + Performance.TotalPnl(s.trades)
    && Performance.SomeOutcomeEach(s.trades)
  }

  /** Closing on any hit keeps the replay's invariant. */
  lemma ManageAtKeepsSound(config: Config, s: BotState, candle: Candle, wallClock: int)
    requires ReplaySound(config, s) && s.position.Some?
    ensures ReplaySound(config, ManageAt(config, s, candle, wallClock))
  {
    var h := Strategy.CheckTPSL(s.position.value, candle.price);
    if h.hitTp || h.hitSl {
      var r := ClosePosition(s, candle.price, config.feeBps, h.hitTp, h.hitSl, wallClock);
      Performance.AppendTrade(s.trades, r.1);
      var ts := s.trades + [r.1];
      forall k | 0 <= k < |ts| ensures ts[k].hitTp || ts[k].hitSl {
        if k < |s.trades| { assert ts[k] == s.trades[k]; }
      }
    }
  }

  /** A candle keeps the invariant and the starting equity, whatever the trend. */
  lemma ProcessCandleKeepsSound(config: Config, s: BotState, candle: Candle, trend: Trend, wallClock: int, fault: bool)
    requires candle.price > 0.0 && ReplaySound(config, s)
    ensures ReplaySound(config, ProcessCandle(config, s, candle, trend, wallClock, fault).state)
    ensures ProcessCandle(config, s, candle, trend, wallClock, fault).state.initialEquity == s.initialEquity
  {
    if !fault && s.position.Some? {
      ManageAtKeepsSound(config, s, candle, wallClock);
    }
  }

  /**
   * The rest of the replay keeps the invariant and the starting equity, and
   * it stops only with trading disabled, whatever trends it is shown.
   */
  lemma {:induction false} ReplayFromKeepsSound(config: Config, run: Run, bars: seq<Bar>, trends: seq<Trend>)
    requires Inputs(bars) && |trends| == |bars|
    requires ReplaySound(config, run.state) && (run.Stopped? ==> !run.state.tradingEnabled)
    ensures var r := ReplayFrom(config, run, bars, trends);
      && ReplaySound(config, r.state)
      && r.state.initialEquity == run.state.initialEquity
      && (r.Stopped? ==> !r.state.tradingEnabled)
    decreases |bars|
  {
    if bars != [] && run.Running? {
      var next := ProcessCandle(config, run.state, bars[0].candle, trends[0], bars[0].wallClock, bars[0].fault);
      ProcessCandleKeepsSound(config, run.state, bars[0].candle, trends[0], bars[0].wallClock, bars[0].fault);
      InputsTail(bars);
      ReplayFromKeepsSound(config, next, bars[1..], trends[1..]);
    }
  }

  /** A running replay processes its first bar and goes on with the rest. */
  lemma ReplayFromStep(config: Config, s: BotState, bars: seq<Bar>, trends: seq<Trend>)
    requires Inputs(bars) && |trends| == |bars| && bars != []
    ensures bars[0].candle.price > 0.0 && Inputs(bars[1..])
    ensures ReplayFrom(config, Running(s), bars, trends)
         == ReplayFrom(config, ProcessCandle(config, s, bars[0].candle, trends[0], bars[0].wallClock, bars[0].fault),
                       bars[1..], trends[1..])
  {
    InputsTail(bars);
  }

  /** Once stopped, the replay takes no further bar. */
  lemma StoppedStays(config: Config, s: BotState, bars: seq<Bar>, trends: seq<Trend>)
    requires Inputs(bars) && |trends| == |bars|
    ensures ReplayFrom(config, Stopped(s), bars, trends) == Stopped(s)
  {
  }

  /**
   * The summary of any replay from a fresh session, whatever trends it is
   * shown (`Replay` is the one shown the indicator's trends): wins and losses
   * cover every trade, the PnL is the trades' total, and a replay stopped
   * early has trading disabled.
   */
  lemma ReplaySummary(config: Config, bars: seq<Bar>, trends: seq<Trend>, initialEquity: real, startTime: int)
    requires Inputs(bars) && |trends| == |bars|
    ensures var r := ReplayFrom(config, Running(InitialState(initialEquity, startTime)), bars, trends);
            var st := Performance.ComputeStats(r.state.trades, r.state.initialEquity, r.state.currentEquity);
      && st.totalTrades == |r.state.trades|
      && st.winningTrades + st.losingTrades >= st.totalTrades
      && st.totalPnL == Performance.TotalPnl(r.state.trades)
      && r.state.initialEquity == initialEquity
      && (r.Stopped? ==> !r.state.tradingEnabled && r.state.killSwitchReason.Some?)
  {
    ReplayFromKeepsSound(config, Running(InitialState(initialEquity, startTime)), bars, trends);
  }

  /**
   * When both targets are hit at once, the close records a trade with both
   * flags, clears both streaks, still flips the bias and stamps the candle time.
   */
  lemma BothTargetsHit(config: Config, s: BotState, candle: Candle, wallClock: int)
    requires s.position.Some?
    requires var h := Strategy.CheckTPSL(s.position.value, candle.price); h.hitTp && h.hitSl
    ensures var t := ManageAt(config, s, candle, wallClock);
      && t.trades == s.trades + [Bot.ClosedTrade(s.position.value, candle.price, config.feeBps, true, true, wallClock)]
      && t.consecLosses == 0 && t.consecErrors == 0
      && t.currentDirection == Strategy.FlipDirection(s.currentDirection)
      && t.lastTradeTime == Some(candle.timestamp) && t.position == None
  {
  }

  /** A LONG position whose take-profit is not above its stop-loss hits both at a price between them. */
  lemma BothTargetsExample(config: Config, s: BotState, candle: Candle, wallClock: int)
    requires s.position == Some(Position(LONG, 100.0, 1.0, 1.0, 1.0, 99.0, 101.0, 0)) && candle.price == 100.0
    ensures ManageAt(config, s, candle, wallClock).trades[|s.trades|].hitTp
    ensures ManageAt(config, s, candle, wallClock).trades[|s.trades|].hitSl
  {
  }

  /**
   * A candle skipped by the cooldown or the kill switch leaves the windows as
   * they were, however much time has passed; the cooldown skip changes nothing.
   */
  lemma SkipLeavesWindows(config: Config, s: BotState, candle: Candle, trend: Trend, wallClock: int)
    requires candle.price > 0.0
    requires s.position.None? && s.tradingEnabled && trend != NEUTRAL
    requires !CheckCooldownAt(s, StateMachine.CooldownMs(config), candle.timestamp)
          || KillSwitch.CheckKillSwitch(s, config).triggered
    ensures var r := ProcessCandle(config, s, candle, trend, wallClock, false);
      && r.state.tradesThisHour == s.tradesThisHour && r.state.hourStartTime == s.hourStartTime
      && r.state.dailyStartEquity == s.dailyStartEquity && r.state.dailyStartTime == s.dailyStartTime
      && r.state.position.None? && r.Running?
    ensures !CheckCooldownAt(s, StateMachine.CooldownMs(config), candle.timestamp) ==>
      ProcessCandle(config, s, candle, trend, wallClock, false) == Running(s)
  {
  }

  /**
   * On the entry path, a guard that fires turns trading off and records its
   * reason, and nothing else changes; the replay goes on.
   */
  lemma EntryKillDisables(config: Config, s: BotState, candle: Candle, trend: Trend, wallClock: int)
    requires candle.price > 0.0 && s.position.None? && s.tradingEnabled && trend != NEUTRAL
    requires CheckCooldownAt(s, StateMachine.CooldownMs(config), candle.timestamp)
    requires KillSwitch.CheckKillSwitch(s, config).triggered
    ensures ProcessCandle(config, s, candle, trend, wallClock, false)
         == Running(s.(tradingEnabled := false, killSwitchReason := KillSwitch.CheckKillSwitch(s, config).reason))
  {
  }

  /**
   * The error path counts the error and, when the kill switch then fires,
   * stops the replay with trading off and the new reason, replacing any
   * earlier one; otherwise the replay goes on from the counted state.
   */
  lemma FaultPath(config: Config, s: BotState, candle: Candle, trend: Trend, wallClock: int)
    requires candle.price > 0.0
    ensures var r := ProcessCandle(config, s, candle, trend, wallClock, true);
            var ks := KillSwitch.CheckKillSwitch(s.(consecErrors := s.consecErrors + 1), config);
      && r.state.consecErrors == s.consecErrors + 1
      && (ks.triggered <==> r.Stopped?)
      && (ks.triggered ==> !r.state.tradingEnabled && r.state.killSwitchReason == ks.reason)
      && (!ks.triggered ==> r == Running(s.(consecErrors := s.consecErrors + 1)))
  {
  }

  /** The replay and the bot trim a window alike whenever the capacity is positive, as it is for any periods. */
  lemma TrimsAgree(config: Config, window: seq<Candle>)
    requires config.HasPeriods()
    ensures SpliceFront(window, config.MaxCandles()) == Bot.KeepNewest(window, config.MaxCandles())
  {
  }

  // ---------------------------------------------------------------------------
  // The replay loop.

  /**
   * The part of the loop body after the trend is known: manage the open
   * position, or else try an entry, then roll the windows; a cooldown or
   * kill-switch skip returns before the roll, as the loop's `continue` does.
   */
  method TradeCandle(config: Config, state: BotState, candle: Candle, trend: Trend, wall: int, cooldownMs: int)
    returns (s: BotState)
    requires candle.price > 0.0 && cooldownMs == StateMachine.CooldownMs(config)
    ensures s == CandleAt(config, state, candle, trend, wall)
  {
    s := state;
    if s.position.Some? {
      var hits := Strategy.CheckTPSL(s.position.value, candle.price);
      if hits.hitTp || hits.hitSl {
        var closed := ClosePosition(s, candle.price, config.feeBps, hits.hitTp, hits.hitSl, wall);
        s := closed.0;
        if hits.hitSl {
          s := s.(currentDirection := Strategy.FlipDirection(s.currentDirection));
        }
        s := s.(lastTradeTime := Some(candle.timestamp));
      }
    } else if s.tradingEnabled && trend != NEUTRAL {
      if !CheckCooldownAt(s, cooldownMs, candle.timestamp) {
        return;
      }
      var killSwitch := KillSwitch.CheckKillSwitch(s, config);
      if killSwitch.triggered {
        s := s.(tradingEnabled := false);
        s := s.(killSwitchReason := killSwitch.reason);
        return;
      }
      var direction := if |s.trades| == 0 then (if trend == UP then LONG else SHORT) else s.currentDirection;
      s := OpenPosition(config, s, candle.price, direction, config.maxLeverage, wall);
      s := s.(lastTradeTime := Some(candle.timestamp));
    }
    s := ResetHourlyCountersAt(s, candle.timestamp);
    s := ResetDailyCountersAt(s, candle.timestamp);
  }

  /**
   * One pass of the loop body: on a fault the error path, otherwise the
   * candle pushed and the front trimmed, both averages and the trend computed,
   * and the rest of the body run. `stopped` tells the loop to break.
   */
  method ReplayCandle(config: Config, state: BotState, window: seq<Candle>, bar: Bar)
    returns (s: BotState, w: seq<Candle>, stopped: bool)
    requires config.HasPeriods() && bar.candle.price > 0.0
    ensures w == NextWindow(config, window, bar)
    ensures var run := ProcessCandle(config, state, bar.candle, WindowTrend(w, config), bar.wallClock, bar.fault);
      s == run.state && (stopped <==> run.Stopped?)
  {
    s, w := state, window;
    if bar.fault {
      s := s.(consecErrors := s.consecErrors + 1);
      var killSwitch := KillSwitch.CheckKillSwitch(s, config);
      if killSwitch.triggered {
        s := s.(tradingEnabled := false);
        s := s.(killSwitchReason := killSwitch.reason);
        return s, w, true;
      }
      return s, w, false;
    }
    var candle := bar.candle;
    var maxCandles := config.MaxCandles();
    w := w + [candle];
    if |w| > maxCandles {
      w := w[|w| - maxCandles..];
    }
    var emaFast := CalculateEMA(w, config.emaFast);
    var emaSlow := CalculateEMA(w, config.emaSlow);
    var trend := DetermineTrend(emaFast, emaSlow);
    var cooldownMs := if config.mode == Live then config.cooldownMsLive else config.cooldownMsPaper;
    s := TradeCandle(config, s, candle, trend, bar.wallClock, cooldownMs);
    stopped := false;
  }

  /**
   * Replays `bars` from `initialEquity`, one loop pass per bar, breaking out
   * when the error path fires the kill switch. An empty history is an error.
   */
  method RunBacktest(config: Config, bars: seq<Bar>, initialEquity: real) returns (r: Result<BotState, string>)
    requires config.HasPeriods() && Inputs(bars)
    ensures bars == [] <==> r.Failure?
    ensures r.Success? ==> r.value == Replay(config, bars, initialEquity).state
  {
    if |bars| == 0 {
      return Failure("No historical data available for backtest");
    }
    ghost var final := Replay(config, bars, initialEquity);
    var state := InitialState(initialEquity, bars[0].candle.timestamp);
    var priceWindow: seq<Candle> := [];
    var rest := bars;
    while rest != []
      invariant Inputs(rest)
      invariant ReplayFrom(config, Running(state), rest, TrendsFrom(config, priceWindow, rest)) == final
    {
      var bar := rest[0];
      ghost var w := NextWindow(config, priceWindow, bar);
      ghost var next := ProcessCandle(config, state, bar.candle, WindowTrend(w, config), bar.wallClock, bar.fault);
      TrendsFromStep(config, priceWindow, rest);
      ReplayFromStep(config, state, rest, TrendsFrom(config, priceWindow, rest));
      var stopped;
      state, priceWindow, stopped := ReplayCandle(config, state, priceWindow, bar);
      if stopped {
        assert next == Stopped(state);
        break;
      }
      assert next == Running(state);
      rest := rest[1..];
    }
    return Success(state);
  }
}
