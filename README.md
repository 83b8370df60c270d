# Scalping bot decision engine in Dafny

This project models the decision and risk engine of a single-instrument EMA
scalping bot. The bot's state machine alternates between FLAT and IN_POSITION.
On each tick (live) or each historical candle (backtest) it does four things:

1. It appends the price to a bounded candle window.
2. It classifies the trend from a fast and a slow exponential moving average.
3. If a position is open, it manages it: take-profit, or stop-loss with the
   bias flipped (flip-on-loss).
4. If flat, it considers a new entry. The entry is gated by a cooldown and by
   a kill switch with four guards.

It then rolls its hourly and daily counters.

The modules follow the program's files:

| module | file | what it holds |
|---|---|---|
| `Numbers` | cross-cutting | the JavaScript division results a zero divisor produces (±Infinity, NaN) and how they compare |
| `Types` | `src/types.ts` | the records: `Config`, `Position`, `Trade`, `Candle`, `BotState` |
| `Ema` | `src/indicators/ema.ts` | the indicator (a recursive specification plus the two-loop method) and `DetermineTrend` |
| `Strategy` | `src/strategy/strategy.ts` | target prices, sizing, PnL net of fees, the TP/SL test, the direction flip |
| `KillSwitch` | `src/risk/killSwitch.ts` | the four guards in priority order |
| `StateMachine` | `src/state/stateMachine.ts` | the cooldown gate and the hourly and daily window resets |
| `Trading` | `src/trading.ts` | the second copy of these functions, each proved equal to the first |
| `Performance` | `src/bot.ts`, `src/backtest.ts` | win and loss counts, total PnL, the reported statistics |
| `Bot` | `src/bot.ts` | the class `RaydiumScalpingBot`, proved against value-level transition functions |
| `Backtest` | `src/backtest.ts` | `intervalToSeconds`, the replay loop of `runBacktest` and its helpers |

How the model is shaped:

- The session record `BotState` is a value. The bot class holds it in
  `var state`, and every method states its new `state` as a transition
  function of the old one (`AfterOpen`, `AfterClose`, `AfterManage`,
  `AfterConsider`, `AfterTick`, `AfterFault`). The invariant `Bot.Sound`
  covers four facts:
  - trading is off exactly when a reason is recorded;
  - an open position's targets come from its entry price;
  - the equity is the initial equity plus the realised PnL;
  - every trade has exactly one outcome.
- Clock and price are parameters. Each tick takes one `now` and one
  `price`. With the modelled natural-number periods, the run loop's only
  failure is a price that cannot be fetched, which is `Step(None, now)`.
- The backtest input is a sequence of `Bar`s. Each bar holds:
  - the candle;
  - the wall-clock time that stamps positions and trades (`new Date()` in
    the source);
  - whether the loop body throws on it.
- `Backtest.Replay` is the specification of the whole loop.
  `Backtest.RunBacktest` is proved to compute it.

## Model

| member | source | states |
|---|---|---|
| `Numbers.Divide` | src/risk/killSwitch.ts:20-22 | a quotient is finite exactly when the divisor is non-zero, and then multiplies back to the dividend |
| `Numbers.Scale` | src/risk/killSwitch.ts:20-22 | scaling a percentage keeps it finite exactly when it was finite, multiplies a finite value, and leaves an infinity or NaN as it was |
| `Numbers.DivideByZero` | src/risk/killSwitch.ts:20-23 | a zero daily baseline gives +Infinity for a loss, -Infinity for a gain and NaN for no change, and only the loss passes a `>= 0` threshold |
| `Types.InitialState` | src/backtest.ts:98-115 | a new session is flat with no trades and a LONG bias, all three equities equal the initial equity, the three counters are 0, both windows start at the start time, there is no last trade, trading is on and there is no reason |
| `Types.Config.MaxCandles` | src/bot.ts:102 | the window capacity is exactly twice the longer EMA period: at least twice each period and equal to twice one of them |
| `Ema.Multiplier` | src/indicators/ema.ts:15 | the smoothing factor lies in (0, 1] for every period of at least one |
| `Ema.Ema` | src/indicators/ema.ts:9-12 | the indicator has no value exactly when the window holds fewer candles than the period |
| `Ema.CalculateEMA` | src/indicators/ema.ts:9-30 | the two loops (seed sum, then the recurrence from index `period` on, in order) compute the recursive specification `Ema` |
| `Ema.ExactWindowIsAverage` | src/indicators/ema.ts:18-22 | a window of exactly `period` candles yields the simple average of their prices |
| `Ema.PrefixSumBounds` | src/indicators/ema.ts:18-21 | the seed sum of `n` prices that lie in [lo, hi] lies in [n·lo, n·hi] |
| `Ema.SmoothBounds` | src/indicators/ema.ts:26 | one step of the recurrence between two values in [lo, hi] stays in [lo, hi] |
| `Ema.SeedBounds` | src/indicators/ema.ts:18-22 | the seed average lies within the range of the seed prices |
| `Ema.EmaAtBounds` | src/indicators/ema.ts:15-27 | every intermediate average lies within the range of the prices consumed so far |
| `Ema.EmaWithinPriceRange` | src/indicators/ema.ts:15-29 | the indicator never leaves the range of the window's prices |
| `Ema.RisingEmaAboveSeed` | src/indicators/ema.ts:25-27 | on strictly rising prices every recurrence step after the seed stays strictly above the seed average |
| `Ema.RisingWindowEmaExceedsAverage` | src/indicators/ema.ts:18-29 | on a strictly rising window longer than the period the indicator exceeds the seed average |
| `Ema.DetermineTrend` | src/indicators/ema.ts:38-53 | UP iff both averages exist and fast > slow, DOWN iff both exist and fast < slow, NEUTRAL iff one is missing or they are equal |
| `Ema.TrendAntisymmetric` | src/indicators/ema.ts:46-52 | swapping the averages turns UP into DOWN and back and keeps NEUTRAL |
| `Ema.ShortWindowIsNeutral` | src/indicators/ema.ts:10-12 | a window shorter than either period has no trend |
| `Strategy.CalculateTPSL` | src/strategy/strategy.ts:6-23 | the take-profit differs from the entry by `tpBps` of it in the position's favour and the stop-loss by `slBps` of it against the position |
| `Strategy.TargetOffsets` | src/strategy/strategy.ts:6-23 | the take-profit lies `tpBps` beyond the entry in the position's favour, and the stop-loss lies `slBps` against it |
| `Strategy.TargetsBracketEntry` | src/strategy/strategy.ts:12-22 | for a positive entry and non-negative offsets, LONG has sl ≤ entry ≤ tp and SHORT has tp ≤ entry ≤ sl |
| `Strategy.ShortTargetsMirrorLong` | src/strategy/strategy.ts:17-22 | SHORT targets equal the LONG targets with the two offsets exchanged |
| `Strategy.TargetsExample` | src/strategy/strategy.ts:12-22 | entry 100 with 10 bps each way gives LONG (100.1, 99.9) and SHORT (99.9, 100.1) |
| `Strategy.CalculatePositionSize` | src/strategy/strategy.ts:28-39 | the margin is `marginPct` percent of equity, and `size · price` equals margin times leverage |
| `Strategy.SizingRelations` | src/strategy/strategy.ts:34-36 | margin is `marginPct` percent of equity, and `size · price` is margin times leverage |
| `Strategy.SizingExample` | src/strategy/strategy.ts:34-38 | equity 10000, 2 % margin, 50× leverage at price 100 gives margin 200 and size 100 |
| `Strategy.CalculatePnL` | src/strategy/strategy.ts:44-68 | the PnL is the favourable price move times size less the fees on both legs; the percentage is finite exactly when the margin is non-zero, and then `pnlPct · margin == pnl · 100` |
| `Strategy.PnlRelations` | src/strategy/strategy.ts:49-67 | the PnL is the favourable move times size less the fees on both legs; the percentage is finite exactly when the margin is non-zero, and then `pnlPct · margin == pnl · 100` |
| `Strategy.OppositePnlsCancel` | src/strategy/strategy.ts:52-63 | at the same exit, LONG PnL plus SHORT PnL is minus twice the round-trip fees |
| `Strategy.PnlExample` | src/strategy/strategy.ts:49-67 | a LONG position with entry 100, size 10 and margin 200, closed at 100.1 with 2.5 bps fees nets 0.5, or 0.25 % of margin, and the SHORT mirror also nets 0.5 |
| `Strategy.CheckTPSL` | src/strategy/strategy.ts:73-88 | LONG hits take-profit iff price ≥ tp and stop-loss iff price ≤ sl; SHORT inverts both comparisons |
| `Strategy.ShortHitsMirrorLong` | src/strategy/strategy.ts:77-87 | a SHORT test is the LONG test on negated prices |
| `Strategy.AtMostOneHit` | src/strategy/strategy.ts:77-87 | when the stop lies on the losing side of the target, at most one flag is set |
| `Strategy.TargetsFromEntryExclusive` | src/strategy/strategy.ts:12-22 | a position whose targets were set from a positive entry with a positive total offset never hits both levels at once |
| `Strategy.TakeProfitNetsTarget` | src/strategy/strategy.ts:49-67 | closing at a take-profit nets at least the TP offset's worth minus the round-trip fees |
| `Strategy.StopLossLosesTarget` | src/strategy/strategy.ts:49-67 | closing at a stop-loss loses at least the SL offset's worth plus the round-trip fees |
| `Strategy.FlipDirection` | src/strategy/strategy.ts:93-95 | the flip never returns its input |
| `Strategy.FlipInvolution` | src/strategy/strategy.ts:93-95 | flipping twice restores the direction |
| `KillSwitch.ReasonFor` | src/risk/killSwitch.ts:23-52 | the reason reported for a guard names that guard |
| `KillSwitch.CheckKillSwitch` | src/risk/killSwitch.ts:15-55 | the check triggers iff a reason is given, iff some guard is breached; the reported guard is breached, its reason carries the measured value and the limit, and no guard of higher priority is breached |
| `KillSwitch.NoBreachNoTrigger` | src/risk/killSwitch.ts:54 | no breach gives `{triggered: false, reason: null}` |
| `KillSwitch.DailyLossFirst` | src/risk/killSwitch.ts:20-28 | the reason is the daily loss exactly when its percentage reaches the limit, whatever else is breached |
| `KillSwitch.DailyLossPctFinite` | src/risk/killSwitch.ts:20-23 | with a non-zero daily baseline the guard is the inclusive percentage comparison `(start − current)/start·100 ≥ max` |
| `KillSwitch.ThresholdsInclusive` | src/risk/killSwitch.ts:31-52 | a count equal to its limit fires that guard when no guard of higher priority is breached |
| `KillSwitch.DailyLossExample` | src/risk/killSwitch.ts:20-28 | a day that starts at 10000 and stands at 9890 is a 1.1 % loss, which fires a 1 % limit |
| `StateMachine.CheckCooldown` | src/state/stateMachine.ts:7-20 | the gate is open with no prior trade, and otherwise exactly when the mode's cooldown (live, or paper for quote and paper) has elapsed |
| `StateMachine.CooldownMonotone` | src/state/stateMachine.ts:17-19 | once the cooldown has elapsed it stays elapsed as time goes on |
| `StateMachine.CooldownExample` | src/state/stateMachine.ts:17-19 | a 200 ms paper cooldown blocks 100 ms after a trade and allows 300 ms after it |
| `StateMachine.Roll` | src/state/stateMachine.ts:29-33 | a window restarts at `now` with the renewed value iff its length has elapsed, and is unchanged otherwise |
| `StateMachine.RollIdempotent` | src/state/stateMachine.ts:29-33 | rolling twice at the same instant is rolling once |
| `StateMachine.RollNoEarlyReset` | src/state/stateMachine.ts:29-33 | a window never restarts early, and its start never moves before its old start or past `now` |
| `StateMachine.ResetHourlyCounters` | src/state/stateMachine.ts:25-34 | the trade count and hour start follow the hourly window, and no other field changes |
| `StateMachine.ResetDailyCounters` | src/state/stateMachine.ts:39-48 | the equity baseline is re-based to the current equity once a day has elapsed, and no other field changes |
| `StateMachine.ResetsIdempotent` | src/state/stateMachine.ts:29-47 | repeating a reset at the same instant changes nothing more |
| `StateMachine.WindowExamples` | src/state/stateMachine.ts:29-47 | just over an hour resets 50 trades, half an hour keeps them, and just over a day re-bases 10000 to 10500 |
| `Trading.CalculateTPSL` | src/trading.ts:7-24 | the second copy gives the same targets as the first |
| `Trading.CalculatePositionSize` | src/trading.ts:29-40 | the second copy gives the same sizing as the first |
| `Trading.CalculatePnL` | src/trading.ts:45-69 | the second copy gives the same PnL and percentage as the first |
| `Trading.CheckTPSL` | src/trading.ts:74-89 | the second copy gives the same hit flags as the first |
| `Trading.FlipDirection` | src/trading.ts:94-96 | the second copy flips as the first does |
| `Trading.CheckKillSwitch` | src/trading.ts:101-141 | the second copy gives the same result and reason as the first |
| `Trading.CheckCooldown` | src/trading.ts:146-159 | the second copy gives the same cooldown answer as the first |
| `Performance.AppendTrade` | src/bot.ts:356-360 | appending a trade adds its PnL to the total and its flags to the counts |
| `Performance.OutcomeCounts` | src/bot.ts:356-358 | each count is at most the number of trades; with exactly one outcome per trade they add up to it, and with at least one they cover it |
| `Performance.ComputeStats` | src/bot.ts:348-371 | the totals count the trades and their outcomes, the win rate is wins/total·100 (0 with no trades) and lies in [0, 100], the PnL is the trades' total when the equity is booked from them, and the PnL percentage is finite exactly when the initial equity is non-zero |
| `Performance.WinRate` | src/bot.ts:359 | the win rate is wins/total·100, and lies between 0 and 100 |
| `Bot.KeepNewest` | src/bot.ts:101-105 | the trimmed window is a suffix of the window, of length `min(length, max)` for a positive capacity |
| `Bot.EntryDirection` | src/bot.ts:173-177 | the first entry follows the trend (UP is LONG, DOWN is SHORT), and every later entry uses the stored bias |
| `Bot.FirstEntryLeavesBias` | src/bot.ts:170-217 | from a session with no trades, a tick that opens takes the trend's side and leaves the bias unchanged; if that position stops out, the bias becomes the flip of the old bias and every later entry takes it, whatever the trend |
| `Bot.OpenedPosition` | src/bot.ts:185-209 | the new position's targets come from its entry price, it carries the configured leverage, its margin is `marginPct` of equity and its notional is margin times leverage |
| `Bot.RecordedTradeKeepsInvariant` | src/bot.ts:230-245 | booking the PnL and appending a one-outcome trade keeps equity equal to the initial equity plus the trades' PnL |
| `Bot.AfterCloseKeepsSound` | src/bot.ts:222-263 | a close with exactly one outcome keeps the engine's invariant |
| `Bot.AfterManageKeepsSound` | src/bot.ts:135-149 | managing the open position keeps the invariant |
| `Bot.AfterTickKeepsSound` | src/bot.ts:93-130 | a tick keeps the invariant whatever the price, the trend and the clock |
| `Bot.AfterFaultKeepsSound` | src/bot.ts:63-74 | a failed tick keeps the invariant |
| `Bot.AtMostOneTradePerTick` | src/bot.ts:115-149 | a tick only extends the history, by at most one trade, and by one exactly when a position was open and a target was hit |
| `Bot.OpensOnlyWhenAllowed` | src/bot.ts:115-180 | a tick opens from flat iff trading is on, there is a trend, the cooldown has elapsed and no guard is breached; the new position fits, is stamped `now`, and is counted unless the hour rolls |
| `Bot.OutcomeSetsBias` | src/bot.ts:135-149 | take-profit wins over stop-loss, keeps the bias and clears both streaks; stop-loss flips the bias and lengthens the loss streak; with no hit nothing changes |
| `Bot.EntryKillDisables` | src/bot.ts:163-167 | when the guard fires on the entry path of a flat, enabled, cooled-down tick with a trend, trading is switched off with the guard's reason, no position is opened and no trade is recorded |
| `Bot.KillSwitchLatches` | src/bot.ts:268-275 | once trading is off, no tick and no failure turns it back on or replaces the first reason, and no position is opened |
| `Bot.FaultDisablesOnBreach` | src/bot.ts:65-74 | a failed tick counts one error, disables trading exactly when the guard check then fires and records its reason, and changes nothing else |
| `Bot.RaydiumScalpingBot.constructor` | src/bot.ts:22-44 | a new bot is flat with an empty history and window, LONG bias, all counters 0, both windows starting at `now`, trading enabled, and it satisfies the invariant |
| `Bot.RaydiumScalpingBot.DisableTrading` | src/bot.ts:268-275 | trading is turned off with the given reason only if it was on, so the first reason is kept |
| `Bot.RaydiumScalpingBot.OpenPosition` | src/bot.ts:185-217 | the state becomes `AfterOpen`: the sized position, `lastTradeTime := now`, one more trade this hour; the invariant is kept |
| `Bot.RaydiumScalpingBot.ClosePosition` | src/bot.ts:222-263 | the state becomes `AfterClose`: PnL booked, one trade appended, streaks updated, flat, `lastTradeTime := now`; the invariant is kept |
| `Bot.RaydiumScalpingBot.ManagePosition` | src/bot.ts:135-149 | the state becomes `AfterManage` (take-profit first, then stop-loss with the flip) |
| `Bot.RaydiumScalpingBot.ConsiderNewTrade` | src/bot.ts:154-180 | the state becomes `AfterConsider` (cooldown gate, then the kill switch, then the open) |
| `Bot.RaydiumScalpingBot.ResetHourlyCounters` | src/bot.ts:306-315 | the state becomes the hourly reset of the old state |
| `Bot.RaydiumScalpingBot.ResetDailyCounters` | src/bot.ts:320-329 | the state becomes the daily reset of the old state |
| `Bot.RaydiumScalpingBot.PushCandle` | src/bot.ts:99-105 | the window becomes the newest `MaxCandles()` candles of the old window plus the new candle |
| `Bot.RaydiumScalpingBot.CurrentTrend` | src/bot.ts:107-110 | the trend is the classifier applied to both indicators of the window, and it is neutral until both periods are filled |
| `Bot.RaydiumScalpingBot.Tick` | src/bot.ts:93-130 | the window is extended and trimmed, and the state becomes `AfterTick` of the trimmed window's trend; the invariant is kept |
| `Bot.RaydiumScalpingBot.Step` | src/bot.ts:62-74 | a fetched price runs a tick; a failed fetch leaves the window and applies `AfterFault` |
| `Bot.RaydiumScalpingBot.GetStats` | src/bot.ts:348-371 | the totals count the history, the winning trades are the take-profits and the losing trades the stop-losses, wins plus losses equal the total, the win rate is wins/total·100 (0 with no trades), the total PnL is the sum of the trades' PnL, and the PnL percentage is total PnL over initial equity times 100, not finite at zero initial equity |
| `Backtest.IntervalToSeconds` | src/backtest.ts:41-55 | there is a value exactly for digits followed by one of s, m, h, d, and it is the amount times 1, 60, 3600 or 86400 |
| `Backtest.IntervalRoundTrip` | src/backtest.ts:41-55 | every rendered amount followed by a unit letter reads back as the amount times the unit's seconds |
| `Backtest.IntervalExamples` | src/backtest.ts:42-54 | `1m`, `15s`, `2h` and `1d` are 60, 15, 7200 and 86400 s; `m`, `15`, `1.5m` and `1w` have no value |
| `Backtest.CheckCooldownAt` | src/backtest.ts:117-127 | the gate is open when no trade has been made, and otherwise exactly when the candle time is at least `cooldownMs` after the last trade |
| `Backtest.CooldownAtAgrees` | src/backtest.ts:117-127 | with the mode's cooldown length the replay's gate is the bot's gate at the candle time |
| `Backtest.InitialStateFresh` | src/backtest.ts:98-115 | a fresh session keeps both invariants, is flat with LONG bias and both windows at the start time, passes every cooldown gate, takes its first side from the trend, and reports zero figures |
| `Backtest.ResetHourlyCountersAt` | src/backtest.ts:129-135 | the replay's hourly reset at the candle time is the bot's hourly reset |
| `Backtest.ResetDailyCountersAt` | src/backtest.ts:137-143 | the replay's daily reset at the candle time is the bot's daily reset |
| `Backtest.OpenPosition` | src/backtest.ts:232-257 | at the configured leverage it opens the bot's position; the trade count grows by one and nothing else changes |
| `Backtest.ClosePosition` | src/backtest.ts:259-289 | it returns the recorded trade and appends it, books its PnL, and goes flat; TP clears both streaks, a lone SL adds a loss, no flag keeps them; every other field, `lastTradeTime` included, is kept |
| `Backtest.SpliceFront` | src/backtest.ts:171-174 | the trimmed window is the newest `min(length, max)` candles, and it is the bot's trim for a positive capacity |
| `Backtest.NextWindowBounded` | src/backtest.ts:171-174 | the window stays within capacity; after a bar whose body ran it ends with that bar's candle, preceded by the newest `max − 1` candles before it |
| `Backtest.ManageAtKeepsSound` | src/backtest.ts:180-194 | a close on any hit keeps the replay's invariant, whose trades have at least one outcome |
| `Backtest.ProcessCandleKeepsSound` | src/backtest.ts:169-226 | one pass of the loop body keeps the replay's invariant and the starting equity |
| `Backtest.ReplayFromKeepsSound` | src/backtest.ts:169-227 | the rest of a replay keeps the invariant and the starting equity, and stops only with trading off |
| `Backtest.StoppedStays` | src/backtest.ts:220-224 | once the loop has broken off, no further candle is processed |
| `Backtest.ReplaySummary` | src/backtest.ts:291-297 | after any replay from a fresh session, the summary counts every trade, wins plus losses cover the total, the PnL is the trades' total, and an early stop has trading off with a reason |
| `Backtest.BothTargetsHit` | src/backtest.ts:180-194 | when both flags are set the close records a trade with both, clears both streaks, still flips the bias and stamps the candle time |
| `Backtest.BothTargetsExample` | src/backtest.ts:181-193 | a LONG position whose take-profit is not above its stop-loss is closed with both flags at a price between them |
| `Backtest.SkipLeavesWindows` | src/backtest.ts:195-204 | a candle skipped by the cooldown or the kill switch leaves both windows untouched however much time has passed, and a cooldown skip changes nothing |
| `Backtest.EntryKillDisables` | src/backtest.ts:199-204 | when the guard fires on the entry path of a flat, enabled, cooled-down candle with a trend, the replay goes on with trading off and the guard's reason set, and nothing else in the session changes |
| `Backtest.FaultPath` | src/backtest.ts:217-226 | the error path counts one error; the replay stops iff the guard check then fires, with trading off and its reason replacing any earlier one, and otherwise goes on from the counted state |
| `Backtest.TrimsAgree` | src/backtest.ts:171-174 | for any valid periods the replay's trim and the bot's trim agree |
| `Backtest.TradeCandle` | src/backtest.ts:180-216 | the part of the loop body after the trend computes `CandleAt` (manage, or gated entry, then both resets, with `continue` skipping the resets) |
| `Backtest.ReplayCandle` | src/backtest.ts:169-226 | one pass of the loop body yields the next window and the state of `ProcessCandle` with the trend of that window, and signals `break` exactly when the replay stops |
| `Backtest.RunBacktest` | src/backtest.ts:145-230 | an empty history is the only error; otherwise the loop's final state is the specified replay `Replay` of the bars |

## Left out

- Price fetching, the exchange adapters, configuration loading,
  `fetchHistoricalPrices`, `parseTimestamp`, logging and the console output of
  `printSummary` are I/O. Prices, clock readings and throw points are
  parameters (`price`, `now`, `Bar`).
- The bot's `start`/`stop` loop with its `sleep` is async timing. `Step` is one
  pass of it, and `running` is not modelled.
- The source reads the clock again inside `openPosition`, `closePosition` and
  the resets. The model uses one `now` per tick, and one candle time plus one
  wall-clock value per backtest candle.
- IEEE-754 rounding: numbers are `real`. Division by zero is modelled
  (`Numbers.Quotient`). Overflow, and NaN arising any other way, is not.
- Reason strings are the tagged `KillReason` carrying the measured value and
  the limit. The `toFixed` formatting is not modelled.
- The thresholds `maxConsecLosses`, `maxTradesPerHour` and
  `maxConsecErrors` are integers, while JavaScript would also accept fractions.
- In-place aliasing: the session record is a value that each operation
  replaces. The bot's `candles` array and the replay's `priceWindow` are
  sequences, not arrays mutated by `push`/`slice`/`splice`.
- A thrown error in the replay loop is taken to happen before the body has
  any effect. For natural-number periods nothing in the body throws on its
  own, so the model supplies a per-candle fault flag.
- The replay specification precomputes the trend at each candle with
  `TrendsFrom`. The window does not depend on the session state, so this is
  the same sequence of trends the loop computes.
- `Bot.RaydiumScalpingBot.Tick`: requires a positive price. The same holds
  for the other members that open a position: `OpenPosition`,
  `ConsiderNewTrade`, `Step`, `Backtest.RunBacktest` and the backtest
  transition functions. The source assumes its caller supplies positive
  prices; at price 0 it would divide by zero in the sizing.
- `Strategy.CalculatePositionSize`: requires a non-zero price. At price 0 the
  source's size is an infinity or NaN; no modelled caller passes 0.
- `Bot.RaydiumScalpingBot.constructor`: requires both EMA periods to be at
  least 1, as do the indicator members (`Ema.Ema`, `Ema.CalculateEMA`) and
  `Backtest.RunBacktest`. With a zero period the first average is `0/0`,
  which is NaN. These members therefore do not model a configuration with a
  zero period.
- `Bot.RaydiumScalpingBot.ClosePosition`: requires exactly one of the two
  flags. This is how `ManagePosition`, its only caller, calls it.
- Code and documented behaviour differ in three places; the model follows
  the code:
  - The documented behaviour has the first trend-driven entry also store its
    side as `currentDirection`. Neither `bot.ts` nor `backtest.ts` does so
    (`Bot.FirstEntryLeavesBias`).
  - The replay's error path overwrites an earlier kill reason
    (`Backtest.FaultPath`).
  - A replay close may carry both outcome flags (`Backtest.BothTargetsHit`).
- A cooldown skip or a kill-switch skip in the replay also skips that
  candle's counter resets (`Backtest.SkipLeavesWindows`).
- The bot's `slice(-0)` and the replay's `splice` differ only at capacity
  zero, and valid periods rule that out (`Backtest.TrimsAgree`).
- `Bot.RaydiumScalpingBot.constructor`: takes `initialEquity` explicitly. The
  source's default of 10000 is not modelled; a caller passes 10000 to get it.
- `Types.Config`: `emaFast` and `emaSlow` are natural numbers. The source
  reads them as arbitrary numbers. A fractional or negative period takes
  other paths in `calculateEMA`: the `length < period` test, the seed loop
  bound and the division by `period`. Such a period also makes
  `candles[i].price` read an element that does not exist, which throws a
  `TypeError`; in the replay the catch would count it as an error. The model
  does not capture those paths.
- `Types.Config`: `cooldownMsPaper` and `cooldownMsLive` are integers, and so
  are the seconds `Backtest.IntervalToSeconds` returns. The source allows any
  number for the cooldowns. The model does not capture fractional
  millisecond cooldowns, nor digit strings too long for an exact
  floating-point value.
