/**
 * The shared data model: trade direction, the immutable configuration record,
 * positions, trades, candles and the session record `BotState`.
 * Prices and money are `real`, timestamps are `int` milliseconds since the epoch.
 */
module Types {
  import opened Wrappers
  import opened Numbers

  datatype Direction = LONG | SHORT

  /** Trading mode: only `Live` changes behaviour in the core (the cooldown length). */
  datatype Mode = Quote | Paper | Live

  /**
   * The configuration fields the engine reads. They are constant for the whole
   * run; the connection, market name and price-source fields are not used here.
   */
  datatype Config = Config(
    mode: Mode,
    maxLeverage: real,
    marginPct: real,
    tpBps: real,
    slBps: real,
    feeBps: real,
    emaFast: nat,
    emaSlow: nat,
    tfSeconds: int,
    cooldownMsPaper: int,
    cooldownMsLive: int,
    maxDailyLossPct: real,
    maxConsecLosses: int,
    maxTradesPerHour: int,
    maxConsecErrors: int)
  {
    /** Both EMA periods are at least one candle (a zero period divides by zero). */
    predicate HasPeriods() {
      emaFast >= 1 && emaSlow >= 1
    }

    /** The candle-window capacity, twice the longer EMA period. */
    function MaxCandles(): (n: nat)
      ensures n >= 2 * emaFast && n >= 2 * emaSlow
      ensures n == 2 * emaFast || n == 2 * emaSlow
    {
      (if emaFast >= emaSlow then emaFast else emaSlow) * 2
    }
  }

  /** An open position; the targets are fixed when it is opened. */
  datatype Position = Position(
    direction: Direction,
    entryPrice: real,
    size: real,
    margin: real,
    leverage: real,
    tpPrice: real,
    slPrice: real,
    openedAt: int)

  /** A closed position, appended once to the trade history on close. */
  datatype Trade = Trade(
    direction: Direction,
    entryPrice: real,
    exitPrice: real,
    size: real,
    pnl: real,
    pnlPct: Quotient,
    hitTp: bool,
    hitSl: bool,
    timestamp: int)

  datatype Candle = Candle(timestamp: int, price: real)

  /**
   * Why the kill switch fired: the guard, the measured value and the
   * configured threshold, in place of the formatted reason string.
   */
  datatype KillReason =
    | DailyLoss(lossPct: Quotient, limitPct: real)
    | ConsecutiveLosses(losses: nat, limit: int)
    | ConsecutiveErrors(errors: nat, limit: int)
    | TradesThisHour(trades: nat, limit: int)

  /**
   * The session record. The bot holds one and the backtest loop another; each
   * replaces it by an updated copy where the source assigns its fields.
   */
  datatype BotState = BotState(
    position: Option<Position>,
    trades: seq<Trade>,
    currentDirection: Direction,
    initialEquity: real,
    currentEquity: real,
    dailyStartEquity: real,
    dailyStartTime: int,
    consecLosses: nat,
    consecErrors: nat,
    tradesThisHour: nat,
    hourStartTime: int,
    lastTradeTime: Option<int>,
    tradingEnabled: bool,
    killSwitchReason: Option<KillReason>)

  /** The state a session starts from: flat, LONG bias, both windows opening at `startTime`, trading enabled. */
  function InitialState(equity: real, startTime: int): (s: BotState)
    ensures s.position.None? && s.trades == [] && s.currentDirection == LONG
    ensures s.initialEquity == equity && s.currentEquity == equity && s.dailyStartEquity == equity
    ensures s.consecLosses == 0 && s.consecErrors == 0 && s.tradesThisHour == 0
    ensures s.dailyStartTime == startTime && s.hourStartTime == startTime
    ensures s.lastTradeTime.None? && s.tradingEnabled && s.killSwitchReason.None?
  {
    BotState(None, [], LONG, equity, equity, equity, startTime, 0, 0, 0, startTime, None, true, None)
  }
}
