/**
 * The risk guard: four guards evaluated in a fixed priority order, answering
 * with the first one breached. The guard only reads the session state.
 */
module KillSwitch {
  import opened Wrappers
  import opened Numbers
  import opened Types

  datatype KillSwitchResult = KillSwitchResult(triggered: bool, reason: Option<KillReason>)

  /** The four guards, in the order they are consulted. */
  datatype Guard = DailyLossGuard | ConsecutiveLossGuard | ConsecutiveErrorGuard | HourlyTradeGuard

  function Rank(g: Guard): nat {
    match g
    case DailyLossGuard => 0
    case ConsecutiveLossGuard => 1
    case ConsecutiveErrorGuard => 2
    case HourlyTradeGuard => 3
  }

  /** The guard a reason reports. */
  function GuardOf(r: KillReason): Guard {
    match r
    case DailyLoss(_, _) => DailyLossGuard
    case ConsecutiveLosses(_, _) => ConsecutiveLossGuard
    case ConsecutiveErrors(_, _) => ConsecutiveErrorGuard
    case TradesThisHour(_, _) => HourlyTradeGuard
  }

  /** Loss since the start of the day as a percentage of the day's starting equity. */
  function DailyLossPct(state: BotState): Quotient
  {
    Scale(Divide(state.dailyStartEquity - state.currentEquity, state.dailyStartEquity), 100.0)
  }

  /** Whether guard `g` is breached; every threshold is inclusive. */
  predicate Breached(g: Guard, state: BotState, config: Config)
  {
    match g
    case DailyLossGuard => AtLeast(DailyLossPct(state), config.maxDailyLossPct)
    case ConsecutiveLossGuard => state.consecLosses >= config.maxConsecLosses
    case ConsecutiveErrorGuard => state.consecErrors >= config.maxConsecErrors
    case HourlyTradeGuard => state.tradesThisHour >= config.maxTradesPerHour
  }

  /** The reason reported for guard `g`: the measured value and the threshold. */
  function ReasonFor(g: Guard, state: BotState, config: Config): (r: KillReason)
    ensures GuardOf(r) == g
  {
    match g
    case DailyLossGuard => DailyLoss(DailyLossPct(state), config.maxDailyLossPct)
    case ConsecutiveLossGuard => ConsecutiveLosses(state.consecLosses, config.maxConsecLosses)
    case ConsecutiveErrorGuard => ConsecutiveErrors(state.consecErrors, config.maxConsecErrors)
    case HourlyTradeGuard => TradesThisHour(state.tradesThisHour, config.maxTradesPerHour)
  }

  /**
   * The guard check: it triggers exactly when some guard is breached, and then
   * reports the breached guard of lowest rank.
   */
  function CheckKillSwitch(state: BotState, config: Config): (r: KillSwitchResult)
    ensures r.triggered <==> r.reason.Some?
    ensures r.triggered <==> exists g :: Breached(g, state, config)
    ensures r.triggered ==>
      var g := GuardOf(r.reason.value);
      && Breached(g, state, config)
      && r.reason.value == ReasonFor(g, state, config)
      && forall h :: Rank(h) < Rank(g) ==> !Breached(h, state, config)
  {
    var dailyLossPct := DailyLossPct(state);
    if AtLeast(dailyLossPct, config.maxDailyLossPct) then
      assert Breached(DailyLossGuard, state, config);
      KillSwitchResult(true, Some(DailyLoss(dailyLossPct, config.maxDailyLossPct)))
    else if state.consecLosses >= config.maxConsecLosses then
      assert Breached(ConsecutiveLossGuard, state, config);
      KillSwitchResult(true, Some(ConsecutiveLosses(state.consecLosses, config.maxConsecLosses)))
    else if state.consecErrors >= config.maxConsecErrors then
      assert Breached(ConsecutiveErrorGuard, state, config);
      KillSwitchResult(true, Some(ConsecutiveErrors(state.consecErrors, config.maxConsecErrors)))
    else if state.tradesThisHour >= config.maxTradesPerHour then
      assert Breached(HourlyTradeGuard, state, config);
      KillSwitchResult(true, Some(TradesThisHour(state.tradesThisHour, config.maxTradesPerHour)))
    else
      KillSwitchResult(false, None)
  }

  /** No breach gives `{triggered: false, reason: null}`. */
  lemma NoBreachNoTrigger(state: BotState, config: Config)
    requires forall g :: !Breached(g, state, config)
    ensures CheckKillSwitch(state, config) == KillSwitchResult(false, None)
  {
  }

  /** Daily loss triggers exactly when its percentage reaches the limit, whatever else is breached. */
  lemma DailyLossFirst(state: BotState, config: Config)
    ensures CheckKillSwitch(state, config).reason == Some(DailyLoss(DailyLossPct(state), config.maxDailyLossPct))
        <==> AtLeast(DailyLossPct(state), config.maxDailyLossPct)
  {
  }

  /** With a non-zero starting equity the daily-loss guard is the plain percentage comparison. */
  lemma DailyLossPctFinite(state: BotState, config: Config)
    requires state.dailyStartEquity != 0.0
    ensures Breached(DailyLossGuard, state, config)
        <==> (state.dailyStartEquity - state.currentEquity) / state.dailyStartEquity * 100.0 >= config.maxDailyLossPct
  {
  }

  /** A count equal to its limit breaches the guard (the thresholds are inclusive). */
  lemma ThresholdsInclusive(state: BotState, config: Config)
    requires !Breached(DailyLossGuard, state, config)
    ensures state.consecLosses == config.maxConsecLosses ==>
      CheckKillSwitch(state, config).reason == Some(ConsecutiveLosses(state.consecLosses, config.maxConsecLosses))
    ensures state.consecLosses < config.maxConsecLosses && state.consecErrors == config.maxConsecErrors ==>
      CheckKillSwitch(state, config).reason == Some(ConsecutiveErrors(state.consecErrors, config.maxConsecErrors))
    ensures state.consecLosses < config.maxConsecLosses && state.consecErrors < config.maxConsecErrors
            && state.tradesThisHour == config.maxTradesPerHour ==>
      CheckKillSwitch(state, config).reason == Some(TradesThisHour(state.tradesThisHour, config.maxTradesPerHour))
  {
  }

  /** Starting the day at 10000 and standing at 9890 is a 1.1% loss, which reaches a 1% limit. */
  lemma DailyLossExample(state: BotState, config: Config)
    requires state.dailyStartEquity == 10000.0 && state.currentEquity == 9890.0
    requires config.maxDailyLossPct == 1.0
    ensures CheckKillSwitch(state, config).reason == Some(DailyLoss(Finite(1.1), 1.0))
  {
  }
}
