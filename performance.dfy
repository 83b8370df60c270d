/**
 * Cumulative performance over the trade history: the figures the bot reports
 * on request and the backtest prints at the end.
 */
module Performance {
  import opened Numbers
  import opened Types

  /** Sum of the realised PnL of the trades. */
  function TotalPnl(trades: seq<Trade>): real {
    if trades == [] then 0.0 else TotalPnl(trades[..|trades| - 1]) + trades[|trades| - 1].pnl
  }

  /** Number of trades that hit take-profit (the length of `trades.filter(t => t.hitTp)`). */
  function Wins(trades: seq<Trade>): nat {
    if trades == [] then 0
    else Wins(trades[..|trades| - 1]) + (if trades[|trades| - 1].hitTp then 1 else 0)
  }

  /** Number of trades that hit stop-loss. */
  function Losses(trades: seq<Trade>): nat {
    if trades == [] then 0
    else Losses(trades[..|trades| - 1]) + (if trades[|trades| - 1].hitSl then 1 else 0)
  }

  /** Appending a trade adds its PnL and its flags to the totals. */
  lemma AppendTrade(trades: seq<Trade>, t: Trade)
    ensures TotalPnl(trades + [t]) == TotalPnl(trades) + t.pnl
    ensures Wins(trades + [t]) == Wins(trades) + (if t.hitTp then 1 else 0)
    ensures Losses(trades + [t]) == Losses(trades) + (if t.hitSl then 1 else 0)
  {
    assert (trades + [t])[..|trades|] == trades;
  }

  /** Trades that each record exactly one of the two outcomes. */
  ghost predicate OneOutcomeEach(trades: seq<Trade>) {
    forall i :: 0 <= i < |trades| ==> trades[i].hitTp != trades[i].hitSl
  }

  /** Trades that each record at least one of the two outcomes. */
  ghost predicate SomeOutcomeEach(trades: seq<Trade>) {
    forall i :: 0 <= i < |trades| ==> trades[i].hitTp || trades[i].hitSl
  }

  /** Each count is at most the number of trades, and with one outcome per trade they add up to it. */
  lemma {:induction false} OutcomeCounts(trades: seq<Trade>)
    ensures Wins(trades) <= |trades| && Losses(trades) <= |trades|
    ensures OneOutcomeEach(trades) ==> Wins(trades) + Losses(trades) == |trades|
    ensures SomeOutcomeEach(trades) ==> Wins(trades) + Losses(trades) >= |trades|
  {
    if trades != [] {
      var init := trades[..|trades| - 1];
      assert OneOutcomeEach(trades) ==> OneOutcomeEach(init);
      assert SomeOutcomeEach(trades) ==> SomeOutcomeEach(init);
      OutcomeCounts(init);
    }
  }

  datatype Stats = Stats(
    totalTrades: nat,
    winningTrades: nat,
    losingTrades: nat,
    winRate: real,
    totalPnL: real,
    totalPnLPct: Quotient)

  /** The reported statistics of a session. */
  function ComputeStats(trades: seq<Trade>, initialEquity: real, currentEquity: real): (s: Stats)
    ensures s.totalTrades == |trades| && s.winningTrades == Wins(trades) && s.losingTrades == Losses(trades)
    ensures s.winningTrades <= s.totalTrades && s.losingTrades <= s.totalTrades
    ensures 0.0 <= s.winRate <= 100.0
    ensures s.totalTrades > 0 ==> s.winRate * s.totalTrades as real == s.winningTrades as real * 100.0
    ensures s.totalTrades == 0 ==> s.winRate == 0.0
    ensures OneOutcomeEach(trades) ==> s.winningTrades + s.losingTrades == s.totalTrades
    ensures SomeOutcomeEach(trades) ==> s.winningTrades + s.losingTrades >= s.totalTrades
    ensures currentEquity == initialEquity + TotalPnl(trades) ==> s.totalPnL == TotalPnl(trades)
    ensures initialEquity != 0.0 ==> s.totalPnLPct == Finite(s.totalPnL / initialEquity * 100.0)
    ensures initialEquity == 0.0 ==> !s.totalPnLPct.Finite?
  {
    OutcomeCounts(trades);
    var totalTrades := |trades|;
    var winningTrades := Wins(trades);
    var losingTrades := Losses(trades);
    var winRate := if totalTrades > 0 then WinRate(winningTrades, totalTrades) else 0.0;
    var totalPnL := currentEquity - initialEquity;
    var totalPnLPct := Scale(Divide(totalPnL, initialEquity), 100.0);
    Stats(totalTrades, winningTrades, losingTrades, winRate, totalPnL, totalPnLPct)
  }

  /** `wins / total * 100`, a percentage. */
  function WinRate(wins: nat, total: nat): (r: real)
    requires 0 < total && wins <= total
    ensures 0.0 <= r <= 100.0
    ensures r * total as real == wins as real * 100.0
  {
    var q := wins as real / total as real;
    assert q * total as real == wins as real;
    q * 100.0
  }
}
