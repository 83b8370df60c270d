/**
 * Position math: take-profit and stop-loss prices, sizing, PnL net of fees,
 * the TP/SL hit test and the direction flip. All of it is pure.
 */
module Strategy {
  import opened Numbers
  import opened Types

  datatype Targets = Targets(tpPrice: real, slPrice: real)
  datatype Sizing = Sizing(margin: real, size: real)
  datatype Pnl = Pnl(pnl: real, pnlPct: Quotient)
  datatype Hits = Hits(hitTp: bool, hitSl: bool)

  /** Basis points as a fraction. */
  function Bps(bps: real): real {
    bps / 10000.0
  }

  /** Target prices `bps` away from the entry, on the profitable and losing side of the direction. */
  function CalculateTPSL(direction: Direction, entryPrice: real, tpBps: real, slBps: real): (t: Targets)
    ensures var sign := if direction == LONG then 1.0 else -1.0;
      && t.tpPrice - entryPrice == sign * entryPrice * Bps(tpBps)
      && entryPrice - t.slPrice == sign * entryPrice * Bps(slBps)
  {
    if direction == LONG then
      Targets(entryPrice * (1.0 + tpBps / 10000.0), entryPrice * (1.0 - slBps / 10000.0))
    else
      Targets(entryPrice * (1.0 - tpBps / 10000.0), entryPrice * (1.0 + slBps / 10000.0))
  }

  /** The take-profit lies `tpBps` beyond the entry in the position's favour, the stop-loss `slBps` against it. */
  lemma TargetOffsets(direction: Direction, entryPrice: real, tpBps: real, slBps: real)
    ensures var t := CalculateTPSL(direction, entryPrice, tpBps, slBps);
      var sign := if direction == LONG then 1.0 else -1.0;
      && t.tpPrice - entryPrice == sign * entryPrice * Bps(tpBps)
      && entryPrice - t.slPrice == sign * entryPrice * Bps(slBps)
  {
  }

  /** For a positive entry and non-negative offsets the entry lies between the two targets. */
  lemma TargetsBracketEntry(direction: Direction, entryPrice: real, tpBps: real, slBps: real)
    requires entryPrice > 0.0 && tpBps >= 0.0 && slBps >= 0.0
    ensures var t := CalculateTPSL(direction, entryPrice, tpBps, slBps);
      if direction == LONG then t.slPrice <= entryPrice <= t.tpPrice
      else t.tpPrice <= entryPrice <= t.slPrice
  {
    TargetOffsets(direction, entryPrice, tpBps, slBps);
    assert entryPrice * Bps(tpBps) >= 0.0 && entryPrice * Bps(slBps) >= 0.0;
  }

  /** SHORT targets mirror LONG ones with the two offsets exchanged. */
  lemma ShortTargetsMirrorLong(entryPrice: real, tpBps: real, slBps: real)
    ensures CalculateTPSL(SHORT, entryPrice, tpBps, slBps).slPrice == CalculateTPSL(LONG, entryPrice, slBps, tpBps).tpPrice
    ensures CalculateTPSL(SHORT, entryPrice, tpBps, slBps).tpPrice == CalculateTPSL(LONG, entryPrice, slBps, tpBps).slPrice
  {
  }

  /** Entry 100 with 10 bps on both sides. */
  lemma TargetsExample()
    ensures CalculateTPSL(LONG, 100.0, 10.0, 10.0) == Targets(100.1, 99.9)
    ensures CalculateTPSL(SHORT, 100.0, 10.0, 10.0) == Targets(99.9, 100.1)
  {
  }

  /** Margin is `marginPct` percent of equity; the notional `size * price` is margin times leverage. */
  function CalculatePositionSize(equity: real, marginPct: real, leverage: real, price: real): (s: Sizing)
    requires price != 0.0
    ensures s.margin * 100.0 == equity * marginPct && s.size * price == s.margin * leverage
  {
    var margin := equity * marginPct / 100.0;
    var notional := margin * leverage;
    Sizing(margin, notional / price)
  }

  /** Margin is `marginPct` percent of equity, and the notional `size * price` is margin times leverage. */
  lemma SizingRelations(equity: real, marginPct: real, leverage: real, price: real)
    requires price != 0.0
    ensures var s := CalculatePositionSize(equity, marginPct, leverage, price);
      s.margin * 100.0 == equity * marginPct && s.size * price == s.margin * leverage
  {
  }

  /** Equity 10000, 2% margin, 50x leverage at price 100. */
  lemma SizingExample()
    ensures CalculatePositionSize(10000.0, 2.0, 50.0, 100.0) == Sizing(200.0, 100.0)
  {
  }

  /** The price move in the position's favour. */
  function PriceDiff(position: Position, exitPrice: real): real {
    if position.direction == LONG then exitPrice - position.entryPrice
    else position.entryPrice - exitPrice
  }

  /** Fees for both legs, charged at `feeBps` on the entry notional. */
  function RoundTripFees(position: Position, feeBps: real): real {
    position.size * position.entryPrice * 2.0 * feeBps / 10000.0
  }

  /** PnL net of fees on both legs, and as a percentage of margin. */
  function CalculatePnL(position: Position, exitPrice: real, feeBps: real): (r: Pnl)
    ensures r.pnl == PriceDiff(position, exitPrice) * position.size - RoundTripFees(position, feeBps)
    ensures r.pnlPct.Finite? <==> position.margin != 0.0
    ensures r.pnlPct.Finite? ==> r.pnlPct.value * position.margin == r.pnl * 100.0
  {
    var notional := position.size * position.entryPrice;
    var priceDiff := if position.direction == LONG then exitPrice - position.entryPrice
                     else position.entryPrice - exitPrice;
    var grossPnl := priceDiff * position.size;
    var totalFees := notional * 2.0 * feeBps / 10000.0;
    var pnl := grossPnl - totalFees;
    Pnl(pnl, Scale(Divide(pnl, position.margin), 100.0))
  }

  /** PnL is the favourable move times size less both fees; as a percentage of margin it is finite exactly when the margin is non-zero. */
  lemma PnlRelations(position: Position, exitPrice: real, feeBps: real)
    ensures var r := CalculatePnL(position, exitPrice, feeBps);
      && r.pnl == PriceDiff(position, exitPrice) * position.size - RoundTripFees(position, feeBps)
      && (r.pnlPct.Finite? <==> position.margin != 0.0)
      && (r.pnlPct.Finite? ==> r.pnlPct.value * position.margin == r.pnl * 100.0)
  {
  }

  /** At the same exit, a LONG and a SHORT of the same size lose exactly the two fees together. */
  lemma OppositePnlsCancel(position: Position, exitPrice: real, feeBps: real)
    ensures CalculatePnL(position.(direction := LONG), exitPrice, feeBps).pnl
          + CalculatePnL(position.(direction := SHORT), exitPrice, feeBps).pnl
         == -2.0 * RoundTripFees(position, feeBps)
  {
  }

  /** A worked example: a LONG position with entry 100, size 10, margin 200, closed at 100.1 with 2.5 bps fees. */
  lemma PnlExample()
    ensures CalculatePnL(Position(LONG, 100.0, 10.0, 200.0, 50.0, 100.1, 99.9, 0), 100.1, 2.5)
         == Pnl(0.5, Finite(0.25))
    ensures CalculatePnL(Position(SHORT, 100.0, 10.0, 200.0, 50.0, 99.9, 100.1, 0), 99.9, 2.5).pnl == 0.5
  {
  }

  /** Whether the price has reached the take-profit or the stop-loss level. */
  function CheckTPSL(position: Position, currentPrice: real): (h: Hits)
    ensures position.direction == LONG ==>
      (h.hitTp <==> currentPrice >= position.tpPrice) && (h.hitSl <==> currentPrice <= position.slPrice)
    ensures position.direction == SHORT ==>
      (h.hitTp <==> currentPrice <= position.tpPrice) && (h.hitSl <==> currentPrice >= position.slPrice)
  {
    if position.direction == LONG then
      Hits(currentPrice >= position.tpPrice, currentPrice <= position.slPrice)
    else
      Hits(currentPrice <= position.tpPrice, currentPrice >= position.slPrice)
  }

  /** A SHORT test is the LONG test on negated prices. */
  lemma ShortHitsMirrorLong(position: Position, currentPrice: real)
    requires position.direction == SHORT
    ensures CheckTPSL(position, currentPrice)
         == CheckTPSL(position.(direction := LONG, tpPrice := -position.tpPrice, slPrice := -position.slPrice), -currentPrice)
  {
  }

  /** When the stop lies on the losing side of the target, at most one level is hit. */
  lemma AtMostOneHit(position: Position, currentPrice: real)
    requires if position.direction == LONG then position.slPrice < position.tpPrice
             else position.tpPrice < position.slPrice
    ensures !(CheckTPSL(position, currentPrice).hitTp && CheckTPSL(position, currentPrice).hitSl)
  {
  }

  /** A position whose targets were set by `CalculateTPSL` at its entry price. */
  predicate TargetsFromEntry(position: Position, tpBps: real, slBps: real) {
    CalculateTPSL(position.direction, position.entryPrice, tpBps, slBps)
      == Targets(position.tpPrice, position.slPrice)
  }

  /** With positive entry and positive total offset, such a position never hits both levels at once. */
  lemma TargetsFromEntryExclusive(position: Position, tpBps: real, slBps: real, currentPrice: real)
    requires TargetsFromEntry(position, tpBps, slBps)
    requires position.entryPrice > 0.0 && tpBps + slBps > 0.0
    ensures !(CheckTPSL(position, currentPrice).hitTp && CheckTPSL(position, currentPrice).hitSl)
  {
    var e := position.entryPrice;
    TargetOffsets(position.direction, e, tpBps, slBps);
    assert e * Bps(tpBps) + e * Bps(slBps) == e * (tpBps + slBps) / 10000.0;
    assert e * (tpBps + slBps) > 0.0;
    AtMostOneHit(position, currentPrice);
  }

  /** Closing at a take-profit nets at least the TP offset minus the round-trip fees. */
  lemma TakeProfitNetsTarget(position: Position, tpBps: real, slBps: real, feeBps: real, exitPrice: real)
    requires TargetsFromEntry(position, tpBps, slBps) && position.size >= 0.0
    requires CheckTPSL(position, exitPrice).hitTp
    ensures CalculatePnL(position, exitPrice, feeBps).pnl
         >= position.size * position.entryPrice * Bps(tpBps) - RoundTripFees(position, feeBps)
  {
    TargetOffsets(position.direction, position.entryPrice, tpBps, slBps);
    PnlRelations(position, exitPrice, feeBps);
    var d := PriceDiff(position, exitPrice);
    assert d >= position.entryPrice * Bps(tpBps);
    assert d * position.size >= position.entryPrice * Bps(tpBps) * position.size;
  }

  /** Closing at a stop-loss loses at least the SL offset plus the round-trip fees. */
  lemma StopLossLosesTarget(position: Position, tpBps: real, slBps: real, feeBps: real, exitPrice: real)
    requires TargetsFromEntry(position, tpBps, slBps) && position.size >= 0.0
    requires CheckTPSL(position, exitPrice).hitSl
    ensures CalculatePnL(position, exitPrice, feeBps).pnl
         <= -(position.size * position.entryPrice * Bps(slBps)) - RoundTripFees(position, feeBps)
  {
    TargetOffsets(position.direction, position.entryPrice, tpBps, slBps);
    PnlRelations(position, exitPrice, feeBps);
    var d := PriceDiff(position, exitPrice);
    assert d <= -(position.entryPrice * Bps(slBps));
    assert d * position.size <= -(position.entryPrice * Bps(slBps)) * position.size;
  }

  /** The other direction. */
  function FlipDirection(direction: Direction): (r: Direction)
    ensures r != direction
  {
    if direction == LONG then SHORT else LONG
  }

  /** Flipping twice restores the direction. */
  lemma FlipInvolution(direction: Direction)
    ensures FlipDirection(FlipDirection(direction)) == direction
  {
  }
}
