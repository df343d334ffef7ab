/**
 * Position sizing and risk management: how many lots of 100 shares to buy so
 * that neither the loss budget nor the available capital is exceeded (at
 * least one lot), the money at stake, the expectancy, and a market-phase
 * label.  One flat output row per input record.
 */
module PositionSizing {
  import opened Common
  import Confluence
  import EntryExit
  import Backtest

  /** The two settings read from the trigger's configuration */
  datatype Config = Config(maxLoss: Num, modalTersedia: Num)

  datatype Phase = Uptrend | Downtrend | Sideways

  /** The stage's output row; the amounts are numbers here, not their locale-formatted text */
  datatype Position = Position(
    ticker: string, lastDate: Date, lastClose: real,
    entryGapPercent: real, entry: real, stop: real, target: real, riskReward: real,
    backtestWinRate: real, totalTrades: nat, confluenceScore: nat,
    qty: int, totalCost: real, nominalProfit: real, nominalLoss: real, expectancy: int,
    confluenceHits: seq<Confluence.Hit>, entryStrategy: EntryExit.Strategy,
    supportStrength: real, resistanceDistance: Num, atr14: real, marketPhase: Phase)

  const LotValue: real := 100.0
  const DefaultMaxLoss: real := 100000.0
  const DefaultCapital: real := 5000000.0

  /** `MaxLoss || 100000` */
  function MaxLoss(cfg: Config): real { OrDefault(cfg.maxLoss, DefaultMaxLoss) }

  /** `modalTersedia || 5000000` */
  function Capital(cfg: Config): real { OrDefault(cfg.modalTersedia, DefaultCapital) }

  function IntMax(a: int, b: int): int { if a >= b then a else b }
  function IntMin(a: int, b: int): int { if a <= b then a else b }

  /**
   * `Math.max(1, Math.min(floor(maxLoss / riskLot), floor(capital / (entry * 100))))`.
   * With a zero entry the second quotient is +Infinity or -Infinity by the sign
   * of the capital: the first leaves the risk quotient as the minimum, the
   * second makes the quantity 1.
   */
  function Qty(maxLoss: real, capital: real, riskLot: PosReal, entry: real): int
    requires capital != 0.0
  {
    var qtyRisk := (maxLoss / riskLot).Floor;
    var lotCost := entry * LotValue;
    if lotCost == 0.0 then
      if capital > 0.0 then IntMax(1, qtyRisk) else 1
    else IntMax(1, IntMin(qtyRisk, (capital / lotCost).Floor))
  }

  /** Above both moving averages in rising order, below both in falling order, or neither */
  function MarketPhase(lastClose: real, sma20: real, sma50: real): Phase {
    if lastClose > sma20 && sma20 > sma50 then Uptrend
    else if lastClose < sma20 && sma20 < sma50 then Downtrend
    else Sideways
  }

  /** `(resistance - lastClose) / lastClose * 100` to two decimals; a zero close gives no finite number */
  function ResistanceDistance(resistance: real, lastClose: real): Num {
    if lastClose == 0.0 then NaN else Fin(ToFixed((resistance - lastClose) / lastClose * 100.0, 2))
  }

  /** `qty * 100 * perShare`: an amount per share over qty lots */
  function LotsOf(qty: int, perShare: real): real { qty as real * LotValue * perShare }

  /** `Math.round(winRate * profit - (1 - winRate) * loss)` */
  function Expectancy(winRate: real, profit: real, loss: real): int {
    MathRound(winRate * profit - (1.0 - winRate) * loss)
  }

  function Size(x: Backtest.Tested, cfg: Config): Position {
    var e, bt := x.entryExit, x.backtest;
    var qty := Qty(MaxLoss(cfg), Capital(cfg), e.riskLot, e.entry);
    var nominalLoss := LotsOf(qty, e.riskLot);
    var nominalProfit := LotsOf(qty, e.rewardLot);
    Position(x.ticker, x.lastDate, x.lastClose, e.entryGapPercent, e.entry, e.stop, e.target, e.riskReward,
             bt.backtestWinRate, bt.total, x.confluence.score,
             qty, LotsOf(qty, e.entry), nominalProfit, nominalLoss,
             Expectancy(bt.winRateDec, nominalProfit, nominalLoss),
             x.confluence.hits, e.entryStrategy, ToFixed(x.support.strength, 2),
             ResistanceDistance(x.resistance.price, x.lastClose), ToFixed(x.indicators.atr14, 0),
             MarketPhase(x.lastClose, x.indicators.sma20, x.indicators.sma50))
  }

  /** The stage: exactly one row per record, in order */
  method SizeAll(items: seq<Backtest.Tested>, cfg: Config) returns (out: seq<Position>)
    ensures |out| == |items|
    ensures forall i :: 0 <= i < |items| ==> out[i] == Size(items[i], cfg)
  {
    ghost var f := (x: Backtest.Tested) => Size(x, cfg);
    out := [];
    for i := 0 to |items|
      invariant |out| == i
      invariant forall j :: 0 <= j < i ==> out[j] == f(items[j])
    {
      MapStep(out, items, f, i);
      out := out + [Size(items[i], cfg)];
    }
  }

  // ---------------------------------------------------------------------------
  // Properties

  /** A configuration value that is missing, zero or NaN takes its default; any other number is kept. */
  lemma ConfigDefaults(cfg: Config)
    ensures cfg.maxLoss.Fin? && cfg.maxLoss.r != 0.0 ==> MaxLoss(cfg) == cfg.maxLoss.r
    ensures !(cfg.maxLoss.Fin? && cfg.maxLoss.r != 0.0) ==> MaxLoss(cfg) == 100000.0
    ensures cfg.modalTersedia.Fin? && cfg.modalTersedia.r != 0.0 ==> Capital(cfg) == cfg.modalTersedia.r
    ensures !(cfg.modalTersedia.Fin? && cfg.modalTersedia.r != 0.0) ==> Capital(cfg) == 5000000.0
  {
  }

  lemma MulBelow(q: real, a: real, b: real)
    requires b > 0.0 && q <= a / b
    ensures q * b <= a
  {
    var r := a / b;
    assert r * b == a;
    MulNonNegative(r - q, b);
  }

  /**
   * The quantity is at least one lot.  Above one lot it keeps within both
   * budgets: the quantity times the risk per share is at most the loss
   * budget, and, for a positive entry, the cost of the lots is at most the
   * capital; one more lot would exceed one of them.
   */
  lemma QtyLimits(maxLoss: real, capital: real, riskLot: PosReal, entry: real)
    requires capital != 0.0
    ensures var q := Qty(maxLoss, capital, riskLot, entry);
      q >= 1 &&
      (q > 1 ==> q as real * riskLot <= maxLoss) &&
      (q > 1 && entry > 0.0 ==> q as real * LotValue * entry <= capital) &&
      (q > 1 && entry > 0.0 ==>
        (q + 1) as real > maxLoss / riskLot || (q + 1) as real > capital / (entry * LotValue))
  {
    var q := Qty(maxLoss, capital, riskLot, entry);
    if q > 1 {
      assert q as real <= maxLoss / riskLot;
      MulBelow(q as real, maxLoss, riskLot);
      if entry > 0.0 {
        var lotCost := entry * LotValue;
        MulNonNegative(entry, LotValue);
        assert lotCost > 0.0 by { MulPositive(entry, LotValue); }
        assert q as real <= capital / lotCost;
        MulBelow(q as real, capital, lotCost);
        assert q as real * lotCost == q as real * LotValue * entry;
      }
    }
  }

  /** When capital allows at least one lot at a positive entry, the total cost stays within the capital. */
  lemma TotalCostWithinCapital(x: Backtest.Tested, cfg: Config)
    requires x.entryExit.entry > 0.0 && Capital(cfg) / (x.entryExit.entry * LotValue) >= 1.0
    ensures Size(x, cfg).totalCost <= Capital(cfg)
  {
    var e := x.entryExit;
    var capital := Capital(cfg);
    var q := Qty(MaxLoss(cfg), capital, e.riskLot, e.entry);
    var lotCost := e.entry * LotValue;
    assert lotCost > 0.0 by { MulPositive(e.entry, LotValue); }
    QtyLimits(MaxLoss(cfg), capital, e.riskLot, e.entry);
    if q == 1 {
      MulBelow(1.0, capital, lotCost);
    }
  }

  /**
   * The row's money amounts: the nominal loss and profit are positive and in
   * the same proportion as the reward and risk per share; the expectancy is
   * the rounded win-rate-weighted balance; and the quantity is at least one.
   */
  lemma SizeAmounts(x: Backtest.Tested, cfg: Config)
    ensures var p, e, w := Size(x, cfg), x.entryExit, x.backtest.winRateDec;
      p.qty >= 1 && p.nominalLoss > 0.0 && p.nominalProfit > 0.0 &&
      p.nominalProfit * e.riskLot == p.nominalLoss * e.rewardLot &&
      (p.expectancy as real) - 0.5 <= w * p.nominalProfit - (1.0 - w) * p.nominalLoss < (p.expectancy as real) + 0.5
  {
    var e := x.entryExit;
    var q := Qty(MaxLoss(cfg), Capital(cfg), e.riskLot, e.entry);
    QtyLimits(MaxLoss(cfg), Capital(cfg), e.riskLot, e.entry);
    LotAmounts(q, e.riskLot, e.rewardLot);
  }

  /** The amounts of q lots: positive, and in the proportion of reward to risk */
  lemma LotAmounts(q: int, riskLot: PosReal, rewardLot: PosReal)
    requires q >= 1
    ensures LotsOf(q, riskLot) > 0.0 && LotsOf(q, rewardLot) > 0.0
    ensures LotsOf(q, rewardLot) * riskLot == LotsOf(q, riskLot) * rewardLot
  {
    var k := q as real * LotValue;
    assert k > 0.0 by { MulPositive(q as real, LotValue); }
    MulPositive(k, riskLot);
    MulPositive(k, rewardLot);
    SameProportion(k, riskLot, rewardLot);
  }

  lemma SameProportion(k: real, a: real, b: real)
    ensures (k * b) * a == (k * a) * b
  {
  }

  /**
   * With a win rate of at least 52% and a reward at least 1.8 times the risk,
   * the expected balance is positive, so the rounded expectancy is not negative.
   */
  lemma ExpectancyNonNegative(w: real, profit: real, loss: real)
    requires 0.52 <= w <= 1.0 && loss > 0.0 && profit >= 1.8 * loss
    ensures w * profit - (1.0 - w) * loss > 0.0
    ensures MathRound(w * profit - (1.0 - w) * loss) >= 0
  {
    MulNonNegative(profit - 1.8 * loss, w);
    MulPositive(2.8 * w - 1.0, loss);
    assert w * profit - (1.0 - w) * loss == (profit - 1.8 * loss) * w + (2.8 * w - 1.0) * loss;
  }

  /** The phase is exactly one of the three, under its own ordering of close, SMA20 and SMA50. */
  lemma PhaseCases(lastClose: real, sma20: real, sma50: real)
    ensures MarketPhase(lastClose, sma20, sma50) == Uptrend <==> lastClose > sma20 > sma50
    ensures MarketPhase(lastClose, sma20, sma50) == Downtrend <==> lastClose < sma20 < sma50
    ensures MarketPhase(lastClose, sma20, sma50) == Sideways <==>
      !(lastClose > sma20 > sma50) && !(lastClose < sma20 < sma50)
  {
  }

  /** Two equal moving averages never give a trend: a close of 2500 above them and one of 2300 below are both Sideways. */
  lemma PhaseEqualAverages()
    ensures MarketPhase(2500.0, 2400.0, 2400.0) == Sideways
    ensures MarketPhase(2300.0, 2400.0, 2400.0) == Sideways
  {
    PhaseCases(2500.0, 2400.0, 2400.0);
    PhaseCases(2300.0, 2400.0, 2400.0);
  }

  /** The row copies the levels, the backtest figures and the confluence from the nested record. */
  lemma SizeCopies(x: Backtest.Tested, cfg: Config)
    ensures var p := Size(x, cfg);
      p.ticker == x.ticker && p.lastDate == x.lastDate && p.lastClose == x.lastClose &&
      p.entry == x.entryExit.entry && p.stop == x.entryExit.stop && p.target == x.entryExit.target &&
      p.riskReward == x.entryExit.riskReward && p.entryGapPercent == x.entryExit.entryGapPercent &&
      p.entryStrategy == x.entryExit.entryStrategy &&
      p.backtestWinRate == x.backtest.backtestWinRate && p.totalTrades == x.backtest.total &&
      p.confluenceScore == x.confluence.score && p.confluenceHits == x.confluence.hits
  {
  }
}
