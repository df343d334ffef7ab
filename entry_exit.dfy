/**
 * Entry and exit levels: an entry at (or just above) the support, a stop below
 * it, a target capped by the resistance, and a strategy chosen by how far the
 * last close sits above the entry.  Setups with no risk, no reward or a
 * reward/risk ratio below 1.8 are dropped.
 */
module EntryExit {
  import opened Common
  import Indicators
  import Pivots
  import Confluence

  /** `WaitForPullback` is the initial value of the strategy variable; every path overwrites it. */
  datatype Strategy = WaitForPullback | Immediate | Breakout | Aggressive | WaitForRetest

  datatype Levels = Levels(
    entry: real, stop: real, target: real, riskReward: real, entryGapPercent: real,
    riskLot: PosReal, rewardLot: PosReal, entryStrategy: Strategy)

  /** The stage's output record: the input plus its entry/exit levels */
  datatype Planned = Planned(
    ticker: string, lastDate: Date, candles: seq<Slot>, lastClose: real, indicators: Indicators.Bag,
    support: Pivots.Support, resistance: Pivots.Pivot, confluence: Confluence.Confluence, entryExit: Levels)

  const StrengthThreshold: real := 1.2
  const EntryPremium: real := 1.005
  const AtrStopFactor: real := 1.5
  const SupportStopFraction: real := 0.03
  const AtrTargetFactor: real := 2.0
  const MinRiskReward: real := 1.8

  // ---------------------------------------------------------------------------
  // The unrounded levels

  /** Half a percent above a strong support (strength above 1.2), else at the support */
  function Entry(x: Confluence.Scored): real {
    if x.support.strength > StrengthThreshold then x.support.price * EntryPremium else x.support.price
  }

  /** The higher of 1.5 ATR below the entry and 3% below the support */
  function Stop(x: Confluence.Scored): real {
    Max(Entry(x) - x.indicators.atr14 * AtrStopFactor, x.support.price - x.support.price * SupportStopFraction)
  }

  /** The lower of 2 ATR above the entry and the resistance */
  function Target(x: Confluence.Scored): real {
    Min(Entry(x) + x.indicators.atr14 * AtrTargetFactor, x.resistance.price)
  }

  function RiskLot(x: Confluence.Scored): real { Entry(x) - Stop(x) }
  function RewardLot(x: Confluence.Scored): real { Target(x) - Entry(x) }

  /** The strategy ladder on the rounded gap, in percent */
  function StrategyFor(gap: real): (s: Strategy)
    ensures s != WaitForPullback
  {
    if gap <= 1.0 then Immediate
    else if gap <= 3.0 then Breakout
    else if gap <= 5.0 then Aggressive
    else WaitForRetest
  }

  /** What the stage does with one record: None when the setup is dropped */
  function Plan(x: Confluence.Scored): Option<Planned> {
    var entry, stop, target := Entry(x), Stop(x), Target(x);
    var riskLot, rewardLot := entry - stop, target - entry;
    if riskLot <= 0.0 || rewardLot <= 0.0 then None
    else
      var riskReward := rewardLot / riskLot;
      if riskReward < MinRiskReward then None
      else
        EntryPositive(x);
        var gap := ToFixed((x.lastClose - entry) / entry * 100.0, 2);
        Some(Planned(x.ticker, x.lastDate, x.candles, x.lastClose, x.indicators, x.support, x.resistance,
                     x.confluence,
                     Levels(ToFixed(entry, 0), ToFixed(stop, 0), ToFixed(target, 0), ToFixed(riskReward, 2),
                            gap, riskLot, rewardLot, StrategyFor(gap))))
  }

  // ---------------------------------------------------------------------------
  // The stage

  method EntryExitAll(items: seq<Confluence.Scored>) returns (out: seq<Planned>)
    ensures out == FilterMap(items, Plan)
  {
    out := [];
    for i := 0 to |items|
      invariant out == FilterMap(items[..i], Plan)
    {
      FilterMapStep(items, Plan, i);
      var p := PlanOne(items[i]);
      if p.Some? {
        out := out + [p.value];
      }
    }
    assert items[..|items|] == items;
  }

  /** The loop body for one record, `continue` becoming None */
  method PlanOne(x: Confluence.Scored) returns (r: Option<Planned>)
    ensures r == Plan(x)
  {
    var price, atr := x.support.price, x.indicators.atr14;
    var entry := if x.support.strength > StrengthThreshold then price * EntryPremium else price;
    var stop := Max(entry - atr * AtrStopFactor, price - price * SupportStopFraction);
    var target := Min(entry + atr * AtrTargetFactor, x.resistance.price);
    assert entry == Entry(x) && stop == Stop(x) && target == Target(x);
    var riskLot, rewardLot := entry - stop, target - entry;
    if riskLot <= 0.0 || rewardLot <= 0.0 {
      return None;
    }
    var riskReward := rewardLot / riskLot;
    if riskReward < MinRiskReward {
      return None;
    }
    EntryPositive(x);
    var gap := ToFixed((x.lastClose - entry) / entry * 100.0, 2);
    var strategy := WaitForPullback;
    if gap <= 1.0 {
      strategy := Immediate;
    } else if gap <= 3.0 {
      strategy := Breakout;
    } else if gap <= 5.0 {
      strategy := Aggressive;
    } else {
      strategy := WaitForRetest;
    }
    assert strategy == StrategyFor(gap);
    r := Some(Planned(x.ticker, x.lastDate, x.candles, x.lastClose, x.indicators, x.support, x.resistance,
                      x.confluence,
                      Levels(ToFixed(entry, 0), ToFixed(stop, 0), ToFixed(target, 0), ToFixed(riskReward, 2),
                             gap, riskLot, rewardLot, strategy)));
  }

  // ---------------------------------------------------------------------------
  // Properties

  /**
   * A setup with some risk has a positive support price and a positive entry,
   * so the gap's division is defined (a zero entry is always dropped first),
   * and a positive ATR (with no ATR the stop sits at the entry).
   */
  lemma EntryPositive(x: Confluence.Scored)
    requires RiskLot(x) > 0.0
    ensures x.support.price > 0.0 && Entry(x) > 0.0 && x.indicators.atr14 > 0.0
  {
    var p := x.support.price;
    assert Stop(x) >= p - p * SupportStopFraction;
    assert Stop(x) >= Entry(x) - x.indicators.atr14 * AtrStopFactor;
  }

  /** A setup survives exactly when it has risk, reward, and reward at least 1.8 times the risk. */
  lemma PlanGate(x: Confluence.Scored)
    ensures Plan(x).Some? <==> RiskLot(x) > 0.0 && RewardLot(x) > 0.0 && RewardLot(x) >= MinRiskReward * RiskLot(x)
  {
    if RiskLot(x) > 0.0 {
      RatioAtLeast(RewardLot(x), RiskLot(x), MinRiskReward);
    }
  }

  /**
   * The levels of a surviving setup: the stop is below the entry and the
   * target above it; the stop is neither more than 1.5 ATR nor more than 3% of
   * the support below where it could be; the target is capped by 2 ATR and by
   * the resistance; the entry has the premium exactly for a strong support.
   */
  lemma PlanLevels(x: Confluence.Scored)
    requires Plan(x).Some?
    ensures var e, p, atr := Entry(x), x.support.price, x.indicators.atr14;
      Stop(x) < e < Target(x) &&
      Stop(x) >= e - 1.5 * atr && Stop(x) >= 0.97 * p &&
      Target(x) <= e + 2.0 * atr && Target(x) <= x.resistance.price &&
      (Stop(x) == e - 1.5 * atr || Stop(x) == 0.97 * p) &&
      (Target(x) == e + 2.0 * atr || Target(x) == x.resistance.price) &&
      (e == p * 1.005 <==> x.support.strength > 1.2) && (e == p <==> x.support.strength <= 1.2) &&
      x.resistance.price > e
  {
    EntryPositive(x);
  }

  /** Rounding keeps the order of non-negative prices. */
  lemma ToFixedMonotone(a: real, b: real, d: nat)
    requires 0.0 <= a <= b
    ensures ToFixed(a, d) <= ToFixed(b, d)
  {
    var p := Pow10(d);
    ScaleUp(b, a, p);
    var m, n := MathRound(Scaled(a, d)), MathRound(Scaled(b, d));
    assert m <= n;
    DivMonotone(n as real, m as real, p);
  }

  /**
   * The record of a surviving setup: rounded stop, entry and target stay in
   * order; the rounded ratio is at least 1.8; the lots are the unrounded
   * distances; the strategy follows the gap ladder and is never the initial
   * 'Wait for Pullback'; and the input's fields are passed through.
   */
  lemma PlanOutput(x: Confluence.Scored)
    requires Plan(x).Some?
    ensures var r := Plan(x).value; var l := r.entryExit;
      l.stop <= l.entry <= l.target &&
      l.riskReward >= 1.8 &&
      l.riskLot as real == RiskLot(x) && l.rewardLot as real == RewardLot(x) &&
      l.rewardLot >= 1.8 * l.riskLot &&
      l.entryGapPercent == ToFixed((x.lastClose - Entry(x)) / Entry(x) * 100.0, 2) &&
      (l.entryStrategy == Immediate <==> l.entryGapPercent <= 1.0) &&
      (l.entryStrategy == Breakout <==> 1.0 < l.entryGapPercent <= 3.0) &&
      (l.entryStrategy == Aggressive <==> 3.0 < l.entryGapPercent <= 5.0) &&
      (l.entryStrategy == WaitForRetest <==> 5.0 < l.entryGapPercent) &&
      l.entryStrategy != WaitForPullback &&
      r.ticker == x.ticker && r.lastDate == x.lastDate && r.candles == x.candles && r.lastClose == x.lastClose &&
      r.indicators == x.indicators && r.support == x.support && r.resistance == x.resistance &&
      r.confluence == x.confluence
  {
    PlanLevels(x);
    PlanGate(x);
    var p := x.support.price;
    ToFixedMonotone(Stop(x), Entry(x), 0);
    ToFixedMonotone(Entry(x), Target(x), 0);
    var q := RewardLot(x) / RiskLot(x);
    assert 180 as real / Pow10(2) == 1.8;
    ToFixedAtLeast(q, 2, 180);
  }

  /** At a strength of exactly 1.2 the entry is the support itself; just above it, half a percent higher. */
  lemma StrengthBoundary(x: Confluence.Scored)
    ensures x.support.strength == 1.2 ==> Entry(x) == x.support.price
    ensures x.support.strength == 1.21 ==> Entry(x) == x.support.price * 1.005
  {
  }
}
