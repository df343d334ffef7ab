/**
 * Backtest: every recent candle whose low reached the entry (with 0.5% slack)
 * opens a hypothetical trade, which the following candles close as a loss
 * (low at or below the stop, checked first) or a win (high at or above the
 * target).  Records with fewer than five trades or a win rate below 52% are
 * dropped; good records earn up to two bonus confluence points.
 */
module Backtest {
  import opened Common
  import Indicators
  import Pivots
  import Confluence
  import EntryExit

  /** How a trade opened at one candle ends */
  datatype Outcome = Unresolved | Win | Loss

  datatype Tally = Tally(wins: nat, losses: nat, total: nat)

  datatype Stats = Stats(wins: nat, losses: nat, total: nat, winRateDec: real, backtestWinRate: real)

  /** The stage's output record */
  datatype Tested = Tested(
    ticker: string, lastDate: Date, candles: seq<Slot>, lastClose: real, indicators: Indicators.Bag,
    support: Pivots.Support, resistance: Pivots.Pivot, confluence: Confluence.Confluence,
    entryExit: EntryExit.Levels, backtest: Stats)

  const EntrySlack: real := 1.005
  const MinWinRate: real := 0.52
  const MinTrades: nat := 5

  // ---------------------------------------------------------------------------
  // The scan window

  /** `Math.max(14, n - Math.min(n - 20, 100))`: the first candle that may open a trade */
  function ScanStart(n: nat): int {
    var recentPeriod := if n - 20 <= 100 then n - 20 else 100;
    if 14 >= n - recentPeriod then 14 else n - recentPeriod
  }

  /** The scan stops before the last candle, which has nothing after it */
  function ScanEnd(n: nat): nat { if n == 0 then 0 else n - 1 }

  // ---------------------------------------------------------------------------
  // One trade

  /** A candle with a low of number type (NaN passes) that reaches the entry */
  predicate Triggered(s: Slot, entry: real) {
    s.Some? && s.value.low.IsNumber() && Le(s.value.low, Fin(entry * EntrySlack))
  }

  /** A candle the forward scan can read: present, low and high of number type */
  predicate Readable(s: Slot) {
    s.Some? && s.value.low.IsNumber() && s.value.high.IsNumber()
  }

  predicate HitsStop(s: Slot, stop: real) { s.Some? && Le(s.value.low, Fin(stop)) }
  predicate HitsTarget(s: Slot, target: real) { s.Some? && Ge(s.value.high, Fin(target)) }

  /** The forward scan from candle j: the first readable candle that touches the stop or the target decides */
  function Resolve(cs: seq<Slot>, stop: real, target: real, j: nat): Outcome
    decreases |cs| - j
  {
    if j >= |cs| || !Readable(cs[j]) then Unresolved
    else if HitsStop(cs[j], stop) then Loss
    else if HitsTarget(cs[j], target) then Win
    else Resolve(cs, stop, target, j + 1)
  }

  /** The trades opened at candles lo .. hi-1 */
  function Trades(cs: seq<Slot>, lv: EntryExit.Levels, lo: int, hi: nat): (t: Tally)
    requires hi <= |cs|
    ensures t.wins + t.losses <= t.total
    ensures t.total <= if lo < 0 then hi else if hi <= lo then 0 else hi - lo
    decreases hi
  {
    if hi <= lo || hi == 0 then Tally(0, 0, 0)
    else
      var t := Trades(cs, lv, lo, hi - 1);
      if !Triggered(cs[hi - 1], lv.entry) then t
      else
        match Resolve(cs, lv.stop, lv.target, hi)
        case Win => Tally(t.wins + 1, t.losses, t.total + 1)
        case Loss => Tally(t.wins, t.losses + 1, t.total + 1)
        case Unresolved => Tally(t.wins, t.losses, t.total + 1)
  }

  function TallyOf(x: EntryExit.Planned): Tally {
    var n := |x.candles|;
    Trades(x.candles, x.entryExit, ScanStart(n), ScanEnd(n))
  }

  /** Bonus points: one for a win rate above 70% over at least eight trades, one for a ratio above 2.5 */
  function Bonus(winRate: real, total: nat, riskReward: real): (b: nat)
    ensures b <= 2
  {
    (if winRate > 0.7 && total >= 8 then 1 else 0) + (if riskReward > 2.5 then 1 else 0)
  }

  /** What the stage does with one record: None when a gate drops it */
  function Test(x: EntryExit.Planned): Option<Tested> {
    var t := TallyOf(x);
    if t.total == 0 then None
    else
      var winRate := t.wins as real / t.total as real;
      if winRate < MinWinRate || t.total < MinTrades then None
      else
        var bonus := Bonus(winRate, t.total, x.entryExit.riskReward);
        Some(Tested(x.ticker, x.lastDate, x.candles, x.lastClose, x.indicators, x.support, x.resistance,
                    x.confluence.(score := x.confluence.score + bonus), x.entryExit,
                    Stats(t.wins, t.losses, t.total, winRate, ToFixed(winRate * 100.0, 1))))
  }

  // ---------------------------------------------------------------------------
  // The stage

  method BacktestAll(items: seq<EntryExit.Planned>) returns (out: seq<Tested>)
    ensures out == FilterMap(items, Test)
  {
    out := [];
    for i := 0 to |items|
      invariant out == FilterMap(items[..i], Test)
    {
      FilterMapStep(items, Test, i);
      var x := items[i];
      var t := CountTrades(x.candles, x.entryExit);
      if t.total == 0 {
        continue;
      }
      var winRate := t.wins as real / t.total as real;
      if winRate < MinWinRate {
        continue;
      }
      if t.total < MinTrades {
        continue;
      }
      var bonus := 0;
      if winRate > 0.7 && t.total >= 8 {
        bonus := bonus + 1;
      }
      if x.entryExit.riskReward > 2.5 {
        bonus := bonus + 1;
      }
      var stats := Stats(t.wins, t.losses, t.total, winRate, ToFixed(winRate * 100.0, 1));
      out := out + [Tested(x.ticker, x.lastDate, x.candles, x.lastClose, x.indicators, x.support, x.resistance,
                           x.confluence.(score := x.confluence.score + bonus), x.entryExit, stats)];
    }
    assert items[..|items|] == items;
  }

  /** The outer scan over the recent candles, counting the trades each one opens */
  method CountTrades(cs: seq<Slot>, lv: EntryExit.Levels) returns (t: Tally)
    ensures t == Trades(cs, lv, ScanStart(|cs|), ScanEnd(|cs|))
  {
    var n := |cs|;
    var recentPeriod := if n - 20 <= 100 then n - 20 else 100;
    var start := if 14 >= n - recentPeriod then 14 else n - recentPeriod;
    var wins, losses, total := 0, 0, 0;
    var i := start;
    while i < n - 1
      invariant start <= i
      invariant i >= 0
      invariant Tally(wins, losses, total) == Trades(cs, lv, start, if i <= n - 1 then i else ScanEnd(n))
    {
      if cs[i].None? || !cs[i].value.low.IsNumber() {
        i := i + 1;
        continue;
      }
      if Le(cs[i].value.low, Fin(lv.entry * EntrySlack)) {
        total := total + 1;
        var outcome := ScanForward(cs, lv.stop, lv.target, i + 1);
        if outcome == Loss {
          losses := losses + 1;
        } else if outcome == Win {
          wins := wins + 1;
        }
      }
      i := i + 1;
    }
    t := Tally(wins, losses, total);
  }

  /** The inner scan after a trade opens: stop first, then target, until a candle cannot be read */
  method ScanForward(cs: seq<Slot>, stop: real, target: real, from: nat) returns (outcome: Outcome)
    ensures outcome == Resolve(cs, stop, target, from)
  {
    var hitTarget, hitStop := false, false;
    var j := from;
    while j < |cs| && !hitTarget && !hitStop
      invariant from <= j
      invariant !(hitTarget && hitStop)
      invariant Resolve(cs, stop, target, from) ==
        (if hitStop then Loss else if hitTarget then Win else Resolve(cs, stop, target, j))
      decreases |cs| - j
    {
      if cs[j].None? || !cs[j].value.low.IsNumber() || !cs[j].value.high.IsNumber() {
        break;
      }
      if Le(cs[j].value.low, Fin(stop)) {
        hitStop := true;
      } else if Ge(cs[j].value.high, Fin(target)) {
        hitTarget := true;
      }
      j := j + 1;
    }
    outcome := if hitStop then Loss else if hitTarget then Win else Unresolved;
  }

  // ---------------------------------------------------------------------------
  // Properties

  /** The window opens at candle 20 for up to 120 candles and covers the last 100 candles beyond that; 14 is never chosen. */
  lemma ScanWindow(n: nat)
    ensures ScanStart(n) == if n <= 120 then 20 else n - 100
    ensures ScanStart(n) >= 20
  {
  }

  /** Every candle in [j, k) was readable and touched neither level */
  predicate Clear(cs: seq<Slot>, stop: real, target: real, j: nat, k: nat)
    requires j <= k <= |cs|
  {
    forall m :: j <= m < k ==> Readable(cs[m]) && !HitsStop(cs[m], stop) && !HitsTarget(cs[m], target)
  }

  /**
   * A trade is lost exactly when some readable candle touches the stop and
   * every readable candle before it touched neither level; a candle that
   * touches both counts as a loss.
   */
  lemma {:induction false} ResolveLoss(cs: seq<Slot>, stop: real, target: real, j: nat)
    ensures Resolve(cs, stop, target, j) == Loss <==>
      exists k :: j <= k < |cs| && Clear(cs, stop, target, j, k) && Readable(cs[k]) && HitsStop(cs[k], stop)
    decreases |cs| - j
  {
    if j < |cs| && Readable(cs[j]) && !HitsStop(cs[j], stop) && !HitsTarget(cs[j], target) {
      ResolveLoss(cs, stop, target, j + 1);
      if Resolve(cs, stop, target, j) == Loss {
        var k :| j + 1 <= k < |cs| && Clear(cs, stop, target, j + 1, k) && Readable(cs[k]) && HitsStop(cs[k], stop);
        assert Clear(cs, stop, target, j, k);
      }
      if exists k :: j <= k < |cs| && Clear(cs, stop, target, j, k) && Readable(cs[k]) && HitsStop(cs[k], stop) {
        var k :| j <= k < |cs| && Clear(cs, stop, target, j, k) && Readable(cs[k]) && HitsStop(cs[k], stop);
        assert k != j;
        assert Clear(cs, stop, target, j + 1, k);
      }
    } else if j < |cs| && Readable(cs[j]) && HitsStop(cs[j], stop) {
      assert Clear(cs, stop, target, j, j);
    }
  }

  /** A trade is won exactly when some readable candle reaches the target without touching the stop, and every readable candle before it touched neither level. */
  lemma {:induction false} ResolveWin(cs: seq<Slot>, stop: real, target: real, j: nat)
    ensures Resolve(cs, stop, target, j) == Win <==>
      exists k :: (j <= k < |cs| && Clear(cs, stop, target, j, k) && Readable(cs[k]) &&
        !HitsStop(cs[k], stop) && HitsTarget(cs[k], target))
    decreases |cs| - j
  {
    if j < |cs| && Readable(cs[j]) && !HitsStop(cs[j], stop) && !HitsTarget(cs[j], target) {
      ResolveWin(cs, stop, target, j + 1);
      if Resolve(cs, stop, target, j) == Win {
        var k :| j + 1 <= k < |cs| && Clear(cs, stop, target, j + 1, k) && Readable(cs[k]) &&
          !HitsStop(cs[k], stop) && HitsTarget(cs[k], target);
        assert Clear(cs, stop, target, j, k);
      }
      if exists k :: (j <= k < |cs| && Clear(cs, stop, target, j, k) && Readable(cs[k]) &&
          !HitsStop(cs[k], stop) && HitsTarget(cs[k], target)) {
        var k :| j <= k < |cs| && Clear(cs, stop, target, j, k) && Readable(cs[k]) &&
          !HitsStop(cs[k], stop) && HitsTarget(cs[k], target);
        assert k != j;
        assert Clear(cs, stop, target, j + 1, k);
      }
    } else if j < |cs| && Readable(cs[j]) && !HitsStop(cs[j], stop) && HitsTarget(cs[j], target) {
      assert Clear(cs, stop, target, j, j);
    }
  }

  /** A record survives exactly when it has at least five trades and wins at least 52% of them. */
  lemma TestGate(x: EntryExit.Planned)
    ensures var t := TallyOf(x);
      Test(x).Some? <==> t.total >= 5 && t.wins as real >= 0.52 * t.total as real
  {
    var t := TallyOf(x);
    if t.total > 0 {
      RatioAtLeast(t.wins as real, t.total as real, MinWinRate);
    }
  }

  /**
   * A surviving record: wins and losses fit in the trades; the win rate is
   * between 0.52 and 1 and its percentage, rounded to one decimal, between 52
   * and 100; the score rises by the bonus, at most two; and the other fields
   * pass through.
   */
  lemma TestOutput(x: EntryExit.Planned)
    requires Test(x).Some?
    ensures var r := Test(x).value; var s := r.backtest;
      s.wins + s.losses <= s.total && s.total >= 5 &&
      s.winRateDec == s.wins as real / s.total as real &&
      0.52 <= s.winRateDec <= 1.0 && 52.0 <= s.backtestWinRate <= 100.0 &&
      r.confluence.score == x.confluence.score + Bonus(s.winRateDec, s.total, x.entryExit.riskReward) &&
      x.confluence.score <= r.confluence.score <= x.confluence.score + 2 &&
      r.confluence.hits == x.confluence.hits &&
      r.ticker == x.ticker && r.lastDate == x.lastDate && r.candles == x.candles && r.lastClose == x.lastClose &&
      r.indicators == x.indicators && r.support == x.support && r.resistance == x.resistance &&
      r.entryExit == x.entryExit
  {
    var t := TallyOf(x);
    RateBounds(t.wins, t.total);
  }

  /** A kept win rate lies between 0.52 and 1, and so its percentage to one decimal between 52 and 100. */
  lemma RateBounds(wins: nat, total: nat)
    requires 0 < total && wins <= total && wins as real / total as real >= MinWinRate
    ensures var rate := wins as real / total as real;
      rate <= 1.0 && 52.0 <= ToFixed(rate * 100.0, 1) <= 100.0
  {
    var w, n := wins as real, total as real;
    var rate := w / n;
    DivMonotone(n, w, n);
    assert n / n == 1.0;
    assert 520 as real / Pow10(1) == 52.0;
    assert 1000 as real / Pow10(1) == 100.0;
    ToFixedAtLeast(rate * 100.0, 1, 520);
    ToFixedAtMost(rate * 100.0, 1, 1000);
  }

  /** A record where no candle reaches the entry makes no trade and is dropped. */
  lemma NoTriggerDropped(x: EntryExit.Planned)
    requires forall i :: 0 <= i < |x.candles| ==> !Triggered(x.candles[i], x.entryExit.entry)
    ensures Test(x).None?
  {
    NoTriggerNoTrades(x.candles, x.entryExit, ScanStart(|x.candles|), ScanEnd(|x.candles|));
  }

  lemma {:induction false} NoTriggerNoTrades(cs: seq<Slot>, lv: EntryExit.Levels, lo: int, hi: nat)
    requires hi <= |cs|
    requires forall i :: 0 <= i < |cs| ==> !Triggered(cs[i], lv.entry)
    ensures Trades(cs, lv, lo, hi).total == 0
    decreases hi
  {
    if hi > lo && hi > 0 {
      NoTriggerNoTrades(cs, lv, lo, hi - 1);
    }
  }
}
