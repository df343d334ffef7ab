/**
 * Technical indicators: SMA, EMA, a simple-average RSI, MACD, StochRSI,
 * Bollinger bands and ATR, each computed by an accumulate-in-a-loop method that
 * is proved equal to a specification function, and the per-record bag that
 * collects them.  A candle field read through a missing candle is a non-number
 * (`Common.Get`), so each helper works on the column of the field it reads.
 */
module Indicators {
  import opened Common

  // ---------------------------------------------------------------------------
  // Sums over the numeric (non-NaN) entries of a column

  function FinSum(s: seq<Num>): real {
    if s == [] then 0.0 else FinSum(s[..|s| - 1]) + (if s[|s| - 1].Fin? then s[|s| - 1].r else 0.0)
  }

  function FinCount(s: seq<Num>): (c: nat)
    ensures c <= |s|
  {
    if s == [] then 0 else FinCount(s[..|s| - 1]) + (if s[|s| - 1].Fin? then 1 else 0)
  }

  /** Extending a prefix by one entry adds that entry, if it is a number, to the sum and the count. */
  lemma FinPrefixStep(s: seq<Num>, i: nat)
    requires i < |s|
    ensures FinSum(s[..i + 1]) == FinSum(s[..i]) + (if s[i].Fin? then s[i].r else 0.0)
    ensures FinCount(s[..i + 1]) == FinCount(s[..i]) + (if s[i].Fin? then 1 else 0)
  {
    assert s[..i + 1][..i] == s[..i];
  }

  /** Every numeric entry of s lies in [lo, hi] */
  predicate Bounded(s: seq<Num>, lo: real, hi: real) {
    forall i :: 0 <= i < |s| && s[i].Fin? ==> lo <= s[i].r <= hi
  }

  /** n copies of x added up */
  function Copies(x: real, n: nat): real {
    if n == 0 then 0.0 else Copies(x, n - 1) + x
  }

  lemma {:induction false} CopiesProduct(x: real, n: nat)
    ensures Copies(x, n) == x * n as real
  {
    if n > 0 {
      CopiesProduct(x, n - 1);
      assert x * n as real == x * (n - 1) as real + x;
    }
  }

  lemma {:induction false} FinSumBounds(s: seq<Num>, lo: real, hi: real)
    requires Bounded(s, lo, hi)
    ensures Copies(lo, FinCount(s)) <= FinSum(s) <= Copies(hi, FinCount(s))
  {
    if s != [] {
      BoundedPrefix(s, |s| - 1, lo, hi);
      FinSumBounds(s[..|s| - 1], lo, hi);
    }
  }

  lemma BoundedPrefix(s: seq<Num>, k: nat, lo: real, hi: real)
    requires k <= |s| && Bounded(s, lo, hi)
    ensures Bounded(s[..k], lo, hi)
  {
    forall i | 0 <= i < k && s[..k][i].Fin? ensures lo <= s[..k][i].r <= hi {
      assert s[..k][i] == s[i];
    }
  }

  lemma MeanBounds(sum: real, c: real, lo: real, hi: real)
    requires c > 0.0 && lo * c <= sum <= hi * c
    ensures lo <= sum / c <= hi
  {
    var m := sum / c;
    assert m * c == sum;
    assert (m - lo) * c >= 0.0;
    assert (hi - m) * c >= 0.0;
  }

  // ---------------------------------------------------------------------------
  // SMA

  /** The simple moving average of the last n entries, over their numeric ones; 0 when there is none */
  function SmaOf(col: seq<Num>, n: nat): (r: real)
    ensures |col| == 0 || n > |col| ==> r == 0.0
  {
    if |col| == 0 || n > |col| then 0.0
    else
      var w := Tail(col, n);
      if FinCount(w) > 0 then FinSum(w) / FinCount(w) as real else 0.0
  }

  /** The average lies between the least and the greatest value it averages. */
  lemma SmaBetween(col: seq<Num>, n: nat, lo: real, hi: real)
    requires 0 < |col| && n <= |col| && FinCount(Tail(col, n)) > 0
    requires Bounded(Tail(col, n), lo, hi)
    ensures lo <= SmaOf(col, n) <= hi
  {
    var w := Tail(col, n);
    FinSumBounds(w, lo, hi);
    CopiesProduct(lo, FinCount(w));
    CopiesProduct(hi, FinCount(w));
    MeanBounds(FinSum(w), FinCount(w) as real, lo, hi);
  }

  method Sma(col: seq<Num>, n: nat) returns (r: real)
    ensures r == SmaOf(col, n)
  {
    if |col| == 0 || n > |col| {
      return 0.0;
    }
    var slice := Tail(col, n);
    var sum, count := 0.0, 0;
    for i := 0 to |slice|
      invariant sum == FinSum(slice[..i]) && count == FinCount(slice[..i])
    {
      FinPrefixStep(slice, i);
      if slice[i].Fin? {
        sum := sum + slice[i].r;
        count := count + 1;
      }
    }
    assert slice[..|slice|] == slice;
    r := if count > 0 then sum / count as real else 0.0;
  }

  // ---------------------------------------------------------------------------
  // EMA

  function Alpha(n: nat): real { 2.0 / (n as real + 1.0) }

  /** The EMA updates over xs from `seed`; entries that are not numbers leave it as it is */
  function EmaFold(xs: seq<Num>, alpha: real, seed: Num): Num {
    if xs == [] then seed
    else
      var e := EmaFold(xs[..|xs| - 1], alpha, seed);
      var x := xs[|xs| - 1];
      if x.Fin? then Blend(alpha, x, 1.0 - alpha, e) else e
  }

  /** EMA with smoothing 2/(n+1), seeded with the first entry; 0 when there is no numeric first entry */
  function EmaOf(col: seq<Num>, n: nat): Num {
    if |col| == 0 || col[0].NotNumber? then Fin(0.0) else EmaFold(col[1..], Alpha(n), col[0])
  }

  lemma {:induction false} EmaFoldKind(xs: seq<Num>, alpha: real, seed: Num)
    requires seed.IsNumber()
    ensures EmaFold(xs, alpha, seed).IsNumber()
    ensures EmaFold(xs, alpha, seed).NaN? <==> seed.NaN?
  {
    if xs != [] {
      EmaFoldKind(xs[..|xs| - 1], alpha, seed);
    }
  }

  /** The EMA is always a number; it is NaN exactly when the first entry is NaN, which then poisons every update. */
  lemma EmaKind(col: seq<Num>, n: nat)
    ensures EmaOf(col, n).IsNumber()
    ensures EmaOf(col, n).NaN? <==> |col| > 0 && col[0].NaN?
  {
    if |col| > 0 && col[0].IsNumber() {
      EmaFoldKind(col[1..], Alpha(n), col[0]);
    }
  }

  /** A one-entry column's EMA is that entry, and a later non-number entry changes nothing. */
  lemma EmaSingleAndSkip(col: seq<Num>, n: nat, x: Num)
    requires |col| > 0 && col[0].IsNumber() && !x.Fin?
    ensures EmaOf([col[0]], n) == col[0]
    ensures EmaOf(col + [x], n) == EmaOf(col, n)
  {
    assert [col[0]][1..] == [];
    assert (col + [x])[1..] == col[1..] + [x];
    assert (col[1..] + [x])[..|col[1..] + [x]| - 1] == col[1..];
  }

  lemma Convex(a: real, x: real, e: real, lo: real, hi: real)
    requires 0.0 < a <= 1.0 && lo <= x <= hi && lo <= e <= hi
    ensures lo <= a * x + (1.0 - a) * e <= hi
  {
    MulNonNegative(a, x - lo);
    MulNonNegative(a, hi - x);
    MulNonNegative(1.0 - a, e - lo);
    MulNonNegative(1.0 - a, hi - e);
  }

  lemma {:induction false} EmaFoldBetween(xs: seq<Num>, alpha: real, seed: real, lo: real, hi: real)
    requires 0.0 < alpha <= 1.0 && lo <= seed <= hi && Bounded(xs, lo, hi)
    ensures EmaFold(xs, alpha, Fin(seed)).Fin?
    ensures lo <= EmaFold(xs, alpha, Fin(seed)).r <= hi
  {
    if xs != [] {
      var init := xs[..|xs| - 1];
      assert Bounded(init, lo, hi) by {
        forall i | 0 <= i < |init| && init[i].Fin? ensures lo <= init[i].r <= hi {
          assert init[i] == xs[i];
        }
      }
      EmaFoldBetween(init, alpha, seed, lo, hi);
      var x := xs[|xs| - 1];
      if x.Fin? {
        Convex(alpha, x.r, EmaFold(init, alpha, Fin(seed)).r, lo, hi);
      }
    }
  }

  /** For a period of at least 1 the EMA is a weighted mean: it stays within the range of the values. */
  lemma EmaBetween(col: seq<Num>, n: nat, lo: real, hi: real)
    requires n >= 1 && |col| > 0 && col[0].Fin? && Bounded(col, lo, hi)
    ensures EmaOf(col, n).Fin? && lo <= EmaOf(col, n).r <= hi
  {
    assert lo <= col[0].r <= hi;
    assert Bounded(col[1..], lo, hi) by {
      forall i | 0 <= i < |col[1..]| && col[1..][i].Fin? ensures lo <= col[1..][i].r <= hi {
        assert col[1..][i] == col[i + 1];
      }
    }
    assert Alpha(n) <= 1.0;
    EmaFoldBetween(col[1..], Alpha(n), col[0].r, lo, hi);
  }

  /** One more entry updates the EMA if it is a number and leaves it unchanged otherwise. */
  lemma EmaFoldStep(col: seq<Num>, alpha: real, i: nat)
    requires 1 <= i < |col|
    ensures EmaFold(col[1..i + 1], alpha, col[0]) ==
      if col[i].Fin? then Blend(alpha, col[i], 1.0 - alpha, EmaFold(col[1..i], alpha, col[0]))
      else EmaFold(col[1..i], alpha, col[0])
  {
    assert col[1..i + 1][..i - 1] == col[1..i];
  }

  method Ema(col: seq<Num>, n: nat) returns (e: Num)
    ensures e == EmaOf(col, n)
  {
    if |col| == 0 || col[0].NotNumber? {
      return Fin(0.0);
    }
    var alpha := 2.0 / (n as real + 1.0);
    e := col[0];
    for i := 1 to |col|
      invariant e == EmaFold(col[1..i], alpha, col[0])
    {
      EmaFoldStep(col, alpha, i);
      if col[i].Fin? {
        e := Blend(alpha, col[i], 1.0 - alpha, e);
      }
    }
    assert col[1..|col|] == col[1..];
  }

  // ---------------------------------------------------------------------------
  // RSI

  /** Gains, losses and the number of consecutive close pairs that were both numeric */
  datatype Tally = Tally(gains: real, losses: real, pairs: nat)

  /** The tally of the pairs (col[k], col[k+1]) for start <= k < end */
  function PairTally(col: seq<Num>, start: nat, end: nat): (t: Tally)
    requires start <= end < |col|
    ensures t.gains >= 0.0 && t.losses >= 0.0 && t.pairs <= end - start
    ensures t.pairs == 0 ==> t.gains == 0.0 && t.losses == 0.0
  {
    if end == start then Tally(0.0, 0.0, 0)
    else
      var t := PairTally(col, start, end - 1);
      var a, b := col[end - 1], col[end];
      if a.Fin? && b.Fin? then
        var diff := b.r - a.r;
        if diff >= 0.0 then Tally(t.gains + diff, t.losses, t.pairs + 1)
        else Tally(t.gains, t.losses - diff, t.pairs + 1)
      else t
  }

  /** RSI over the last n close pairs with plain averages; 50 when it cannot be computed */
  function RsiOf(col: seq<Num>, n: nat): (r: real)
    ensures 0.0 <= r <= 100.0
    ensures |col| < n + 1 ==> r == 50.0
  {
    if |col| < n + 1 then 50.0
    else
      var t := PairTally(col, |col| - n - 1, |col| - 1);
      if t.pairs == 0 then 50.0
      else
        var avgGains := t.gains / t.pairs as real;
        var avgLosses := t.losses / t.pairs as real;
        if avgLosses == 0.0 then (if avgGains > 0.0 then 100.0 else 50.0)
        else
          var rs := avgGains / avgLosses;
          var rsi := 100.0 - 100.0 / (1.0 + rs);
          Max(0.0, Min(100.0, rsi))
  }

  /** A numeric, strictly monotone close column */
  predicate Falling(col: seq<Num>) {
    (forall k :: 0 <= k < |col| ==> col[k].Fin?) && forall k :: 0 < k < |col| ==> col[k].r < col[k - 1].r
  }

  predicate Rising(col: seq<Num>) {
    (forall k :: 0 <= k < |col| ==> col[k].Fin?) && forall k :: 0 < k < |col| ==> col[k].r > col[k - 1].r
  }

  lemma {:induction false} TallyMonotone(col: seq<Num>, start: nat, end: nat)
    requires start <= end < |col|
    ensures Falling(col) ==> PairTally(col, start, end) == Tally(0.0, PairTally(col, start, end).losses, end - start)
    ensures Falling(col) && end > start ==> PairTally(col, start, end).losses > 0.0
    ensures Rising(col) ==> PairTally(col, start, end) == Tally(PairTally(col, start, end).gains, 0.0, end - start)
    ensures Rising(col) && end > start ==> PairTally(col, start, end).gains > 0.0
  {
    if end > start {
      TallyMonotone(col, start, end - 1);
    }
  }

  /** A strictly falling close series has RSI 0, a strictly rising one RSI 100. */
  lemma RsiMonotone(col: seq<Num>, n: nat)
    requires n >= 1 && |col| >= n + 1
    ensures Falling(col) ==> RsiOf(col, n) == 0.0
    ensures Rising(col) ==> RsiOf(col, n) == 100.0
  {
    var t := PairTally(col, |col| - n - 1, |col| - 1);
    TallyMonotone(col, |col| - n - 1, |col| - 1);
    if Falling(col) {
      var p := t.pairs as real;
      assert t.gains / p == 0.0;
      assert t.losses / p > 0.0;
    }
  }

  method Rsi(col: seq<Num>, n: nat) returns (r: real)
    ensures r == RsiOf(col, n)
  {
    if |col| < n + 1 {
      return 50.0;
    }
    var gains, losses, validPairs := 0.0, 0.0, 0;
    var start := |col| - n - 1;
    for i := start to |col| - 1
      invariant Tally(gains, losses, validPairs) == PairTally(col, start, i)
    {
      if col[i].Fin? && col[i + 1].Fin? {
        var diff := col[i + 1].r - col[i].r;
        if diff >= 0.0 {
          gains := gains + diff;
        } else {
          losses := losses - diff;
        }
        validPairs := validPairs + 1;
      }
    }
    if validPairs == 0 {
      return 50.0;
    }
    var avgGains := gains / validPairs as real;
    var avgLosses := losses / validPairs as real;
    if avgLosses == 0.0 {
      return if avgGains > 0.0 then 100.0 else 50.0;
    }
    var rs := avgGains / avgLosses;
    var rsi := 100.0 - 100.0 / (1.0 + rs);
    r := Max(0.0, Min(100.0, rsi));
  }

  // ---------------------------------------------------------------------------
  // MACD

  datatype Macd = Macd(macdLine: Num, signalLine: Num, histogram: Num)

  const ZeroMacd := Macd(Fin(0.0), Fin(0.0), Fin(0.0))

  /** EMA12 − EMA26 */
  function MacdValue(col: seq<Num>): Num {
    Minus(EmaOf(col, 12), EmaOf(col, 26))
  }

  /** The non-NaN MACD values of the prefixes col[..k+1] for 26 <= k < i */
  function MacdHistory(col: seq<Num>, i: nat): (h: seq<real>)
    requires 26 <= i <= |col|
    ensures |h| <= i - 26
  {
    if i == 26 then []
    else
      var h := MacdHistory(col, i - 1);
      var v := MacdValue(col[..i]);
      if v.Fin? then h + [v.r] else h
  }

  function Fins(h: seq<real>): (s: seq<Num>)
    ensures |s| == |h| && forall i :: 0 <= i < |h| ==> s[i] == Fin(h[i])
  {
    seq(|h|, i requires 0 <= i < |h| => Fin(h[i]))
  }

  /** MACD line, a 9-period EMA of its history as signal line, and their difference */
  function MacdOf(col: seq<Num>): Macd {
    if |col| < 26 then ZeroMacd
    else
      var line := MacdValue(col);
      var h := MacdHistory(col, |col|);
      if h == [] then ZeroMacd
      else
        var signal := EmaOf(Fins(h), 9);
        Macd(line, signal, Minus(line, signal))
  }

  lemma {:induction false} MacdHistoryNaN(col: seq<Num>, i: nat)
    requires 26 <= i <= |col| && col[0].NaN?
    ensures MacdHistory(col, i) == []
  {
    if i > 26 {
      MacdHistoryNaN(col, i - 1);
      EmaKind(col[..i], 12);
    }
  }

  /**
   * The MACD values are numbers, histogram = macdLine − signalLine exactly, and the
   * last history entry is the MACD line itself; with 26 candles or fewer all are 0.
   */
  lemma MacdProperties(col: seq<Num>)
    ensures |col| <= 26 ==> MacdOf(col) == ZeroMacd
    ensures var m := MacdOf(col);
      m.macdLine.Fin? && m.signalLine.Fin? && m.histogram == Fin(m.macdLine.r - m.signalLine.r)
    ensures |col| >= 26 && MacdHistory(col, |col|) != [] ==>
      MacdHistory(col, |col|)[|MacdHistory(col, |col|)| - 1] == MacdOf(col).macdLine.r
  {
    if |col| >= 26 {
      var h := MacdHistory(col, |col|);
      if h != [] {
        if col[0].NaN? {
          MacdHistoryNaN(col, |col|);
        }
        EmaKind(col, 12);
        EmaKind(col, 26);
        assert col[..|col|] == col;
        EmaKind(Fins(h), 9);
      }
    }
  }

  method MacdMethod(col: seq<Num>) returns (m: Macd)
    ensures m == MacdOf(col)
  {
    if |col| < 26 {
      return ZeroMacd;
    }
    var ema12 := Ema(col, 12);
    var ema26 := Ema(col, 26);
    var macdLine := Minus(ema12, ema26);
    var history := MacdHistoryLoop(col);
    if |history| == 0 {
      return ZeroMacd;
    }
    var signalLine := Ema(Fins(history), 9);
    m := Macd(macdLine, signalLine, Minus(macdLine, signalLine));
  }

  /** The history loop: EMA12 and EMA26 recomputed on every prefix */
  method MacdHistoryLoop(col: seq<Num>) returns (history: seq<real>)
    requires |col| >= 26
    ensures history == MacdHistory(col, |col|)
  {
    history := [];
    for i := 26 to |col|
      invariant history == MacdHistory(col, i)
    {
      var slice := col[..i + 1];
      var e12 := Ema(slice, 12);
      var e26 := Ema(slice, 26);
      var macdValue := Minus(e12, e26);
      if macdValue.Fin? {
        history := history + [macdValue.r];
      }
    }
  }

  // ---------------------------------------------------------------------------
  // StochRSI

  /** RSI of the prefixes col[..k+1] for period <= k < i */
  function RsiHistory(col: seq<Num>, period: nat, i: nat): (h: seq<real>)
    requires period <= i <= |col|
    ensures |h| == i - period
  {
    if i == period then [] else RsiHistory(col, period, i - 1) + [RsiOf(col[..i], period)]
  }

  function SeqMin(s: seq<real>): (m: real)
    requires |s| > 0
    ensures forall i :: 0 <= i < |s| ==> m <= s[i]
  {
    if |s| == 1 then s[0] else Min(SeqMin(s[..|s| - 1]), s[|s| - 1])
  }

  function SeqMax(s: seq<real>): (m: real)
    requires |s| > 0
    ensures forall i :: 0 <= i < |s| ==> s[i] <= m
  {
    if |s| == 1 then s[0] else Max(SeqMax(s[..|s| - 1]), s[|s| - 1])
  }

  /** Where the current RSI sits between the least and greatest of the last `period` RSI values */
  function StochOf(col: seq<Num>, period: nat): real
    requires period >= 1
  {
    if |col| < period * 2 then 0.0
    else
      var h := RsiHistory(col, period, |col|);
      if |h| < period then 0.0
      else
        var recent := Tail(h, period);
        var lo, hi := SeqMin(recent), SeqMax(recent);
        var current := h[|h| - 1];
        if hi != lo then (current - lo) / (hi - lo) else 0.0
  }

  /** StochRSI lies in [0, 1], because the current RSI is one of the values it is compared with. */
  lemma StochRange(col: seq<Num>, period: nat)
    requires period >= 1
    ensures 0.0 <= StochOf(col, period) <= 1.0
  {
    if |col| >= period * 2 {
      var h := RsiHistory(col, period, |col|);
      if |h| >= period {
        var recent := Tail(h, period);
        var lo, hi := SeqMin(recent), SeqMax(recent);
        var current := h[|h| - 1];
        assert current == recent[|recent| - 1];
        if hi != lo {
          MeanBounds(current - lo, hi - lo, 0.0, 1.0);
        }
      }
    }
  }

  method StochRsi(col: seq<Num>, period: nat) returns (r: real)
    requires period >= 1
    ensures r == StochOf(col, period)
  {
    if |col| < period * 2 {
      return 0.0;
    }
    var rsiValues := [];
    for i := period to |col|
      invariant rsiValues == RsiHistory(col, period, i)
    {
      var rsiValue := Rsi(col[..i + 1], period);
      rsiValues := rsiValues + [rsiValue];
    }
    if |rsiValues| < period {
      return 0.0;
    }
    var recent := Tail(rsiValues, period);
    var lo, hi := SeqMin(recent), SeqMax(recent);
    var current := rsiValues[|rsiValues| - 1];
    r := if hi != lo then (current - lo) / (hi - lo) else 0.0;
  }

  // ---------------------------------------------------------------------------
  // Bollinger bands

  datatype Bands = Bands(upper: real, middle: real, lower: real)

  const ZeroBands := Bands(0.0, 0.0, 0.0)

  /** `Math.pow(d, 2)` */
  function Square(d: real): (r: real)
    ensures r >= 0.0
  {
    if d >= 0.0 then (MulNonNegative(d, d); d * d) else (MulNonNegative(-d, -d); d * d)
  }

  /** The sum of squared deviations from m of the numeric entries */
  function SquaredDeviations(s: seq<Num>, m: real): (v: real)
    ensures v >= 0.0
  {
    if s == [] then 0.0
    else
      var x := s[|s| - 1];
      SquaredDeviations(s[..|s| - 1], m) + (if x.Fin? then Square(x.r - m) else 0.0)
  }

  /** SMA ± 2 standard deviations of the closes of the last `period` candles */
  function BollingerOf(col: seq<Num>, period: nat, sqrt: Sqrt): Bands {
    if |col| < period then ZeroBands
    else
      var sma := SmaOf(col, period);
      if sma == 0.0 then ZeroBands
      else
        var w := col[|col| - period..];
        var count := FinCount(w);
        if count == 0 then Bands(sma, sma, sma)
        else
          var stdDev := sqrt(SquaredDeviations(w, sma) / count as real);
          Bands(sma + stdDev * 2.0, sma, sma - stdDev * 2.0)
  }

  /** Zero bands for short input or a zero average; otherwise the middle band is the SMA and the bands are symmetric around it. */
  lemma BollingerShape(col: seq<Num>, period: nat, sqrt: Sqrt)
    ensures |col| < period || SmaOf(col, period) == 0.0 ==> BollingerOf(col, period, sqrt) == ZeroBands
    ensures |col| >= period && SmaOf(col, period) != 0.0 ==>
      var b := BollingerOf(col, period, sqrt);
      b.middle == SmaOf(col, period) && b.upper - b.middle == b.middle - b.lower >= 0.0
  {
    if |col| >= period && SmaOf(col, period) != 0.0 {
      var w := col[|col| - period..];
      if FinCount(w) > 0 {
        var v := SquaredDeviations(w, SmaOf(col, period)) / FinCount(w) as real;
        assert v >= 0.0;
        assert sqrt(v) >= 0.0;
      }
    }
  }

  method Bollinger(col: seq<Num>, period: nat, sqrt: Sqrt) returns (b: Bands)
    ensures b == BollingerOf(col, period, sqrt)
  {
    if |col| < period {
      return ZeroBands;
    }
    var sma := Sma(col, period);
    if sma == 0.0 {
      return ZeroBands;
    }
    var variance, validCount := Deviations(col[|col| - period..], sma);
    if validCount == 0 {
      return Bands(sma, sma, sma);
    }
    var stdDev := sqrt(variance / validCount as real);
    b := Bands(sma + stdDev * 2.0, sma, sma - stdDev * 2.0);
  }

  /** The variance loop over the window of the last `period` closes */
  method Deviations(w: seq<Num>, sma: real) returns (variance: real, validCount: nat)
    ensures variance == SquaredDeviations(w, sma) && validCount == FinCount(w)
  {
    variance, validCount := 0.0, 0;
    for i := 0 to |w|
      invariant variance == SquaredDeviations(w[..i], sma) && validCount == FinCount(w[..i])
    {
      assert w[..i + 1][..i] == w[..i];
      if w[i].Fin? {
        variance := variance + Square(w[i].r - sma);
        validCount := validCount + 1;
      }
    }
    assert w[..|w|] == w;
  }

  // ---------------------------------------------------------------------------
  // ATR

  function Abs(x: real): real { if x < 0.0 then -x else x }

  /** The greatest of high − low, |high − previous close| and |low − previous close| */
  function TrueRange(h: real, l: real, p: real): (r: real)
    ensures r >= 0.0 && r >= h - l && r >= Abs(h - p) && r >= Abs(l - p)
  {
    Max(h - l, Max(Abs(h - p), Abs(l - p)))
  }

  /** The true ranges of the candles k in [1, i) whose high, low and previous close are numeric */
  function TrueRanges(cs: seq<Slot>, i: nat): (tr: seq<real>)
    requires 1 <= i <= |cs|
    ensures |tr| <= i - 1
    ensures forall k :: 0 <= k < |tr| ==> tr[k] >= 0.0
  {
    if i == 1 then []
    else
      var tr := TrueRanges(cs, i - 1);
      var h, l, p := Get(cs[i - 1], High), Get(cs[i - 1], Low), Get(cs[i - 2], Close);
      if h.Fin? && l.Fin? && p.Fin? then tr + [TrueRange(h.r, l.r, p.r)] else tr
  }

  /** The mean of the last `period` true ranges; 0 with fewer than two candles or too few true ranges */
  function AtrOf(cs: seq<Slot>, period: nat): real
    requires period >= 1
  {
    if |cs| < 2 then 0.0
    else
      var tr := TrueRanges(cs, |cs|);
      if |tr| < period then 0.0 else Sum(Tail(tr, period)) / period as real
  }

  lemma {:induction false} SumNonNegative(s: seq<real>)
    requires forall k :: 0 <= k < |s| ==> s[k] >= 0.0
    ensures Sum(s) >= 0.0
  {
    if s != [] {
      SumNonNegative(s[..|s| - 1]);
    }
  }

  /** ATR is never negative, and it is 0 whenever fewer than `period` true ranges exist. */
  lemma AtrNonNegative(cs: seq<Slot>, period: nat)
    requires period >= 1
    ensures AtrOf(cs, period) >= 0.0
    ensures |cs| >= 2 && |TrueRanges(cs, |cs|)| < period ==> AtrOf(cs, period) == 0.0
  {
    if |cs| >= 2 {
      var tr := TrueRanges(cs, |cs|);
      if |tr| >= period {
        var w := Tail(tr, period);
        assert forall k :: 0 <= k < |w| ==> w[k] == tr[|tr| - period + k];
        SumNonNegative(w);
        DivNonNegative(Sum(w), period as real);
      }
    }
  }

  method Atr(cs: seq<Slot>, period: nat) returns (r: real)
    requires period >= 1
    ensures r == AtrOf(cs, period)
  {
    if |cs| < 2 {
      return 0.0;
    }
    var tr := [];
    for i := 1 to |cs|
      invariant tr == TrueRanges(cs, i)
    {
      var h, l, p := Get(cs[i], High), Get(cs[i], Low), Get(cs[i - 1], Close);
      if h.Fin? && l.Fin? && p.Fin? {
        tr := tr + [TrueRange(h.r, l.r, p.r)];
      }
    }
    if |tr| < period {
      return 0.0;
    }
    r := Sum(Tail(tr, period)) / period as real;
  }

  // ---------------------------------------------------------------------------
  // The per-record bag and the stage

  datatype Bag = Bag(
    sma20: real, sma50: real, ema21: Num, rsi: real, stochRsi: real, macd: Macd,
    bollingerBands: Bands, atr14: real, atr21: real, volSMA20: real, volSMA5: real, currentVolume: Num)

  /** The bag of a record whose candles are missing or not an array */
  const DefaultBag := Bag(0.0, 0.0, Fin(0.0), 50.0, 0.0, ZeroMacd, ZeroBands, 0.0, 0.0, 0.0, 0.0, Fin(0.0))

  /** The last candle's volume when it has number type (NaN included), else 0 */
  function CurrentVolume(cs: seq<Slot>): Num {
    if |cs| > 0 && cs[|cs| - 1].Some? && cs[|cs| - 1].value.volume.IsNumber() then cs[|cs| - 1].value.volume
    else Fin(0.0)
  }

  function BagOf(cs: seq<Slot>, sqrt: Sqrt): Bag {
    var closes, volumes := Column(cs, Close), Column(cs, Volume);
    Bag(SmaOf(closes, 20), SmaOf(closes, 50), EmaOf(closes, 21), RsiOf(closes, 14), StochOf(closes, 14),
        MacdOf(closes), BollingerOf(closes, 20, sqrt), AtrOf(cs, 14), AtrOf(cs, 21),
        SmaOf(volumes, 20), SmaOf(volumes, 5), CurrentVolume(cs))
  }

  /** A validated record as this stage reads it; `candles` is None when missing or not an array */
  datatype Input = Input(ticker: string, lastDate: Date, candles: Option<seq<Slot>>, lastClose: Num)

  datatype Priced = Priced(ticker: string, lastDate: Date, candles: seq<Slot>, lastClose: Num, indicators: Bag)

  function Analyse(x: Input, sqrt: Sqrt): Priced {
    match x.candles
    case None => Priced(x.ticker, x.lastDate, [], x.lastClose, DefaultBag)
    case Some(cs) => Priced(x.ticker, x.lastDate, cs, x.lastClose, BagOf(cs, sqrt))
  }

  /** The bag's indicator values keep the bounds of their definitions. */
  lemma BagBounds(cs: seq<Slot>, sqrt: Sqrt)
    ensures var b := BagOf(cs, sqrt);
      0.0 <= b.rsi <= 100.0 && 0.0 <= b.stochRsi <= 1.0 && b.atr14 >= 0.0 && b.atr21 >= 0.0 &&
      b.macd.macdLine.Fin? && b.macd.signalLine.Fin? &&
      b.macd.histogram == Fin(b.macd.macdLine.r - b.macd.signalLine.r) &&
      b.bollingerBands.upper - b.bollingerBands.middle == b.bollingerBands.middle - b.bollingerBands.lower >= 0.0 &&
      b.currentVolume.IsNumber()
  {
    var closes := Column(cs, Close);
    StochRange(closes, 14);
    AtrNonNegative(cs, 14);
    AtrNonNegative(cs, 21);
    MacdProperties(closes);
    BollingerShape(closes, 20, sqrt);
  }

  method ComputeBag(cs: seq<Slot>, sqrt: Sqrt) returns (b: Bag)
    ensures b == BagOf(cs, sqrt)
  {
    var closes, volumes := Column(cs, Close), Column(cs, Volume);
    var sma20 := Sma(closes, 20);
    var sma50 := Sma(closes, 50);
    var ema21 := Ema(closes, 21);
    var rsi := Rsi(closes, 14);
    var stochRsi := StochRsi(closes, 14);
    var macd := MacdMethod(closes);
    var bands := Bollinger(closes, 20, sqrt);
    var atr14 := Atr(cs, 14);
    var atr21 := Atr(cs, 21);
    var volSma20 := Sma(volumes, 20);
    var volSma5 := Sma(volumes, 5);
    b := Bag(sma20, sma50, ema21, rsi, stochRsi, macd, bands, atr14, atr21, volSma20, volSma5, CurrentVolume(cs));
  }

  /** The stage: one output per input, in order; nothing is dropped */
  method CalculateIndicators(items: seq<Input>, sqrt: Sqrt) returns (out: seq<Priced>)
    ensures |out| == |items|
    ensures forall i :: 0 <= i < |items| ==> out[i] == Analyse(items[i], sqrt)
  {
    ghost var f := (x: Input) => Analyse(x, sqrt);
    out := [];
    for i := 0 to |items|
      invariant |out| == i
      invariant forall j :: 0 <= j < i ==> out[j] == f(items[j])
    {
      var x := items[i];
      MapStep(out, items, f, i);
      if x.candles.None? {
        out := out + [Priced(x.ticker, x.lastDate, [], x.lastClose, DefaultBag)];
        continue;
      }
      var bag := ComputeBag(x.candles.value, sqrt);
      out := out + [Priced(x.ticker, x.lastDate, x.candles.value, x.lastClose, bag)];
    }
  }
}
