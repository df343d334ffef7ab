/**
 * Data validation and preprocessing: records with too few candles, too many
 * bad candles or no usable last close are dropped; the others keep only their
 * well-formed candles and gain `lastClose` and `isValid`.
 */
module Validation {
  import opened Common

  /** A grouped record as this stage reads it; `candles` is None when missing or not an array */
  datatype RawSeries = RawSeries(ticker: string, lastDate: Date, candles: Option<seq<Slot>>)

  /** The stage's output record */
  datatype Validated = Validated(ticker: string, lastDate: Date, candles: seq<Slot>, lastClose: Num, isValid: bool)

  const MinCandles: nat := 50
  const ValidRatio: real := 0.9

  /** A candle is kept when it is present and its five OHLCV fields are numbers other than NaN. */
  predicate WellFormed(s: Slot) {
    s.Some? && s.value.open.Fin? && s.value.high.Fin? && s.value.low.Fin? && s.value.close.Fin? && s.value.volume.Fin?
  }

  /** The last raw candle is present and its close has number type (NaN passes) */
  predicate LastCloseUsable(cs: seq<Slot>) {
    |cs| > 0 && cs[|cs| - 1].Some? && cs[|cs| - 1].value.close.IsNumber()
  }

  /** What the stage does with one record: None when a gate drops it */
  function ValidateOne(x: RawSeries): Option<Validated> {
    match x.candles
    case None => None
    case Some(cs) =>
      if |cs| < MinCandles then None
      else
        var valid := Filter(cs, WellFormed);
        if (|valid| as real) < (|cs| as real) * ValidRatio then None
        else if !LastCloseUsable(cs) then None
        else Some(Validated(x.ticker, x.lastDate, valid, cs[|cs| - 1].value.close, true))
  }

  /** The stage: a loop that appends each surviving record */
  method ValidateAll(items: seq<RawSeries>) returns (out: seq<Validated>)
    ensures out == FilterMap(items, ValidateOne)
  {
    out := [];
    for i := 0 to |items|
      invariant out == FilterMap(items[..i], ValidateOne)
    {
      FilterMapStep(items, ValidateOne, i);
      var x := items[i];
      if x.candles.None? || |x.candles.value| < MinCandles {
        continue;
      }
      var cs := x.candles.value;
      var valid := FilterWellFormed(cs);
      if (|valid| as real) < (|cs| as real) * ValidRatio {
        continue;
      }
      if |cs| == 0 || cs[|cs| - 1].None? || !cs[|cs| - 1].value.close.IsNumber() {
        continue;
      }
      out := out + [Validated(x.ticker, x.lastDate, valid, cs[|cs| - 1].value.close, true)];
    }
    assert items[..|items|] == items;
  }

  /** `candles.filter(...)`, as a loop */
  method FilterWellFormed(cs: seq<Slot>) returns (valid: seq<Slot>)
    ensures valid == Filter(cs, WellFormed)
  {
    valid := [];
    for i := 0 to |cs|
      invariant valid == Filter(cs[..i], WellFormed)
    {
      FilterStep(cs, WellFormed, i);
      if WellFormed(cs[i]) {
        valid := valid + [cs[i]];
      }
    }
    assert cs[..|cs|] == cs;
  }

  /** A record survives exactly when its candles pass all three gates. */
  lemma ValidateOneGates(x: RawSeries)
    ensures ValidateOne(x).Some? <==>
      x.candles.Some? && |x.candles.value| >= 50 &&
      (|Filter(x.candles.value, WellFormed)| as real) >= (|x.candles.value| as real) * 0.9 &&
      LastCloseUsable(x.candles.value)
  {
  }

  /**
   * A surviving record keeps its ticker and date, holds exactly the well-formed
   * candles in input order, takes the last raw candle's close, and is marked valid.
   */
  lemma ValidateOneOutput(x: RawSeries)
    requires ValidateOne(x).Some?
    ensures var v := ValidateOne(x).value; var cs := x.candles.value;
      v.ticker == x.ticker && v.lastDate == x.lastDate && v.isValid &&
      v.candles == Filter(cs, WellFormed) &&
      (forall s :: s in v.candles <==> s in cs && WellFormed(s)) &&
      |v.candles| >= 45 &&
      v.lastClose == cs[|cs| - 1].value.close && v.lastClose.IsNumber()
  {
    var cs := x.candles.value;
    forall s ensures s in Filter(cs, WellFormed) <==> s in cs && WellFormed(s) {
      FilterKeeps(cs, WellFormed, s);
    }
  }

  /** A NaN close on the last raw candle passes the type check and becomes lastClose. */
  lemma NaNLastClosePasses(x: RawSeries)
    requires x.candles.Some? && |x.candles.value| >= 50
    requires (|Filter(x.candles.value, WellFormed)| as real) >= (|x.candles.value| as real) * 0.9
    requires x.candles.value[|x.candles.value| - 1].Some? && x.candles.value[|x.candles.value| - 1].value.close.NaN?
    ensures ValidateOne(x).Some? && ValidateOne(x).value.lastClose.NaN?
  {
  }

  lemma {:induction false} FilterAllKept(cs: seq<Slot>)
    requires forall i :: 0 <= i < |cs| ==> WellFormed(cs[i])
    ensures Filter(cs, WellFormed) == cs
  {
    if cs != [] {
      FilterAllKept(cs[..|cs| - 1]);
    }
  }

  /** Fifty well-formed candles pass every gate unchanged; forty-nine do not. */
  lemma ExactlyFiftyPasses(x: RawSeries)
    requires x.candles.Some? && forall i :: 0 <= i < |x.candles.value| ==> WellFormed(x.candles.value[i])
    ensures |x.candles.value| == 50 ==> ValidateOne(x).Some? && ValidateOne(x).value.candles == x.candles.value
    ensures |x.candles.value| == 49 ==> ValidateOne(x).None?
  {
    FilterAllKept(x.candles.value);
  }

  /** Surviving records keep their relative input order. */
  lemma ValidateAllOrder(items: seq<RawSeries>, a: nat, b: nat)
    requires a < b < |items| && ValidateOne(items[a]).Some? && ValidateOne(items[b]).Some?
    ensures exists p, q :: (0 <= p < q < |FilterMap(items, ValidateOne)| &&
      FilterMap(items, ValidateOne)[p] == ValidateOne(items[a]).value &&
      FilterMap(items, ValidateOne)[q] == ValidateOne(items[b]).value)
  {
    FilterMapPair(items, ValidateOne, a, b);
  }
}
