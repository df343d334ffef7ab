/**
 * Pivot points and support/resistance detection: windowed local highs and
 * lows with a volume-weighted strength, clustered within 1.5%, then the
 * nearest support below and the nearest resistance above the last close.
 */
module Pivots {
  import opened Common
  import opened StableSort
  import Indicators

  datatype Kind = R | S

  datatype Pivot = Pivot(kind: Kind, price: real, strength: real, index: nat)

  /** The chosen support, with its age and how many clustered supports retest it */
  datatype Support = Support(price: real, strength: real, index: nat, age: int, tests: nat)

  datatype PivotSets = PivotSets(all: seq<Pivot>, supports: seq<Pivot>, resistances: seq<Pivot>)

  datatype Levels = Levels(
    ticker: string, lastDate: Date, candles: seq<Slot>, lastClose: real, indicators: Indicators.Bag,
    support: Support, resistance: Pivot, pivots: PivotSets)

  const Lookback: nat := 5
  const ClusterThreshold: real := 0.015
  const RetestBand: real := 0.02

  // ---------------------------------------------------------------------------
  // Window arithmetic on numbers that may be NaN

  function NumMax(a: Num, b: Num): Num { if a.Fin? && b.Fin? then Fin(Max(a.r, b.r)) else NaN }
  function NumMin(a: Num, b: Num): Num { if a.Fin? && b.Fin? then Fin(Min(a.r, b.r)) else NaN }
  function NumAdd(a: Num, b: Num): Num { if a.Fin? && b.Fin? then Fin(a.r + b.r) else NaN }

  /** `Math.max(...w)`: NaN as soon as one entry is not an ordinary number */
  function Highest(w: seq<Num>): Num
    requires |w| > 0
  {
    if |w| == 1 then NumMax(w[0], w[0]) else NumMax(Highest(w[..|w| - 1]), w[|w| - 1])
  }

  /** `Math.min(...w)` */
  function Lowest(w: seq<Num>): Num
    requires |w| > 0
  {
    if |w| == 1 then NumMin(w[0], w[0]) else NumMin(Lowest(w[..|w| - 1]), w[|w| - 1])
  }

  /** `w.reduce((sum, v) => sum + v, 0)` */
  function NumSum(w: seq<Num>): Num {
    if w == [] then Fin(0.0) else NumAdd(NumSum(w[..|w| - 1]), w[|w| - 1])
  }

  lemma {:induction false} HighestBound(w: seq<Num>)
    requires |w| > 0
    ensures Highest(w).Fin? <==> forall j :: 0 <= j < |w| ==> w[j].Fin?
    ensures Highest(w).Fin? ==> forall j :: 0 <= j < |w| ==> w[j].r <= Highest(w).r
  {
    if |w| > 1 {
      HighestBound(w[..|w| - 1]);
      assert forall j :: 0 <= j < |w| - 1 ==> w[..|w| - 1][j] == w[j];
    }
  }

  lemma {:induction false} LowestBound(w: seq<Num>)
    requires |w| > 0
    ensures Lowest(w).Fin? <==> forall j :: 0 <= j < |w| ==> w[j].Fin?
    ensures Lowest(w).Fin? ==> forall j :: 0 <= j < |w| ==> Lowest(w).r <= w[j].r
  {
    if |w| > 1 {
      LowestBound(w[..|w| - 1]);
      assert forall j :: 0 <= j < |w| - 1 ==> w[..|w| - 1][j] == w[j];
    }
  }

  // ---------------------------------------------------------------------------
  // Pivot detection

  predicate HasWindow(cs: seq<Slot>, i: nat) { Lookback <= i && i + Lookback < |cs| }

  /** `candles.slice(i - 5, i + 6)` */
  function Window(cs: seq<Slot>, i: nat): (w: seq<Slot>)
    requires HasWindow(cs, i)
    ensures |w| == 2 * Lookback + 1
  {
    cs[i - Lookback..i + Lookback + 1]
  }

  /** A window candle must be present with high, low and volume of number type (NaN passes) */
  predicate Usable(s: Slot) {
    s.Some? && s.value.high.IsNumber() && s.value.low.IsNumber() && s.value.volume.IsNumber()
  }

  /** candles[i].volume over the window's mean volume, or 1 when that mean is not a positive number */
  function VolumeWeight(cs: seq<Slot>, i: nat): real
    requires HasWindow(cs, i)
  {
    var w := Window(cs, i);
    var total := NumSum(Column(w, Volume));
    var v := Get(cs[i], Volume);
    // A numeric total implies a numeric candles[i].volume; the last test only names it.
    if total.Fin? && total.r / |w| as real > 0.0 && v.Fin? then v.r / (total.r / |w| as real) else 1.0
  }

  /** What index i contributes: an R pivot when its high is the window's highest, then an S pivot when its low is the lowest */
  function PivotsAt(cs: seq<Slot>, i: nat): seq<Pivot>
    requires HasWindow(cs, i)
  {
    var w := Window(cs, i);
    if |Filter(w, Usable)| != |w| then []
    else
      var hiMax, loMin := Highest(Column(w, High)), Lowest(Column(w, Low));
      var weight := VolumeWeight(cs, i);
      var h, l := Get(cs[i], High), Get(cs[i], Low);
      (if Same(h, hiMax) then [Pivot(R, h.r, weight, i)] else []) +
      (if Same(l, loMin) then [Pivot(S, l.r, weight, i)] else [])
  }

  /** The pivots of the indices Lookback <= k < i */
  function PivotsUpTo(cs: seq<Slot>, i: nat): seq<Pivot>
    requires Lookback <= i && i + Lookback <= |cs|
  {
    if i == Lookback then [] else PivotsUpTo(cs, i - 1) + PivotsAt(cs, i - 1)
  }

  function AllPivots(cs: seq<Slot>): seq<Pivot> {
    if |cs| < 2 * Lookback + 1 then [] else PivotsUpTo(cs, |cs| - Lookback)
  }

  /** The pivot loop */
  method DetectPivots(cs: seq<Slot>) returns (pivots: seq<Pivot>)
    requires |cs| >= 2 * Lookback + 1
    ensures pivots == AllPivots(cs)
  {
    pivots := [];
    var i := Lookback;
    while i + Lookback < |cs|
      invariant Lookback <= i && i + Lookback <= |cs|
      invariant pivots == PivotsUpTo(cs, i)
    {
      pivots := PushPivotsAt(cs, i, pivots);
      i := i + 1;
    }
    assert i == |cs| - Lookback;
  }

  lemma PivotsUpToStep(cs: seq<Slot>, i: nat)
    requires Lookback <= i && i + Lookback < |cs|
    ensures PivotsUpTo(cs, i + 1) == PivotsUpTo(cs, i) + PivotsAt(cs, i)
  {
  }

  /** One pass of the pivot loop: the window's tests, then up to two pushes after the pivots of the earlier indices */
  method PushPivotsAt(cs: seq<Slot>, i: nat, pivots: seq<Pivot>) returns (pushed: seq<Pivot>)
    requires HasWindow(cs, i) && pivots == PivotsUpTo(cs, i)
    ensures pushed == PivotsUpTo(cs, i + 1)
  {
    PivotsUpToStep(cs, i);
    pushed := pivots;
    var slice := cs[i - Lookback..i + Lookback + 1];
    assert slice == Window(cs, i);
    var validSlice := Filter(slice, Usable);
    if |validSlice| != |slice| {
      return;
    }
    var hiMax, loMin := Highest(Column(slice, High)), Lowest(Column(slice, Low));
    var total := NumSum(Column(slice, Volume));
    var v := Get(cs[i], Volume);
    var volumeWeight := if total.Fin? && total.r / |slice| as real > 0.0 && v.Fin? then v.r / (total.r / |slice| as real) else 1.0;
    assert volumeWeight == VolumeWeight(cs, i);
    var h, l := Get(cs[i], High), Get(cs[i], Low);
    if Same(h, hiMax) {
      pushed := pushed + [Pivot(R, h.r, volumeWeight, i)];
    }
    if Same(l, loMin) {
      pushed := pushed + [Pivot(S, l.r, volumeWeight, i)];
    }
  }

  /** What a pivot promises about its window */
  predicate PivotOfWindow(cs: seq<Slot>, p: Pivot)
  {
    HasWindow(cs, p.index) &&
    (forall j :: 0 <= j < |Window(cs, p.index)| ==> Usable(Window(cs, p.index)[j])) &&
    (p.kind == R ==>
      Get(cs[p.index], High) == Fin(p.price) &&
      forall j :: p.index - Lookback <= j <= p.index + Lookback ==> Get(cs[j], High).Fin? && Get(cs[j], High).r <= p.price) &&
    (p.kind == S ==>
      Get(cs[p.index], Low) == Fin(p.price) &&
      forall j :: p.index - Lookback <= j <= p.index + Lookback ==> Get(cs[j], Low).Fin? && p.price <= Get(cs[j], Low).r) &&
    p.strength == VolumeWeight(cs, p.index)
  }

  lemma {:induction false} FilterAllKept<T>(s: seq<T>, p: T -> bool)
    requires |Filter(s, p)| == |s|
    ensures forall j :: 0 <= j < |s| ==> p(s[j])
  {
    if s != [] {
      var init := s[..|s| - 1];
      FilterAllKept(init, p);
      assert forall j :: 0 <= j < |init| ==> init[j] == s[j];
    }
  }

  lemma PivotsAtFacts(cs: seq<Slot>, i: nat, p: Pivot)
    requires HasWindow(cs, i) && p in PivotsAt(cs, i)
    ensures p.index == i && PivotOfWindow(cs, p)
  {
    var w := Window(cs, i);
    FilterAllKept(w, Usable);
    var highs, lows := Column(w, High), Column(w, Low);
    HighestBound(highs);
    LowestBound(lows);
    forall j | i - Lookback <= j <= i + Lookback
      ensures Get(cs[j], High) == highs[j - (i - Lookback)] && Get(cs[j], Low) == lows[j - (i - Lookback)]
    {
      assert w[j - (i - Lookback)] == cs[j];
    }
  }

  /** A pivot found at index i carries that index */
  lemma PivotsAtIndex(cs: seq<Slot>, i: nat, p: Pivot)
    requires HasWindow(cs, i) && p in PivotsAt(cs, i)
    ensures p.index == i
  {
  }

  /** A pivot found among the indices below i was found at its own index */
  lemma {:induction false} PivotsUpToOrigin(cs: seq<Slot>, i: nat, p: Pivot)
    requires Lookback <= i && i + Lookback <= |cs| && p in PivotsUpTo(cs, i)
    ensures Lookback <= p.index < i && HasWindow(cs, p.index) && p in PivotsAt(cs, p.index)
  {
    if i > Lookback {
      var k := i - 1;
      assert PivotsUpTo(cs, i) == PivotsUpTo(cs, k) + PivotsAt(cs, k);
      if p in PivotsUpTo(cs, k) {
        PivotsUpToOrigin(cs, k, p);
      } else {
        assert p in PivotsAt(cs, k);
        PivotsAtIndex(cs, k, p);
      }
    }
  }

  /**
   * Every pivot sits at an index with a full window of usable candles; an R pivot's
   * price is its high and no window high exceeds it, an S pivot's price is its low
   * and no window low is below it, and its strength is the volume weight.
   */
  lemma PivotFacts(cs: seq<Slot>, p: Pivot)
    requires p in AllPivots(cs)
    ensures Lookback <= p.index < |cs| - Lookback && PivotOfWindow(cs, p)
  {
    PivotsUpToOrigin(cs, |cs| - Lookback, p);
    PivotsAtFacts(cs, p.index, p);
  }

  /** The weight is the candle's volume relative to the mean volume when that mean is positive, else 1. */
  lemma VolumeWeightMeaning(cs: seq<Slot>, i: nat)
    requires HasWindow(cs, i)
    ensures var total := NumSum(Column(Window(cs, i), Volume));
      if total.Fin? && total.r / 11.0 > 0.0 then
        Get(cs[i], Volume).Fin? && VolumeWeight(cs, i) * (total.r / 11.0) == Get(cs[i], Volume).r
      else VolumeWeight(cs, i) == 1.0
  {
    var w := Column(Window(cs, i), Volume);
    var total := NumSum(w);
    if total.Fin? {
      NumSumFin(w);
      assert Get(cs[i], Volume) == w[Lookback];
    }
  }

  lemma {:induction false} NumSumFin(w: seq<Num>)
    requires NumSum(w).Fin?
    ensures forall j :: 0 <= j < |w| ==> w[j].Fin?
  {
    if w != [] {
      NumSumFin(w[..|w| - 1]);
      assert forall j :: 0 <= j < |w| - 1 ==> w[..|w| - 1][j] == w[j];
    }
  }

  // ---------------------------------------------------------------------------
  // Clustering

  function PriceKey(p: Pivot): real { p.price }

  /** `Math.abs(price / last - 1) <= 0.015`; a division by zero gives ±Infinity or NaN, which never passes */
  predicate Near(price: real, last: real) {
    last != 0.0 && Indicators.Abs(price / last - 1.0) <= ClusterThreshold
  }

  /**
   * The reduce callback of `cluster`: a pivot near the last cluster replaces it
   * when stronger and is dropped otherwise; any other pivot opens a new cluster.
   */
  function MergeOnto(out: seq<Pivot>, current: Pivot): seq<Pivot> {
    if out == [] then [current]
    else
      var last := out[|out| - 1];
      if Near(current.price, last.price) then
        (if current.strength > last.strength then out[..|out| - 1] + [current] else out)
      else out + [current]
  }

  /** The reduce of `cluster` over an already sorted sequence */
  function Merge(s: seq<Pivot>): seq<Pivot> {
    if s == [] then [] else MergeOnto(Merge(s[..|s| - 1]), s[|s| - 1])
  }

  lemma MergeStep(s: seq<Pivot>, i: nat)
    requires i < |s|
    ensures Merge(s[..i + 1]) == MergeOnto(Merge(s[..i]), s[i])
  {
    assert s[..i + 1][..i] == s[..i];
  }

  /** `cluster(arr)`: sort by price, then merge neighbours within 1.5% */
  function ClusterOf(ps: seq<Pivot>): seq<Pivot> {
    Merge(SortBy(ps, PriceKey))
  }

  predicate Positive(s: seq<Pivot>) { forall k :: 0 <= k < |s| ==> s[k].price > 0.0 }

  /** No two neighbours are within 1.5% of each other */
  predicate Spread(s: seq<Pivot>) { forall k :: 0 < k < |s| ==> !Near(s[k].price, s[k - 1].price) }

  method Cluster(ps: seq<Pivot>) returns (out: seq<Pivot>)
    ensures out == ClusterOf(ps)
  {
    var arr := new Pivot[|ps|](j requires 0 <= j < |ps| => ps[j]);
    assert arr[..] == ps;
    SortInPlace(arr, PriceKey);
    var sorted := arr[..];
    out := [];
    for i := 0 to |sorted|
      invariant out == Merge(sorted[..i])
    {
      MergeStep(sorted, i);
      var current := sorted[i];
      if |out| == 0 {
        out := out + [current];
      } else {
        var lastCluster := out[|out| - 1];
        if Near(current.price, lastCluster.price) {
          if current.strength > lastCluster.strength {
            out := out[..|out| - 1] + [current];
          }
        } else {
          out := out + [current];
        }
      }
    }
    assert sorted[..|sorted|] == sorted;
  }

  lemma NearMonotone(p: real, l: real, q: real)
    requires 0.0 < q <= l <= p && !Near(l, q)
    ensures !Near(p, q)
  {
    DivMonotone(p, l, q);
    DivMonotone(l, q, q);
    assert q / q == 1.0;
  }

  lemma {:induction false} MergeSubset(s: seq<Pivot>)
    ensures forall q :: q in Merge(s) ==> q in s
    ensures |s| > 0 ==> |Merge(s)| > 0
  {
    if s != [] {
      var init := s[..|s| - 1];
      MergeSubset(init);
      assert forall q :: q in init ==> q in s;
    }
  }

  lemma {:induction false} MergeSorted(s: seq<Pivot>)
    requires SortedBy(s, PriceKey)
    ensures SortedBy(Merge(s), PriceKey)
  {
    if s != [] {
      var init, current := s[..|s| - 1], s[|s| - 1];
      assert SortedBy(init, PriceKey);
      MergeSorted(init);
      MergeSubset(init);
      var out := Merge(init);
      assert forall k :: 0 <= k < |out| ==> out[k] in init && out[k].price <= current.price;
    }
  }

  /** One merge step keeps a sorted, spread, positive run spread when the new pivot is no lower */
  lemma OntoSpread(out: seq<Pivot>, current: Pivot)
    requires SortedBy(out, PriceKey) && Spread(out) && Positive(out)
    requires forall k :: 0 <= k < |out| ==> out[k].price <= current.price
    ensures Spread(MergeOnto(out, current))
  {
    if |out| > 1 {
      var last, prev := out[|out| - 1], out[|out| - 2];
      if Near(current.price, last.price) && current.strength > last.strength {
        NearMonotone(current.price, last.price, prev.price);
      }
    }
  }

  lemma {:induction false} MergeSpread(s: seq<Pivot>)
    requires SortedBy(s, PriceKey) && Positive(s)
    ensures Spread(Merge(s))
  {
    if s != [] {
      var init, current := s[..|s| - 1], s[|s| - 1];
      assert SortedBy(init, PriceKey);
      assert Positive(init) by {
        forall k | 0 <= k < |init| ensures init[k].price > 0.0 {
          assert init[k] == s[k];
        }
      }
      MergeSpread(init);
      MergeSorted(init);
      MergeSubset(init);
      var out := Merge(init);
      forall k | 0 <= k < |out| ensures 0.0 < out[k].price <= current.price {
        assert out[k] in init;
        var j :| 0 <= j < |init| && init[j] == out[k];
        assert s[j] == init[j];
      }
      OntoSpread(out, current);
    }
  }

  lemma {:induction false} MergeOfSpread(s: seq<Pivot>)
    requires Spread(s)
    ensures Merge(s) == s
  {
    if s != [] {
      var init := s[..|s| - 1];
      assert Spread(init);
      MergeOfSpread(init);
    }
  }

  /**
   * `cluster` returns some of its inputs, sorted by price; for positive prices no two
   * neighbours are within 1.5%, so clustering its own output changes nothing.
   */
  lemma ClusterShape(ps: seq<Pivot>)
    ensures forall q :: q in ClusterOf(ps) ==> q in ps
    ensures SortedBy(ClusterOf(ps), PriceKey)
    ensures Positive(ps) ==> Spread(ClusterOf(ps)) && ClusterOf(ClusterOf(ps)) == ClusterOf(ps)
  {
    var sorted := SortBy(ps, PriceKey);
    SortBySorted(ps, PriceKey);
    MergeSubset(sorted);
    MergeSorted(sorted);
    if Positive(ps) {
      assert Positive(sorted) by {
        forall k | 0 <= k < |sorted| ensures sorted[k].price > 0.0 {
          assert sorted[k] in ps;
        }
      }
      MergeSpread(sorted);
      var c := ClusterOf(ps);
      SortByOfSorted(c, PriceKey);
      MergeOfSpread(c);
    }
  }

  /** For positive prices, each cluster is more than 1.5% above its predecessor. */
  lemma SpreadRatio(s: seq<Pivot>, k: nat)
    requires Positive(s) && SortedBy(s, PriceKey) && Spread(s) && 0 < k < |s|
    ensures s[k].price > s[k - 1].price * (1.0 + ClusterThreshold)
  {
    var p, q := s[k].price, s[k - 1].price;
    assert p >= q;
    DivMonotone(p, q, q);
    assert q / q == 1.0;
    var r := p / q;
    assert r - 1.0 > ClusterThreshold;
    assert r * q == p;
    ScaleUp(r, 1.0 + ClusterThreshold, q);
  }

  /** A merge never loses the strongest pivot: every input has a cluster at least as strong. */
  lemma {:induction false} MergeKeepsStrength(s: seq<Pivot>, p: Pivot)
    requires p in s
    ensures exists q :: q in Merge(s) && q.strength >= p.strength
  {
    var init, current := s[..|s| - 1], s[|s| - 1];
    var out := Merge(init);
    if p in init {
      MergeKeepsStrength(init, p);
      var q :| q in out && q.strength >= p.strength;
      if out != [] && q == out[|out| - 1] && Near(current.price, q.price) && current.strength > q.strength {
        assert current in Merge(s);
      } else if out != [] && Near(current.price, out[|out| - 1].price) && current.strength > out[|out| - 1].strength {
        var k :| 0 <= k < |out| && out[k] == q;
        assert k < |out| - 1;
        assert Merge(s)[k] == q;
      } else {
        assert q in Merge(s);
      }
    } else {
      assert s == init + [current];
      assert p == current;
      if out != [] && Near(current.price, out[|out| - 1].price) && current.strength <= out[|out| - 1].strength {
        assert out[|out| - 1] in Merge(s);
      } else {
        assert Merge(s)[|Merge(s)| - 1] == current;
      }
    }
  }

  // ---------------------------------------------------------------------------
  // Selection, age and tests

  predicate IsSupport(p: Pivot) { p.kind == S }
  predicate IsResistance(p: Pivot) { p.kind == R }

  function BelowClose(lastClose: Num): Pivot -> bool { (p: Pivot) => Lt(Fin(p.price), lastClose) }
  function AboveClose(lastClose: Num): Pivot -> bool { (p: Pivot) => Gt(Fin(p.price), lastClose) }

  /** `Math.abs(s.price - price) / price <= 0.02`; a zero price divides to NaN or Infinity and never passes */
  function WithinRetest(price: real): Pivot -> bool {
    (s: Pivot) => price != 0.0 && Indicators.Abs(s.price - price) / price <= RetestBand
  }

  /** Selection from the clustered levels: None when no support lies below or no resistance above the last close */
  function Select(x: Indicators.Priced, all: seq<Pivot>, supArr: seq<Pivot>, resArr: seq<Pivot>): Option<Levels> {
    var below, above := Filter(supArr, BelowClose(x.lastClose)), Filter(resArr, AboveClose(x.lastClose));
    if below == [] || above == [] then None
    else
      var support, resistance := below[|below| - 1], above[0];
      var age := |x.candles| - support.index;
      var tests := |Filter(supArr, WithinRetest(support.price))|;
      Some(Levels(x.ticker, x.lastDate, x.candles, x.lastClose.r, x.indicators,
        Support(support.price, support.strength, support.index, age, tests), resistance,
        PivotSets(all, supArr, resArr)))
  }

  function Supports(all: seq<Pivot>): seq<Pivot> { ClusterOf(Filter(all, IsSupport)) }
  function Resistances(all: seq<Pivot>): seq<Pivot> { ClusterOf(Filter(all, IsResistance)) }

  /** What the stage does with one record: None when it has too few candles or a level is missing */
  function Detect(x: Indicators.Priced): Option<Levels> {
    if |x.candles| < 2 * Lookback + 1 then None
    else
      var all := AllPivots(x.candles);
      Select(x, all, Supports(all), Resistances(all))
  }

  /** The stage */
  method DetectAll(items: seq<Indicators.Priced>) returns (out: seq<Levels>)
    ensures out == FilterMap(items, Detect)
  {
    out := [];
    for i := 0 to |items|
      invariant out == FilterMap(items[..i], Detect)
    {
      FilterMapStep(items, Detect, i);
      var r := DetectOne(items[i]);
      if r.Some? {
        out := out + [r.value];
      }
    }
    assert items[..|items|] == items;
  }

  method DetectOne(x: Indicators.Priced) returns (r: Option<Levels>)
    ensures r == Detect(x)
  {
    if |x.candles| < 2 * Lookback + 1 {
      return None;
    }
    var pivots := DetectPivots(x.candles);
    var supArr := Cluster(Filter(pivots, IsSupport));
    var resArr := Cluster(Filter(pivots, IsResistance));
    r := Select(x, pivots, supArr, resArr);
  }

  /** The last of the sorted elements below a bound is the greatest of them. */
  lemma LastIsHighest(s: seq<Pivot>, p: Pivot -> bool)
    requires SortedBy(s, PriceKey) && Filter(s, p) != []
    ensures var f := Filter(s, p);
      forall q :: q in s && p(q) ==> q.price <= f[|f| - 1].price
  {
    var f := Filter(s, p);
    FilterSorted(s, p);
    forall q | q in s && p(q) ensures q.price <= f[|f| - 1].price {
      FilterKeeps(s, p, q);
      var k :| 0 <= k < |f| && f[k] == q;
    }
  }

  lemma FirstIsLowest(s: seq<Pivot>, p: Pivot -> bool)
    requires SortedBy(s, PriceKey) && Filter(s, p) != []
    ensures forall q :: q in s && p(q) ==> Filter(s, p)[0].price <= q.price
  {
    var f := Filter(s, p);
    FilterSorted(s, p);
    forall q | q in s && p(q) ensures f[0].price <= q.price {
      FilterKeeps(s, p, q);
      var k :| 0 <= k < |f| && f[k] == q;
    }
  }

  lemma {:induction false} FilterSorted(s: seq<Pivot>, p: Pivot -> bool)
    requires SortedBy(s, PriceKey)
    ensures SortedBy(Filter(s, p), PriceKey)
  {
    if s != [] {
      var init := s[..|s| - 1];
      assert SortedBy(init, PriceKey);
      FilterSorted(init, p);
      if p(s[|s| - 1]) {
        forall q | q in Filter(init, p) ensures q.price <= s[|s| - 1].price {
          FilterKeeps(init, p, q);
        }
      }
    }
  }

  /**
   * The chosen support is the highest support strictly below the last close and
   * the chosen resistance the lowest resistance strictly above it (given sorted
   * levels); the age counts candles since the support, and the support retests itself.
   */
  lemma SelectChoice(x: Indicators.Priced, all: seq<Pivot>, supArr: seq<Pivot>, resArr: seq<Pivot>)
    requires SortedBy(supArr, PriceKey) && SortedBy(resArr, PriceKey)
    requires Select(x, all, supArr, resArr).Some?
    ensures var l := Select(x, all, supArr, resArr).value;
      x.lastClose == Fin(l.lastClose) &&
      (exists s :: s in supArr && s.price == l.support.price && s.strength == l.support.strength && s.index == l.support.index) &&
      l.support.price < l.lastClose &&
      (forall s :: s in supArr && s.price < l.lastClose ==> s.price <= l.support.price) &&
      l.resistance in resArr && l.resistance.price > l.lastClose &&
      (forall r :: r in resArr && r.price > l.lastClose ==> l.resistance.price <= r.price) &&
      l.support.age == |x.candles| - l.support.index &&
      (l.support.price != 0.0 ==> l.support.tests >= 1)
  {
    SupportChoice(x, all, supArr, resArr);
    SupportRetests(x, all, supArr, resArr);
    ResistanceChoice(x, all, supArr, resArr);
  }

  /** The support half of the choice above */
  lemma SupportChoice(x: Indicators.Priced, all: seq<Pivot>, supArr: seq<Pivot>, resArr: seq<Pivot>)
    requires SortedBy(supArr, PriceKey)
    requires Select(x, all, supArr, resArr).Some?
    ensures var l := Select(x, all, supArr, resArr).value;
      x.lastClose == Fin(l.lastClose) &&
      (exists s :: s in supArr && s.price == l.support.price && s.strength == l.support.strength && s.index == l.support.index) &&
      l.support.price < l.lastClose &&
      (forall s :: s in supArr && s.price < l.lastClose ==> s.price <= l.support.price)
  {
    var below := Filter(supArr, BelowClose(x.lastClose));
    var support := below[|below| - 1];
    LastIsHighest(supArr, BelowClose(x.lastClose));
    FilterKeeps(supArr, BelowClose(x.lastClose), support);
  }

  /** The support's age and retest count */
  lemma SupportRetests(x: Indicators.Priced, all: seq<Pivot>, supArr: seq<Pivot>, resArr: seq<Pivot>)
    requires Select(x, all, supArr, resArr).Some?
    ensures var l := Select(x, all, supArr, resArr).value;
      l.support.age == |x.candles| - l.support.index &&
      (l.support.price != 0.0 ==> l.support.tests >= 1)
  {
    var below := Filter(supArr, BelowClose(x.lastClose));
    var support := below[|below| - 1];
    FilterKeeps(supArr, BelowClose(x.lastClose), support);
    if support.price != 0.0 {
      FilterKeeps(supArr, WithinRetest(support.price), support);
      assert support in Filter(supArr, WithinRetest(support.price));
    }
  }

  /** The resistance half of the choice above */
  lemma ResistanceChoice(x: Indicators.Priced, all: seq<Pivot>, supArr: seq<Pivot>, resArr: seq<Pivot>)
    requires SortedBy(resArr, PriceKey)
    requires Select(x, all, supArr, resArr).Some?
    ensures var l := Select(x, all, supArr, resArr).value;
      l.resistance in resArr && l.resistance.price > l.lastClose &&
      (forall r :: r in resArr && r.price > l.lastClose ==> l.resistance.price <= r.price)
  {
    var above := Filter(resArr, AboveClose(x.lastClose));
    FirstIsLowest(resArr, AboveClose(x.lastClose));
    FilterKeeps(resArr, AboveClose(x.lastClose), above[0]);
  }

  lemma SelectAge(x: Indicators.Priced, all: seq<Pivot>, supArr: seq<Pivot>, resArr: seq<Pivot>)
    requires forall s :: s in supArr ==> s.index < |x.candles| - Lookback
    requires Select(x, all, supArr, resArr).Some?
    ensures Select(x, all, supArr, resArr).value.support.age > Lookback
  {
    var below := Filter(supArr, BelowClose(x.lastClose));
    FilterKeeps(supArr, BelowClose(x.lastClose), below[|below| - 1]);
  }

  /** Over the stage's own clusters the levels are sorted, so the choice above holds, and the support is at least six candles old. */
  lemma DetectSelection(x: Indicators.Priced)
    requires Detect(x).Some?
    ensures var l := Detect(x).value;
      l.pivots.supports == Supports(AllPivots(x.candles)) && l.pivots.resistances == Resistances(AllPivots(x.candles)) &&
      SortedBy(l.pivots.supports, PriceKey) && SortedBy(l.pivots.resistances, PriceKey) &&
      l.support.age > Lookback
  {
    var all := AllPivots(x.candles);
    var supArr, resArr := Supports(all), Resistances(all);
    assert Detect(x) == Select(x, all, supArr, resArr);
    ClusterShape(Filter(all, IsSupport));
    ClusterShape(Filter(all, IsResistance));
    forall s | s in supArr ensures s.index < |x.candles| - Lookback {
      FilterKeeps(all, IsSupport, s);
      PivotFacts(x.candles, s);
    }
    SelectAge(x, all, supArr, resArr);
  }

  /**
   * A record is dropped exactly when it has fewer than 11 candles, or no
   * clustered support lies below or no clustered resistance above the last close.
   */
  lemma DetectDrops(x: Indicators.Priced)
    ensures var all := AllPivots(x.candles);
      Detect(x).None? <==>
        |x.candles| < 2 * Lookback + 1 ||
        (forall s :: s in Supports(all) ==> !Lt(Fin(s.price), x.lastClose)) ||
        (forall r :: r in Resistances(all) ==> !Gt(Fin(r.price), x.lastClose))
  {
    if |x.candles| < 2 * Lookback + 1 {
      return;
    }
    var all := AllPivots(x.candles);
    var supArr, resArr := Supports(all), Resistances(all);
    forall s ensures s in Filter(supArr, BelowClose(x.lastClose)) <==> s in supArr && Lt(Fin(s.price), x.lastClose) {
      FilterKeeps(supArr, BelowClose(x.lastClose), s);
    }
    forall r ensures r in Filter(resArr, AboveClose(x.lastClose)) <==> r in resArr && Gt(Fin(r.price), x.lastClose) {
      FilterKeeps(resArr, AboveClose(x.lastClose), r);
    }
    var below, above := Filter(supArr, BelowClose(x.lastClose)), Filter(resArr, AboveClose(x.lastClose));
    if below != [] {
      assert below[0] in below;
    }
    if above != [] {
      assert above[0] in above;
    }
  }

  /** ticker, lastDate, candles and indicators pass through unchanged. */
  lemma DetectPassThrough(x: Indicators.Priced)
    requires Detect(x).Some?
    ensures var l := Detect(x).value;
      l.ticker == x.ticker && l.lastDate == x.lastDate && l.candles == x.candles && l.indicators == x.indicators &&
      l.pivots.all == AllPivots(x.candles)
  {
  }
}
