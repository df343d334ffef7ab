/**
 * Confluence score: seven rules read the indicator bag, the chosen support and
 * the last five candles; each rule that fires adds one or two points and a hit
 * to the record.  Nothing is dropped here.
 */
module Confluence {
  import opened Common
  import Indicators
  import Pivots

  /** One fired rule; the numbers are the ones the hit's text quotes */
  datatype Hit =
    | MultiTimeframe | BasicUptrend
    | DoubleOversold(rsi: real, stochRsi: real) | RsiOversold(rsi: real)
    | MacdCross
    | NearLowerBand
    | SustainedVolume | VolumeSpike
    | StrongSupport(tests: nat, age: int) | ReliableSupport(tests: nat)
    | Hammer

  /** Points a hit adds to the score */
  function Weight(h: Hit): nat {
    match h
    case MultiTimeframe | DoubleOversold(_, _) | SustainedVolume | StrongSupport(_, _) => 2
    case _ => 1
  }

  /** The rule a hit comes from, numbered in the order the rules are checked */
  function Rule(h: Hit): nat {
    match h
    case MultiTimeframe | BasicUptrend => 0
    case DoubleOversold(_, _) | RsiOversold(_) => 1
    case MacdCross => 2
    case NearLowerBand => 3
    case SustainedVolume | VolumeSpike => 4
    case StrongSupport(_, _) | ReliableSupport(_) => 5
    case Hammer => 6
  }

  const RuleCount: nat := 7

  datatype Confluence = Confluence(score: nat, hits: seq<Hit>)

  /** The stage's output record: the input without its pivot sets, plus the confluence */
  datatype Scored = Scored(
    ticker: string, lastDate: Date, candles: seq<Slot>, lastClose: real, indicators: Indicators.Bag,
    support: Pivots.Support, resistance: Pivots.Pivot, confluence: Confluence)

  // ---------------------------------------------------------------------------
  // The candle pattern

  /** The filter on the last five candles: present, with four prices of number type (NaN passes) */
  predicate HasPrices(s: Slot) {
    s.Some? && s.value.close.IsNumber() && s.value.open.IsNumber() && s.value.high.IsNumber() && s.value.low.IsNumber()
  }

  function Recent(cs: seq<Slot>): seq<Slot> { Filter(Tail(cs, 5), HasPrices) }

  /**
   * A long lower shadow (more than twice the body) and a short upper shadow
   * (less than half the body).  With a NaN price every comparison is false.
   */
  predicate IsHammer(s: Slot) {
    s.Some? && s.value.open.Fin? && s.value.high.Fin? && s.value.low.Fin? && s.value.close.Fin? &&
    var o, h, l, c := s.value.open.r, s.value.high.r, s.value.low.r, s.value.close.r;
    var body := Indicators.Abs(c - o);
    Min(o, c) - l > body * 2.0 && h - Max(o, c) < body * 0.5
  }

  /** `s.some(IsHammer)` */
  predicate AnyHammer(s: seq<Slot>) {
    s != [] && (IsHammer(s[0]) || AnyHammer(s[1..]))
  }

  predicate HasHammer(cs: seq<Slot>) { AnyHammer(Recent(cs)) }

  // ---------------------------------------------------------------------------
  // The rules

  function TrendHits(x: Pivots.Levels): seq<Hit> {
    var b, lc := x.indicators, x.lastClose;
    if lc > b.sma20 && b.sma20 > b.sma50 && Gt(Fin(lc), b.ema21) then [MultiTimeframe]
    else if lc > b.sma50 then [BasicUptrend]
    else []
  }

  function OscillatorHits(x: Pivots.Levels): seq<Hit> {
    var b := x.indicators;
    if b.rsi < 40.0 && b.stochRsi < 0.3 then [DoubleOversold(b.rsi, b.stochRsi)]
    else if b.rsi < 45.0 then [RsiOversold(b.rsi)]
    else []
  }

  function MacdHits(x: Pivots.Levels): seq<Hit> {
    var m := x.indicators.macd;
    if Gt(m.macdLine, m.signalLine) && Gt(m.histogram, Fin(0.0)) then [MacdCross] else []
  }

  function BandHits(x: Pivots.Levels): seq<Hit> {
    if x.lastClose <= x.indicators.bollingerBands.lower * 1.02 then [NearLowerBand] else []
  }

  function VolumeHits(x: Pivots.Levels): seq<Hit> {
    var b := x.indicators;
    if Gt(b.currentVolume, Fin(b.volSMA20 * 2.0)) && b.volSMA5 > b.volSMA20 * 1.5 then [SustainedVolume]
    else if Gt(b.currentVolume, Fin(b.volSMA20 * 1.5)) then [VolumeSpike]
    else []
  }

  function SupportHits(x: Pivots.Levels): seq<Hit> {
    var sup := x.support;
    if sup.tests >= 3 && sup.age >= 10 then [StrongSupport(sup.tests, sup.age)]
    else if sup.tests >= 2 then [ReliableSupport(sup.tests)]
    else []
  }

  function PatternHits(x: Pivots.Levels): seq<Hit> {
    if HasHammer(x.candles) then [Hammer] else []
  }

  /** The hits of rule k, at most one */
  function RuleHits(x: Pivots.Levels, k: nat): (r: seq<Hit>)
    ensures |r| <= 1
    ensures forall i :: 0 <= i < |r| ==> Rule(r[i]) == k
  {
    match k
    case 0 => TrendHits(x)
    case 1 => OscillatorHits(x)
    case 2 => MacdHits(x)
    case 3 => BandHits(x)
    case 4 => VolumeHits(x)
    case 5 => SupportHits(x)
    case 6 => PatternHits(x)
    case _ => []
  }

  /** The hits of rules 0 .. k-1, in rule order */
  function HitsUpTo(x: Pivots.Levels, k: nat): seq<Hit> {
    if k == 0 then [] else HitsUpTo(x, k - 1) + RuleHits(x, k - 1)
  }

  function HitsOf(x: Pivots.Levels): seq<Hit> { HitsUpTo(x, RuleCount) }

  function WeightSum(hs: seq<Hit>): nat {
    if hs == [] then 0 else WeightSum(hs[..|hs| - 1]) + Weight(hs[|hs| - 1])
  }

  function Score(x: Pivots.Levels): Scored {
    var hits := HitsOf(x);
    Scored(x.ticker, x.lastDate, x.candles, x.lastClose, x.indicators, x.support, x.resistance,
           Confluence(WeightSum(hits), hits))
  }

  // ---------------------------------------------------------------------------
  // The stage

  method ConfluenceScores(items: seq<Pivots.Levels>) returns (out: seq<Scored>)
    ensures |out| == |items|
    ensures forall i :: 0 <= i < |items| ==> out[i] == Score(items[i])
  {
    out := [];
    for i := 0 to |items|
      invariant |out| == i
      invariant forall j :: 0 <= j < i ==> out[j] == Score(items[j])
    {
      var x := items[i];
      var score, hits := ScoreOne(x);
      var scored := Scored(x.ticker, x.lastDate, x.candles, x.lastClose, x.indicators, x.support, x.resistance,
                           Confluence(score, hits));
      assert scored == Score(items[i]);
      MapStep(out, items, Score, i);
      out := out + [scored];
    }
  }

  /** One record: the seven rules in order, each adding its points and its hit */
  method ScoreOne(x: Pivots.Levels) returns (score: nat, hits: seq<Hit>)
    ensures hits == HitsOf(x) && score == WeightSum(hits)
  {
    score, hits := TrendRule(x, 0, []);
    assert hits == HitsUpTo(x, 1);
    score, hits := OscillatorRule(x, score, hits);
    assert hits == HitsUpTo(x, 2);
    score, hits := MacdRule(x, score, hits);
    score, hits := BandRule(x, score, hits);
    assert hits == HitsUpTo(x, 4);
    score, hits := VolumeRule(x, score, hits);
    score, hits := SupportRule(x, score, hits);
    assert hits == HitsUpTo(x, 6);
    score, hits := PatternRule(x, score, hits);
  }

  method TrendRule(x: Pivots.Levels, score: nat, hits: seq<Hit>) returns (score': nat, hits': seq<Hit>)
    requires score == WeightSum(hits)
    ensures hits' == hits + TrendHits(x) && score' == WeightSum(hits')
  {
    var b, lc := x.indicators, x.lastClose;
    score', hits' := score, hits;
    if lc > b.sma20 && b.sma20 > b.sma50 && Gt(Fin(lc), b.ema21) {
      score', hits' := Push(score, hits, MultiTimeframe);
    } else if lc > b.sma50 {
      score', hits' := Push(score, hits, BasicUptrend);
    }
  }

  method OscillatorRule(x: Pivots.Levels, score: nat, hits: seq<Hit>) returns (score': nat, hits': seq<Hit>)
    requires score == WeightSum(hits)
    ensures hits' == hits + OscillatorHits(x) && score' == WeightSum(hits')
  {
    var b := x.indicators;
    score', hits' := score, hits;
    if b.rsi < 40.0 && b.stochRsi < 0.3 {
      score', hits' := Push(score, hits, DoubleOversold(b.rsi, b.stochRsi));
    } else if b.rsi < 45.0 {
      score', hits' := Push(score, hits, RsiOversold(b.rsi));
    }
  }

  method MacdRule(x: Pivots.Levels, score: nat, hits: seq<Hit>) returns (score': nat, hits': seq<Hit>)
    requires score == WeightSum(hits)
    ensures hits' == hits + MacdHits(x) && score' == WeightSum(hits')
  {
    var m := x.indicators.macd;
    score', hits' := score, hits;
    if Gt(m.macdLine, m.signalLine) && Gt(m.histogram, Fin(0.0)) {
      score', hits' := Push(score, hits, MacdCross);
    }
  }

  method BandRule(x: Pivots.Levels, score: nat, hits: seq<Hit>) returns (score': nat, hits': seq<Hit>)
    requires score == WeightSum(hits)
    ensures hits' == hits + BandHits(x) && score' == WeightSum(hits')
  {
    score', hits' := score, hits;
    if x.lastClose <= x.indicators.bollingerBands.lower * 1.02 {
      score', hits' := Push(score, hits, NearLowerBand);
    }
  }

  method VolumeRule(x: Pivots.Levels, score: nat, hits: seq<Hit>) returns (score': nat, hits': seq<Hit>)
    requires score == WeightSum(hits)
    ensures hits' == hits + VolumeHits(x) && score' == WeightSum(hits')
  {
    var b := x.indicators;
    score', hits' := score, hits;
    if Gt(b.currentVolume, Fin(b.volSMA20 * 2.0)) && b.volSMA5 > b.volSMA20 * 1.5 {
      score', hits' := Push(score, hits, SustainedVolume);
    } else if Gt(b.currentVolume, Fin(b.volSMA20 * 1.5)) {
      score', hits' := Push(score, hits, VolumeSpike);
    }
  }

  method SupportRule(x: Pivots.Levels, score: nat, hits: seq<Hit>) returns (score': nat, hits': seq<Hit>)
    requires score == WeightSum(hits)
    ensures hits' == hits + SupportHits(x) && score' == WeightSum(hits')
  {
    var sup := x.support;
    score', hits' := score, hits;
    if sup.tests >= 3 && sup.age >= 10 {
      score', hits' := Push(score, hits, StrongSupport(sup.tests, sup.age));
    } else if sup.tests >= 2 {
      score', hits' := Push(score, hits, ReliableSupport(sup.tests));
    }
  }

  method PatternRule(x: Pivots.Levels, score: nat, hits: seq<Hit>) returns (score': nat, hits': seq<Hit>)
    requires score == WeightSum(hits)
    ensures hits' == hits + PatternHits(x) && score' == WeightSum(hits')
  {
    score', hits' := score, hits;
    var found := FindHammer(x.candles);
    if found {
      score', hits' := Push(score, hits, Hammer);
    }
  }

  /** `confluenceScore += weight; hits.push(hit)` */
  method Push(score: nat, hits: seq<Hit>, h: Hit) returns (score': nat, hits': seq<Hit>)
    requires score == WeightSum(hits)
    ensures hits' == hits + [h] && score' == WeightSum(hits')
  {
    hits' := hits + [h];
    assert hits'[..|hits|] == hits;
    score' := score + Weight(h);
  }

  /** `recent5.some(...)` over the filtered last five candles, stopping at the first hammer */
  method FindHammer(cs: seq<Slot>) returns (found: bool)
    ensures found == HasHammer(cs)
  {
    var recent := Recent(cs);
    found := false;
    var i := 0;
    while i < |recent| && !found
      invariant 0 <= i <= |recent|
      invariant AnyHammer(recent) == (found || AnyHammer(recent[i..]))
    {
      assert recent[i..][1..] == recent[i + 1..];
      found := IsHammer(recent[i]);
      i := i + 1;
    }
  }

  // ---------------------------------------------------------------------------
  // Properties

  lemma {:induction false} WeightSumAppend(s: seq<Hit>, t: seq<Hit>)
    ensures WeightSum(s + t) == WeightSum(s) + WeightSum(t)
  {
    if t != [] {
      assert (s + t)[..|s + t| - 1] == s + t[..|t| - 1];
      WeightSumAppend(s, t[..|t| - 1]);
    } else {
      assert s + t == s;
    }
  }

  /** Every hit is worth one or two points. */
  lemma {:induction false} WeightSumBounds(hs: seq<Hit>)
    ensures |hs| <= WeightSum(hs) <= 2 * |hs|
  {
    if hs != [] {
      WeightSumBounds(hs[..|hs| - 1]);
    }
  }

  /** The hits of the first k rules come in strictly increasing rule order, one rule at most once. */
  lemma {:induction false} HitsUpToOrdered(x: Pivots.Levels, k: nat)
    ensures |HitsUpTo(x, k)| <= k
    ensures forall i :: 0 <= i < |HitsUpTo(x, k)| ==> Rule(HitsUpTo(x, k)[i]) < k
    ensures forall i, j :: 0 <= i < j < |HitsUpTo(x, k)| ==> Rule(HitsUpTo(x, k)[i]) < Rule(HitsUpTo(x, k)[j])
  {
    if k > 0 {
      HitsUpToOrdered(x, k - 1);
    }
  }

  /** The most points rule k can add: its first branch's weight */
  function RuleMax(k: nat): nat { if k == 2 || k == 3 || k == 6 then 1 else 2 }

  function MaxScore(k: nat): nat { if k == 0 then 0 else MaxScore(k - 1) + RuleMax(k - 1) }

  lemma RuleHitsWeight(x: Pivots.Levels, k: nat)
    ensures WeightSum(RuleHits(x, k)) <= RuleMax(k)
  {
    var r := RuleHits(x, k);
    if r != [] {
      assert r[..0] == [];
      assert Rule(r[0]) == k;
    }
  }

  lemma {:induction false} HitsUpToScore(x: Pivots.Levels, k: nat)
    ensures WeightSum(HitsUpTo(x, k)) <= MaxScore(k)
  {
    if k > 0 {
      HitsUpToScore(x, k - 1);
      RuleHitsWeight(x, k - 1);
      WeightSumWithin(HitsUpTo(x, k - 1), RuleHits(x, k - 1), MaxScore(k - 1), RuleMax(k - 1));
    }
  }

  lemma WeightSumWithin(a: seq<Hit>, b: seq<Hit>, ma: nat, mb: nat)
    requires WeightSum(a) <= ma && WeightSum(b) <= mb
    ensures WeightSum(a + b) <= ma + mb
  {
    WeightSumAppend(a, b);
  }

  /**
   * The score is the sum of the hits' weights, between 0 and 11; every hit is
   * worth one or two points; and the hits follow the rule order with at most
   * one hit per rule, so the two branches of a rule never both fire.
   */
  lemma ScoreShape(x: Pivots.Levels)
    ensures var c := Score(x).confluence;
      c.score == WeightSum(c.hits) &&
      |c.hits| <= c.score <= 2 * |c.hits| && c.score <= 11 &&
      (c.score == 0 <==> c.hits == []) &&
      (forall i, j :: 0 <= i < j < |c.hits| ==> Rule(c.hits[i]) < Rule(c.hits[j]))
  {
    HitsUpToOrdered(x, RuleCount);
    WeightSumBounds(HitsOf(x));
    HitsUpToScore(x, RuleCount);
    assert MaxScore(RuleCount) == 11;
  }

  /** A hit is in the record exactly when it is among its own rule's hits. */
  lemma HitsUpToMember(x: Pivots.Levels, k: nat, h: Hit)
    ensures h in HitsUpTo(x, k) <==> Rule(h) < k && h in RuleHits(x, Rule(h))
  {
    if h in HitsUpTo(x, k) {
      HitsUpToRule(x, k, h);
    }
    if Rule(h) < k && h in RuleHits(x, Rule(h)) {
      RuleHitsRecorded(x, k, h);
    }
  }

  lemma {:induction false} HitsUpToRule(x: Pivots.Levels, k: nat, h: Hit)
    requires h in HitsUpTo(x, k)
    ensures Rule(h) < k && h in RuleHits(x, Rule(h))
  {
    var r := RuleHits(x, k - 1);
    assert HitsUpTo(x, k) == HitsUpTo(x, k - 1) + r;
    if h in r {
      assert r[0] == h && Rule(r[0]) == k - 1;
    } else {
      HitsUpToRule(x, k - 1, h);
    }
  }

  lemma {:induction false} RuleHitsRecorded(x: Pivots.Levels, k: nat, h: Hit)
    requires Rule(h) < k && h in RuleHits(x, Rule(h))
    ensures h in HitsUpTo(x, k)
  {
    assert HitsUpTo(x, k) == HitsUpTo(x, k - 1) + RuleHits(x, k - 1);
    if Rule(h) < k - 1 {
      RuleHitsRecorded(x, k - 1, h);
    }
  }

  /**
   * The condition under which each hit is recorded, hit by hit: a second
   * branch only when its rule's first branch does not fire.
   */
  predicate Fires(x: Pivots.Levels, h: Hit) {
    var b, lc, sup := x.indicators, x.lastClose, x.support;
    var aligned := lc > b.sma20 && b.sma20 > b.sma50 && Gt(Fin(lc), b.ema21);
    var doubleOversold := b.rsi < 40.0 && b.stochRsi < 0.3;
    var sustained := Gt(b.currentVolume, Fin(b.volSMA20 * 2.0)) && b.volSMA5 > b.volSMA20 * 1.5;
    var strong := sup.tests >= 3 && sup.age >= 10;
    match h
    case MultiTimeframe => aligned
    case BasicUptrend => !aligned && lc > b.sma50
    case DoubleOversold(r, st) => r == b.rsi && st == b.stochRsi && doubleOversold
    case RsiOversold(r) => r == b.rsi && !doubleOversold && b.rsi < 45.0
    case MacdCross => Gt(b.macd.macdLine, b.macd.signalLine) && Gt(b.macd.histogram, Fin(0.0))
    case NearLowerBand => lc <= b.bollingerBands.lower * 1.02
    case SustainedVolume => sustained
    case VolumeSpike => !sustained && Gt(b.currentVolume, Fin(b.volSMA20 * 1.5))
    case StrongSupport(t, a) => t == sup.tests && a == sup.age && strong
    case ReliableSupport(t) => t == sup.tests && !strong && sup.tests >= 2
    case Hammer => HasHammer(x.candles)
  }

  /** A hit is in the record exactly when its condition holds. */
  lemma RuleConditions(x: Pivots.Levels, h: Hit)
    ensures h in Score(x).confluence.hits <==> Fires(x, h)
  {
    HitsUpToMember(x, RuleCount, h);
    OwnRuleFires(x, h);
  }

  /** A hit is among its own rule's hits exactly when its condition holds. */
  lemma OwnRuleFires(x: Pivots.Levels, h: Hit)
    ensures Rule(h) < RuleCount
    ensures h in RuleHits(x, Rule(h)) <==> Fires(x, h)
  {
    match h
    case MultiTimeframe | BasicUptrend => assert RuleHits(x, Rule(h)) == TrendHits(x);
    case DoubleOversold(_, _) | RsiOversold(_) => assert RuleHits(x, Rule(h)) == OscillatorHits(x);
    case MacdCross => assert RuleHits(x, Rule(h)) == MacdHits(x);
    case NearLowerBand => assert RuleHits(x, Rule(h)) == BandHits(x);
    case SustainedVolume | VolumeSpike => assert RuleHits(x, Rule(h)) == VolumeHits(x);
    case StrongSupport(_, _) | ReliableSupport(_) => assert RuleHits(x, Rule(h)) == SupportHits(x);
    case Hammer => assert RuleHits(x, Rule(h)) == PatternHits(x);
  }

  /**
   * The thresholds are strict where the source compares strictly: a close equal
   * to SMA20 is no alignment, RSI 45 is not oversold, RSI 40 is oversold only
   * once, and a support tested three times but nine periods old is only reliable.
   */
  lemma Boundaries(x: Pivots.Levels)
    ensures x.lastClose == x.indicators.sma20 ==> MultiTimeframe !in Score(x).confluence.hits
    ensures x.indicators.rsi == 45.0 ==> forall h :: h in Score(x).confluence.hits ==> Rule(h) != 1
    ensures x.indicators.rsi == 40.0 ==> RsiOversold(40.0) in Score(x).confluence.hits
    ensures x.support.tests == 3 && x.support.age == 9 ==>
      ReliableSupport(3) in Score(x).confluence.hits &&
      forall h :: h in Score(x).confluence.hits && Rule(h) == 5 ==> h == ReliableSupport(3)
  {
    RuleConditions(x, MultiTimeframe);
    RuleConditions(x, RsiOversold(40.0));
    if x.indicators.rsi == 45.0 {
      NoOscillatorAt45(x);
    }
    if x.support.tests == 3 && x.support.age == 9 {
      OnlyReliableSupport(x);
    }
  }

  lemma NoOscillatorAt45(x: Pivots.Levels)
    requires x.indicators.rsi == 45.0
    ensures forall h :: h in Score(x).confluence.hits ==> Rule(h) != 1
  {
    forall h | h in Score(x).confluence.hits ensures Rule(h) != 1 {
      RuleConditions(x, h);
    }
  }

  lemma OnlyReliableSupport(x: Pivots.Levels)
    requires x.support.tests == 3 && x.support.age == 9
    ensures ReliableSupport(3) in Score(x).confluence.hits
    ensures forall h :: h in Score(x).confluence.hits && Rule(h) == 5 ==> h == ReliableSupport(3)
  {
    RuleConditions(x, ReliableSupport(3));
    forall h | h in Score(x).confluence.hits && Rule(h) == 5 ensures h == ReliableSupport(3) {
      RuleConditions(x, h);
    }
  }

  /** `some` holds exactly when some element satisfies the predicate. */
  lemma {:induction false} AnyHammerExists(s: seq<Slot>)
    ensures AnyHammer(s) <==> exists j :: 0 <= j < |s| && IsHammer(s[j])
  {
    if s != [] {
      AnyHammerExists(s[1..]);
      assert forall j :: 0 < j < |s| ==> s[j] == s[1..][j - 1];
    }
  }

  /** An element of the filtered tail is an element of the last n entries that passes the filter, and back. */
  lemma FilterTailExists<T>(s: seq<T>, n: nat, keep: T -> bool, p: T -> bool)
    requires 0 < n && forall y :: p(y) ==> keep(y)
    ensures (exists j :: 0 <= j < |Filter(Tail(s, n), keep)| && p(Filter(Tail(s, n), keep)[j])) <==>
            (exists k :: 0 <= k < |s| && |s| - n <= k && p(s[k]))
  {
    var tail := Tail(s, n);
    var off := |s| - |tail|;
    var r := Filter(tail, keep);
    if exists j :: 0 <= j < |r| && p(r[j]) {
      var j :| 0 <= j < |r| && p(r[j]);
      FilterKeeps(tail, keep, r[j]);
      var t :| 0 <= t < |tail| && tail[t] == r[j];
      assert s[off + t] == r[j];
    }
    if exists k :: 0 <= k < |s| && |s| - n <= k && p(s[k]) {
      var k :| 0 <= k < |s| && |s| - n <= k && p(s[k]);
      assert tail[k - off] == s[k];
      FilterKeeps(tail, keep, s[k]);
      var j :| 0 <= j < |r| && r[j] == s[k];
    }
  }

  /** Only the last five candles can show the pattern; a candle further back never counts. */
  lemma HammerWindow(cs: seq<Slot>)
    ensures HasHammer(cs) <==> exists k :: 0 <= k < |cs| && |cs| - 5 <= k && IsHammer(cs[k])
  {
    var r := Recent(cs);
    AnyHammerExists(r);
    FilterTailExists(cs, 5, HasPrices, IsHammer);
    assert (exists j :: 0 <= j < |r| && IsHammer(r[j])) <==> (exists k :: 0 <= k < |cs| && |cs| - 5 <= k && IsHammer(cs[k]));
  }

  /**
   * A candle with no body (a doji) never fires the rule when its high is at
   * least its open and close: its upper shadow would have to be negative.
   */
  lemma DojiNeverFires(s: Slot)
    requires s.Some? && s.value.open.Fin? && s.value.close.Fin? && s.value.high.Fin?
    requires s.value.open.r == s.value.close.r && s.value.high.r >= s.value.open.r
    ensures !IsHammer(s)
  {
  }

  /** A candle with high 2485, low 2420, open 2480 and close 2475 has an upper shadow of 5, not below half its body of 5. */
  lemma HammerFixture(d: Date, v: Num)
    ensures !IsHammer(Some(Candle(d, Fin(2480.0), Fin(2485.0), Fin(2420.0), Fin(2475.0), v)))
    ensures IsHammer(Some(Candle(d, Fin(2480.0), Fin(2481.0), Fin(2420.0), Fin(2475.0), v)))
  {
  }

  /** A zero-body candle whose high lies below its open is a hammer: validation never orders high above open. */
  lemma InvertedDojiFires(d: Date, v: Num)
    ensures IsHammer(Some(Candle(d, Fin(100.0), Fin(90.0), Fin(80.0), Fin(100.0), v)))
  {
  }
}
