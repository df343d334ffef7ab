/**
 * The whole signal pipeline: raw rows are grouped, validated, priced, given
 * support and resistance, scored, planned, backtested, sized and labelled.
 * What every final recommendation then satisfies is stated once here and
 * derived from the stages' own properties.
 */
module Pipeline {
  import opened Common
  import ParseAndSlice
  import Validation
  import Indicators
  import Pivots
  import Confluence
  import EntryExit
  import Backtest
  import PositionSizing
  import Recommendation

  /** The run's parameters: the fallback date, the square root, and the trigger's settings */
  datatype Settings = Settings(today: Date, sqrt: Sqrt, sizing: PositionSizing.Config, scoreGreaterThan: Num)

  // ---------------------------------------------------------------------------
  // Hand-offs between stages

  /** A parsed record as the validation stage reads it: an array of (present) candles */
  function ToRaw(s: ParseAndSlice.Series): Validation.RawSeries {
    Validation.RawSeries(s.ticker, s.lastDate, Some(seq(|s.candles|, i requires 0 <= i < |s.candles| => Some(s.candles[i]))))
  }

  /** A validated record as the indicator stage reads it; `isValid` is not read */
  function ToInput(v: Validation.Validated): Indicators.Input {
    Indicators.Input(v.ticker, v.lastDate, Some(v.candles), v.lastClose)
  }

  // ---------------------------------------------------------------------------
  // Tickers

  function SeriesTicker(x: ParseAndSlice.Series): string { x.ticker }
  function RawTicker(x: Validation.RawSeries): string { x.ticker }
  function ValidatedTicker(x: Validation.Validated): string { x.ticker }
  function PricedTicker(x: Indicators.Priced): string { x.ticker }
  function LevelsTicker(x: Pivots.Levels): string { x.ticker }
  function ScoredTicker(x: Confluence.Scored): string { x.ticker }
  function PlannedTicker(x: EntryExit.Planned): string { x.ticker }
  function TestedTicker(x: Backtest.Tested): string { x.ticker }
  function PositionTicker(x: PositionSizing.Position): string { x.ticker }
  function RecommendedTicker(x: Recommendation.Recommended): string { x.data.ticker }

  /** The group keys of the raw rows: the only tickers the pipeline can name */
  function RowKeys(rows: seq<ParseAndSlice.Row>): set<string> {
    set r | r in rows :: ParseAndSlice.GroupKey(r.code)
  }

  /** Every record's key is one of `names`, and no two records share a key. */
  predicate Keyed<T>(s: seq<T>, key: T -> string, names: set<string>) {
    (forall i :: 0 <= i < |s| ==> key(s[i]) in names) &&
    (forall i, j :: 0 <= i < j < |s| ==> key(s[i]) != key(s[j]))
  }

  /** A stage that keeps each record's key keeps the keys within `names` and distinct. */
  lemma {:induction false} FilterMapKeyed<A, B>(s: seq<A>, f: A -> Option<B>, ka: A -> string, kb: B -> string,
                                                names: set<string>)
    requires forall a :: f(a).Some? ==> kb(f(a).value) == ka(a)
    requires Keyed(s, ka, names)
    ensures Keyed(FilterMap(s, f), kb, names)
  {
    if s != [] {
      var init, last := s[..|s| - 1], s[|s| - 1];
      assert Keyed(init, ka, names) by {
        forall i | 0 <= i < |init| ensures init[i] == s[i] { }
      }
      FilterMapKeyed(init, f, ka, kb, names);
      var r := FilterMap(init, f);
      if f(last).Some? {
        var b := f(last).value;
        assert FilterMap(s, f) == r + [b];
        forall p | 0 <= p < |r| ensures kb(r[p]) != kb(b) {
          FilterMapOrigin(init, f, p);
          var i :| 0 <= i < |init| && f(init[i]) == Some(r[p]);
          assert kb(r[p]) == ka(s[i]);
        }
      }
    }
  }

  /** A stage whose every record meets `post` when its input met `pre` yields only records meeting `post`. */
  lemma FilterMapKeeps<A, B>(s: seq<A>, f: A -> Option<B>, pre: A -> bool, post: B -> bool)
    requires forall i :: 0 <= i < |s| ==> pre(s[i])
    requires forall a :: pre(a) && f(a).Some? ==> post(f(a).value)
    ensures forall j :: 0 <= j < |FilterMap(s, f)| ==> post(FilterMap(s, f)[j])
  {
    forall j | 0 <= j < |FilterMap(s, f)| ensures post(FilterMap(s, f)[j]) {
      FilterMapOrigin(s, f, j);
    }
  }

  // ---------------------------------------------------------------------------
  // What each surviving record satisfies

  /** The levels of a planned trade: ordered, and reward at least 1.8 times the risk */
  predicate PlanSound(l: EntryExit.Levels) {
    l.stop <= l.entry <= l.target && l.riskReward >= 1.8 && l.rewardLot >= 1.8 * l.riskLot
  }

  predicate PlannedSound(x: EntryExit.Planned) { PlanSound(x.entryExit) }

  /** A planned trade that also passed the backtest gates */
  predicate TestedSound(x: Backtest.Tested) {
    PlanSound(x.entryExit) && x.backtest.total >= 5 &&
    0.52 <= x.backtest.winRateDec <= 1.0 && 52.0 <= x.backtest.backtestWinRate <= 100.0
  }

  /** A sized position: the trade's levels and statistics, and money amounts with a non-negative expectancy */
  predicate Signal(p: PositionSizing.Position) {
    p.stop <= p.entry <= p.target && p.riskReward >= 1.8 &&
    p.totalTrades >= 5 && 52.0 <= p.backtestWinRate <= 100.0 &&
    p.qty >= 1 && p.nominalLoss > 0.0 && p.nominalProfit >= 1.8 * p.nominalLoss && p.expectancy >= 0
  }

  /** A final recommendation for threshold `required` */
  predicate Final(r: Recommendation.Recommended, required: real) {
    Signal(r.data) && r.data.confluenceScore as real >= required &&
    r.actionRecommendation != Recommendation.ManualReview
  }

  // ---------------------------------------------------------------------------
  // The stages, one at a time

  lemma ParseKeyed(rows: seq<ParseAndSlice.Row>, today: Date)
    ensures Keyed(ParseAndSlice.Parse(rows, today), SeriesTicker, RowKeys(rows))
  {
    var out := ParseAndSlice.Parse(rows, today);
    ParseAndSlice.ParseTickersDistinct(rows, today);
    forall k | 0 <= k < |out| ensures out[k].ticker in RowKeys(rows) {
      var key := ParseAndSlice.Keys(rows)[k];
      assert out[k].ticker == key;
      ParseAndSlice.KeysComplete(rows, key);
      var g := ParseAndSlice.Group(rows, key);
      FilterKeeps(rows, (r: ParseAndSlice.Row) => ParseAndSlice.GroupKey(r.code) == key, g[0]);
      assert g[0] in g;
    }
  }

  lemma ValidateKeyed(raw: seq<Validation.RawSeries>, names: set<string>)
    requires Keyed(raw, RawTicker, names)
    ensures Keyed(FilterMap(raw, Validation.ValidateOne), ValidatedTicker, names)
  {
    forall a | Validation.ValidateOne(a).Some? ensures Validation.ValidateOne(a).value.ticker == a.ticker {
      Validation.ValidateOneOutput(a);
    }
    FilterMapKeyed(raw, Validation.ValidateOne, RawTicker, ValidatedTicker, names);
  }

  lemma DetectKeyed(priced: seq<Indicators.Priced>, names: set<string>)
    requires Keyed(priced, PricedTicker, names)
    ensures Keyed(FilterMap(priced, Pivots.Detect), LevelsTicker, names)
  {
    forall a | Pivots.Detect(a).Some? ensures Pivots.Detect(a).value.ticker == a.ticker {
      Pivots.DetectPassThrough(a);
    }
    FilterMapKeyed(priced, Pivots.Detect, PricedTicker, LevelsTicker, names);
  }

  lemma PlanKeyed(scored: seq<Confluence.Scored>, names: set<string>)
    requires Keyed(scored, ScoredTicker, names)
    ensures Keyed(FilterMap(scored, EntryExit.Plan), PlannedTicker, names)
    ensures forall j :: 0 <= j < |FilterMap(scored, EntryExit.Plan)| ==> PlannedSound(FilterMap(scored, EntryExit.Plan)[j])
  {
    forall a | EntryExit.Plan(a).Some?
      ensures EntryExit.Plan(a).value.ticker == a.ticker && PlannedSound(EntryExit.Plan(a).value)
    {
      EntryExit.PlanOutput(a);
    }
    FilterMapKeyed(scored, EntryExit.Plan, ScoredTicker, PlannedTicker, names);
    FilterMapKeeps(scored, EntryExit.Plan, (x: Confluence.Scored) => true, PlannedSound);
  }

  lemma TestKeyed(planned: seq<EntryExit.Planned>, names: set<string>)
    requires Keyed(planned, PlannedTicker, names)
    requires forall i :: 0 <= i < |planned| ==> PlannedSound(planned[i])
    ensures Keyed(FilterMap(planned, Backtest.Test), TestedTicker, names)
    ensures forall j :: 0 <= j < |FilterMap(planned, Backtest.Test)| ==> TestedSound(FilterMap(planned, Backtest.Test)[j])
  {
    forall a | Backtest.Test(a).Some?
      ensures Backtest.Test(a).value.ticker == a.ticker
      ensures PlannedSound(a) ==> TestedSound(Backtest.Test(a).value)
    {
      Backtest.TestOutput(a);
    }
    FilterMapKeyed(planned, Backtest.Test, PlannedTicker, TestedTicker, names);
    FilterMapKeeps(planned, Backtest.Test, PlannedSound, TestedSound);
  }

  /** From `profit * risk == loss * reward` and `reward >= 1.8 * risk > 0`: `profit >= 1.8 * loss` */
  lemma SameRatio(profit: real, loss: real, risk: real, reward: real)
    requires risk > 0.0 && loss > 0.0 && reward >= 1.8 * risk && profit * risk == loss * reward
    ensures profit >= 1.8 * loss
  {
    MulNonNegative(reward - 1.8 * risk, loss);
    assert (profit - 1.8 * loss) * risk == loss * (reward - 1.8 * risk);
    if profit < 1.8 * loss {
      MulPositive(1.8 * loss - profit, risk);
    }
  }

  /** A sized position of a sound backtested trade is a sound signal. */
  lemma SizeSignal(x: Backtest.Tested, cfg: PositionSizing.Config)
    requires TestedSound(x)
    ensures Signal(PositionSizing.Size(x, cfg))
  {
    var p := PositionSizing.Size(x, cfg);
    PositionSizing.SizeCopies(x, cfg);
    PositionSizing.SizeAmounts(x, cfg);
    SameRatio(p.nominalProfit, p.nominalLoss, x.entryExit.riskLot, x.entryExit.rewardLot);
    PositionSizing.ExpectancyNonNegative(x.backtest.winRateDec, p.nominalProfit, p.nominalLoss);
  }

  lemma RecommendFinal(sized: seq<PositionSizing.Position>, required: real, names: set<string>)
    requires Keyed(sized, PositionTicker, names)
    requires forall i :: 0 <= i < |sized| ==> Signal(sized[i])
    ensures var f := (d: PositionSizing.Position) => Recommendation.Recommend(d, required);
      Keyed(FilterMap(sized, f), RecommendedTicker, names) &&
      forall j :: 0 <= j < |FilterMap(sized, f)| ==> Final(FilterMap(sized, f)[j], required)
  {
    var f := (d: PositionSizing.Position) => Recommendation.Recommend(d, required);
    forall a | f(a).Some? ensures f(a).value.data.ticker == a.ticker && (Signal(a) ==> Final(f(a).value, required)) {
      Recommendation.RecommendGate(a, required);
      Recommendation.LadderCases(a.backtestWinRate, a.confluenceScore, a.riskReward);
    }
    FilterMapKeyed(sized, f, PositionTicker, RecommendedTicker, names);
    FilterMapKeeps(sized, f, Signal, (r: Recommendation.Recommended) => Final(r, required));
  }

  // ---------------------------------------------------------------------------
  // The run

  /** The per-record stages between the filtering ones: each maps its records one to one */
  function Raws(series: seq<ParseAndSlice.Series>): (r: seq<Validation.RawSeries>)
    ensures |r| == |series| && forall i :: 0 <= i < |r| ==> r[i].ticker == series[i].ticker
  {
    seq(|series|, i requires 0 <= i < |series| => ToRaw(series[i]))
  }

  function PriceAll(validated: seq<Validation.Validated>, sqrt: Sqrt): (r: seq<Indicators.Priced>)
    ensures |r| == |validated| && forall i :: 0 <= i < |r| ==> r[i].ticker == validated[i].ticker
  {
    seq(|validated|, i requires 0 <= i < |validated| => Indicators.Analyse(ToInput(validated[i]), sqrt))
  }

  function ScoreAll(levels: seq<Pivots.Levels>): (r: seq<Confluence.Scored>)
    ensures |r| == |levels| && forall i :: 0 <= i < |r| ==> r[i].ticker == levels[i].ticker
  {
    seq(|levels|, i requires 0 <= i < |levels| => Confluence.Score(levels[i]))
  }

  function SizeEach(tested: seq<Backtest.Tested>, cfg: PositionSizing.Config): (r: seq<PositionSizing.Position>)
    ensures |r| == |tested|
  {
    seq(|tested|, i requires 0 <= i < |tested| => PositionSizing.Size(tested[i], cfg))
  }

  /** The records that leave validation */
  function ValidatedOf(rows: seq<ParseAndSlice.Row>, s: Settings): seq<Validation.Validated> {
    FilterMap(Raws(ParseAndSlice.Parse(rows, s.today)), Validation.ValidateOne)
  }

  /** Indicators, then support and resistance, on the validated records */
  function LevelsFrom(validated: seq<Validation.Validated>, sqrt: Sqrt): seq<Pivots.Levels> {
    FilterMap(PriceAll(validated, sqrt), Pivots.Detect)
  }

  /** Confluence, entry/exit and the backtest, on the records with levels */
  function TestedFrom(levels: seq<Pivots.Levels>): seq<Backtest.Tested> {
    FilterMap(FilterMap(ScoreAll(levels), EntryExit.Plan), Backtest.Test)
  }

  /** Sizing, then the recommendation gate and label, on the backtested records */
  function RecommendFrom(tested: seq<Backtest.Tested>, s: Settings): seq<Recommendation.Recommended> {
    var required := Recommendation.RequiredScore(s.scoreGreaterThan);
    FilterMap(SizeEach(tested, s.sizing), (d: PositionSizing.Position) => Recommendation.Recommend(d, required))
  }

  /** The records that leave support/resistance detection */
  function LevelsOf(rows: seq<ParseAndSlice.Row>, s: Settings): seq<Pivots.Levels> {
    LevelsFrom(ValidatedOf(rows, s), s.sqrt)
  }

  /** The records that leave the backtest */
  function TestedOf(rows: seq<ParseAndSlice.Row>, s: Settings): seq<Backtest.Tested> {
    TestedFrom(LevelsOf(rows, s))
  }

  /** The pipeline's result, stage by stage */
  function Signals(rows: seq<ParseAndSlice.Row>, s: Settings): seq<Recommendation.Recommended> {
    RecommendFrom(TestedOf(rows, s), s)
  }

  /**
   * Every recommendation names a ticker that occurs in the rows, at most
   * once, and is a sound, labelled signal: stop, entry and target in order,
   * reward/risk at least 1.8, at least five backtested trades won at least
   * 52% of the time, at least one lot, a non-negative expectancy, and a
   * score that reached the threshold.
   */
  lemma SignalsSound(rows: seq<ParseAndSlice.Row>, s: Settings)
    ensures Keyed(Signals(rows, s), RecommendedTicker, RowKeys(rows))
    ensures forall k :: 0 <= k < |Signals(rows, s)| ==>
      Final(Signals(rows, s)[k], Recommendation.RequiredScore(s.scoreGreaterThan))
  {
    var names := RowKeys(rows);
    TestedOfSound(rows, s);
    var tested := TestedOf(rows, s);
    var sized := SizeEach(tested, s.sizing);
    forall i | 0 <= i < |sized| ensures Signal(sized[i]) && sized[i].ticker == tested[i].ticker {
      SizeSignal(tested[i], s.sizing);
      PositionSizing.SizeCopies(tested[i], s.sizing);
    }
    RecommendFinal(sized, Recommendation.RequiredScore(s.scoreGreaterThan), names);
  }

  /** The backtested records name distinct tickers of the rows and pass every gate up to the backtest. */
  lemma TestedOfSound(rows: seq<ParseAndSlice.Row>, s: Settings)
    ensures Keyed(TestedOf(rows, s), TestedTicker, RowKeys(rows))
    ensures forall k :: 0 <= k < |TestedOf(rows, s)| ==> TestedSound(TestedOf(rows, s)[k])
  {
    var names := RowKeys(rows);
    ParseKeyed(rows, s.today);
    var raw := Raws(ParseAndSlice.Parse(rows, s.today));
    ValidateKeyed(raw, names);
    var priced := PriceAll(ValidatedOf(rows, s), s.sqrt);
    DetectKeyed(priced, names);
    var scored := ScoreAll(LevelsOf(rows, s));
    PlanKeyed(scored, names);
    var planned := FilterMap(scored, EntryExit.Plan);
    TestKeyed(planned, names);
  }

  /** An empty intermediate result leaves nothing for the later stages. */
  lemma EmptyStaysEmpty(s: Settings)
    ensures LevelsFrom([], s.sqrt) == []
    ensures TestedFrom([]) == []
    ensures RecommendFrom([], s) == []
  {
  }

  /**
   * `runSignalPipeline`: each stage reads the previous stage's records; an
   * empty intermediate result ends the run with no recommendations, which is
   * what the remaining stages would have produced.  What the result
   * promises is `SignalsSound`.
   */
  method Run(rows: seq<ParseAndSlice.Row>, settings: Settings) returns (out: seq<Recommendation.Recommended>)
    ensures out == Signals(rows, settings)
  {
    var validated := Prepare(rows, settings);
    out := AfterValidation(validated, settings);
  }

  /** Grouping and validation; an empty grouping ends the run */
  method Prepare(rows: seq<ParseAndSlice.Row>, settings: Settings) returns (validated: seq<Validation.Validated>)
    ensures validated == ValidatedOf(rows, settings)
  {
    var series := ParseAndSlice.ParseAndSlice(rows, settings.today);
    if |series| == 0 {
      return [];
    }
    validated := Validation.ValidateAll(Raws(series));
  }

  /** No validated record ends the run; otherwise indicators and support/resistance follow */
  method AfterValidation(validated: seq<Validation.Validated>, settings: Settings) returns (out: seq<Recommendation.Recommended>)
    ensures out == RecommendFrom(TestedFrom(LevelsFrom(validated, settings.sqrt)), settings)
  {
    if |validated| == 0 {
      EmptyStaysEmpty(settings);
      return [];
    }
    var levels := Locate(validated, settings.sqrt);
    out := AfterLevels(levels, settings);
  }

  /** Indicators, then support and resistance */
  method Locate(validated: seq<Validation.Validated>, sqrt: Sqrt) returns (levels: seq<Pivots.Levels>)
    ensures levels == LevelsFrom(validated, sqrt)
  {
    var inputs := seq(|validated|, i requires 0 <= i < |validated| => ToInput(validated[i]));
    var priced := Indicators.CalculateIndicators(inputs, sqrt);
    assert priced == PriceAll(validated, sqrt);
    levels := Pivots.DetectAll(priced);
  }

  /** No record with levels ends the run; otherwise scoring, planning and the backtest follow */
  method AfterLevels(levels: seq<Pivots.Levels>, settings: Settings) returns (out: seq<Recommendation.Recommended>)
    ensures out == RecommendFrom(TestedFrom(levels), settings)
  {
    if |levels| == 0 {
      EmptyStaysEmpty(settings);
      return [];
    }
    var tested := Trade(levels);
    out := AfterBacktest(tested, settings);
  }

  /** Confluence, entry/exit and the backtest; no planned trade ends the run */
  method Trade(levels: seq<Pivots.Levels>) returns (tested: seq<Backtest.Tested>)
    ensures tested == TestedFrom(levels)
  {
    var scored := Confluence.ConfluenceScores(levels);
    assert scored == ScoreAll(levels);
    var planned := EntryExit.EntryExitAll(scored);
    if |planned| == 0 {
      return [];
    }
    tested := Backtest.BacktestAll(planned);
  }

  /** No backtested record ends the run; otherwise sizing and the recommendation close it */
  method AfterBacktest(tested: seq<Backtest.Tested>, settings: Settings) returns (out: seq<Recommendation.Recommended>)
    ensures out == RecommendFrom(tested, settings)
  {
    if |tested| == 0 {
      EmptyStaysEmpty(settings);
      return [];
    }
    var sized := PositionSizing.SizeAll(tested, settings.sizing);
    assert sized == SizeEach(tested, settings.sizing);
    out := Recommendation.RecommendAll(sized, settings.scoreGreaterThan);
  }
}
