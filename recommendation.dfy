/**
 * Action recommendation: rows whose confluence score is below the configured
 * threshold are dropped; every other row is passed on unchanged with a label
 * chosen by a ladder on win rate, score and reward/risk.
 */
module Recommendation {
  import opened Common
  import PositionSizing

  /** `ManualReview` is the initial value of the label variable; every path overwrites it. */
  datatype Action = ManualReview | StrongBuy | Buy | CautiousBuy | Watchlist | Avoid

  /** The stage's output row: the input row as it was, plus the label */
  datatype Recommended = Recommended(data: PositionSizing.Position, actionRecommendation: Action)

  const DefaultRequiredScore: real := 2.0

  /** `scoreGreaterThan || 2` */
  function RequiredScore(scoreGreaterThan: Num): real { OrDefault(scoreGreaterThan, DefaultRequiredScore) }

  /** The first rung whose win rate, score (and, for the top rung, reward/risk) are all met */
  function Ladder(winRate: real, score: nat, riskReward: real): Action {
    if winRate >= 70.0 && score >= 5 && riskReward >= 2.0 then StrongBuy
    else if winRate >= 65.0 && score >= 4 then Buy
    else if winRate >= 58.0 && score >= 3 then CautiousBuy
    else if winRate >= 52.0 && score >= 2 then Watchlist
    else Avoid
  }

  function Recommend(d: PositionSizing.Position, required: real): Option<Recommended> {
    if (d.confluenceScore as real) < required then None
    else Some(Recommended(d, Ladder(d.backtestWinRate, d.confluenceScore, d.riskReward)))
  }

  /** The stage: a threshold filter, then the ladder as a chain of if/else */
  method RecommendAll(items: seq<PositionSizing.Position>, scoreGreaterThan: Num) returns (out: seq<Recommended>)
    ensures out == FilterMap(items, (d: PositionSizing.Position) => Recommend(d, RequiredScore(scoreGreaterThan)))
  {
    var required := RequiredScore(scoreGreaterThan);
    ghost var f := (d: PositionSizing.Position) => Recommend(d, required);
    out := [];
    for i := 0 to |items|
      invariant out == FilterMap(items[..i], f)
    {
      FilterMapStep(items, f, i);
      var d := items[i];
      if (d.confluenceScore as real) < required {
        continue;
      }
      var action := ManualReview;
      if d.backtestWinRate >= 70.0 && d.confluenceScore >= 5 && d.riskReward >= 2.0 {
        action := StrongBuy;
      } else if d.backtestWinRate >= 65.0 && d.confluenceScore >= 4 {
        action := Buy;
      } else if d.backtestWinRate >= 58.0 && d.confluenceScore >= 3 {
        action := CautiousBuy;
      } else if d.backtestWinRate >= 52.0 && d.confluenceScore >= 2 {
        action := Watchlist;
      } else {
        action := Avoid;
      }
      out := out + [Recommended(d, action)];
    }
    assert items[..|items|] == items;
  }

  // ---------------------------------------------------------------------------
  // Properties

  /** A missing, zero or NaN threshold is 2; any other number is used as given. */
  lemma ThresholdDefault(scoreGreaterThan: Num)
    ensures !(scoreGreaterThan.Fin? && scoreGreaterThan.r != 0.0) ==> RequiredScore(scoreGreaterThan) == 2.0
    ensures scoreGreaterThan.Fin? && scoreGreaterThan.r != 0.0 ==> RequiredScore(scoreGreaterThan) == scoreGreaterThan.r
  {
  }

  /**
   * A row is kept exactly when its score reaches the threshold (a score equal
   * to it passes), and it is kept unchanged.
   */
  lemma RecommendGate(d: PositionSizing.Position, required: real)
    ensures Recommend(d, required).Some? <==> d.confluenceScore as real >= required
    ensures Recommend(d, required).Some? ==> Recommend(d, required).value.data == d
  {
  }

  /**
   * Each label is given exactly under its own conditions, and 'Manual review
   * required' never: the ladder's rungs as independent conditions.
   */
  lemma LadderCases(w: real, s: nat, rr: real)
    ensures Ladder(w, s, rr) != ManualReview
    ensures Ladder(w, s, rr) == StrongBuy <==> w >= 70.0 && s >= 5 && rr >= 2.0
    ensures Ladder(w, s, rr) == Buy <==> !(w >= 70.0 && s >= 5 && rr >= 2.0) && w >= 65.0 && s >= 4
    ensures Ladder(w, s, rr) == CautiousBuy <==>
      !(w >= 70.0 && s >= 5 && rr >= 2.0) && !(w >= 65.0 && s >= 4) && w >= 58.0 && s >= 3
    ensures Ladder(w, s, rr) == Watchlist <==>
      (w < 65.0 || s < 4) && (w < 58.0 || s < 3) && w >= 52.0 && s >= 2
    ensures Ladder(w, s, rr) == Avoid <==> (w < 52.0 || s < 2) && (w < 58.0 || s < 3) && (w < 65.0 || s < 4)
  {
  }

  /** Metrics that meet the top rung except for a reward/risk below 2.0 fall to BUY. */
  lemma LowRatioFallsToBuy(w: real, s: nat, rr: real)
    requires w >= 70.0 && s >= 5 && rr < 2.0
    ensures Ladder(w, s, rr) == Buy
  {
  }

  /** Kept rows keep their relative input order. */
  lemma RecommendOrder(items: seq<PositionSizing.Position>, required: real, a: nat, b: nat)
    requires a < b < |items|
    requires items[a].confluenceScore as real >= required && items[b].confluenceScore as real >= required
    ensures var out := FilterMap(items, (d: PositionSizing.Position) => Recommend(d, required));
      exists p, q :: 0 <= p < q < |out| && out[p].data == items[a] && out[q].data == items[b]
  {
    var f := (d: PositionSizing.Position) => Recommend(d, required);
    FilterMapPair(items, f, a, b);
  }
}
