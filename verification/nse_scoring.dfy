/**
  The scores of the NSE Kenya screener: the competitive-moat score from the
  five-year average returns and margin, the weighted composite of the five
  category scores, and the action recommended for a composite score.
 */
module NseScoring {
  import opened Common
  import opened PyText
  import NseHealth
  import NseValuation
  import NseManagement

  // ---------------------------------------------------------------------------
  // calculate_moat_score

  /** Points for a return on equity or on capital employed: 1 above 8%,
      2 above 12%, 3 above 15%. */
  function ReturnBand(x: real): (p: nat)
    ensures p <= 3
  {
    if x > 15.0 then 3 else if x > 12.0 then 2 else if x > 8.0 then 1 else 0
  }

  /** Points for the operating margin: 1 above 0%, 2 above 5%, 3 above 10%,
      4 above 15%. */
  function MarginBand(x: real): (p: nat)
    ensures p <= 4
  {
    if x > 15.0 then 4 else if x > 10.0 then 3 else if x > 5.0 then 2 else if x > 0.0 then 1 else 0
  }

  /** The moat score: 0 when a figure is missing, otherwise the sum of the bands. */
  function Moat(roe: Option<real>, roce: Option<real>, margin: Option<real>): int
  {
    if roe.None? || roce.None? || margin.None? then 0
    else ReturnBand(roe.value) + ReturnBand(roce.value) + MarginBand(margin.value)
  }

  /** `calculate_moat_score`: the running score over the three bands, capped
      at 10; the cap never binds. */
  method MoatScore(roe: Option<real>, roce: Option<real>, margin: Option<real>) returns (score: int)
    ensures score == Moat(roe, roce, margin)
    ensures 0 <= score <= 10
    ensures roe.None? || roce.None? || margin.None? ==> score == 0
  {
    if roe.None? || roce.None? || margin.None? {
      return 0;
    }
    score := 0;
    if roe.value > 15.0 {
      score := score + 3;
    } else if roe.value > 12.0 {
      score := score + 2;
    } else if roe.value > 8.0 {
      score := score + 1;
    }
    if roce.value > 15.0 {
      score := score + 3;
    } else if roce.value > 12.0 {
      score := score + 2;
    } else if roce.value > 8.0 {
      score := score + 1;
    }
    if margin.value > 15.0 {
      score := score + 4;
    } else if margin.value > 10.0 {
      score := score + 3;
    } else if margin.value > 5.0 {
      score := score + 2;
    } else if margin.value > 0.0 {
      score := score + 1;
    }
    score := Min(score, 10);
  }

  /** The moat score is monotone in each figure. */
  lemma MoatMonotone(roe: real, roce: real, margin: real, roe': real, roce': real, margin': real)
    requires roe <= roe' && roce <= roce' && margin <= margin'
    ensures Moat(Some(roe), Some(roce), Some(margin)) <= Moat(Some(roe'), Some(roce'), Some(margin'))
  {
    ReturnBandMonotone(roe, roe');
    ReturnBandMonotone(roce, roce');
    MarginBandMonotone(margin, margin');
  }

  lemma ReturnBandMonotone(x: real, y: real)
    requires x <= y
    ensures ReturnBand(x) <= ReturnBand(y)
  {
  }

  lemma MarginBandMonotone(x: real, y: real)
    requires x <= y
    ensures MarginBand(x) <= MarginBand(y)
  {
  }

  /** The full 10 is reached exactly when ROE and ROCE exceed 15% and the
      margin exceeds 15%. */
  lemma MoatTopScore(roe: real, roce: real, margin: real)
    ensures Moat(Some(roe), Some(roce), Some(margin)) == 10 <==> roe > 15.0 && roce > 15.0 && margin > 15.0
  {
  }

  // ---------------------------------------------------------------------------
  // calculate_composite_score

  /** The weights of financial health, moat, growth, valuation and
      management, in that order. */
  const Weights: seq<real> := [0.25, 0.20, 0.20, 0.20, 0.15]

  /** The fields of the analysis record the composite reads. */
  datatype StockAnalysis = StockAnalysis(
    healthPassed: bool,
    debtToEquity: NseHealth.DebtToEquity,
    moatScore: int,
    passesGrowth: bool,
    revenueCagr: Option<real>,
    profitCagr: Option<real>,
    valuationClass: string,
    signal: NseManagement.Signal)

  const TypeErrorMessage := "'<' not supported between instances of 'str' and 'float'"

  /** Financial health as written: 8 for PASSED, plus 1 below D/E 0.5 or 0.5
      below 0.8, both only for a truthy (non-zero) ratio. A D/E of 'N/A' is
      truthy and is then compared with 0.5, which raises TypeError. */
  function HealthPoints(passed: bool, debtToEquity: NseHealth.DebtToEquity): Result<real, string>
  {
    if !passed then Ok(0.0)
    else
      match debtToEquity
      case NotApplicable => Err(TypeErrorMessage)
      case Ratio(x) =>
        Ok(8.0 + (if x != 0.0 && x < 0.5 then 1.0 else if x != 0.0 && x < 0.8 then 0.5 else 0.0))
  }

  /** Financial health with the intended reading: 'N/A' (no balance sheet)
      and a debt-free company earn the bonus of a low ratio only when the
      ratio is known, and a zero ratio counts as the lowest. */
  function HealthPointsFixed(passed: bool, debtToEquity: NseHealth.DebtToEquity): (p: real)
    ensures !passed ==> p == 0.0
    ensures passed ==> 8.0 <= p <= 9.0
    ensures passed && debtToEquity.Ratio? && debtToEquity.value < 0.5 ==> p == 9.0
  {
    if !passed then 0.0
    else
      match debtToEquity
      case NotApplicable => 8.0
      case Ratio(x) => 8.0 + (if x < 0.5 then 1.0 else if x < 0.8 then 0.5 else 0.0)
  }

  /** The moat category: `min(moat / 10 * 10, 10)`. */
  function MoatPoints(moatScore: int): real
  {
    Min(moatScore, 10) as real
  }

  /** `(revenue + profit) / 2` when both are truthy, else the truthy one, else 0. */
  function AverageGrowth(revenueCagr: Option<real>, profitCagr: Option<real>): real
  {
    var r := NseValuation.Truthy(revenueCagr);
    var p := NseValuation.Truthy(profitCagr);
    if r && p then (revenueCagr.value + profitCagr.value) / 2.0
    else if r then revenueCagr.value
    else if p then profitCagr.value
    else 0.0
  }

  /** Growth: 7 when the vote passes (plus 2 above 15% average growth or 1
      above 10%), 4 otherwise. */
  function GrowthPoints(passes: bool, revenueCagr: Option<real>, profitCagr: Option<real>): (p: real)
    ensures passes ==> 7.0 <= p <= 9.0
    ensures !passes ==> p == 4.0
  {
    if passes then
      var average := AverageGrowth(revenueCagr, profitCagr);
      7.0 + (if average > 15.0 then 2.0 else if average > 10.0 then 1.0 else 0.0)
    else 4.0
  }

  /** Valuation by substring of the class label, 'UNDERVALUED' tested first. */
  function ValuationPoints(text: string): real
  {
    if Contains(text, "UNDERVALUED") then 9.0
    else if Contains(text, "FAIRLY VALUED") || Contains(text, "WITHIN TYPICAL RANGE") then 7.0
    else if Contains(text, "OVERVALUED") then 3.0
    else 5.0
  }

  /** The points each valuation class earns through its label: the
      "POTENTIALLY" classes score like their plain counterparts. */
  function ClassPoints(c: NseValuation.Classification): real
  {
    match c
    case Undervalued => 9.0
    case PotentiallyUndervalued => 9.0
    case FairlyValued => 7.0
    case WithinTypicalRange => 7.0
    case Overvalued => 3.0
    case PotentiallyOvervalued => 3.0
    case InsufficientData => 5.0
  }

  lemma ValuationPointsOfClass(c: NseValuation.Classification)
    ensures ValuationPoints(c.Label()) == ClassPoints(c)
  {
    match c
    case Undervalued => UndervaluedPoints(c.Label());
    case PotentiallyUndervalued => PotentiallyUndervaluedPoints(c.Label());
    case FairlyValued => FairlyValuedPoints(c.Label());
    case WithinTypicalRange => WithinTypicalRangePoints(c.Label());
    case Overvalued => OvervaluedPoints(c.Label());
    case PotentiallyOvervalued => PotentiallyOvervaluedPoints(c.Label());
    case InsufficientData => InsufficientDataPoints(c.Label());
  }

  lemma UndervaluedPoints(text: string)
    requires text == "UNDERVALUED"
    ensures ValuationPoints(text) == 9.0
  {
    ContainsSuffix("", "UNDERVALUED");
  }

  lemma PotentiallyUndervaluedPoints(text: string)
    requires text == "POTENTIALLY UNDERVALUED"
    ensures ValuationPoints(text) == 9.0
  {
    assert text == "POTENTIALLY " + "UNDERVALUED";
    ContainsSuffix("POTENTIALLY ", "UNDERVALUED");
  }

  lemma FairlyValuedPoints(text: string)
    requires text == "FAIRLY VALUED"
    ensures ValuationPoints(text) == 7.0
  {
    assert 'N' !in text;
    MissingCharNotContained(text, "UNDERVALUED", 'N');
    ContainsSuffix("", "FAIRLY VALUED");
  }

  lemma WithinTypicalRangePoints(text: string)
    requires text == "WITHIN TYPICAL RANGE"
    ensures ValuationPoints(text) == 7.0
  {
    assert 'U' !in text && 'F' !in text;
    MissingCharNotContained(text, "UNDERVALUED", 'U');
    MissingCharNotContained(text, "FAIRLY VALUED", 'F');
    ContainsSuffix("", "WITHIN TYPICAL RANGE");
  }

  lemma OvervaluedPoints(text: string)
    requires text == "OVERVALUED"
    ensures ValuationPoints(text) == 3.0
  {
    assert 'N' !in text && 'F' !in text && 'W' !in text;
    MissingCharNotContained(text, "UNDERVALUED", 'N');
    MissingCharNotContained(text, "FAIRLY VALUED", 'F');
    MissingCharNotContained(text, "WITHIN TYPICAL RANGE", 'W');
    ContainsSuffix("", "OVERVALUED");
  }

  lemma PotentiallyOvervaluedPoints(text: string)
    requires text == "POTENTIALLY OVERVALUED"
    ensures ValuationPoints(text) == 3.0
  {
    PotentiallyOvervaluedHas(text);
    PotentiallyOvervaluedLacks(text);
  }

  lemma PotentiallyOvervaluedHas(text: string)
    requires text == "POTENTIALLY OVERVALUED"
    ensures Contains(text, "OVERVALUED")
  {
    assert text == "POTENTIALLY " + "OVERVALUED";
    ContainsSuffix("POTENTIALLY ", "OVERVALUED");
  }

  lemma PotentiallyOvervaluedLacks(text: string)
    requires text == "POTENTIALLY OVERVALUED"
    ensures !Contains(text, "UNDERVALUED") && !Contains(text, "FAIRLY VALUED") && !Contains(text, "WITHIN TYPICAL RANGE")
  {
    assert 'F' !in text && 'W' !in text;
    assert forall i :: 0 <= i < |text| - 1 ==> !(text[i] == 'U' && text[i + 1] == 'N');
    MissingPairNotContained(text, "UNDERVALUED");
    MissingCharNotContained(text, "FAIRLY VALUED", 'F');
    MissingCharNotContained(text, "WITHIN TYPICAL RANGE", 'W');
  }

  lemma InsufficientDataPoints(text: string)
    requires text == "INSUFFICIENT DATA"
    ensures ValuationPoints(text) == 5.0
  {
    assert 'V' !in text && 'W' !in text;
    MissingCharNotContained(text, "UNDERVALUED", 'V');
    MissingCharNotContained(text, "FAIRLY VALUED", 'V');
    MissingCharNotContained(text, "WITHIN TYPICAL RANGE", 'W');
    MissingCharNotContained(text, "OVERVALUED", 'V');
  }

  /** Management: 9 POSITIVE, 7 NEUTRAL, 3 NEGATIVE, 5 otherwise. */
  function ManagementPoints(signal: NseManagement.Signal): real
  {
    match signal
    case Positive => 9.0
    case Neutral => 7.0
    case Negative => 3.0
    case Error => 5.0
  }

  /** A category score of the composite lies in [0, 10]. */
  predicate InRange(x: real)
  {
    0.0 <= x <= 10.0
  }

  /** The sum of score times weight over the categories. */
  function Weighted(scores: seq<real>, weights: seq<real>): real
    requires |scores| == |weights|
  {
    if scores == [] then 0.0
    else Weighted(scores[..|scores| - 1], weights[..|weights| - 1]) + scores[|scores| - 1] * weights[|weights| - 1]
  }

  function Total(weights: seq<real>): real
  {
    if weights == [] then 0.0 else Total(weights[..|weights| - 1]) + weights[|weights| - 1]
  }

  /** A weighted sum of scores in [0, 10] with non-negative weights lies
      between 0 and 10 times the total weight. */
  lemma {:induction false} WeightedBounds(scores: seq<real>, weights: seq<real>)
    requires |scores| == |weights|
    requires forall i :: 0 <= i < |scores| ==> InRange(scores[i])
    requires forall i :: 0 <= i < |weights| ==> weights[i] >= 0.0
    ensures 0.0 <= Weighted(scores, weights) <= 10.0 * Total(weights)
  {
    if scores != [] {
      var n := |scores| - 1;
      WeightedBounds(scores[..n], weights[..n]);
      assert Weighted(scores, weights) == Weighted(scores[..n], weights[..n]) + scores[n] * weights[n];
      assert Total(weights) == Total(weights[..n]) + weights[n];
      assert 0.0 <= scores[n] * weights[n] <= 10.0 * weights[n] by {
        assert InRange(scores[n]) && weights[n] >= 0.0;
      }
    }
  }

  lemma WeightsSumToOne()
    ensures Total(Weights) == 1.0
  {
    assert Weights[..4] == [0.25, 0.20, 0.20, 0.20];
    assert Weights[..4][..3] == [0.25, 0.20, 0.20];
    assert Weights[..4][..3][..2] == [0.25, 0.20];
    assert Weights[..4][..3][..2][..1] == [0.25];
    assert Weights[..4][..3][..2][..1][..0] == [];
    assert Total([0.25]) == 0.25;
    assert Total([0.25, 0.20]) == 0.45;
    assert Total([0.25, 0.20, 0.20]) == 0.65;
    assert Total([0.25, 0.20, 0.20, 0.20]) == 0.85;
  }

  /** The weighted loop of `calculate_composite_score`. */
  method WeightedSum(scores: seq<real>, weights: seq<real>) returns (total: real)
    requires |scores| == |weights|
    ensures total == Weighted(scores, weights)
  {
    total := 0.0;
    for i := 0 to |scores|
      invariant total == Weighted(scores[..i], weights[..i])
    {
      assert scores[..i + 1][..i] == scores[..i];
      assert weights[..i + 1][..i] == weights[..i];
      total := total + scores[i] * weights[i];
    }
    assert scores[..|scores|] == scores;
    assert weights[..|weights|] == weights;
  }

  /** The five category scores once financial health is known. */
  function CategoryScores(health: real, a: StockAnalysis): seq<real>
  {
    [health, MoatPoints(a.moatScore), GrowthPoints(a.passesGrowth, a.revenueCagr, a.profitCagr),
     ValuationPoints(a.valuationClass), ManagementPoints(a.signal)]
  }

  lemma CategoryScoresInRange(health: real, a: StockAnalysis)
    requires InRange(health) && a.moatScore >= 0
    ensures forall i :: 0 <= i < 5 ==> InRange(CategoryScores(health, a)[i])
  {
  }

  /** `calculate_composite_score` as written: a passing company whose D/E is
      'N/A' makes the health step raise TypeError; otherwise the weighted
      sum of the category scores. */
  method CompositeScore(a: StockAnalysis) returns (r: Result<real, string>)
    ensures r.Err? <==> a.healthPassed && a.debtToEquity.NotApplicable?
    ensures r.Ok? ==> r.value == Weighted(CategoryScores(HealthPoints(a.healthPassed, a.debtToEquity).value, a), Weights)
    ensures r.Ok? && a.moatScore >= 0 ==> InRange(r.value)
  {
    var health := HealthPoints(a.healthPassed, a.debtToEquity);
    if health.Err? {
      return Err(health.error);
    }
    var scores := CategoryScores(health.value, a);
    var total := WeightedSum(scores, Weights);
    if a.moatScore >= 0 {
      CategoryScoresInRange(health.value, a);
      WeightedBounds(scores, Weights);
      WeightsSumToOne();
    }
    return Ok(total);
  }

  /** A passing company without a balance sheet (D/E 'N/A') never gets a
      composite score as written. */
  lemma CompositeFailsWithoutBalanceSheet(a: StockAnalysis)
    requires a.healthPassed && a.debtToEquity == NseHealth.NotApplicable
    ensures HealthPoints(a.healthPassed, a.debtToEquity).Err?
  {
  }

  /** As written, a debt-free company (D/E 0) earns 8, less than the 9 of a
      company with D/E 0.3. */
  lemma ZeroDebtLosesBonus()
    ensures HealthPoints(true, NseHealth.Ratio(0.0)) == Ok(8.0)
    ensures HealthPoints(true, NseHealth.Ratio(0.3)) == Ok(9.0)
    ensures HealthPointsFixed(true, NseHealth.Ratio(0.0)) == 9.0
  {
  }

  /** The composite with the corrected health step: always a score, and in
      [0, 10] for a non-negative moat score. */
  method CompositeScoreFixed(a: StockAnalysis) returns (total: real)
    ensures total == Weighted(CategoryScores(HealthPointsFixed(a.healthPassed, a.debtToEquity), a), Weights)
    ensures a.moatScore >= 0 ==> InRange(total)
  {
    var scores := CategoryScores(HealthPointsFixed(a.healthPassed, a.debtToEquity), a);
    total := WeightedSum(scores, Weights);
    if a.moatScore >= 0 {
      CategoryScoresInRange(HealthPointsFixed(a.healthPassed, a.debtToEquity), a);
      WeightedBounds(scores, Weights);
      WeightsSumToOne();
    }
  }

  // ---------------------------------------------------------------------------
  // The action thresholds of screen_stocks

  datatype Action = StrongBuy | Buy | Hold | Watch | Avoid
  {
    function Label(): string
    {
      match this
      case StrongBuy => "STRONG BUY"
      case Buy => "BUY"
      case Hold => "HOLD"
      case Watch => "WATCH"
      case Avoid => "AVOID"
    }

    /** The strength of the recommendation, AVOID lowest. */
    function Rank(): nat
    {
      match this
      case StrongBuy => 4
      case Buy => 3
      case Hold => 2
      case Watch => 1
      case Avoid => 0
    }
  }

  /** The action for a composite score: STRONG BUY from 8, BUY from 7, HOLD
      from 6, WATCH from 5, AVOID below. */
  function ActionFor(composite: real): (act: Action)
    ensures act == StrongBuy <==> composite >= 8.0
    ensures act == Buy <==> 7.0 <= composite < 8.0
    ensures act == Hold <==> 6.0 <= composite < 7.0
    ensures act == Watch <==> 5.0 <= composite < 6.0
    ensures act == Avoid <==> composite < 5.0
  {
    if composite >= 8.0 then StrongBuy
    else if composite >= 7.0 then Buy
    else if composite >= 6.0 then Hold
    else if composite >= 5.0 then Watch
    else Avoid
  }

  /** A higher composite never gets a weaker recommendation. */
  lemma ActionMonotone(x: real, y: real)
    requires x <= y
    ensures ActionFor(x).Rank() <= ActionFor(y).Rank()
  {
  }

  /** The scoring step of `screen_stocks` as written: the composite of
      `calculate_composite_score` and the action it maps to; when the composite
      raises (a passing company whose D/E is 'N/A') the error propagates and no
      action is chosen. */
  method Recommend(a: StockAnalysis) returns (r: Result<(real, Action), string>)
    ensures r.Err? <==> a.healthPassed && a.debtToEquity.NotApplicable?
    ensures r.Ok? ==>
      && r.value.0 == Weighted(CategoryScores(HealthPoints(a.healthPassed, a.debtToEquity).value, a), Weights)
      && r.value.1 == ActionFor(r.value.0)
  {
    var composite := CompositeScore(a);
    if composite.Err? {
      return Err(composite.error);
    }
    r := Ok((composite.value, ActionFor(composite.value)));
  }

  /** The same step over the corrected health points: every stock gets a
      composite and an action. */
  method RecommendFixed(a: StockAnalysis) returns (composite: real, action: Action)
    ensures composite == Weighted(CategoryScores(HealthPointsFixed(a.healthPassed, a.debtToEquity), a), Weights)
    ensures action == ActionFor(composite)
  {
    composite := CompositeScoreFixed(a);
    action := ActionFor(composite);
  }
}
