/**
 * The client's score engine: a weighted, normalised sum over the six
 * factors (healthcare counted inverted), an optional 70/30 blend with a
 * region's base score, a clamp to [0,1]; interventions as clamped
 * deltas on a copy of the factors; and the flat twelve-month projection.
 */
module RiskCalculation {
  import opened Wrappers
  import opened Numbers
  import opened Types

  const DefaultWeights: RiskParameterWeight := RiskParameters(0.25, 0.20, 0.15, 0.15, 0.15, 0.10)

  /** Length of the projection horizon. */
  const Horizon: nat := 12

  // ---------------------------------------------------------------------
  // Score engine: specification

  /** What one weight entry adds to the running total. */
  function Contribution(p: RiskParameters, w: RiskParameterWeight, f: Factor): real
  {
    if f == HealthcareInfrastructure then w.Get(f) * (1.0 - p.Get(f)) else w.Get(f) * p.Get(f)
  }

  /** The running total after visiting the entries `fs`. */
  function WeightedSum(p: RiskParameters, w: RiskParameterWeight, fs: seq<Factor>): real
  {
    if fs == [] then 0.0 else WeightedSum(p, w, fs[..|fs| - 1]) + Contribution(p, w, fs[|fs| - 1])
  }

  /** The running weight after visiting the entries `fs`. */
  function TotalWeight(w: RiskParameterWeight, fs: seq<Factor>): real
  {
    if fs == [] then 0.0 else TotalWeight(w, fs[..|fs| - 1]) + w.Get(fs[|fs| - 1])
  }

  /** The normalised weighted sum, 0 when the weights do not add up to something positive. */
  function RawScore(p: RiskParameters, w: RiskParameterWeight): real
  {
    var total := TotalWeight(w, AllFactors);
    if total > 0.0 then WeightedSum(p, w, AllFactors) / total else 0.0
  }

  /** The 70/30 blend with a base score, when one is supplied. */
  function Blend(raw: real, baseScore: Option<real>): real
  {
    match baseScore
    case None => raw
    case Some(b) => raw * 0.7 + b * 0.3
  }

  /** The value `calculateRiskScore(parameters, baseScore, weights)` returns. */
  function Score(p: RiskParameters, baseScore: Option<real>, w: RiskParameterWeight): real
  {
    Clamp01(Blend(RawScore(p, w), baseScore))
  }

  // ---------------------------------------------------------------------
  // Score engine: the loop

  method CalculateRiskScore(parameters: RiskParameters, baseScore: Option<real>, weights: RiskParameterWeight)
    returns (score: real)
    ensures score == Score(parameters, baseScore, weights)
    ensures 0.0 <= score <= 1.0
  {
    var totalScore := 0.0;
    var totalWeight := 0.0;
    var i := 0;
    while i < |AllFactors|
      invariant 0 <= i <= |AllFactors|
      invariant totalScore == WeightedSum(parameters, weights, AllFactors[..i])
      invariant totalWeight == TotalWeight(weights, AllFactors[..i])
    {
      var param := AllFactors[i];
      var weight := weights.Get(param);
      var value := parameters.Get(param);
      if param == HealthcareInfrastructure {
        totalScore := totalScore + weight * (1.0 - value);
      } else {
        totalScore := totalScore + weight * value;
      }
      totalWeight := totalWeight + weight;
      assert AllFactors[..i + 1][..i] == AllFactors[..i];
      i := i + 1;
    }
    assert AllFactors[..i] == AllFactors;
    var riskScore := if totalWeight > 0.0 then totalScore / totalWeight else 0.0;
    if baseScore.Some? {
      riskScore := riskScore * 0.7 + baseScore.value * 0.3;
    }
    score := Max(0.0, Min(1.0, riskScore));
  }

  // ---------------------------------------------------------------------
  // Score engine: properties

  /** Healthcare enters as weight * (1 - value), every other factor as weight * value. */
  lemma WeightedSumClosedForm(p: RiskParameters, w: RiskParameterWeight)
    ensures WeightedSum(p, w, AllFactors)
         == w.batDensity * p.batDensity
          + w.pigFarmingIntensity * p.pigFarmingIntensity
          + w.fruitConsumptionPractices * p.fruitConsumptionPractices
          + w.humanPopulationDensity * p.humanPopulationDensity
          + w.healthcareInfrastructure * (1.0 - p.healthcareInfrastructure)
          + w.environmentalDegradation * p.environmentalDegradation
    ensures TotalWeight(w, AllFactors)
         == w.batDensity + w.pigFarmingIntensity + w.fruitConsumptionPractices
          + w.humanPopulationDensity + w.healthcareInfrastructure + w.environmentalDegradation
  {
    var l1 := [BatDensity];
    var l2 := l1 + [PigFarmingIntensity];
    var l3 := l2 + [FruitConsumptionPractices];
    var l4 := l3 + [HumanPopulationDensity];
    var l5 := l4 + [HealthcareInfrastructure];
    var l6 := l5 + [EnvironmentalDegradation];
    assert l1[..0] == [] && l2[..1] == l1 && l3[..2] == l2 && l4[..3] == l3 && l5[..4] == l4 && l6[..5] == l5;
    assert l6 == AllFactors;
    assert WeightedSum(p, w, l1) == Contribution(p, w, BatDensity);
    assert WeightedSum(p, w, l2) == WeightedSum(p, w, l1) + Contribution(p, w, PigFarmingIntensity);
    assert WeightedSum(p, w, l3) == WeightedSum(p, w, l2) + Contribution(p, w, FruitConsumptionPractices);
    assert WeightedSum(p, w, l4) == WeightedSum(p, w, l3) + Contribution(p, w, HumanPopulationDensity);
    assert WeightedSum(p, w, l5) == WeightedSum(p, w, l4) + Contribution(p, w, HealthcareInfrastructure);
    assert WeightedSum(p, w, l6) == WeightedSum(p, w, l5) + Contribution(p, w, EnvironmentalDegradation);
    assert TotalWeight(w, l1) == w.batDensity;
    assert TotalWeight(w, l2) == TotalWeight(w, l1) + w.pigFarmingIntensity;
    assert TotalWeight(w, l3) == TotalWeight(w, l2) + w.fruitConsumptionPractices;
    assert TotalWeight(w, l4) == TotalWeight(w, l3) + w.humanPopulationDensity;
    assert TotalWeight(w, l5) == TotalWeight(w, l4) + w.healthcareInfrastructure;
    assert TotalWeight(w, l6) == TotalWeight(w, l5) + w.environmentalDegradation;
  }

  /** A non-positive total weight leaves nothing of the weighted sum: only the base score's 30% survives. */
  lemma ZeroTotalWeight(p: RiskParameters, w: RiskParameterWeight, baseScore: Option<real>)
    requires TotalWeight(w, AllFactors) <= 0.0
    ensures RawScore(p, w) == 0.0
    ensures Score(p, baseScore, w) == match baseScore case None => 0.0 case Some(b) => Clamp01(b * 0.3)
  {
  }

  /** Each contribution lies between 0 and its (non-negative) weight when the factor is in range. */
  lemma ContributionBounds(p: RiskParameters, w: RiskParameterWeight, f: Factor)
    requires InRange(p) && NonNegative(w)
    ensures 0.0 <= Contribution(p, w, f) <= w.Get(f)
  {
    var v, k := p.Get(f), w.Get(f);
    assert 0.0 <= v <= 1.0 && 0.0 <= k;
    if f == HealthcareInfrastructure {
      assert Contribution(p, w, f) == k * (1.0 - v);
      ProductBounds(k, 1.0 - v);
    } else {
      assert Contribution(p, w, f) == k * v;
      ProductBounds(k, v);
    }
  }

  /** A weight times a value in [0,1] lies between 0 and the weight. */
  lemma ProductBounds(k: real, v: real)
    requires 0.0 <= k && 0.0 <= v <= 1.0
    ensures 0.0 <= k * v <= k
  {
    assert k * v <= k * 1.0 by {
      assert k * (1.0 - v) >= 0.0;
    }
  }

  lemma {:induction false} WeightedSumBounds(p: RiskParameters, w: RiskParameterWeight, fs: seq<Factor>)
    requires InRange(p) && NonNegative(w)
    ensures 0.0 <= WeightedSum(p, w, fs) <= TotalWeight(w, fs)
  {
    if fs != [] {
      WeightedSumBounds(p, w, fs[..|fs| - 1]);
      ContributionBounds(p, w, fs[|fs| - 1]);
    }
  }

  /** For in-range factors and non-negative weights the unblended score is already in [0,1]. */
  lemma RawScoreInRange(p: RiskParameters, w: RiskParameterWeight)
    requires InRange(p) && NonNegative(w)
    ensures 0.0 <= RawScore(p, w) <= 1.0
  {
    WeightedSumBounds(p, w, AllFactors);
    var s, t := WeightedSum(p, w, AllFactors), TotalWeight(w, AllFactors);
    if t > 0.0 {
      DivisionMonotone(s, t, t);
    }
  }

  /** With a base score in [0,1] the score is exactly 0.7 times the unblended score plus 0.3 times the base score. */
  lemma BlendWithBaseScore(p: RiskParameters, w: RiskParameterWeight, b: real)
    requires InRange(p) && NonNegative(w) && 0.0 <= b <= 1.0
    ensures Score(p, Some(b), w) == 0.7 * Score(p, None, w) + 0.3 * b
  {
    RawScoreInRange(p, w);
  }

  /**
   * q is at least as risky as p in every factor: no lower in a risk-positive
   * factor and no higher in healthcare.
   */
  predicate Riskier(q: RiskParameters, p: RiskParameters)
  {
    && (forall f :: f != HealthcareInfrastructure ==> p.Get(f) <= q.Get(f))
    && q.healthcareInfrastructure <= p.healthcareInfrastructure
  }

  lemma {:induction false} WeightedSumMonotone(p: RiskParameters, q: RiskParameters, w: RiskParameterWeight, fs: seq<Factor>)
    requires NonNegative(w) && Riskier(q, p)
    ensures WeightedSum(p, w, fs) <= WeightedSum(q, w, fs)
  {
    if fs != [] {
      WeightedSumMonotone(p, q, w, fs[..|fs| - 1]);
      var f := fs[|fs| - 1];
      var k := w.Get(f);
      assert 0.0 <= k;
      if f == HealthcareInfrastructure {
        assert k * (1.0 - p.Get(f)) <= k * (1.0 - q.Get(f));
      } else {
        assert k * p.Get(f) <= k * q.Get(f);
      }
    }
  }

  /** With non-negative weights a riskier factor set never gets a lower score, whatever the base score. */
  lemma ScoreMonotone(p: RiskParameters, q: RiskParameters, w: RiskParameterWeight, baseScore: Option<real>)
    requires NonNegative(w) && Riskier(q, p)
    ensures Score(p, baseScore, w) <= Score(q, baseScore, w)
  {
    WeightedSumMonotone(p, q, w, AllFactors);
    var s, s', t := WeightedSum(p, w, AllFactors), WeightedSum(q, w, AllFactors), TotalWeight(w, AllFactors);
    if t > 0.0 {
      DivisionMonotone(s, s', t);
    }
    assert RawScore(p, w) <= RawScore(q, w);
    assert Blend(RawScore(p, w), baseScore) <= Blend(RawScore(q, w), baseScore);
    Clamp01Monotone(Blend(RawScore(p, w), baseScore), Blend(RawScore(q, w), baseScore));
  }

  /** Raising a risk-positive factor never lowers the score. */
  lemma RaisingRiskFactorNeverLowersScore(p: RiskParameters, w: RiskParameterWeight, baseScore: Option<real>, f: Factor, v: real)
    requires NonNegative(w) && f != HealthcareInfrastructure && p.Get(f) <= v
    ensures Score(p, baseScore, w) <= Score(p.With(f, v), baseScore, w)
  {
    ScoreMonotone(p, p.With(f, v), w, baseScore);
  }

  /** Raising healthcare never raises the score. */
  lemma RaisingHealthcareNeverRaisesScore(p: RiskParameters, w: RiskParameterWeight, baseScore: Option<real>, v: real)
    requires NonNegative(w) && p.healthcareInfrastructure <= v
    ensures Score(p.With(HealthcareInfrastructure, v), baseScore, w) <= Score(p, baseScore, w)
  {
    ScoreMonotone(p.With(HealthcareInfrastructure, v), p, w, baseScore);
  }

  /** Healthcare is inverted: with every other factor 0, full healthcare scores strictly lower than none. */
  lemma HealthcareInversion(w: RiskParameterWeight)
    requires NonNegative(w) && w.healthcareInfrastructure > 0.0
    ensures Score(RiskParameters(0.0, 0.0, 0.0, 0.0, 1.0, 0.0), None, w)
          < Score(RiskParameters(0.0, 0.0, 0.0, 0.0, 0.0, 0.0), None, w)
  {
    var full, none := RiskParameters(0.0, 0.0, 0.0, 0.0, 1.0, 0.0), RiskParameters(0.0, 0.0, 0.0, 0.0, 0.0, 0.0);
    WeightedSumClosedForm(full, w);
    WeightedSumClosedForm(none, w);
    RawScoreInRange(none, w);
    var t := TotalWeight(w, AllFactors);
    assert w.Get(BatDensity) >= 0.0 && w.Get(PigFarmingIntensity) >= 0.0 && w.Get(FruitConsumptionPractices) >= 0.0;
    assert w.Get(HumanPopulationDensity) >= 0.0 && w.Get(EnvironmentalDegradation) >= 0.0;
    assert t >= w.healthcareInfrastructure > 0.0;
    assert RawScore(none, w) == w.healthcareInfrastructure / t > 0.0;
  }

  /** The factor set of a worked example. */
  const ExampleParameters: RiskParameters := RiskParameters(0.6, 0.4, 0.7, 0.5, 0.5, 0.3)

  /** Default weights, the worked example's factors and no base score give exactly 0.515. */
  lemma ExampleScore()
    ensures Score(ExampleParameters, None, DefaultWeights) == 0.515
  {
    WeightedSumClosedForm(ExampleParameters, DefaultWeights);
  }

  lemma DefaultWeightsSumToOne()
    ensures TotalWeight(DefaultWeights, AllFactors) == 1.0
    ensures NonNegative(DefaultWeights)
  {
    WeightedSumClosedForm(ExampleParameters, DefaultWeights);
  }

  // ---------------------------------------------------------------------
  // Interventions: specification

  /** One step of the `forEach`: healthcare gets |effect| added, any other factor the signed effect; then the clamp. */
  function ApplyOne(p: RiskParameters, i: ActiveIntervention): RiskParameters
  {
    var key := i.impact.parameter;
    if key == HealthcareInfrastructure then p.With(key, Clamp01(p.Get(key) + Abs(i.impact.effect)))
    else p.With(key, Clamp01(p.Get(key) + i.impact.effect))
  }

  /** The factor set after applying `interventions` in order to a copy of `p`. */
  function Applied(p: RiskParameters, interventions: seq<ActiveIntervention>): RiskParameters
  {
    if interventions == [] then p
    else ApplyOne(Applied(p, interventions[..|interventions| - 1]), interventions[|interventions| - 1])
  }

  // ---------------------------------------------------------------------
  // Interventions: the loop

  method ApplyInterventions(baseParameters: RiskParameters, interventions: seq<ActiveIntervention>)
    returns (modifiedParams: RiskParameters)
    ensures modifiedParams == Applied(baseParameters, interventions)
  {
    modifiedParams := baseParameters;
    var i := 0;
    while i < |interventions|
      invariant 0 <= i <= |interventions|
      invariant modifiedParams == Applied(baseParameters, interventions[..i])
    {
      var paramKey := interventions[i].impact.parameter;
      var effect := interventions[i].impact.effect;
      if paramKey == HealthcareInfrastructure {
        modifiedParams := modifiedParams.With(paramKey, Max(0.0, Min(1.0, modifiedParams.Get(paramKey) + Abs(effect))));
      } else {
        modifiedParams := modifiedParams.With(paramKey, Max(0.0, Min(1.0, modifiedParams.Get(paramKey) + effect)));
      }
      assert interventions[..i + 1][..i] == interventions[..i];
      i := i + 1;
    }
    assert interventions[..i] == interventions;
  }

  // ---------------------------------------------------------------------
  // Interventions: properties

  lemma AppliedNothing(p: RiskParameters)
    ensures Applied(p, []) == p
  {
  }

  /** A factor no intervention targets keeps its value. */
  lemma {:induction false} AppliedUntargeted(p: RiskParameters, interventions: seq<ActiveIntervention>, f: Factor)
    requires forall k :: 0 <= k < |interventions| ==> interventions[k].impact.parameter != f
    ensures Applied(p, interventions).Get(f) == p.Get(f)
  {
    if interventions != [] {
      AppliedUntargeted(p, interventions[..|interventions| - 1], f);
    }
  }

  /** A factor some intervention targets ends up in [0,1], whatever it started at. */
  lemma {:induction false} AppliedTargetedInRange(p: RiskParameters, interventions: seq<ActiveIntervention>, f: Factor)
    requires exists k :: 0 <= k < |interventions| && interventions[k].impact.parameter == f
    ensures 0.0 <= Applied(p, interventions).Get(f) <= 1.0
  {
    var n := |interventions|;
    var init := interventions[..n - 1];
    if interventions[n - 1].impact.parameter != f {
      var k :| 0 <= k < n && interventions[k].impact.parameter == f;
      assert init[k] == interventions[k];
      AppliedTargetedInRange(p, init, f);
    }
  }

  /** In-range factors stay in range. */
  lemma {:induction false} AppliedPreservesInRange(p: RiskParameters, interventions: seq<ActiveIntervention>)
    requires InRange(p)
    ensures InRange(Applied(p, interventions))
  {
    if interventions != [] {
      AppliedPreservesInRange(p, interventions[..|interventions| - 1]);
    }
  }

  /** A healthcare intervention adds |effect| whatever its sign, so healthcare never drops (for healthcare <= 1). */
  lemma {:induction false} HealthcareNeverLowered(p: RiskParameters, interventions: seq<ActiveIntervention>)
    requires p.healthcareInfrastructure <= 1.0
    ensures p.healthcareInfrastructure <= Applied(p, interventions).healthcareInfrastructure <= 1.0
  {
    if interventions != [] {
      HealthcareNeverLowered(p, interventions[..|interventions| - 1]);
    }
  }

  /** Every effect on a risk-positive factor is a reduction (healthcare effects may have any sign). */
  predicate Reducing(interventions: seq<ActiveIntervention>)
  {
    forall k :: 0 <= k < |interventions| && interventions[k].impact.parameter != HealthcareInfrastructure
      ==> interventions[k].impact.effect <= 0.0
  }

  /** Reducing interventions leave an in-range factor set no riskier than it was. */
  lemma {:induction false} ReducingInterventionsLowerFactors(p: RiskParameters, interventions: seq<ActiveIntervention>)
    requires InRange(p) && Reducing(interventions)
    ensures Riskier(p, Applied(p, interventions))
  {
    if interventions != [] {
      var init := interventions[..|interventions| - 1];
      assert Reducing(init) by {
        forall k | 0 <= k < |init| ensures init[k] == interventions[k] { }
      }
      ReducingInterventionsLowerFactors(p, init);
      AppliedPreservesInRange(p, init);
    }
  }

  /** With non-negative weights, reducing interventions never raise the score of an in-range factor set. */
  lemma ReducingInterventionsNeverRaiseScore(
    p: RiskParameters, interventions: seq<ActiveIntervention>, w: RiskParameterWeight, baseScore: Option<real>)
    requires InRange(p) && NonNegative(w) && Reducing(interventions)
    ensures Score(Applied(p, interventions), baseScore, w) <= Score(p, baseScore, w)
  {
    ReducingInterventionsLowerFactors(p, interventions);
    ScoreMonotone(Applied(p, interventions), p, w, baseScore);
  }

  // ---------------------------------------------------------------------
  // Projection

  /** The identity stub kept for seasonal effects: it returns a copy of its input. */
  function ApplySeasonalEffects(baseParameters: RiskParameters, seasonalEvents: seq<SeasonalEvent>): RiskParameters
  {
    baseParameters
  }

  lemma SeasonalEffectsAreIdentity(p: RiskParameters, seasonalEvents: seq<SeasonalEvent>)
    ensures ApplySeasonalEffects(p, seasonalEvents) == p
  {
  }

  /** Two scores, without and with interventions, each repeated over the twelve months (default weights). */
  function GenerateRiskProjection(
    baseRiskScore: real, currentParameters: RiskParameters,
    seasonalEvents: seq<SeasonalEvent>, activeInterventions: seq<ActiveIntervention>): (r: RiskProjection)
    ensures |r.baseRisk| == Horizon && |r.interventionRisk| == Horizon
    ensures forall m :: 0 <= m < Horizon ==>
      r.baseRisk[m] == Score(currentParameters, Some(baseRiskScore), DefaultWeights)
    ensures forall m :: 0 <= m < Horizon ==>
      r.interventionRisk[m] == Score(Applied(currentParameters, activeInterventions), Some(baseRiskScore), DefaultWeights)
  {
    var currentRiskScore := Score(currentParameters, Some(baseRiskScore), DefaultWeights);
    var interventionRiskScore := Score(Applied(currentParameters, activeInterventions), Some(baseRiskScore), DefaultWeights);
    RiskProjection(seq(Horizon, _ => currentRiskScore), seq(Horizon, _ => interventionRiskScore))
  }

  /** Every projected value is a score in [0,1]. */
  lemma ProjectionInRange(
    baseRiskScore: real, p: RiskParameters, seasonalEvents: seq<SeasonalEvent>, interventions: seq<ActiveIntervention>, m: nat)
    requires m < Horizon
    ensures 0.0 <= GenerateRiskProjection(baseRiskScore, p, seasonalEvents, interventions).baseRisk[m] <= 1.0
    ensures 0.0 <= GenerateRiskProjection(baseRiskScore, p, seasonalEvents, interventions).interventionRisk[m] <= 1.0
  {
  }

  /** Same impacts in the same order, whatever their ids, names or `appliedAt`. */
  predicate SameImpacts(a: seq<ActiveIntervention>, b: seq<ActiveIntervention>)
  {
    |a| == |b| && forall k :: 0 <= k < |a| ==> a[k].impact == b[k].impact
  }

  lemma {:induction false} AppliedDependsOnlyOnImpacts(p: RiskParameters, a: seq<ActiveIntervention>, b: seq<ActiveIntervention>)
    requires SameImpacts(a, b)
    ensures Applied(p, a) == Applied(p, b)
  {
    if a != [] {
      var a', b' := a[..|a| - 1], b[..|b| - 1];
      assert SameImpacts(a', b') by {
        forall k | 0 <= k < |a'| ensures a'[k].impact == b'[k].impact {
          assert a'[k] == a[k] && b'[k] == b[k];
        }
      }
      AppliedDependsOnlyOnImpacts(p, a', b');
    }
  }

  /** The seasonal events and each intervention's `appliedAt` (and id and name) have no effect on the projection. */
  lemma ProjectionIgnoresEventsAndTiming(
    baseRiskScore: real, p: RiskParameters,
    eventsA: seq<SeasonalEvent>, eventsB: seq<SeasonalEvent>,
    a: seq<ActiveIntervention>, b: seq<ActiveIntervention>)
    requires SameImpacts(a, b)
    ensures GenerateRiskProjection(baseRiskScore, p, eventsA, a) == GenerateRiskProjection(baseRiskScore, p, eventsB, b)
  {
    AppliedDependsOnlyOnImpacts(p, a, b);
  }

  /** Without interventions the two series coincide. */
  lemma ProjectionWithoutInterventions(baseRiskScore: real, p: RiskParameters, seasonalEvents: seq<SeasonalEvent>)
    ensures GenerateRiskProjection(baseRiskScore, p, seasonalEvents, []).baseRisk
         == GenerateRiskProjection(baseRiskScore, p, seasonalEvents, []).interventionRisk
  {
  }

  /** With reducing interventions and in-range factors, the intervention series never lies above the base series. */
  lemma ProjectionInterventionsNeverRaiseRisk(
    baseRiskScore: real, p: RiskParameters, seasonalEvents: seq<SeasonalEvent>, interventions: seq<ActiveIntervention>, m: nat)
    requires InRange(p) && Reducing(interventions) && m < Horizon
    ensures GenerateRiskProjection(baseRiskScore, p, seasonalEvents, interventions).interventionRisk[m]
         <= GenerateRiskProjection(baseRiskScore, p, seasonalEvents, interventions).baseRisk[m]
  {
    DefaultWeightsSumToOne();
    ReducingInterventionsNeverRaiseScore(p, interventions, DefaultWeights, Some(baseRiskScore));
  }
}
