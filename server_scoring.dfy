/**
 * The server's own score engine: the same weighted, normalised, blended and
 * clamped sum as the client's, over the server's five-factor record, where
 * only the `inverseHealthcare` entry is counted inverted.
 */
module ServerScoring {
  import opened Wrappers
  import opened Numbers

  /** The keys of the server's `RiskParameters` and `RiskParameterWeight`. */
  datatype ServerFactor = BatDensity | PigDensity | FruitExposure | InverseHealthcare | UrbanWildOverlap

  /** The entries of a weight record, in declaration order. */
  const ServerFactors: seq<ServerFactor> := [BatDensity, PigDensity, FruitExposure, InverseHealthcare, UrbanWildOverlap]

  /** Both the factor values and their weights: the two interfaces have the same five keys. */
  datatype ServerParameters = ServerParameters(
    batDensity: real,
    pigDensity: real,
    fruitExposure: real,
    inverseHealthcare: real,
    urbanWildOverlap: real)
  {
    function Get(f: ServerFactor): real
    {
      match f
      case BatDensity => batDensity
      case PigDensity => pigDensity
      case FruitExposure => fruitExposure
      case InverseHealthcare => inverseHealthcare
      case UrbanWildOverlap => urbanWildOverlap
    }
  }

  type ServerWeights = ServerParameters

  /** The default value of the `weights` argument. */
  const ServerDefaultWeights: ServerWeights := ServerParameters(0.3, 0.2, 0.2, 0.2, 0.1)

  predicate ServerInRange(p: ServerParameters)
  {
    forall f: ServerFactor :: 0.0 <= p.Get(f) <= 1.0
  }

  predicate ServerNonNegative(w: ServerWeights)
  {
    forall f: ServerFactor :: 0.0 <= w.Get(f)
  }

  // ---------------------------------------------------------------------
  // Specification

  /** What one weight entry adds to the running total. */
  function ServerContribution(p: ServerParameters, w: ServerWeights, f: ServerFactor): real
  {
    if f == InverseHealthcare then w.Get(f) * (1.0 - p.Get(f)) else w.Get(f) * p.Get(f)
  }

  /** The running total after visiting the entries `fs`. */
  function ServerWeightedSum(p: ServerParameters, w: ServerWeights, fs: seq<ServerFactor>): real
  {
    if fs == [] then 0.0 else ServerWeightedSum(p, w, fs[..|fs| - 1]) + ServerContribution(p, w, fs[|fs| - 1])
  }

  /** The running weight after visiting the entries `fs`. */
  function ServerTotalWeight(w: ServerWeights, fs: seq<ServerFactor>): real
  {
    if fs == [] then 0.0 else ServerTotalWeight(w, fs[..|fs| - 1]) + w.Get(fs[|fs| - 1])
  }

  /** The normalised weighted sum, 0 when the weights do not add up to something positive. */
  function ServerRawScore(p: ServerParameters, w: ServerWeights): real
  {
    var total := ServerTotalWeight(w, ServerFactors);
    if total > 0.0 then ServerWeightedSum(p, w, ServerFactors) / total else 0.0
  }

  /** The value `calculateRiskScore(parameters, baseScore, weights)` resolves to. */
  function ServerScore(p: ServerParameters, baseScore: Option<real>, w: ServerWeights): real
  {
    var raw := ServerRawScore(p, w);
    Clamp01(match baseScore case None => raw case Some(b) => raw * 0.7 + b * 0.3)
  }

  // ---------------------------------------------------------------------
  // The loop

  method ServerCalculateRiskScore(parameters: ServerParameters, baseScore: Option<real>, weights: ServerWeights)
    returns (score: real)
    ensures score == ServerScore(parameters, baseScore, weights)
    ensures 0.0 <= score <= 1.0
  {
    var totalScore := 0.0;
    var totalWeight := 0.0;
    var i := 0;
    while i < |ServerFactors|
      invariant 0 <= i <= |ServerFactors|
      invariant totalScore == ServerWeightedSum(parameters, weights, ServerFactors[..i])
      invariant totalWeight == ServerTotalWeight(weights, ServerFactors[..i])
    {
      var param := ServerFactors[i];
      var weight := weights.Get(param);
      var value := parameters.Get(param);
      if param == InverseHealthcare {
        totalScore := totalScore + weight * (1.0 - value);
      } else {
        totalScore := totalScore + weight * value;
      }
      totalWeight := totalWeight + weight;
      assert ServerFactors[..i + 1][..i] == ServerFactors[..i];
      i := i + 1;
    }
    assert ServerFactors[..i] == ServerFactors;
    var riskScore := if totalWeight > 0.0 then totalScore / totalWeight else 0.0;
    if baseScore.Some? {
      riskScore := riskScore * 0.7 + baseScore.value * 0.3;
    }
    score := Max(0.0, Min(1.0, riskScore));
  }

  // ---------------------------------------------------------------------
  // Properties

  /** Only `inverseHealthcare` enters as weight * (1 - value); the other four enter as weight * value. */
  lemma ServerWeightedSumClosedForm(p: ServerParameters, w: ServerWeights)
    ensures ServerWeightedSum(p, w, ServerFactors)
         == w.batDensity * p.batDensity
          + w.pigDensity * p.pigDensity
          + w.fruitExposure * p.fruitExposure
          + w.inverseHealthcare * (1.0 - p.inverseHealthcare)
          + w.urbanWildOverlap * p.urbanWildOverlap
    ensures ServerTotalWeight(w, ServerFactors)
         == w.batDensity + w.pigDensity + w.fruitExposure + w.inverseHealthcare + w.urbanWildOverlap
  {
    var l1 := [BatDensity];
    var l2 := l1 + [PigDensity];
    var l3 := l2 + [FruitExposure];
    var l4 := l3 + [InverseHealthcare];
    var l5 := l4 + [UrbanWildOverlap];
    assert l1[..0] == [] && l2[..1] == l1 && l3[..2] == l2 && l4[..3] == l3 && l5[..4] == l4;
    assert l5 == ServerFactors;
    assert ServerWeightedSum(p, w, l1) == ServerContribution(p, w, BatDensity);
    assert ServerWeightedSum(p, w, l2) == ServerWeightedSum(p, w, l1) + ServerContribution(p, w, PigDensity);
    assert ServerWeightedSum(p, w, l3) == ServerWeightedSum(p, w, l2) + ServerContribution(p, w, FruitExposure);
    assert ServerWeightedSum(p, w, l4) == ServerWeightedSum(p, w, l3) + ServerContribution(p, w, InverseHealthcare);
    assert ServerWeightedSum(p, w, l5) == ServerWeightedSum(p, w, l4) + ServerContribution(p, w, UrbanWildOverlap);
    assert ServerTotalWeight(w, l1) == w.batDensity;
    assert ServerTotalWeight(w, l2) == ServerTotalWeight(w, l1) + w.pigDensity;
    assert ServerTotalWeight(w, l3) == ServerTotalWeight(w, l2) + w.fruitExposure;
    assert ServerTotalWeight(w, l4) == ServerTotalWeight(w, l3) + w.inverseHealthcare;
    assert ServerTotalWeight(w, l5) == ServerTotalWeight(w, l4) + w.urbanWildOverlap;
  }

  /** The default weights are 0.3/0.2/0.2/0.2/0.1: non-negative, adding up to 1. */
  lemma ServerDefaultWeightsSumToOne()
    ensures ServerTotalWeight(ServerDefaultWeights, ServerFactors) == 1.0
    ensures ServerNonNegative(ServerDefaultWeights)
  {
    ServerWeightedSumClosedForm(ServerParameters(0.0, 0.0, 0.0, 0.0, 0.0), ServerDefaultWeights);
  }

  /** A non-positive total weight leaves nothing of the weighted sum: only the base score's 30% survives. */
  lemma ServerZeroTotalWeight(p: ServerParameters, w: ServerWeights, baseScore: Option<real>)
    requires ServerTotalWeight(w, ServerFactors) <= 0.0
    ensures ServerRawScore(p, w) == 0.0
    ensures ServerScore(p, baseScore, w) == match baseScore case None => 0.0 case Some(b) => Clamp01(b * 0.3)
  {
  }

  /** A weight times a value in [0,1] lies between 0 and the weight. */
  lemma WeightedValueBounds(k: real, v: real)
    requires 0.0 <= k && 0.0 <= v <= 1.0
    ensures 0.0 <= k * v <= k
  {
    assert k * v <= k * 1.0 by {
      assert k * (1.0 - v) >= 0.0;
    }
  }

  /** Each contribution lies between 0 and its (non-negative) weight when the factor is in range. */
  lemma ServerContributionBounds(p: ServerParameters, w: ServerWeights, f: ServerFactor)
    requires ServerInRange(p) && ServerNonNegative(w)
    ensures 0.0 <= ServerContribution(p, w, f) <= w.Get(f)
  {
    var v, k := p.Get(f), w.Get(f);
    assert 0.0 <= v <= 1.0 && 0.0 <= k;
    if f == InverseHealthcare {
      assert ServerContribution(p, w, f) == k * (1.0 - v);
      WeightedValueBounds(k, 1.0 - v);
    } else {
      assert ServerContribution(p, w, f) == k * v;
      WeightedValueBounds(k, v);
    }
  }

  lemma {:induction false} ServerWeightedSumBounds(p: ServerParameters, w: ServerWeights, fs: seq<ServerFactor>)
    requires ServerInRange(p) && ServerNonNegative(w)
    ensures 0.0 <= ServerWeightedSum(p, w, fs) <= ServerTotalWeight(w, fs)
  {
    if fs != [] {
      ServerWeightedSumBounds(p, w, fs[..|fs| - 1]);
      ServerContributionBounds(p, w, fs[|fs| - 1]);
    }
  }

  /** For in-range factors and non-negative weights the unblended score is already in [0,1]. */
  lemma ServerRawScoreInRange(p: ServerParameters, w: ServerWeights)
    requires ServerInRange(p) && ServerNonNegative(w)
    ensures 0.0 <= ServerRawScore(p, w) <= 1.0
  {
    ServerWeightedSumBounds(p, w, ServerFactors);
    var s, t := ServerWeightedSum(p, w, ServerFactors), ServerTotalWeight(w, ServerFactors);
    if t > 0.0 {
      DivisionMonotone(s, t, t);
    }
  }

  /** With a base score in [0,1] the score is exactly 0.7 times the unblended score plus 0.3 times the base score. */
  lemma ServerBlendWithBaseScore(p: ServerParameters, w: ServerWeights, b: real)
    requires ServerInRange(p) && ServerNonNegative(w) && 0.0 <= b <= 1.0
    ensures ServerScore(p, Some(b), w) == 0.7 * ServerScore(p, None, w) + 0.3 * b
  {
    ServerRawScoreInRange(p, w);
  }

  /** With the default weights and no base score, the score is the closed-form weighted sum itself. */
  lemma ServerDefaultScore(p: ServerParameters)
    requires ServerInRange(p)
    ensures ServerScore(p, None, ServerDefaultWeights)
         == 0.3 * p.batDensity + 0.2 * p.pigDensity + 0.2 * p.fruitExposure
          + 0.2 * (1.0 - p.inverseHealthcare) + 0.1 * p.urbanWildOverlap
  {
    ServerWeightedSumClosedForm(p, ServerDefaultWeights);
    ServerDefaultWeightsSumToOne();
    ServerRawScoreInRange(p, ServerDefaultWeights);
  }
}
