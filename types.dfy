/**
 * The client's shared records: the six risk factors, interventions,
 * seasonal events, map regions and the two-series risk projection.
 * The six-factor record is the one the scoring code and the dashboard
 * actually build and read.
 */
module Types {

  datatype Factor =
    | BatDensity
    | PigFarmingIntensity
    | FruitConsumptionPractices
    | HumanPopulationDensity
    | HealthcareInfrastructure
    | EnvironmentalDegradation

  /** The six keys in declaration order, which is the order `Object.entries` visits them. */
  const AllFactors: seq<Factor> := [
    BatDensity, PigFarmingIntensity, FruitConsumptionPractices,
    HumanPopulationDensity, HealthcareInfrastructure, EnvironmentalDegradation
  ]

  lemma AllFactorsListsEveryFactor(f: Factor)
    ensures f in AllFactors
  {
  }

  /** The property name of a factor, as it appears in the records and in strings built from it. */
  function FactorName(f: Factor): string
  {
    match f
    case BatDensity => "batDensity"
    case PigFarmingIntensity => "pigFarmingIntensity"
    case FruitConsumptionPractices => "fruitConsumptionPractices"
    case HumanPopulationDensity => "humanPopulationDensity"
    case HealthcareInfrastructure => "healthcareInfrastructure"
    case EnvironmentalDegradation => "environmentalDegradation"
  }

  /** One value per factor (JavaScript numbers as reals). */
  datatype RiskParameters = RiskParameters(
    batDensity: real,
    pigFarmingIntensity: real,
    fruitConsumptionPractices: real,
    humanPopulationDensity: real,
    healthcareInfrastructure: real,
    environmentalDegradation: real)
  {
    /** `parameters[key]` */
    function Get(f: Factor): real
    {
      match f
      case BatDensity => batDensity
      case PigFarmingIntensity => pigFarmingIntensity
      case FruitConsumptionPractices => fruitConsumptionPractices
      case HumanPopulationDensity => humanPopulationDensity
      case HealthcareInfrastructure => healthcareInfrastructure
      case EnvironmentalDegradation => environmentalDegradation
    }

    /** `{ ...parameters, [key]: v }` */
    function With(f: Factor, v: real): (r: RiskParameters)
      ensures r.Get(f) == v
      ensures forall g :: g != f ==> r.Get(g) == Get(g)
    {
      match f
      case BatDensity => this.(batDensity := v)
      case PigFarmingIntensity => this.(pigFarmingIntensity := v)
      case FruitConsumptionPractices => this.(fruitConsumptionPractices := v)
      case HumanPopulationDensity => this.(humanPopulationDensity := v)
      case HealthcareInfrastructure => this.(healthcareInfrastructure := v)
      case EnvironmentalDegradation => this.(environmentalDegradation := v)
    }
  }

  /** A weight profile has the same six keys as a parameter record. */
  type RiskParameterWeight = RiskParameters

  /** Every factor lies in [0,1], the range the sliders and the server's validator allow. */
  predicate InRange(p: RiskParameters)
  {
    forall f :: 0.0 <= p.Get(f) <= 1.0
  }

  predicate NonNegative(w: RiskParameterWeight)
  {
    forall f :: 0.0 <= w.Get(f)
  }

  /** A signed change to one factor. */
  datatype Impact = Impact(parameter: Factor, effect: real)

  datatype Intervention = Intervention(id: string, name: string, description: string, impact: Impact)

  /** An intervention together with the month (1 to 12) it was applied in. */
  datatype ActiveIntervention = ActiveIntervention(
    id: string, name: string, description: string, impact: Impact, appliedAt: int)

  /** `{ ...intervention, appliedAt: month }` */
  function Activate(i: Intervention, month: int): (a: ActiveIntervention)
    ensures a.id == i.id && a.name == i.name && a.description == i.description && a.impact == i.impact
    ensures a.appliedAt == month
  {
    ActiveIntervention(i.id, i.name, i.description, i.impact, month)
  }

  datatype SeasonalEvent = SeasonalEvent(id: string, name: string, months: seq<int>, icon: string, affects: Impact)

  /** A map region; `id` is the client's string identifier. */
  datatype Region = Region(
    id: string, name: string, center: (real, real), coordinates: seq<(real, real)>, baseRiskScore: real)

  /** Month-by-month risk without and with the active interventions. */
  datatype RiskProjection = RiskProjection(baseRisk: seq<real>, interventionRisk: seq<real>)
}
