/**
 * The dashboard's state and its updaters: each handler maps the
 * previous state to the next one, as the React state setters do.
 */
module Dashboard {
  import opened Wrappers
  import opened Types
  import opened Sequences
  import RiskCalculation
  import SeasonalEventCatalog

  datatype DashboardState = DashboardState(
    selectedRegion: Option<Region>,
    riskParameters: RiskParameters,
    riskScore: real,
    activeInterventions: seq<ActiveIntervention>,
    riskProjection: RiskProjection)

  /** Nothing selected, every factor at 0.5, no interventions, empty projection, score 0. */
  const InitialState: DashboardState := DashboardState(
    None, RiskParameters(0.5, 0.5, 0.5, 0.5, 0.5, 0.5), 0.0, [], RiskProjection([], []))

  lemma InitialStateShape()
    ensures InitialState.selectedRegion == None
    ensures forall f :: InitialState.riskParameters.Get(f) == 0.5
    ensures InitialState.activeInterventions == [] && InitialState.riskScore == 0.0
    ensures InitialState.riskProjection.baseRisk == [] && InitialState.riskProjection.interventionRisk == []
  {
  }

  function HandleRegionSelect(s: DashboardState, region: Region): (r: DashboardState)
    ensures r == s.(selectedRegion := Some(region))
  {
    s.(selectedRegion := Some(region))
  }

  /** `handleParameterChange`: only the named factor changes. */
  function HandleParameterChange(s: DashboardState, parameter: Factor, value: real): (r: DashboardState)
    ensures r.riskParameters.Get(parameter) == value
    ensures forall g :: g != parameter ==> r.riskParameters.Get(g) == s.riskParameters.Get(g)
    ensures r.(riskParameters := s.riskParameters) == s
  {
    s.(riskParameters := s.riskParameters.With(parameter, value))
  }

  /** `handleAddIntervention`: one entry appended at the end, its `appliedAt` pinned to 1. */
  function HandleAddIntervention(s: DashboardState, intervention: ActiveIntervention): (r: DashboardState)
    ensures |r.activeInterventions| == |s.activeInterventions| + 1
    ensures r.activeInterventions[..|s.activeInterventions|] == s.activeInterventions
    ensures r.activeInterventions[|s.activeInterventions|] == intervention.(appliedAt := 1)
    ensures r.(activeInterventions := s.activeInterventions) == s
  {
    var newIntervention := intervention.(appliedAt := 1);
    s.(activeInterventions := s.activeInterventions + [newIntervention])
  }

  /** `handleRemoveIntervention`: every entry with that id goes, the others stay. */
  function HandleRemoveIntervention(s: DashboardState, id: string): (r: DashboardState)
    ensures forall i :: i in r.activeInterventions <==> i in s.activeInterventions && i.id != id
    ensures r.(activeInterventions := s.activeInterventions) == s
  {
    s.(activeInterventions := Filter(s.activeInterventions, (i: ActiveIntervention) => i.id != id))
  }

  /** Removal keeps the survivors in their order, and undoes any number of adds of that id. */
  lemma RemoveUndoesAdd(s: DashboardState, intervention: ActiveIntervention)
    ensures HandleRemoveIntervention(HandleAddIntervention(s, intervention), intervention.id)
         == HandleRemoveIntervention(s, intervention.id)
  {
    var keep := (i: ActiveIntervention) => i.id != intervention.id;
    FilterAppend(s.activeInterventions, [intervention.(appliedAt := 1)], keep);
    FilterSingleton(intervention.(appliedAt := 1), keep);
  }

  /** Removing an id nobody carries changes nothing. */
  lemma RemoveAbsentId(s: DashboardState, id: string)
    requires forall k :: 0 <= k < |s.activeInterventions| ==> s.activeInterventions[k].id != id
    ensures HandleRemoveIntervention(s, id) == s
  {
    FilterAll(s.activeInterventions, (i: ActiveIntervention) => i.id != id);
  }

  /** The effect that recomputes the score and the projection; with no region selected it does nothing. */
  function RecomputeRisk(s: DashboardState): (r: DashboardState)
    ensures s.selectedRegion.None? ==> r == s
    ensures s.selectedRegion.Some? ==>
      && r.riskScore == RiskCalculation.Score(s.riskParameters, None, RiskCalculation.DefaultWeights)
      && r.riskProjection == RiskCalculation.GenerateRiskProjection(
           s.selectedRegion.value.baseRiskScore, s.riskParameters,
           SeasonalEventCatalog.SeasonalEvents, s.activeInterventions)
      && r.(riskScore := s.riskScore, riskProjection := s.riskProjection) == s
  {
    match s.selectedRegion
    case None => s
    case Some(region) =>
      var score := RiskCalculation.Score(s.riskParameters, None, RiskCalculation.DefaultWeights);
      var projection := RiskCalculation.GenerateRiskProjection(
        region.baseRiskScore, s.riskParameters, SeasonalEventCatalog.SeasonalEvents, s.activeInterventions);
      s.(riskScore := score, riskProjection := projection)
  }

  /**
   * After the effect the score card holds the unblended score, while every base-risk entry of the
   * projection is that score blended 70/30 with the region's base score.
   */
  lemma ScoreCardVersusProjection(s: DashboardState)
    requires s.selectedRegion.Some? && InRange(s.riskParameters)
    requires 0.0 <= s.selectedRegion.value.baseRiskScore <= 1.0
    ensures var r := RecomputeRisk(s);
      |r.riskProjection.baseRisk| == RiskCalculation.Horizon &&
      forall m :: 0 <= m < |r.riskProjection.baseRisk| ==>
        r.riskProjection.baseRisk[m] == 0.7 * r.riskScore + 0.3 * s.selectedRegion.value.baseRiskScore
  {
    RiskCalculation.DefaultWeightsSumToOne();
    RiskCalculation.BlendWithBaseScore(
      s.riskParameters, RiskCalculation.DefaultWeights, s.selectedRegion.value.baseRiskScore);
  }
}
