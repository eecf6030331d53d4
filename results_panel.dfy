/**
 * The results panel: adding the selected catalog intervention, the
 * percentage risk reduction read off the projection (with JavaScript's
 * `||` fallback to the current score), and the report's risk class.
 */
module ResultsPanel {
  import opened Wrappers
  import opened Numbers
  import opened Types
  import InterventionCatalog
  import RiskScoreCard
  import RiskCalculation

  /** What `handleAddIntervention` hands to the dashboard (if anything) and the selection it leaves. */
  datatype AddOutcome = AddOutcome(forwarded: Option<ActiveIntervention>, selectedInterventionId: string)

  function HandleAddIntervention(selectedInterventionId: string, currentMonth: int): (r: AddOutcome)
    ensures selectedInterventionId == "" ==> r == AddOutcome(None, selectedInterventionId)
    ensures InterventionCatalog.FindById(selectedInterventionId).None? ==> r == AddOutcome(None, selectedInterventionId)
    ensures selectedInterventionId != "" && InterventionCatalog.FindById(selectedInterventionId).Some? ==>
      r.selectedInterventionId == "" && r.forwarded.Some? &&
      r.forwarded.value.id == selectedInterventionId &&
      r.forwarded.value.appliedAt == currentMonth &&
      exists i :: i in InterventionCatalog.Interventions && r.forwarded.value == Activate(i, currentMonth)
  {
    if selectedInterventionId == "" then AddOutcome(None, selectedInterventionId)
    else match InterventionCatalog.FindById(selectedInterventionId)
      case None => AddOutcome(None, selectedInterventionId)
      case Some(intervention) => AddOutcome(Some(Activate(intervention, currentMonth)), "")
  }

  /** `series[index] || fallback`: a missing entry (bad index) or an entry equal to 0 gives the fallback. */
  function EntryOr(series: seq<real>, index: int, fallback: real): (r: real)
    ensures 0 <= index < |series| && series[index] != 0.0 ==> r == series[index]
    ensures !(0 <= index < |series|) || series[index] == 0.0 ==> r == fallback
  {
    if 0 <= index < |series| && series[index] != 0.0 then series[index] else fallback
  }

  /** The risk after interventions shown in the report: the current month's intervention entry, or the score. */
  function PostInterventionRisk(projection: RiskProjection, currentMonth: int, riskScore: real): real
  {
    EntryOr(projection.interventionRisk, currentMonth - 1, riskScore)
  }

  function CalculateRiskReduction(projection: RiskProjection, currentMonth: int, riskScore: real): (r: real)
    ensures r >= 0.0
    ensures projection.baseRisk == [] || projection.interventionRisk == [] ==> r == 0.0
    ensures projection.baseRisk != [] && projection.interventionRisk != [] ==>
      var originalRisk := EntryOr(projection.baseRisk, currentMonth - 1, riskScore);
      var reducedRisk := PostInterventionRisk(projection, currentMonth, riskScore);
      r == if originalRisk == 0.0 then 0.0 else Max(0.0, (originalRisk - reducedRisk) / originalRisk * 100.0)
  {
    if |projection.baseRisk| == 0 || |projection.interventionRisk| == 0 then 0.0
    else
      var originalRisk := EntryOr(projection.baseRisk, currentMonth - 1, riskScore);
      var reducedRisk := EntryOr(projection.interventionRisk, currentMonth - 1, riskScore);
      if originalRisk == 0.0 then 0.0
      else
        var reduction := ((originalRisk - reducedRisk) / originalRisk) * 100.0;
        Max(0.0, reduction)
  }

  /** A reduction is a percentage: at most 100 when the risks involved are not negative. */
  lemma ReductionAtMost100(projection: RiskProjection, currentMonth: int, riskScore: real)
    requires riskScore >= 0.0
    requires forall k :: 0 <= k < |projection.baseRisk| ==> projection.baseRisk[k] >= 0.0
    requires forall k :: 0 <= k < |projection.interventionRisk| ==> projection.interventionRisk[k] >= 0.0
    ensures CalculateRiskReduction(projection, currentMonth, riskScore) <= 100.0
  {
    if projection.baseRisk != [] && projection.interventionRisk != [] {
      var o := EntryOr(projection.baseRisk, currentMonth - 1, riskScore);
      var d := PostInterventionRisk(projection, currentMonth, riskScore);
      if o != 0.0 {
        assert o > 0.0 && d >= 0.0;
        DivisionMonotone(o - d, o, o);
        assert o / o == 1.0;
      }
    }
  }

  /** Without interventions the dashboard's projection shows no reduction in any month. */
  lemma NoInterventionsNoReduction(
    baseRiskScore: real, p: RiskParameters, events: seq<SeasonalEvent>, currentMonth: int, riskScore: real)
    ensures CalculateRiskReduction(
              RiskCalculation.GenerateRiskProjection(baseRiskScore, p, events, []), currentMonth, riskScore) == 0.0
  {
    RiskCalculation.ProjectionWithoutInterventions(baseRiskScore, p, events);
  }

  /** The class written into the PDF report. */
  function ReportCategory(riskScore: real): (category: string)
    ensures riskScore > 0.55 <==> category == "High"
    ensures 0.45 <= riskScore <= 0.55 <==> category == "Medium"
    ensures riskScore < 0.45 <==> category == "Low"
  {
    if riskScore > 0.55 then "High"
    else if riskScore >= 0.45 then "Medium"
    else "Low"
  }

  /** The report and the score card classify every score alike. */
  lemma ReportAgreesWithScoreCard(riskScore: real)
    ensures ReportCategory(riskScore) == "High" <==> RiskScoreCard.RiskCategory(riskScore).caption == "HIGH RISK"
    ensures ReportCategory(riskScore) == "Medium" <==> RiskScoreCard.RiskCategory(riskScore).caption == "MEDIUM RISK"
    ensures ReportCategory(riskScore) == "Low" <==> RiskScoreCard.RiskCategory(riskScore).caption == "LOW RISK"
  {
  }
}
