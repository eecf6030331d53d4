/** The intervention catalog offered in the results panel. */
module InterventionCatalog {
  import opened Wrappers
  import opened Types
  import opened Sequences
  import RiskCalculation

  const Interventions: seq<Intervention> := [
    Intervention("fruit-netting", "Fruit Netting Implementation",
      "Covering fruit trees with nets to prevent bat access",
      Impact(FruitConsumptionPractices, -0.15)),
    Intervention("pig-quarantine", "Pig Farm Biosecurity",
      "Enhanced biosecurity measures on pig farms",
      Impact(PigFarmingIntensity, -0.2)),
    Intervention("health-camps", "Health Camp Setup",
      "Establishing temporary healthcare facilities",
      Impact(HealthcareInfrastructure, 0.2)),
    Intervention("bat-habitat", "Bat Habitat Management",
      "Creating alternative habitats away from human settlements",
      Impact(BatDensity, -0.15)),
    Intervention("public-awareness", "Public Awareness Campaigns",
      "Education about avoiding high-risk behaviors",
      Impact(HumanPopulationDensity, -0.1)),
    Intervention("forest-conservation", "Forest Conservation",
      "Preventing deforestation and habitat fragmentation",
      Impact(EnvironmentalDegradation, -0.2))
  ]

  /** Looking an intervention up by id, as the results panel does with `find`. */
  function FindById(id: string): (r: Option<Intervention>)
    ensures r.Some? ==> r.value in Interventions && r.value.id == id
    ensures r.None? <==> forall k :: 0 <= k < |Interventions| ==> Interventions[k].id != id
  {
    Find(Interventions, (i: Intervention) => i.id == id)
  }

  /** Six interventions with pairwise distinct ids. */
  lemma CatalogShape()
    ensures |Interventions| == 6
    ensures Distinct(Map(Interventions, (i: Intervention) => i.id))
  {
  }

  /** Every factor is the target of exactly one intervention. */
  lemma EachFactorTargetedOnce(f: Factor)
    ensures exists k :: 0 <= k < |Interventions| && Interventions[k].impact.parameter == f
    ensures forall k, l :: 0 <= k < l < |Interventions| ==>
      Interventions[k].impact.parameter != Interventions[l].impact.parameter
  {
    match f
    case BatDensity => assert Interventions[3].impact.parameter == f;
    case PigFarmingIntensity => assert Interventions[1].impact.parameter == f;
    case FruitConsumptionPractices => assert Interventions[0].impact.parameter == f;
    case HumanPopulationDensity => assert Interventions[4].impact.parameter == f;
    case HealthcareInfrastructure => assert Interventions[2].impact.parameter == f;
    case EnvironmentalDegradation => assert Interventions[5].impact.parameter == f;
  }

  /** Every intervention on a risk-positive factor has a negative effect; the health camps add +0.2 to healthcare. */
  lemma CatalogEffects()
    ensures forall k :: 0 <= k < |Interventions| && Interventions[k].impact.parameter != HealthcareInfrastructure ==>
      Interventions[k].impact.effect < 0.0
    ensures FindById("health-camps") == Some(Interventions[2])
    ensures Interventions[2].impact == Impact(HealthcareInfrastructure, 0.2)
  {
  }

  /** Any list of catalog interventions, whenever applied, only reduces risk-positive factors. */
  lemma CatalogInterventionsAreReducing(active: seq<ActiveIntervention>)
    requires forall k :: 0 <= k < |active| ==> exists i :: i in Interventions && active[k].impact == i.impact
    ensures RiskCalculation.Reducing(active)
  {
    forall k | 0 <= k < |active| && active[k].impact.parameter != HealthcareInfrastructure
      ensures active[k].impact.effect <= 0.0
    {
      var i :| i in Interventions && active[k].impact == i.impact;
      CatalogEffects();
    }
  }

  /** A worked intervention scenario: "Pig Farm Biosecurity" takes pig farming 0.4 to 0.2 and lowers 0.515. */
  lemma PigFarmBiosecurityScenario()
    ensures Interventions[1].name == "Pig Farm Biosecurity"
    ensures RiskCalculation.Applied(RiskCalculation.ExampleParameters, [Activate(Interventions[1], 1)]).pigFarmingIntensity == 0.2
    ensures RiskCalculation.Score(
              RiskCalculation.Applied(RiskCalculation.ExampleParameters, [Activate(Interventions[1], 1)]),
              None, RiskCalculation.DefaultWeights) < 0.515
  {
    var p := RiskCalculation.ExampleParameters;
    var after := RiskCalculation.Applied(p, [Activate(Interventions[1], 1)]);
    var pig := Activate(Interventions[1], 1);
    assert [pig][..0] == [];
    assert RiskCalculation.Applied(p, []) == p;
    assert after == RiskCalculation.ApplyOne(p, pig);
    assert pig.impact == Impact(PigFarmingIntensity, -0.2);
    assert after == p.With(PigFarmingIntensity, 0.2);
    assert after == p.(pigFarmingIntensity := 0.2);
    RiskCalculation.WeightedSumClosedForm(after, RiskCalculation.DefaultWeights);
    RiskCalculation.ExampleScore();
  }
}
