/** The seasonal event catalog shown on the time control. */
module SeasonalEventCatalog {
  import opened Types
  import opened Sequences
  import TimeControl

  const SeasonalEvents: seq<SeasonalEvent> := [
    SeasonalEvent("fruit-season", "January: Fruit Season", [1, 2], "ri-calendar-event-line",
      Impact(FruitConsumptionPractices, 0.2)),
    SeasonalEvent("monsoon", "June-August: Monsoon", [6, 7, 8], "ri-rainy-line",
      Impact(BatDensity, 0.15)),
    SeasonalEvent("bat-migration", "October: Bat Migration", [10], "ri-flight-takeoff-line",
      Impact(BatDensity, 0.25)),
    SeasonalEvent("harvest-festival", "November: Harvest Festival", [11], "ri-plant-line",
      Impact(HumanPopulationDensity, 0.1)),
    SeasonalEvent("deforestation-season", "March-April: Deforestation Activity", [3, 4], "ri-scissors-cut-line",
      Impact(EnvironmentalDegradation, 0.15))
  ]

  /** Five events with distinct ids, every listed month in 1..12. */
  lemma CatalogShape()
    ensures |SeasonalEvents| == 5
    ensures Distinct(Map(SeasonalEvents, (e: SeasonalEvent) => e.id))
    ensures forall k, m :: 0 <= k < |SeasonalEvents| && m in SeasonalEvents[k].months ==> TimeControl.ValidMonth(m)
  {
  }

  /** Every effect raises a factor, and none of them touches healthcare. */
  lemma CatalogEffects()
    ensures forall k :: 0 <= k < |SeasonalEvents| ==>
      SeasonalEvents[k].affects.effect > 0.0 && SeasonalEvents[k].affects.parameter != HealthcareInfrastructure
  {
  }

  /** No month belongs to two events. */
  lemma MonthsDisjoint()
    ensures forall k, l, m :: 0 <= k < l < |SeasonalEvents| && m in SeasonalEvents[k].months ==> m !in SeasonalEvents[l].months
  {
  }

  /** So at most one event is active in any month. */
  lemma AtMostOneActive(currentMonth: int)
    ensures |TimeControl.ActiveEvents(SeasonalEvents, currentMonth)| <= 1
  {
    var p := (e: SeasonalEvent) => currentMonth in e.months;
    forall i, j | 0 <= i < j < |SeasonalEvents| && p(SeasonalEvents[i]) ensures !p(SeasonalEvents[j]) {
      MonthsDisjoint();
    }
    FilterAtMostOne(SeasonalEvents, p);
  }

  /** May, September and December have no seasonal event. */
  lemma QuietMonths(currentMonth: int)
    requires currentMonth in {5, 9, 12}
    ensures TimeControl.ActiveEvents(SeasonalEvents, currentMonth) == []
  {
    var p := (e: SeasonalEvent) => currentMonth in e.months;
    forall i | 0 <= i < |SeasonalEvents| ensures !p(SeasonalEvents[i]) {
      assert currentMonth !in SeasonalEvents[i].months;
    }
    FilterNone(SeasonalEvents, p);
  }
}
