# Nipah outbreak-risk dashboard: a Dafny model of its scoring core

This project models the logic of a small outbreak-risk dashboard.

- **Client score engine.** A weighted, normalised sum over six epidemiological risk factors, with healthcare counted inverted. It is optionally blended 70/30 with a region's base score and then clamped to [0,1]. Interventions are applied as clamped deltas on a copy of the factors. A flat twelve-month projection shows the score without and with interventions.
- **Server twin.** The server has its own five-factor scorer and an in-memory store. The store holds four auto-increment tables and is seeded with four sample regions.
- **Region-parameter store.** Per-state and per-district parameters are seeded from a 32-bit string hash and scaled into per-factor ranges. Entries are updated by upsert on the (state, district) key and read back with a district, then state, then defaults fallback.
- **Dashboard state updaters**, the threshold classifiers (score card, report, map colour), the risk-reduction percentage and the seasonal-event month filter.
- **Static catalogs**: interventions, seasonal events, map regions, and Indian states and districts. They are Dafny constants, so concrete facts about them are proved.

JavaScript numbers are modelled as exact `real`s. The 32-bit hash is modelled in `int` with an explicit ToInt32 wrap (`RegionData.ToInt32`).

Each loop of the source is a `method` proved equal to a specification function:
- `calculateRiskScore`, on both client and server;
- `applyInterventions`;
- the hash loop and `generateInitialData`;
- `initializeSampleData`.

The properties are proved as lemmas about those functions. The server store is a `class` whose fields are the four tables and four counters. React state updaters are transition functions on values.

Files, one module each:
- `wrappers.dfy` (Option);
- `numbers.dfy` (`Math.min`/`max`/`abs` and the clamp);
- `sequences.dfy` (`filter`, `findIndex`, `find`);
- `types.dfy` (the client's six-factor record and the intervention, event, region and projection records);
- `risk_calculation.dfy`, `server_scoring.dfy`, `storage.dfy`, `region_data.dfy`, `dashboard.dfy`, `results_panel.dfy`, `risk_score.dfy`, `map_utils.dfy`, `time_control.dfy`;
- the catalogs: `interventions.dfy`, `seasonal_events.dfy`, `regions.dfy`, `states_districts.dfy`.

### Behaviour worth knowing

- **Clamping.** Factor values are not clamped one by one before weighting; only the final score is clamped, and each intervention step. So the range lemmas (`RiskCalculation.RawScoreInRange` and the ones built on it) take in-range factors as a hypothesis.
- **Projection.** The projection is two constant twelve-month series. `applySeasonalEffects` is an identity stub, and `appliedAt` is never read by the score engine. The model proves that events and `appliedAt` have no effect on the projection.
- **Identifiers.** `MemStorage` does not reject a repeated region identifier, and `getRegionByIdentifier` returns the earliest-inserted match.

## Model

| member | source | states |
|---|---|---|
| Numbers.Clamp01 | client/src/lib/riskCalculation.ts:53 | `Math.max(0, Math.min(1, x))` lies in [0,1], is the identity on [0,1], gives 0 below and 1 above |
| Types.With | client/src/pages/Dashboard.tsx:56-59 | `{...p, [key]: v}` gives the key the new value and leaves every other factor unchanged |
| Types.Activate | client/src/components/ResultsPanel.tsx:61-64 | `{...intervention, appliedAt}` copies the id, name, description and impact of the catalog entry and sets `appliedAt` to the month |
| Types.AllFactorsListsEveryFactor | client/src/lib/riskCalculation.ts:4-11 | the weight entries the scoring loop visits cover every factor |
| Sequences.Filter | client/src/pages/Dashboard.tsx:74-76 | `filter` keeps exactly the elements satisfying the predicate and never lengthens the list |
| Sequences.Find | client/src/components/ResultsPanel.tsx:59 | `find`: none exactly when no element satisfies the predicate, otherwise the first element that does |
| Sequences.FindIndex | client/src/context/RegionDataContext.tsx:132-134 | `findIndex`: the first index satisfying the predicate, or none exactly when no element does |
| Sequences.FilterKeepsOrder | server/storage.ts:120-124 | `filter` keeps the relative order: a list increasing in a key stays increasing |
| RiskCalculation.CalculateRiskScore | client/src/lib/riskCalculation.ts:20-54 | the loop over the weight entries returns `Score`, the clamped, blended, normalised weighted sum, and the result lies in [0,1] |
| RiskCalculation.WeightedSumClosedForm | client/src/lib/riskCalculation.ts:29-41 | healthcare contributes weight·(1−value), every other factor weight·value; the total weight is the sum of the six weights |
| RiskCalculation.ZeroTotalWeight | client/src/lib/riskCalculation.ts:44-53 | a total weight ≤ 0 gives an unblended score of 0, so only the clamped 30% of a base score remains |
| RiskCalculation.ContributionBounds | client/src/lib/riskCalculation.ts:33-38 | for in-range factors and non-negative weights, each contribution lies between 0 and its weight |
| RiskCalculation.RawScoreInRange | client/src/lib/riskCalculation.ts:44 | for in-range factors and non-negative weights the normalised sum already lies in [0,1] |
| RiskCalculation.BlendWithBaseScore | client/src/lib/riskCalculation.ts:47-50 | with a base score b in [0,1] the score is exactly 0.7·(score without base) + 0.3·b |
| RiskCalculation.ScoreMonotone | client/src/lib/riskCalculation.ts:29-53 | with non-negative weights, a factor set riskier in every factor never scores lower |
| RiskCalculation.RaisingRiskFactorNeverLowersScore | client/src/lib/riskCalculation.ts:37 | raising a risk-positive factor never lowers the score |
| RiskCalculation.RaisingHealthcareNeverRaisesScore | client/src/lib/riskCalculation.ts:34-35 | raising healthcare never raises the score |
| RiskCalculation.HealthcareInversion | client/src/lib/riskCalculation.ts:34-35 | with a positive healthcare weight and every other factor 0, full healthcare scores strictly below none |
| RiskCalculation.ExampleScore | client/src/lib/riskCalculation.ts:4-44 | default weights, factors {0.6, 0.4, 0.7, 0.5, 0.5, 0.3} and no base score give exactly 0.515 |
| RiskCalculation.DefaultWeightsSumToOne | client/src/lib/riskCalculation.ts:4-11 | the default weights are non-negative and add up to 1 |
| RiskCalculation.ApplyInterventions | client/src/lib/riskCalculation.ts:97-120 | the `forEach` over a copy returns `Applied`, the in-order fold of clamped deltas (healthcare gets the absolute effect) |
| RiskCalculation.AppliedNothing | client/src/lib/riskCalculation.ts:102-119 | an empty intervention list returns the factors unchanged |
| RiskCalculation.AppliedUntargeted | client/src/lib/riskCalculation.ts:105-117 | a factor no intervention targets is unchanged |
| RiskCalculation.AppliedTargetedInRange | client/src/lib/riskCalculation.ts:112-115 | a factor that some intervention targets ends in [0,1] |
| RiskCalculation.AppliedPreservesInRange | client/src/lib/riskCalculation.ts:105-117 | in-range factors stay in range after any interventions |
| RiskCalculation.HealthcareNeverLowered | client/src/lib/riskCalculation.ts:110-112 | when healthcare starts at most 1, it never decreases and stays at most 1, whatever the effects' signs |
| RiskCalculation.ReducingInterventionsLowerFactors | client/src/lib/riskCalculation.ts:113-116 | interventions with non-positive effects on risk-positive factors leave the factors no riskier |
| RiskCalculation.ReducingInterventionsNeverRaiseScore | client/src/lib/riskCalculation.ts:105-117 | such interventions never raise the score, for any non-negative weights and base score |
| RiskCalculation.SeasonalEffectsAreIdentity | client/src/lib/riskCalculation.ts:83-92 | `applySeasonalEffects` returns its input unchanged |
| RiskCalculation.GenerateRiskProjection | client/src/lib/riskCalculation.ts:59-77 | two series of length 12; every base entry is the blended score of the factors, every intervention entry that of the factors after interventions |
| RiskCalculation.ProjectionInRange | client/src/lib/riskCalculation.ts:66-74 | every projected value lies in [0,1] |
| RiskCalculation.AppliedDependsOnlyOnImpacts | client/src/lib/riskCalculation.ts:105-117 | applying interventions depends only on their impacts, not on ids, names or `appliedAt` |
| RiskCalculation.ProjectionIgnoresEventsAndTiming | client/src/lib/riskCalculation.ts:59-77 | the projection ignores the seasonal events and every `appliedAt` |
| RiskCalculation.ProjectionWithoutInterventions | client/src/lib/riskCalculation.ts:66-74 | with no interventions the two series are equal |
| RiskCalculation.ProjectionInterventionsNeverRaiseRisk | client/src/lib/riskCalculation.ts:66-74 | with reducing interventions and in-range factors, no intervention entry is above its base entry |
| ServerScoring.ServerCalculateRiskScore | server/storage.ts:152-191 | the five-entry loop returns `ServerScore`, the clamped, blended, normalised weighted sum, and the result lies in [0,1] |
| ServerScoring.ServerWeightedSumClosedForm | server/storage.ts:167-179 | only `inverseHealthcare` contributes weight·(1−value); the other four contribute weight·value |
| ServerScoring.ServerDefaultWeightsSumToOne | server/storage.ts:155-161 | the default weights 0.3/0.2/0.2/0.2/0.1 are non-negative and add up to 1 |
| ServerScoring.ServerZeroTotalWeight | server/storage.ts:182-190 | a total weight ≤ 0 gives 0 before blending, so only the clamped 30% of a base score remains |
| ServerScoring.ServerContributionBounds | server/storage.ts:171-176 | for in-range values and non-negative weights, each contribution lies between 0 and its weight |
| ServerScoring.ServerRawScoreInRange | server/storage.ts:182 | for in-range values and non-negative weights the normalised sum lies in [0,1] |
| ServerScoring.ServerBlendWithBaseScore | server/storage.ts:185-187 | a base score b in [0,1] is blended as exactly 0.7·raw + 0.3·b |
| ServerScoring.ServerDefaultScore | server/storage.ts:155-182 | with default weights and no base score, the score is 0.3·bat + 0.2·pig + 0.2·fruit + 0.2·(1−healthcare) + 0.1·overlap |
| Storage.SampleRegionsMatchClient | server/storage.ts:196-233 | the server's four seed regions repeat the client's region list: order, names, identifiers, centres, polygons and base scores |
| Storage.Rows | server/storage.ts:98-100 | `Array.from(map.values())` of a table holding ids 1..n−1 lists the row with id i+1 at position i |
| Storage.RowsByKey | server/storage.ts:120-124 | where every row sits under its own id, a row is listed iff it is stored, and ids increase along the list |
| Storage.RowsExtend | server/storage.ts:108-113 | storing a row under the next id appends it at the end of the listing |
| Storage.FirstId | server/storage.ts:84-88 | `values().find(p)` yields the least id whose row satisfies p, or none exactly when no row does |
| Storage.MemStorage.constructor | server/storage.ts:64-77 | users, parameter sets and scenarios are empty with counters at 1; regions hold the four samples under ids 1..4; the region counter is 5 |
| Storage.MemStorage.GetUser | server/storage.ts:80-82 | a user is found exactly for the ids handed out, and it carries that id |
| Storage.MemStorage.GetUserByUsername | server/storage.ts:84-88 | the earliest-inserted user with that username, or none exactly when no user has it |
| Storage.MemStorage.CreateUser | server/storage.ts:90-95 | the user gets the old counter as id, above every existing id; the counter grows by 1; `getUser(id)` now returns it; nothing else changes |
| Storage.MemStorage.GetAllRegions | server/storage.ts:98-100 | every region in insertion order: the region with id i+1 at position i |
| Storage.MemStorage.GetRegionByIdentifier | server/storage.ts:102-106 | the earliest-inserted region with that identifier, or none exactly when no region has it |
| Storage.MemStorage.CreateRegion | server/storage.ts:108-113 | the region gets the old counter as id; the counter grows by 1; the region listing gains it at the end; a repeated identifier is accepted; nothing else changes |
| Storage.MemStorage.GetParameterSet | server/storage.ts:116-118 | a parameter set is found exactly for the ids handed out, and it carries that id |
| Storage.MemStorage.GetParameterSetsByUserId | server/storage.ts:120-124 | exactly the stored parameter sets whose `userId` equals the argument, in increasing id (insertion) order |
| Storage.MemStorage.CreateParameterSet | server/storage.ts:126-131 | the set gets the old counter as id, above every existing id; the counter grows by 1; `getParameterSet(id)` now returns it; nothing else changes |
| Storage.MemStorage.GetScenario | server/storage.ts:134-136 | a scenario is found exactly for the ids handed out, and it carries that id |
| Storage.MemStorage.GetScenariosByUserId | server/storage.ts:138-142 | exactly the stored scenarios whose `userId` equals the argument, in increasing id (insertion) order |
| Storage.MemStorage.CreateScenario | server/storage.ts:144-149 | the scenario gets the old counter as id, above every existing id; the counter grows by 1; `getScenario(id)` now returns it; nothing else changes |
| Storage.MemStorage.InitializeSampleData | server/storage.ts:194-239 | the four sample regions are stored in order under the next four ids; existing rows, other tables and other counters are unchanged |
| RegionData.ToInt32 | client/src/context/RegionDataContext.tsx:39 | the result is a signed 32-bit integer, equal to the input when the input already is one |
| RegionData.ToInt32Congruent | client/src/context/RegionDataContext.tsx:38-39 | the 32-bit wrap depends only on its argument modulo 2^32 |
| RegionData.HashIsWrappedPolynomial | client/src/context/RegionDataContext.tsx:35-40 | the hash is the unbounded polynomial Σ code·31^k reduced to 32 bits |
| RegionData.HashStep | client/src/context/RegionDataContext.tsx:38-39 | one turn of `((h << 5) - h) + code` followed by `h & h` is the step h ← int32(31·h + code) |
| RegionData.HashString | client/src/context/RegionDataContext.tsx:35-40 | the loop over the combined string returns its hash, which stays in the signed 32-bit range |
| RegionData.VarianceRange | client/src/context/RegionDataContext.tsx:23-30 | every factor's range satisfies 0 < min < max ≤ 0.9 |
| RegionData.NormalizedHash | client/src/context/RegionDataContext.tsx:43 | abs(hash)/(2^31−1) is non-negative, and at most 1 exactly when the hash is not −2^31 |
| RegionData.DeterministicValueBounds | client/src/context/RegionDataContext.tsx:43-49 | a generated value is ≥ its range's min; it is ≤ the max exactly when the hash is not −2^31; it always lies in [0,1) |
| RegionData.GenerateDeterministicValue | client/src/context/RegionDataContext.tsx:33-50 | hashing the run-together state, district and key name, normalising and scaling returns `DeterministicValue` |
| RegionData.GeneratedParametersInRange | client/src/context/RegionDataContext.tsx:63-70 | every generated parameter set lies in [0,1] |
| RegionData.GenerateParameters | client/src/context/RegionDataContext.tsx:63-70 | one generated value per factor gives `GeneratedParameters` |
| RegionData.DistrictsOf | client/src/context/RegionDataContext.tsx:57 | `districtsByState[state] \|\| []` is the first entry for that state, or empty when there is none |
| RegionData.StateKeys | client/src/context/RegionDataContext.tsx:59-87 | a state contributes 1 + \|districts\| keys: (state, "") first, then (state, district) for each district in order |
| RegionData.InitialDataLength | client/src/context/RegionDataContext.tsx:53-91 | the generated list has Σ(1 + \|districts\|) entries |
| RegionData.StateKeysMembers | client/src/context/RegionDataContext.tsx:59-87 | one state's keys are exactly that state with "" and with each of its districts |
| RegionData.InitialKeysMembers | client/src/context/RegionDataContext.tsx:53-91 | a key is generated iff its state is listed and its district is "" or one of that state's districts |
| RegionData.InitialKeysDistinct | client/src/context/RegionDataContext.tsx:56-88 | distinct states with duplicate-free, non-empty district names give pairwise distinct keys |
| RegionData.CatalogTableListsStates | client/src/data/statesDistricts.ts:2-39 | the district table lists exactly the 28 distinct states, in the same order |
| RegionData.DistrictsOfListedState | client/src/context/RegionDataContext.tsx:57 | for a table listing the states in order, a state's lookup is its own row, so the `\|\| []` fallback is never taken |
| RegionData.ListedTableKeysDistinct | client/src/context/RegionDataContext.tsx:53-91 | a table listing distinct states with well-formed district lists generates pairwise distinct keys |
| RegionData.InitialKeysAreDistinct | client/src/context/RegionDataContext.tsx:53-91 | the keys generated from the 28-state catalog are pairwise distinct, even though Bilaspur and Udaipur repeat across states |
| RegionData.WithParametersAppend | client/src/context/RegionDataContext.tsx:75-86 | pushing one more key's generated entry appends exactly that entry |
| RegionData.PushStateEntries | client/src/context/RegionDataContext.tsx:56-88 | one state's turn appends the state-level entry and then one entry per district, in order |
| RegionData.GenerateInitialDataFor | client/src/context/RegionDataContext.tsx:53-91 | the nested pushes build `InitialDataFor(states, table)` |
| RegionData.GenerateInitialData | client/src/context/RegionDataContext.tsx:53-91 | on the catalog, the generator builds `InitialData()` |
| RegionData.IndexOfKey | client/src/context/RegionDataContext.tsx:132-134 | the first index with that (state, district), or none exactly when no entry has it |
| RegionData.Upsert | client/src/context/RegionDataContext.tsx:131-149 | the list grows by at most one entry and afterwards holds an entry with the key and the new parameters |
| RegionData.UpsertExisting | client/src/context/RegionDataContext.tsx:136-141 | on a present key: same length, the first match gets the new parameters, every other entry is unchanged |
| RegionData.UpsertMissing | client/src/context/RegionDataContext.tsx:142-149 | on a missing key: exactly one entry is appended at the end |
| RegionData.UpdateRegionParameters | client/src/context/RegionDataContext.tsx:129-155 | the copy-then-assign-or-push updater returns `Upsert(prevData, …)` |
| RegionData.Lookup | client/src/context/RegionDataContext.tsx:158-180 | the result is the defaults or the parameters of some stored entry |
| RegionData.LookupExact | client/src/context/RegionDataContext.tsx:159-165 | the first entry with the exact key answers the lookup |
| RegionData.LookupStateFallback | client/src/context/RegionDataContext.tsx:168-176 | with no exact entry and a non-empty district, the first state-level entry answers |
| RegionData.LookupDefault | client/src/context/RegionDataContext.tsx:13-20 | with no exact entry and no applicable state-level entry, every factor reads 0.5 |
| RegionData.LookupAfterUpsert | client/src/context/RegionDataContext.tsx:129-165 | after saving parameters for a key, looking that key up returns them |
| RegionData.LookupOtherAfterUpsert | client/src/context/RegionDataContext.tsx:129-180 | saving one key leaves every other key's lookup unchanged; the one exception is a state-level save, which can change the reading of that state's districts that have no entry of their own (they fall back to it) |
| RegionData.LookupInRange | client/src/context/RegionDataContext.tsx:158-180 | if every stored entry is in [0,1], so is every lookup |
| RegionData.LookupGenerated | client/src/context/RegionDataContext.tsx:159-165 | on generated data, a generated key reads its own generated parameters |
| RegionData.LookupGeneratedFallback | client/src/context/RegionDataContext.tsx:168-176 | on generated data, an unlisted district of a listed state reads the state-level generated parameters |
| RegionData.LookupGeneratedDefault | client/src/context/RegionDataContext.tsx:178-179 | on generated data, a state with no key at all reads the defaults |
| RegionData.LookupInitialDataFor | client/src/context/RegionDataContext.tsx:158-180 | on start-up data: listed state and district read their own values, other districts of a listed state read the state's, unlisted states read 0.5 |
| RegionData.ImportData | client/src/context/RegionDataContext.tsx:197-200 | the list becomes the imported one, whatever was there before |
| StatesDistricts.StatesShape | client/src/data/statesDistricts.ts:2-8 | 28 states, no duplicates |
| StatesDistricts.EveryStateHasEntry | client/src/data/statesDistricts.ts:11-39 | the district table has one entry per listed state, in the same order |
| StatesDistricts.DistrictsWellFormed | client/src/data/statesDistricts.ts:12-39 | no state lists a district twice, and no district name is "" |
| StatesDistricts.RepeatedDistrictNames | client/src/data/statesDistricts.ts:16-36 | "Bilaspur" appears under Chhattisgarh and Himachal Pradesh, "Udaipur" under Rajasthan and Tripura |
| RegionCatalog.CatalogShape | client/src/data/regions.ts:3-40 | four regions region1..region4 with distinct ids, base scores in [0,1] and four-vertex polygons |
| InterventionCatalog.FindById | client/src/components/ResultsPanel.tsx:59 | `find` by id returns a catalog entry with that id, or none exactly when no entry has it |
| InterventionCatalog.CatalogShape | client/src/data/interventions.ts:3-58 | six interventions with pairwise distinct ids |
| InterventionCatalog.EachFactorTargetedOnce | client/src/data/interventions.ts:3-58 | each factor is targeted by exactly one intervention |
| InterventionCatalog.CatalogEffects | client/src/data/interventions.ts:3-58 | every non-healthcare effect is negative; "health-camps" adds +0.2 to healthcare |
| InterventionCatalog.CatalogInterventionsAreReducing | client/src/data/interventions.ts:3-58 | any list of catalog interventions only reduces risk-positive factors |
| InterventionCatalog.PigFarmBiosecurityScenario | client/src/data/interventions.ts:14-19 | "Pig Farm Biosecurity" takes pig farming 0.4 to 0.2 in the worked example, and the re-scored risk is strictly below 0.515 |
| SeasonalEventCatalog.CatalogShape | client/src/data/seasonalEvents.ts:3-54 | five events with distinct ids, every month listed in 1..12 |
| SeasonalEventCatalog.CatalogEffects | client/src/data/seasonalEvents.ts:3-54 | every effect is positive and none targets healthcare |
| SeasonalEventCatalog.MonthsDisjoint | client/src/data/seasonalEvents.ts:7-47 | no month belongs to two events |
| SeasonalEventCatalog.AtMostOneActive | client/src/data/seasonalEvents.ts:7-47 | at most one event is active in any month |
| SeasonalEventCatalog.QuietMonths | client/src/data/seasonalEvents.ts:7-47 | months 5, 9 and 12 have no active event |
| TimeControl.MonthName | client/src/components/TimeControlPanel.tsx:66 | for months 1..12, `monthNames[currentMonth - 1]` is in bounds and names a month |
| TimeControl.HandleReset | client/src/components/TimeControlPanel.tsx:31-34 | the month becomes 1 and playback stops; the toggle fires exactly when it was playing |
| TimeControl.ActiveEvents | client/src/components/TimeControlPanel.tsx:37-39 | an event is active iff its months contain the current month |
| TimeControl.ActiveEventsKeepOrder | client/src/components/TimeControlPanel.tsx:37-39 | filtering a concatenation filters each part, so active events keep the catalog order |
| TimeControl.ActiveEventsOfOne | client/src/components/TimeControlPanel.tsx:37-39 | a single event is kept exactly when its months contain the current month |
| MapUtils.GetColorByRisk | client/src/lib/mapUtils.ts:6-11 | ≥ 0.8 critical, [0.6, 0.8) high, [0.3, 0.6) medium, < 0.3 low, each as an iff |
| MapUtils.ColorBandsExhaustiveAndMonotone | client/src/lib/mapUtils.ts:6-11 | every score gets one of the four colours, and a higher score never gets a lower band |
| MapUtils.ColorsMatchLegend | client/src/components/MapContainer.tsx:128-144 | a score in [0,1] gets the colour of the legend row whose range holds it |
| RiskScoreCard.RiskCategory | client/src/components/RiskScore.tsx:9-13 | > 0.55 HIGH, [0.45, 0.55] MEDIUM, < 0.45 LOW, each as an iff |
| RiskScoreCard.RecommendationText | client/src/components/RiskScore.tsx:15-19 | the recommendation follows the same three bands, each as an iff |
| RiskScoreCard.CategoryMonotone | client/src/components/RiskScore.tsx:9-13 | a higher score never gets a lower label |
| RiskScoreCard.RecommendationFollowsCategory | client/src/components/RiskScore.tsx:9-19 | two scores with the same label get the same recommendation |
| ResultsPanel.HandleAddIntervention | client/src/components/ResultsPanel.tsx:56-69 | nothing happens with no selection or an unknown id; otherwise the catalog entry is forwarded with `appliedAt = currentMonth` and the selection is cleared |
| ResultsPanel.EntryOr | client/src/components/ResultsPanel.tsx:81-82 | `series[i] \|\| fallback`: a missing entry or an entry equal to 0 gives the fallback |
| ResultsPanel.CalculateRiskReduction | client/src/components/ResultsPanel.tsx:76-88 | 0 if either series is empty or the original risk is 0; otherwise max(0, (orig − reduced)/orig·100); never negative |
| ResultsPanel.ReductionAtMost100 | client/src/components/ResultsPanel.tsx:84-87 | with non-negative risks the reduction is at most 100 |
| ResultsPanel.NoInterventionsNoReduction | client/src/components/ResultsPanel.tsx:76-88 | without interventions, the dashboard's projection shows no reduction in any month |
| ResultsPanel.ReportCategory | client/src/components/ResultsPanel.tsx:162-164 | > 0.55 High, [0.45, 0.55] Medium, < 0.45 Low, each as an iff |
| ResultsPanel.ReportAgreesWithScoreCard | client/src/components/ResultsPanel.tsx:162-164 | the report and the score card classify every score alike |
| Dashboard.InitialStateShape | client/src/pages/Dashboard.tsx:13-27 | no region, every factor 0.5, no interventions, empty projection, score 0 |
| Dashboard.HandleRegionSelect | client/src/pages/Dashboard.tsx:50-52 | selecting a region sets it as the selection and changes nothing else |
| Dashboard.HandleParameterChange | client/src/pages/Dashboard.tsx:55-60 | only the named factor changes, and nothing else in the state |
| Dashboard.HandleAddIntervention | client/src/pages/Dashboard.tsx:63-70 | exactly one entry is appended at the end with `appliedAt = 1`; the prefix and the rest of the state are unchanged |
| Dashboard.HandleRemoveIntervention | client/src/pages/Dashboard.tsx:73-75 | the entries kept are exactly those with another id; nothing else changes |
| Dashboard.RemoveUndoesAdd | client/src/pages/Dashboard.tsx:63-75 | removing an id after adding it gives the same list as removing it before, duplicates included |
| Dashboard.RemoveAbsentId | client/src/pages/Dashboard.tsx:73-75 | removing an id no entry carries changes nothing |
| Dashboard.RecomputeRisk | client/src/pages/Dashboard.tsx:33-47 | with a region, the score is the unblended default-weight score and the projection uses the region's base score; with none, nothing changes |
| Dashboard.ScoreCardVersusProjection | client/src/pages/Dashboard.tsx:33-47 | for in-range factors and a base score in [0,1], all twelve base-risk projection entries are 0.7·(score card) + 0.3·(region base score) |

## Left out

- React rendering, hooks, Leaflet map setup, Chart.js configuration and the jsPDF report layout are user interface and foreign libraries. Only the report's risk class is modelled.
- The `setTimeout` fake load and export in the header are left out for the same reason.
- Browser persistence is I/O and is not modelled:
  - `localStorage` reads and writes;
  - `JSON.parse`/`JSON.stringify`;
  - the start-up effect that loads saved data or falls back to `generateInitialData`;
  - `exportData`'s file download.
- Only the list transformations of the region-parameter store are modelled: generation, upsert, lookup and import.
- The region-parameter provider's state is React state, so its updaters are functions on lists rather than a class.
- `server/routes.ts` is Express and zod plumbing and is not part of this model.
  - It passes the client's six-factor keys to the server's five-factor `calculateRiskScore`.
  - With default weights, those lookups read `undefined` and the result is NaN.
  - With six-factor weights, no key equals `inverseHealthcare`, so healthcare is not inverted.
  - The model does not cross that boundary.
- `client/src/types/index.ts` declares a five-factor `RiskParameters` that the six-factor client code does not use. The client is modelled with the six-factor record the scorer and the dashboard build.
- `shared/schema.ts` (database table definitions) is not part of this model. `GetRegionByIdentifier` returns the earliest match, and nothing enforces the schema's unique identifier.
- Floating-point behaviour is not modelled: arithmetic is exact over `real`, with no IEEE rounding, NaN propagation or `toFixed` formatting.
- Character codes are Unicode scalar values. `charCodeAt` agrees with them on the Basic Multilingual Plane, and every catalog string lies in it.
- The `async`/`Promise` wrappers of the store add no concurrency, so its operations are plain sequential members.
- `ServerScoring.ServerCalculateRiskScore` is a module-level method rather than a `MemStorage` member, because it reads no field of the store.
- The weights object is a five-field record visited in declaration order. A caller-supplied object with other keys, or with keys in another order, is not modelled. In exact arithmetic the order does not change the sum.
- `RegionData.LookupInitialDataFor` is stated for any state list and district table. The instance for the 28-state catalog follows from it together with `RegionData.CatalogTableListsStates`, but is not stated as a lemma of its own, to keep the proof within the verifier's resource limit.
- `RegionData.GenerateInitialData` reads the catalog through `RegionData.GenerateInitialDataFor(states, table)`. An object key that is missing is the case `DistrictsOf` returns empty for.
- `RegionData.Upsert`: its own contract states only the length bounds and that the new entry is present. Which entry changes, or that the entry is appended, is stated in `RegionData.UpsertExisting` and `RegionData.UpsertMissing`.
- `RegionData.ImportData` replaces the list. Its `localStorage` write is I/O.
- The display-only components and the prose descriptions of the parameters have no logic to model:
  - `parameterDescriptions.ts`;
  - `InterventionScenario.tsx`, `ParameterSlider.tsx` and `ui/data-tooltip.tsx`;
  - `RegionDataTooltip.tsx`, which re-calls the scorer with the base score defaulting to 0;
  - `ParametersPanel.tsx`, which reads the five-factor keys off six-factor state.
- Seasonal effects on the projection and gating of interventions by `appliedAt` do not exist in the code, so the model has none.
- `handleSliderChange` forwards the slider's first value unchanged. That the month stays an integer in 1..12 is behaviour of the foreign Radix slider (`min`, `max` and `step`), which the model takes as given; `TimeControl.MonthName` takes a month in 1..12 as its precondition.
