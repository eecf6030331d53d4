/**
 * The region-parameter store: per-state and per-district risk parameters,
 * seeded deterministically from a 32-bit string hash, updated by upsert on the
 * (state, district) key and read back with a district -> state -> default
 * fallback.
 */
module RegionData {
  import opened Wrappers
  import opened Numbers
  import opened Types
  import opened Sequences
  import opened StatesDistricts

  // ---------------------------------------------------------------------------
  // 32-bit integers, as JavaScript's ToInt32 sees them
  // ---------------------------------------------------------------------------

  const TwoTo32: int := 0x1_0000_0000
  const TwoTo31: int := 0x8000_0000

  predicate IsInt32(x: int) {
    -TwoTo31 <= x < TwoTo31
  }

  /** ToInt32: the signed 32-bit integer congruent to `x` modulo 2^32. */
  function ToInt32(x: int): (r: int)
    ensures IsInt32(r)
    ensures IsInt32(x) ==> r == x
  {
    x - TwoTo32 * ((x + TwoTo31) / TwoTo32)
  }

  /** ToInt32 only depends on its argument modulo 2^32. */
  lemma ToInt32Congruent(a: int, k: int)
    ensures ToInt32(a + TwoTo32 * k) == ToInt32(a)
  {
    var q := (a + TwoTo31) / TwoTo32;
    assert a + TwoTo32 * k + TwoTo31 == TwoTo32 * (q + k) + (a + TwoTo31) % TwoTo32;
  }

  // ---------------------------------------------------------------------------
  // The string hash
  // ---------------------------------------------------------------------------

  /** The hash after each character: `h <- int32(31 * h + code)`, starting from 0. */
  function Hash(s: string): (h: int)
    ensures IsInt32(h)
  {
    if |s| == 0 then 0 else ToInt32(31 * Hash(s[..|s| - 1]) + s[|s| - 1] as int)
  }

  /** The same polynomial with unbounded integers: sum of code(s[i]) * 31^(|s|-1-i). */
  function PolynomialHash(s: string): int {
    if |s| == 0 then 0 else 31 * PolynomialHash(s[..|s| - 1]) + s[|s| - 1] as int
  }

  /** The wrapped hash is the unbounded polynomial hash reduced to 32 bits. */
  lemma {:induction false} HashIsWrappedPolynomial(s: string)
    ensures Hash(s) == ToInt32(PolynomialHash(s))
  {
    if |s| > 0 {
      var p := s[..|s| - 1];
      var c := s[|s| - 1] as int;
      HashIsWrappedPolynomial(p);
      var k := (PolynomialHash(p) + TwoTo31) / TwoTo32;
      assert Hash(p) == PolynomialHash(p) - TwoTo32 * k;
      assert 31 * PolynomialHash(p) + c == 31 * Hash(p) + c + TwoTo32 * (31 * k);
      ToInt32Congruent(31 * Hash(p) + c, 31 * k);
    }
  }

  /** One turn of the source's loop, `(hash << 5) - hash + code` then `hash & hash`, is one hash step. */
  lemma HashStep(s: string, c: char)
    ensures ToInt32(ToInt32(Hash(s) * 32) - Hash(s) + c as int) == Hash(s + [c])
  {
    var h := Hash(s);
    assert (s + [c])[..|s|] == s;
    var k := (h * 32 + TwoTo31) / TwoTo32;
    assert ToInt32(h * 32) - h + c as int == 31 * h + c as int + TwoTo32 * -k;
    ToInt32Congruent(31 * h + c as int, -k);
  }

  /** The range each factor's generated value is scaled into. */
  datatype Range = Range(min: real, max: real)

  function VarianceRange(f: Factor): (r: Range)
    ensures 0.0 < r.min < r.max <= 0.9
  {
    match f
    case BatDensity => Range(0.2, 0.8)
    case PigFarmingIntensity => Range(0.2, 0.8)
    case FruitConsumptionPractices => Range(0.3, 0.9)
    case HumanPopulationDensity => Range(0.3, 0.9)
    case HealthcareInfrastructure => Range(0.2, 0.8)
    case EnvironmentalDegradation => Range(0.2, 0.7)
  }

  /** The string hashed for one factor of one region: state, district and key name run together. */
  function Seed(state: string, district: string, f: Factor): string {
    state + district + FactorName(f)
  }

  /** `|hash| / (2^31 - 1)`: in [0, 1] except for the hash -2^31. */
  function NormalizedHash(h: int): (n: real)
    requires IsInt32(h)
    ensures 0.0 <= n
    ensures n <= 1.0 <==> h != -TwoTo31
    ensures n <= 2147483648.0 / 2147483647.0
  {
    Abs(h as real) / 2147483647.0
  }

  /** "Scale to the desired range": `min + n * (max - min)`. */
  function ScaleToRange(r: Range, n: real): real {
    r.min + n * (r.max - r.min)
  }

  /** The generated value of one factor of one region: its seed's hash, normalised and scaled. */
  function DeterministicValue(state: string, district: string, f: Factor): real {
    ScaleToRange(VarianceRange(f), NormalizedHash(Hash(Seed(state, district, f))))
  }

  lemma ScaledBounds(q: real, w: real)
    requires 0.0 <= q <= 2147483648.0 / 2147483647.0 && 0.0 < w
    ensures 0.0 <= q * w
    ensures q * w <= w <==> q <= 1.0
    ensures q * w <= w * (2147483648.0 / 2147483647.0)
  {
    assert q * w - w == (q - 1.0) * w;
    assert w * (2147483648.0 / 2147483647.0) - q * w == (2147483648.0 / 2147483647.0 - q) * w;
  }

  /**
   * A generated value never drops below its range's minimum, exceeds the
   * maximum only for the hash -2^31 (whose absolute value is 2^31), and
   * always lies in [0, 1].
   */
  lemma DeterministicValueBounds(state: string, district: string, f: Factor)
    ensures DeterministicValue(state, district, f) >= VarianceRange(f).min
    ensures DeterministicValue(state, district, f) <= VarianceRange(f).max
      <==> Hash(Seed(state, district, f)) != -TwoTo31
    ensures 0.0 <= DeterministicValue(state, district, f) < 1.0
  {
    var r := VarianceRange(f);
    var h := Hash(Seed(state, district, f));
    ScaledBounds(NormalizedHash(h), r.max - r.min);
  }

  /** The `for` loop of `generateDeterministicValue`: shift left by 5, subtract, add the code, wrap to 32 bits. */
  method HashString(combined: string) returns (hash: int)
    ensures hash == Hash(combined)
  {
    hash := 0;
    var i := 0;
    while i < |combined|
      invariant 0 <= i <= |combined|
      invariant hash == Hash(combined[..i])
    {
      HashStep(combined[..i], combined[i]);
      var shifted := ToInt32(hash * 32);
      hash := shifted - hash + combined[i] as int;
      hash := ToInt32(hash);
      assert combined[..i + 1] == combined[..i] + [combined[i]];
      i := i + 1;
    }
    assert combined[..i] == combined;
  }

  /** `generateDeterministicValue`: hash the run-together strings, normalise, scale into the factor's range. */
  method GenerateDeterministicValue(state: string, district: string, param: Factor) returns (value: real)
    ensures value == DeterministicValue(state, district, param)
  {
    var hash := HashString(Seed(state, district, param));
    var normalizedHash := NormalizedHash(hash);
    var range := VarianceRange(param);
    value := ScaleToRange(range, normalizedHash);
  }

  /** The six generated values of one region. */
  function GeneratedParameters(state: string, district: string): RiskParameters {
    RiskParameters(
      DeterministicValue(state, district, BatDensity),
      DeterministicValue(state, district, PigFarmingIntensity),
      DeterministicValue(state, district, FruitConsumptionPractices),
      DeterministicValue(state, district, HumanPopulationDensity),
      DeterministicValue(state, district, HealthcareInfrastructure),
      DeterministicValue(state, district, EnvironmentalDegradation))
  }

  /** Every generated parameter set lies in [0, 1], even where a value overshoots its range. */
  lemma GeneratedParametersInRange(state: string, district: string)
    ensures InRange(GeneratedParameters(state, district))
  {
    var p := GeneratedParameters(state, district);
    forall f
      ensures 0.0 <= p.Get(f) <= 1.0
    {
      DeterministicValueBounds(state, district, f);
      GeneratedParameterValue(state, district, f);
    }
  }

  lemma GeneratedParameterValue(state: string, district: string, f: Factor)
    ensures GeneratedParameters(state, district).Get(f) == DeterministicValue(state, district, f)
  {
  }

  /** `generateDeterministicValue` for every factor of one region, one call per factor. */
  method GenerateParameters(state: string, district: string) returns (p: RiskParameters)
    ensures p == GeneratedParameters(state, district)
  {
    var bat := GenerateDeterministicValue(state, district, BatDensity);
    var pig := GenerateDeterministicValue(state, district, PigFarmingIntensity);
    var fruit := GenerateDeterministicValue(state, district, FruitConsumptionPractices);
    var human := GenerateDeterministicValue(state, district, HumanPopulationDensity);
    var health := GenerateDeterministicValue(state, district, HealthcareInfrastructure);
    var env := GenerateDeterministicValue(state, district, EnvironmentalDegradation);
    p := RiskParameters(bat, pig, fruit, human, health, env);
  }

  // ---------------------------------------------------------------------------
  // The stored entries and the seed data
  // ---------------------------------------------------------------------------

  datatype RegionParametersData = RegionParametersData(state: string, district: string, parameters: RiskParameters)

  /** The parameters used when nothing is stored: every factor 0.5. */
  const DefaultParameters := RiskParameters(0.5, 0.5, 0.5, 0.5, 0.5, 0.5)

  /** A generated entry; the state-level entry of a state has district "". */
  function Entry(key: (string, string)): RegionParametersData {
    RegionParametersData(key.0, key.1, GeneratedParameters(key.0, key.1))
  }

  /** The entries for a list of keys, each with the parameters generated from its key. */
  function WithParameters(keys: seq<(string, string)>): (data: seq<RegionParametersData>)
    ensures |data| == |keys|
    ensures forall i :: 0 <= i < |keys| ==>
      data[i].state == keys[i].0 && data[i].district == keys[i].1 && data[i].parameters == GeneratedParameters(keys[i].0, keys[i].1)
  {
    seq(|keys|, i requires 0 <= i < |keys| => Entry(keys[i]))
  }

  /** `districtsByState[state] || []`: the districts of the first entry with that key, else none. */
  function DistrictsOf(table: seq<(string, seq<string>)>, state: string): (r: seq<string>)
    ensures (forall k :: 0 <= k < |table| ==> table[k].0 != state) ==> r == []
    ensures forall k :: (0 <= k < |table| && table[k].0 == state && forall j :: 0 <= j < k ==> table[j].0 != state) ==>
      r == table[k].1
  {
    match Find(table, (e: (string, seq<string>)) => e.0 == state)
    case None => []
    case Some(e) => e.1
  }

  /** The keys one state contributes: the state-level key, then one per district in order. */
  function StateKeys(state: string, districts: seq<string>): (keys: seq<(string, string)>)
    ensures |keys| == 1 + |districts|
    ensures keys[0] == (state, "")
    ensures forall i :: 0 <= i < |districts| ==> keys[i + 1] == (state, districts[i])
  {
    [(state, "")] + seq(|districts|, i requires 0 <= i < |districts| => (state, districts[i]))
  }

  /** The keys `generateInitialData` emits, for each state in order. */
  function InitialKeys(states: seq<string>, table: seq<(string, seq<string>)>): seq<(string, string)> {
    if |states| == 0 then []
    else
      var last := states[|states| - 1];
      InitialKeys(states[..|states| - 1], table) + StateKeys(last, DistrictsOf(table, last))
  }

  /** `generateInitialData` over a list of states and a district table. */
  function InitialDataFor(states: seq<string>, table: seq<(string, seq<string>)>): seq<RegionParametersData> {
    WithParameters(InitialKeys(states, table))
  }

  /** The entries generated at start-up. */
  function InitialData(): seq<RegionParametersData> {
    InitialDataFor(IndianStates, DistrictsByState)
  }

  /** The number of entries `generateInitialData` emits: one per state plus one per district. */
  function EntryCount(states: seq<string>, table: seq<(string, seq<string>)>): nat {
    if |states| == 0 then 0
    else EntryCount(states[..|states| - 1], table) + 1 + |DistrictsOf(table, states[|states| - 1])|
  }

  /** The generated list has one entry per state plus one per listed district. */
  lemma {:induction false} InitialDataLength(states: seq<string>, table: seq<(string, seq<string>)>)
    ensures |InitialDataFor(states, table)| == EntryCount(states, table)
  {
    if |states| > 0 {
      InitialDataLength(states[..|states| - 1], table);
    }
  }

  /** The keys one state contributes are that state with "" and with each of its districts. */
  lemma StateKeysMembers(state: string, districts: seq<string>)
    ensures forall st, d :: (st, d) in StateKeys(state, districts) <==>
      st == state && (d == "" || d in districts)
  {
    var tail := StateKeys(state, districts);
    forall st, d
      ensures (st, d) in tail <==> st == state && (d == "" || d in districts)
    {
      if (st, d) in tail && d != "" {
        var i :| 0 <= i < |tail| && tail[i] == (st, d);
        assert tail[(i - 1) + 1] == (state, districts[i - 1]);
      }
      if st == state && d in districts {
        var i :| 0 <= i < |districts| && districts[i] == d;
        assert tail[i + 1] == (st, d);
      }
    }
  }

  /** The keys present are exactly each listed state with "" and with each of its districts. */
  lemma {:induction false} InitialKeysMembers(states: seq<string>, table: seq<(string, seq<string>)>)
    ensures forall st, d :: (st, d) in InitialKeys(states, table) <==>
      st in states && (d == "" || d in DistrictsOf(table, st))
  {
    if |states| > 0 {
      var prefix := states[..|states| - 1];
      var last := states[|states| - 1];
      InitialKeysMembers(prefix, table);
      StateKeysMembers(last, DistrictsOf(table, last));
      assert InitialKeys(states, table) == InitialKeys(prefix, table) + StateKeys(last, DistrictsOf(table, last));
      assert forall st :: st in states <==> st in prefix || st == last;
    }
  }

  /** At most one generated entry per key, given distinct states and well-formed district lists. */
  lemma {:induction false} InitialKeysDistinct(states: seq<string>, table: seq<(string, seq<string>)>)
    requires Distinct(states)
    requires forall st :: st in states ==> WellFormedDistricts(DistrictsOf(table, st))
    ensures Distinct(InitialKeys(states, table))
  {
    if |states| > 0 {
      var prefix := states[..|states| - 1];
      var last := states[|states| - 1];
      var ds := DistrictsOf(table, last);
      var front := InitialKeys(prefix, table);
      var tail := StateKeys(last, ds);
      assert Distinct(prefix);
      InitialKeysDistinct(prefix, table);
      InitialKeysMembers(prefix, table);
      assert last !in prefix;
      var all := front + tail;
      forall i, j | 0 <= i < j < |all|
        ensures all[i] != all[j]
      {
        if j >= |front| {
          var tj := j - |front|;
          assert all[j] == tail[tj];
          if tj > 0 {
            assert tail[(tj - 1) + 1] == (last, ds[tj - 1]);
          }
          if i < |front| {
            assert all[i] in front;
          } else {
            var ti := i - |front|;
            assert all[i] == tail[ti];
            if ti > 0 {
              assert tail[(ti - 1) + 1] == (last, ds[ti - 1]);
            }
          }
        }
      }
      assert InitialKeys(states, table) == all;
    }
  }

  /** The table lists exactly the given states, in the same order, and no state twice. */
  predicate TableListsStates(states: seq<string>, table: seq<(string, seq<string>)>) {
    |table| == |states| && Distinct(states) && forall i :: 0 <= i < |states| ==> table[i].0 == states[i]
  }

  /** The catalog's district table lists exactly its 28 states. */
  lemma CatalogTableListsStates()
    ensures TableListsStates(IndianStates, DistrictsByState)
  {
    StatesShape();
    EveryStateHasEntry();
  }

  /** Where the table lists exactly the given states, a state's lookup is its own row. */
  lemma DistrictsOfListedState(states: seq<string>, table: seq<(string, seq<string>)>, k: nat)
    requires TableListsStates(states, table)
    requires k < |states|
    ensures DistrictsOf(table, states[k]) == table[k].1
  {
    assert forall j :: 0 <= j < k ==> table[j].0 != states[k];
  }

  /** The start-up data holds no two entries for the same (state, district) key. */
  lemma InitialKeysAreDistinct()
    ensures Distinct(InitialKeys(IndianStates, DistrictsByState))
  {
    CatalogTableListsStates();
    DistrictsWellFormed();
    ListedTableKeysDistinct(IndianStates, DistrictsByState);
  }

  /** A table listing distinct states, each with a well-formed district list, generates distinct keys. */
  lemma ListedTableKeysDistinct(states: seq<string>, table: seq<(string, seq<string>)>)
    requires TableListsStates(states, table)
    requires forall k :: 0 <= k < |table| ==> WellFormedDistricts(table[k].1)
    ensures Distinct(InitialKeys(states, table))
  {
    forall st | st in states
      ensures WellFormedDistricts(DistrictsOf(table, st))
    {
      var k :| 0 <= k < |states| && states[k] == st;
      DistrictsOfListedState(states, table, k);
    }
    InitialKeysDistinct(states, table);
  }

  /** Appending one key appends its generated entry. */
  lemma WithParametersAppend(keys: seq<(string, string)>, key: (string, string))
    ensures WithParameters(keys + [key]) == WithParameters(keys) + [Entry(key)]
  {
    var a := WithParameters(keys + [key]);
    var b := WithParameters(keys) + [Entry(key)];
    assert |a| == |b|;
    forall i | 0 <= i < |a|
      ensures a[i] == b[i]
    {
      if i < |keys| {
        assert (keys + [key])[i] == keys[i];
      } else {
        assert (keys + [key])[i] == key;
      }
    }
  }

  /** The emitted keys after one more district key of the current state. */
  lemma NextKey(before: seq<(string, string)>, keys: seq<(string, string)>, d: nat)
    requires d + 1 < |keys|
    ensures before + keys[..d + 2] == (before + keys[..d + 1]) + [keys[d + 1]]
  {
    assert keys[..d + 2] == keys[..d + 1] + [keys[d + 1]];
  }

  /** The emitted keys after the last state processed so far. */
  lemma NextState(states: seq<string>, table: seq<(string, seq<string>)>, s: nat)
    requires s < |states|
    ensures InitialKeys(states[..s + 1], table)
      == InitialKeys(states[..s], table) + StateKeys(states[s], DistrictsOf(table, states[s]))
  {
    assert states[..s + 1][..s] == states[..s];
  }

  /** One state's turn in `generateInitialData`: push its state-level entry, then one entry per district. */
  method PushStateEntries(ghost before: seq<(string, string)>, data: seq<RegionParametersData>, state: string, districts: seq<string>)
    returns (out: seq<RegionParametersData>)
    requires data == WithParameters(before)
    ensures out == WithParameters(before + StateKeys(state, districts))
  {
    ghost var keys := StateKeys(state, districts);
    var p := GenerateParameters(state, "");
    WithParametersAppend(before, (state, ""));
    out := data + [RegionParametersData(state, "", p)];
    ghost var emitted := before + [(state, "")];
    assert keys[..1] == [(state, "")];
    var d := 0;
    while d < |districts|
      invariant 0 <= d <= |districts|
      invariant emitted == before + keys[..d + 1]
      invariant out == WithParameters(emitted)
    {
      var district := districts[d];
      p := GenerateParameters(state, district);
      WithParametersAppend(emitted, (state, district));
      NextKey(before, keys, d);
      out := out + [RegionParametersData(state, district, p)];
      emitted := emitted + [(state, district)];
      d := d + 1;
    }
    assert keys[..d + 1] == keys;
  }

  /** `generateInitialData`: for each state in order, its entries. */
  method GenerateInitialDataFor(states: seq<string>, table: seq<(string, seq<string>)>) returns (data: seq<RegionParametersData>)
    ensures data == InitialDataFor(states, table)
  {
    data := [];
    var s := 0;
    while s < |states|
      invariant 0 <= s <= |states|
      invariant data == WithParameters(InitialKeys(states[..s], table))
    {
      var state := states[s];
      var districts := DistrictsOf(table, state);
      data := PushStateEntries(InitialKeys(states[..s], table), data, state, districts);
      NextState(states, table, s);
      s := s + 1;
    }
    assert states[..s] == states;
  }

  /** `generateInitialData` over the state list and the district table of the catalog. */
  method GenerateInitialData() returns (data: seq<RegionParametersData>)
    ensures data == InitialData()
  {
    data := GenerateInitialDataFor(IndianStates, DistrictsByState);
  }

  // ---------------------------------------------------------------------------
  // Update and lookup by (state, district)
  // ---------------------------------------------------------------------------

  /** The key of a stored entry. */
  function KeyOf(e: RegionParametersData): (string, string) {
    (e.state, e.district)
  }

  /** `findIndex` on the (state, district) key. */
  function IndexOfKey(data: seq<RegionParametersData>, state: string, district: string): (r: Option<nat>)
    ensures r.Some? ==> r.value < |data| && KeyOf(data[r.value]) == (state, district)
    ensures r.Some? ==> forall j :: 0 <= j < r.value ==> KeyOf(data[j]) != (state, district)
    ensures r.None? <==> forall j :: 0 <= j < |data| ==> KeyOf(data[j]) != (state, district)
  {
    FindIndex(data, (e: RegionParametersData) => e.state == state && e.district == district)
  }

  /** The list after `updateRegionParameters`: a matching entry gets the new parameters, else one is appended. */
  function Upsert(data: seq<RegionParametersData>, state: string, district: string, parameters: RiskParameters)
    : (r: seq<RegionParametersData>)
    ensures |data| <= |r| <= |data| + 1
    ensures exists i :: 0 <= i < |r| && r[i] == RegionParametersData(state, district, parameters)
  {
    match IndexOfKey(data, state, district)
    case Some(i) =>
      var r := data[i := data[i].(parameters := parameters)];
      assert r[i] == RegionParametersData(state, district, parameters);
      r
    case None =>
      var r := data + [RegionParametersData(state, district, parameters)];
      assert r[|data|] == RegionParametersData(state, district, parameters);
      r
  }

  /** Upsert on a present key: same length, only the first match changes, and only its parameters. */
  lemma UpsertExisting(data: seq<RegionParametersData>, state: string, district: string, parameters: RiskParameters, i: nat)
    requires i < |data| && KeyOf(data[i]) == (state, district)
    requires forall j :: 0 <= j < i ==> KeyOf(data[j]) != (state, district)
    ensures |Upsert(data, state, district, parameters)| == |data|
    ensures Upsert(data, state, district, parameters)[i] == RegionParametersData(state, district, parameters)
    ensures forall j :: 0 <= j < |data| && j != i ==> Upsert(data, state, district, parameters)[j] == data[j]
  {
    var r := IndexOfKey(data, state, district);
    assert r.Some? && r.value == i;
  }

  /** Upsert on a missing key: exactly one entry appended at the end. */
  lemma UpsertMissing(data: seq<RegionParametersData>, state: string, district: string, parameters: RiskParameters)
    requires forall j :: 0 <= j < |data| ==> KeyOf(data[j]) != (state, district)
    ensures Upsert(data, state, district, parameters) == data + [RegionParametersData(state, district, parameters)]
  {}

  /** `getRegionParameters`: exact entry, else (for a non-empty district) the state-level entry, else the defaults. */
  function Lookup(data: seq<RegionParametersData>, state: string, district: string): (r: RiskParameters)
    ensures r == DefaultParameters || exists i :: 0 <= i < |data| && data[i].parameters == r
  {
    match IndexOfKey(data, state, district)
    case Some(i) => data[i].parameters
    case None =>
      if district != "" then
        match IndexOfKey(data, state, "")
        case Some(j) => data[j].parameters
        case None => DefaultParameters
      else DefaultParameters
  }

  /** The first entry with the key answers the lookup. */
  lemma LookupExact(data: seq<RegionParametersData>, state: string, district: string, i: nat)
    requires i < |data| && KeyOf(data[i]) == (state, district)
    requires forall j :: 0 <= j < i ==> KeyOf(data[j]) != (state, district)
    ensures Lookup(data, state, district) == data[i].parameters
  {
    var r := IndexOfKey(data, state, district);
    assert r.Some? && r.value == i;
  }

  /** A missing district falls back to the first state-level entry. */
  lemma LookupStateFallback(data: seq<RegionParametersData>, state: string, district: string, i: nat)
    requires forall j :: 0 <= j < |data| ==> KeyOf(data[j]) != (state, district)
    requires district != ""
    requires i < |data| && KeyOf(data[i]) == (state, "")
    requires forall j :: 0 <= j < i ==> KeyOf(data[j]) != (state, "")
    ensures Lookup(data, state, district) == data[i].parameters
  {
    var r := IndexOfKey(data, state, "");
    assert r.Some? && r.value == i;
  }

  /** With no exact entry and no usable state-level entry, every factor reads 0.5. */
  lemma LookupDefault(data: seq<RegionParametersData>, state: string, district: string)
    requires forall j :: 0 <= j < |data| ==> KeyOf(data[j]) != (state, district)
    requires district == "" || forall j :: 0 <= j < |data| ==> KeyOf(data[j]) != (state, "")
    ensures Lookup(data, state, district) == DefaultParameters
  {}

  /** After saving parameters for a key, reading that key returns them. */
  lemma LookupAfterUpsert(data: seq<RegionParametersData>, state: string, district: string, parameters: RiskParameters)
    ensures Lookup(Upsert(data, state, district, parameters), state, district) == parameters
  {
    match IndexOfKey(data, state, district)
    case Some(i) =>
      UpsertExisting(data, state, district, parameters, i);
      LookupExact(Upsert(data, state, district, parameters), state, district, i);
    case None =>
      UpsertMissing(data, state, district, parameters);
      var r := Upsert(data, state, district, parameters);
      assert forall j :: 0 <= j < |data| ==> r[j] == data[j];
      LookupExact(r, state, district, |data|);
  }

  /**
   * Saving one key leaves every other key's reading unchanged, except that
   * saving a state-level entry can change what that state's districts
   * without an entry of their own fall back to.
   */
  lemma LookupOtherAfterUpsert(data: seq<RegionParametersData>, state: string, district: string,
                               parameters: RiskParameters, state': string, district': string)
    requires (state', district') != (state, district)
    requires state' == state && district == "" ==> exists j :: 0 <= j < |data| && KeyOf(data[j]) == (state', district')
    ensures Lookup(Upsert(data, state, district, parameters), state', district') == Lookup(data, state', district')
  {
    var r := Upsert(data, state, district, parameters);
    assert |r| == |data| || |r| == |data| + 1;
    assert forall j :: 0 <= j < |data| ==> KeyOf(r[j]) == KeyOf(data[j]) by {
      match IndexOfKey(data, state, district)
      case Some(i) => UpsertExisting(data, state, district, parameters, i);
      case None => UpsertMissing(data, state, district, parameters);
    }
    assert forall j :: 0 <= j < |data| && KeyOf(r[j]) == (state', district') ==> r[j] == data[j] by {
      match IndexOfKey(data, state, district)
      case Some(i) => UpsertExisting(data, state, district, parameters, i);
      case None => UpsertMissing(data, state, district, parameters);
    }
    assert |r| == |data| + 1 ==> KeyOf(r[|data|]) == (state, district) by {
      match IndexOfKey(data, state, district)
      case Some(i) => UpsertExisting(data, state, district, parameters, i);
      case None => UpsertMissing(data, state, district, parameters);
    }
    if state' == state && district == "" {
      // The district has its own entry, which the save left in place and which still answers first.
      var i := IndexOfKey(data, state', district').value;
      LookupExact(data, state', district', i);
      LookupExact(r, state', district', i);
    } else {
      LookupSameOn(data, r, state', district');
    }
  }

  /**
   * Two lists that agree on keys position by position, and on the parameters
   * of every entry keyed (state, district) or (state, ""), answer the same
   * lookup; an extra trailing entry with another key changes nothing.
   */
  lemma LookupSameOn(a: seq<RegionParametersData>, b: seq<RegionParametersData>, state: string, district: string)
    requires |b| == |a| || |b| == |a| + 1
    requires forall j :: 0 <= j < |a| ==> KeyOf(b[j]) == KeyOf(a[j])
    requires forall j :: 0 <= j < |a| && KeyOf(b[j]) == (state, district) ==> b[j] == a[j]
    requires forall j :: 0 <= j < |a| && district != "" && KeyOf(b[j]) == (state, "") ==> b[j] == a[j]
    requires |b| == |a| + 1 ==> KeyOf(b[|a|]) != (state, district)
    requires |b| == |a| + 1 && district != "" ==> KeyOf(b[|a|]) != (state, "")
    ensures Lookup(b, state, district) == Lookup(a, state, district)
  {
    match IndexOfKey(a, state, district)
    case Some(i) =>
      LookupExact(a, state, district, i);
      LookupExact(b, state, district, i);
    case None =>
      assert forall j :: 0 <= j < |b| ==> KeyOf(b[j]) != (state, district);
      if district != "" {
        match IndexOfKey(a, state, "")
        case Some(i) =>
          LookupStateFallback(a, state, district, i);
          LookupStateFallback(b, state, district, i);
        case None =>
          LookupDefault(a, state, district);
          LookupDefault(b, state, district);
      } else {
        LookupDefault(a, state, district);
        LookupDefault(b, state, district);
      }
  }

  /** If every stored entry is in [0, 1], so is every lookup. */
  lemma LookupInRange(data: seq<RegionParametersData>, state: string, district: string)
    requires forall i :: 0 <= i < |data| ==> InRange(data[i].parameters)
    ensures InRange(Lookup(data, state, district))
  {}

  /** On generated data, a listed key reads its generated parameters. */
  lemma LookupGenerated(keys: seq<(string, string)>, state: string, district: string)
    requires (state, district) in keys
    ensures Lookup(WithParameters(keys), state, district) == GeneratedParameters(state, district)
  {
    var data := WithParameters(keys);
    var k :| 0 <= k < |keys| && keys[k] == (state, district);
    assert KeyOf(data[k]) == (state, district);
    var i := IndexOfKey(data, state, district);
    LookupExact(data, state, district, i.value);
  }

  /** On generated data, an unlisted district of a listed state reads the state-level parameters. */
  lemma LookupGeneratedFallback(keys: seq<(string, string)>, state: string, district: string)
    requires (state, district) !in keys && district != ""
    requires (state, "") in keys
    ensures Lookup(WithParameters(keys), state, district) == GeneratedParameters(state, "")
  {
    var data := WithParameters(keys);
    var k :| 0 <= k < |keys| && keys[k] == (state, "");
    assert KeyOf(data[k]) == (state, "");
    var i := IndexOfKey(data, state, "");
    LookupStateFallback(data, state, district, i.value);
  }

  /** On generated data, a state with no key at all reads the defaults. */
  lemma LookupGeneratedDefault(keys: seq<(string, string)>, state: string, district: string)
    requires forall k :: 0 <= k < |keys| ==> keys[k].0 != state
    ensures Lookup(WithParameters(keys), state, district) == DefaultParameters
  {
    var data := WithParameters(keys);
    assert forall j :: 0 <= j < |data| ==> KeyOf(data[j]) == keys[j];
    LookupDefault(data, state, district);
  }

  /**
   * On generated data: a listed state and each of its districts read the
   * values generated for them, any other district of a listed state reads
   * the state-level values, and an unlisted state reads the defaults.
   */
  lemma LookupInitialDataFor(states: seq<string>, table: seq<(string, seq<string>)>, state: string, district: string)
    ensures state in states && (district == "" || district in DistrictsOf(table, state)) ==>
      Lookup(InitialDataFor(states, table), state, district) == GeneratedParameters(state, district)
    ensures state in states && district != "" && district !in DistrictsOf(table, state) ==>
      Lookup(InitialDataFor(states, table), state, district) == GeneratedParameters(state, "")
    ensures state !in states ==> Lookup(InitialDataFor(states, table), state, district) == DefaultParameters
  {
    InitialKeysMembers(states, table);
    var keys := InitialKeys(states, table);
    if state !in states {
      assert forall k :: 0 <= k < |keys| ==> keys[k].0 != state by {
        forall k | 0 <= k < |keys|
          ensures keys[k].0 != state
        {
          assert (keys[k].0, keys[k].1) in keys;
        }
      }
      LookupGeneratedDefault(keys, state, district);
    } else if district == "" || district in DistrictsOf(table, state) {
      LookupGenerated(keys, state, district);
    } else {
      LookupGeneratedFallback(keys, state, district);
    }
  }

  // ---------------------------------------------------------------------------
  // The provider's transitions of `regionData`
  // ---------------------------------------------------------------------------

  /** `updateRegionParameters`: overwrite the first matching entry's parameters in a copy, or push a new entry. */
  method UpdateRegionParameters(prevData: seq<RegionParametersData>, state: string, district: string, parameters: RiskParameters)
    returns (newData: seq<RegionParametersData>)
    ensures newData == Upsert(prevData, state, district, parameters)
  {
    newData := prevData;
    var index := IndexOfKey(newData, state, district);
    if index.Some? {
      newData := newData[index.value := newData[index.value].(parameters := parameters)];
    } else {
      newData := newData + [RegionParametersData(state, district, parameters)];
    }
  }

  /** `importData`: the list becomes the imported one, whatever was there before. */
  function ImportData(regionData: seq<RegionParametersData>, data: seq<RegionParametersData>): (r: seq<RegionParametersData>)
    ensures r == data
  {
    data
  }
}
