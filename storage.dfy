/**
 * The server's in-memory store: four tables keyed by auto-increment ids,
 * each with its own counter, the insert/get/find-first/filter operations
 * over them, and the four sample regions it is seeded with.
 *
 * A table is a `map<int, T>` and its rows are listed with `Rows`, in
 * increasing id order: ids are handed out in increasing order and nothing
 * is ever removed or re-keyed, so that is the insertion order in which a
 * JavaScript `Map` yields its values.
 */
module Storage {
  import opened Wrappers
  import opened Sequences
  import RegionCatalog

  /** A `jsonb` column, kept as its serialized text: the store never looks inside it. */
  type Json = string

  datatype User = User(id: int, username: string, password: string)
  datatype InsertUser = InsertUser(username: string, password: string)

  datatype Region = Region(id: int, name: string, identifier: string, center: (real, real),
                           coordinates: seq<(real, real)>, baseRiskScore: real)
  datatype InsertRegion = InsertRegion(name: string, identifier: string, center: (real, real),
                                       coordinates: seq<(real, real)>, baseRiskScore: real)

  /** `userId` is a nullable column: None stands for `null`. */
  datatype ParameterSet = ParameterSet(id: int, name: string, userId: Option<int>, parameters: Json, createdAt: string)
  datatype InsertParameterSet = InsertParameterSet(name: string, userId: Option<int>, parameters: Json, createdAt: string)

  datatype Scenario = Scenario(id: int, name: string, userId: Option<int>, regionIdentifier: string,
                               parameters: Json, interventions: Json, createdAt: string)
  datatype InsertScenario = InsertScenario(name: string, userId: Option<int>, regionIdentifier: string,
                                           parameters: Json, interventions: Json, createdAt: string)

  /** `{ ...insertRegion, id }` */
  function RegionOf(r: InsertRegion, id: int): Region
  {
    Region(id, r.name, r.identifier, r.center, r.coordinates, r.baseRiskScore)
  }

  /** The regions `initializeSampleData` inserts, in order. */
  const SampleRegions: seq<InsertRegion> := [
    InsertRegion("West Bengal", "region1", (23.0, 87.0),
      [(22.5, 86.5), (22.5, 87.5), (23.5, 87.5), (23.5, 86.5)], 0.72),
    InsertRegion("Kerala", "region2", (10.8505, 76.2711),
      [(10.5, 75.5), (10.5, 77.0), (11.5, 77.0), (11.5, 75.5)], 0.65),
    InsertRegion("Bangladesh (Rangpur)", "region3", (25.7439, 89.2752),
      [(25.3, 88.8), (25.3, 89.7), (26.2, 89.7), (26.2, 88.8)], 0.81),
    InsertRegion("Malaysia (Perak)", "region4", (4.7711, 101.0449),
      [(4.3, 100.6), (4.3, 101.4), (5.2, 101.4), (5.2, 100.6)], 0.45)
  ]

  /** The server seed is the client's region list: same order, names, identifiers, centres, polygons and base scores. */
  lemma SampleRegionsMatchClient()
    ensures |SampleRegions| == |RegionCatalog.Regions|
    ensures forall i :: 0 <= i < |SampleRegions| ==>
      SampleRegions[i].name == RegionCatalog.Regions[i].name
      && SampleRegions[i].identifier == RegionCatalog.Regions[i].id
      && SampleRegions[i].center == RegionCatalog.Regions[i].center
      && SampleRegions[i].coordinates == RegionCatalog.Regions[i].coordinates
      && SampleRegions[i].baseRiskScore == RegionCatalog.Regions[i].baseRiskScore
  {
  }

  // ---------------------------------------------------------------------------
  // Tables
  // ---------------------------------------------------------------------------

  /** The table holds exactly the ids 1 .. next - 1, the ones handed out so far. */
  predicate Dense<T>(table: map<int, T>, next: int)
  {
    1 <= next && (forall k :: k in table ==> 1 <= k < next) && (forall k :: 1 <= k < next ==> k in table)
  }

  /** `Array.from(table.values())` for a table holding the ids 1 .. next - 1. */
  function Rows<T>(table: map<int, T>, next: int): (rows: seq<T>)
    requires Dense(table, next)
    ensures |rows| == next - 1
    ensures forall i :: 0 <= i < |rows| ==> rows[i] == table[i + 1]
    decreases next
  {
    if next == 1 then [] else Rows(table - {next - 1}, next - 1) + [table[next - 1]]
  }

  /** Where every row is stored under its own `key`, a row is listed iff it is stored, and keys increase along the list. */
  lemma RowsByKey<T>(table: map<int, T>, next: int, key: T -> int)
    requires Dense(table, next)
    requires forall k :: k in table ==> key(table[k]) == k
    ensures forall x :: x in Rows(table, next) <==> key(x) in table && table[key(x)] == x
    ensures forall i, j :: 0 <= i < j < |Rows(table, next)| ==> key(Rows(table, next)[i]) < key(Rows(table, next)[j])
  {
    var rows := Rows(table, next);
    forall x | key(x) in table && table[key(x)] == x
      ensures x in rows
    {
      assert rows[key(x) - 1] == x;
    }
  }

  /** Storing a row under the next id appends it to the listing. */
  lemma RowsExtend<T>(table: map<int, T>, next: int, row: T)
    requires Dense(table, next)
    ensures Dense(table[next := row], next + 1)
    ensures Rows(table[next := row], next + 1) == Rows(table, next) + [row]
  {
    assert Dense(table[next := row], next + 1);
    var a, b := Rows(table[next := row], next + 1), Rows(table, next) + [row];
    assert |a| == |b|;
    forall i | 0 <= i < |a|
      ensures a[i] == b[i]
    {
    }
  }

  /** `Array.from(table.values()).find(p)`, as the id of the row found: the least id whose row satisfies `p`. */
  function FirstId<T>(table: map<int, T>, next: int, p: T -> bool): (r: Option<int>)
    requires Dense(table, next)
    ensures r.Some? ==> r.value in table && p(table[r.value])
    ensures r.Some? ==> forall k :: k in table && k < r.value ==> !p(table[k])
    ensures r.None? <==> forall k :: k in table ==> !p(table[k])
  {
    var rows := Rows(table, next);
    assert forall k :: k in table ==> rows[k - 1] == table[k];
    match FindIndex(rows, p)
    case Some(i) => Some(i + 1)
    case None => None
  }

  // ---------------------------------------------------------------------------
  // The store
  // ---------------------------------------------------------------------------

  class MemStorage {
    var users: map<int, User>
    var regions: map<int, Region>
    var parameterSets: map<int, ParameterSet>
    var scenarios: map<int, Scenario>

    var userIdCounter: int
    var regionIdCounter: int
    var parameterSetIdCounter: int
    var scenarioIdCounter: int

    /** Each table holds exactly the ids its counter has handed out, each row under its own id. */
    predicate Valid()
      reads this
    {
      Dense(users, userIdCounter) && (forall k :: k in users ==> users[k].id == k)
      && Dense(regions, regionIdCounter) && (forall k :: k in regions ==> regions[k].id == k)
      && Dense(parameterSets, parameterSetIdCounter) && (forall k :: k in parameterSets ==> parameterSets[k].id == k)
      && Dense(scenarios, scenarioIdCounter) && (forall k :: k in scenarios ==> scenarios[k].id == k)
    }

    /** Four empty tables with every counter at 1, then the sample regions under ids 1 to 4. */
    constructor()
      ensures Valid()
      ensures users == map[] && parameterSets == map[] && scenarios == map[]
      ensures userIdCounter == 1 && parameterSetIdCounter == 1 && scenarioIdCounter == 1
      ensures regionIdCounter == |SampleRegions| + 1
      ensures forall i :: 0 <= i < |SampleRegions| ==> regions[i + 1] == RegionOf(SampleRegions[i], i + 1)
    {
      users := map[];
      regions := map[];
      parameterSets := map[];
      scenarios := map[];
      userIdCounter := 1;
      regionIdCounter := 1;
      parameterSetIdCounter := 1;
      scenarioIdCounter := 1;
      new;
      InitializeSampleData();
    }

    // User operations

    /** `users.get(id)`: the user stored under `id`, present exactly for the ids handed out. */
    function GetUser(id: int): (r: Option<User>)
      reads this
      requires Valid()
      ensures r.Some? <==> 1 <= id < userIdCounter
      ensures r.Some? ==> r.value == users[id] && r.value.id == id
    {
      if id in users then Some(users[id]) else None
    }

    /** The earliest-inserted user with that username, or None. */
    function GetUserByUsername(username: string): (r: Option<User>)
      reads this
      requires Valid()
      ensures r.None? <==> forall k :: k in users ==> users[k].username != username
      ensures r.Some? ==> r.value.id in users && users[r.value.id] == r.value && r.value.username == username
      ensures r.Some? ==> forall k :: k in users && k < r.value.id ==> users[k].username != username
    {
      match FirstId(users, userIdCounter, (u: User) => u.username == username)
      case Some(id) => Some(users[id])
      case None => None
    }

    /** Stores the user under the next id; usernames are not checked for uniqueness. */
    method CreateUser(insertUser: InsertUser) returns (user: User)
      requires Valid()
      modifies this
      ensures Valid()
      ensures user == User(old(userIdCounter), insertUser.username, insertUser.password)
      ensures userIdCounter == old(userIdCounter) + 1
      ensures users == old(users)[user.id := user]
      ensures forall k :: k in old(users) ==> k < user.id
      ensures GetUser(user.id) == Some(user)
      ensures regions == old(regions) && parameterSets == old(parameterSets) && scenarios == old(scenarios)
      ensures regionIdCounter == old(regionIdCounter) && parameterSetIdCounter == old(parameterSetIdCounter)
      ensures scenarioIdCounter == old(scenarioIdCounter)
    {
      var id := userIdCounter;
      userIdCounter := userIdCounter + 1;
      user := User(id, insertUser.username, insertUser.password);
      users := users[id := user];
    }

    // Region operations

    /** Every region in insertion order: the region with id i + 1 at position i. */
    function GetAllRegions(): (r: seq<Region>)
      reads this
      requires Valid()
      ensures |r| == regionIdCounter - 1
      ensures forall i :: 0 <= i < |r| ==> r[i] == regions[i + 1] && r[i].id == i + 1
    {
      Rows(regions, regionIdCounter)
    }

    /** The earliest-inserted region with that identifier, or None. */
    function GetRegionByIdentifier(identifier: string): (r: Option<Region>)
      reads this
      requires Valid()
      ensures r.None? <==> forall k :: k in regions ==> regions[k].identifier != identifier
      ensures r.Some? ==> r.value.id in regions && regions[r.value.id] == r.value && r.value.identifier == identifier
      ensures r.Some? ==> forall k :: k in regions && k < r.value.id ==> regions[k].identifier != identifier
    {
      match FirstId(regions, regionIdCounter, (g: Region) => g.identifier == identifier)
      case Some(id) => Some(regions[id])
      case None => None
    }

    /** Stores the region under the next id; a repeated identifier is stored like any other. */
    method CreateRegion(insertRegion: InsertRegion) returns (region: Region)
      requires Valid()
      modifies this
      ensures Valid()
      ensures region == RegionOf(insertRegion, old(regionIdCounter))
      ensures regionIdCounter == old(regionIdCounter) + 1
      ensures regions == old(regions)[region.id := region]
      ensures GetAllRegions() == old(GetAllRegions()) + [region]
      ensures users == old(users) && parameterSets == old(parameterSets) && scenarios == old(scenarios)
      ensures userIdCounter == old(userIdCounter) && parameterSetIdCounter == old(parameterSetIdCounter)
      ensures scenarioIdCounter == old(scenarioIdCounter)
    {
      var id := regionIdCounter;
      RowsExtend(regions, id, RegionOf(insertRegion, id));
      regionIdCounter := regionIdCounter + 1;
      region := RegionOf(insertRegion, id);
      regions := regions[id := region];
    }

    // Parameter set operations

    /** `parameterSets.get(id)`: present exactly for the ids handed out. */
    function GetParameterSet(id: int): (r: Option<ParameterSet>)
      reads this
      requires Valid()
      ensures r.Some? <==> 1 <= id < parameterSetIdCounter
      ensures r.Some? ==> r.value == parameterSets[id] && r.value.id == id
    {
      if id in parameterSets then Some(parameterSets[id]) else None
    }

    /** Exactly the stored parameter sets of that user, in insertion order; a set with no user is nobody's. */
    function GetParameterSetsByUserId(userId: int): (r: seq<ParameterSet>)
      reads this
      requires Valid()
      ensures forall s :: s in r <==> s.id in parameterSets && parameterSets[s.id] == s && s.userId == Some(userId)
      ensures forall i, j :: 0 <= i < j < |r| ==> r[i].id < r[j].id
    {
      var key := (s: ParameterSet) => s.id;
      RowsByKey(parameterSets, parameterSetIdCounter, key);
      FilterKeepsOrder(Rows(parameterSets, parameterSetIdCounter), (s: ParameterSet) => s.userId == Some(userId), key);
      Filter(Rows(parameterSets, parameterSetIdCounter), (s: ParameterSet) => s.userId == Some(userId))
    }

    /** Stores the parameter set under the next id. */
    method CreateParameterSet(insertParameterSet: InsertParameterSet) returns (parameterSet: ParameterSet)
      requires Valid()
      modifies this
      ensures Valid()
      ensures parameterSet == ParameterSet(old(parameterSetIdCounter), insertParameterSet.name, insertParameterSet.userId,
                                           insertParameterSet.parameters, insertParameterSet.createdAt)
      ensures parameterSetIdCounter == old(parameterSetIdCounter) + 1
      ensures parameterSets == old(parameterSets)[parameterSet.id := parameterSet]
      ensures forall k :: k in old(parameterSets) ==> k < parameterSet.id
      ensures GetParameterSet(parameterSet.id) == Some(parameterSet)
      ensures users == old(users) && regions == old(regions) && scenarios == old(scenarios)
      ensures userIdCounter == old(userIdCounter) && regionIdCounter == old(regionIdCounter)
      ensures scenarioIdCounter == old(scenarioIdCounter)
    {
      var id := parameterSetIdCounter;
      parameterSetIdCounter := parameterSetIdCounter + 1;
      parameterSet := ParameterSet(id, insertParameterSet.name, insertParameterSet.userId,
                                   insertParameterSet.parameters, insertParameterSet.createdAt);
      parameterSets := parameterSets[id := parameterSet];
    }

    // Scenario operations

    /** `scenarios.get(id)`: present exactly for the ids handed out. */
    function GetScenario(id: int): (r: Option<Scenario>)
      reads this
      requires Valid()
      ensures r.Some? <==> 1 <= id < scenarioIdCounter
      ensures r.Some? ==> r.value == scenarios[id] && r.value.id == id
    {
      if id in scenarios then Some(scenarios[id]) else None
    }

    /** Exactly the stored scenarios of that user, in insertion order; a scenario with no user is nobody's. */
    function GetScenariosByUserId(userId: int): (r: seq<Scenario>)
      reads this
      requires Valid()
      ensures forall s :: s in r <==> s.id in scenarios && scenarios[s.id] == s && s.userId == Some(userId)
      ensures forall i, j :: 0 <= i < j < |r| ==> r[i].id < r[j].id
    {
      var key := (s: Scenario) => s.id;
      RowsByKey(scenarios, scenarioIdCounter, key);
      FilterKeepsOrder(Rows(scenarios, scenarioIdCounter), (s: Scenario) => s.userId == Some(userId), key);
      Filter(Rows(scenarios, scenarioIdCounter), (s: Scenario) => s.userId == Some(userId))
    }

    /** Stores the scenario under the next id. */
    method CreateScenario(insertScenario: InsertScenario) returns (scenario: Scenario)
      requires Valid()
      modifies this
      ensures Valid()
      ensures scenario == Scenario(old(scenarioIdCounter), insertScenario.name, insertScenario.userId,
                                   insertScenario.regionIdentifier, insertScenario.parameters,
                                   insertScenario.interventions, insertScenario.createdAt)
      ensures scenarioIdCounter == old(scenarioIdCounter) + 1
      ensures scenarios == old(scenarios)[scenario.id := scenario]
      ensures forall k :: k in old(scenarios) ==> k < scenario.id
      ensures GetScenario(scenario.id) == Some(scenario)
      ensures users == old(users) && regions == old(regions) && parameterSets == old(parameterSets)
      ensures userIdCounter == old(userIdCounter) && regionIdCounter == old(regionIdCounter)
      ensures parameterSetIdCounter == old(parameterSetIdCounter)
    {
      var id := scenarioIdCounter;
      scenarioIdCounter := scenarioIdCounter + 1;
      scenario := Scenario(id, insertScenario.name, insertScenario.userId, insertScenario.regionIdentifier,
                           insertScenario.parameters, insertScenario.interventions, insertScenario.createdAt);
      scenarios := scenarios[id := scenario];
    }

    // Seeding

    /** `initializeSampleData`: `createRegion` for each sample region in order. */
    method InitializeSampleData()
      requires Valid()
      modifies this
      ensures Valid()
      ensures regionIdCounter == old(regionIdCounter) + |SampleRegions|
      ensures forall k :: k in old(regions) ==> regions[k] == old(regions)[k]
      ensures forall i :: 0 <= i < |SampleRegions| ==>
        regions[old(regionIdCounter) + i] == RegionOf(SampleRegions[i], old(regionIdCounter) + i)
      ensures users == old(users) && parameterSets == old(parameterSets) && scenarios == old(scenarios)
      ensures userIdCounter == old(userIdCounter) && parameterSetIdCounter == old(parameterSetIdCounter)
      ensures scenarioIdCounter == old(scenarioIdCounter)
    {
      var i := 0;
      while i < |SampleRegions|
        invariant 0 <= i <= |SampleRegions|
        invariant Valid()
        invariant regionIdCounter == old(regionIdCounter) + i
        invariant forall k :: k in old(regions) ==> regions[k] == old(regions)[k]
        invariant forall j :: 0 <= j < i ==> regions[old(regionIdCounter) + j] == RegionOf(SampleRegions[j], old(regionIdCounter) + j)
        invariant users == old(users) && parameterSets == old(parameterSets) && scenarios == old(scenarios)
        invariant userIdCounter == old(userIdCounter) && parameterSetIdCounter == old(parameterSetIdCounter)
        invariant scenarioIdCounter == old(scenarioIdCounter)
      {
        var region := CreateRegion(SampleRegions[i]);
        i := i + 1;
      }
    }
  }
}
