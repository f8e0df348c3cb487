/** The Home Assistant client (`ha_client/client.py`): tool dispatch by
    name, entity search, area lookup, the data of a service call, and the
    brightness conversion.

    The host is reached through values: its states, in the order
    `async_all` lists them, its areas and its entity registry. Running a
    handler is a parameter. */
module HaClient {
  import opened Wrappers
  import opened Text
  import opened PyDict
  import opened JsonValue
  import HaTools

  /** A host state object. `friendlyName` is `None` when the attribute is
      absent. */
  datatype EntityState = EntityState(entityId: string, friendlyName: Option<string>, state: string)

  datatype Area = Area(id: string, name: string)

  /** An entity registry entry; `areaId` is `None` when it has no area. */
  datatype RegistryEntry = RegistryEntry(entityId: string, areaId: Option<string>)

  // ---------------------------------------------------------------------
  // Dispatch

  /** The tools with a `_tool_<name>` handler. */
  const HandlerNames: seq<string> := [
    "get_entity_state", "call_service", "search_entities", "get_area_entities", "list_areas",
    "set_light_brightness", "set_light_color", "set_temperature", "set_hvac_mode"]

  /** `execute_tool`: an unknown name gives an error object; otherwise the
      handler's result is wrapped, and anything it raises becomes the
      error. `run` stands for calling the handler with the arguments. */
  function ExecuteTool(toolName: string, arguments: Json, run: (string, Json) -> Result<Json, string>): (r: Json)
    ensures r.Obj? && |r.fields| == 2 && r.fields[0].0 == "success"
    ensures r.fields[0].1 == Bool(true) <==> toolName in HandlerNames && run(toolName, arguments).Success?
    ensures toolName !in HandlerNames ==> r.fields[1] == ("error", Str("Unknown tool: " + toolName))
    ensures toolName in HandlerNames && run(toolName, arguments).Success? ==>
      r.fields[1] == ("result", run(toolName, arguments).value)
    ensures toolName in HandlerNames && run(toolName, arguments).Failure? ==>
      r.fields[1] == ("error", Str(run(toolName, arguments).error))
  {
    if toolName !in HandlerNames then Obj([("success", Bool(false)), ("error", Str("Unknown tool: " + toolName))])
    else
      match run(toolName, arguments)
      case Success(result) => Obj([("success", Bool(true)), ("result", result)])
      case Failure(err) => Obj([("success", Bool(false)), ("error", Str(err))])
  }

  /** Every tool the client offers has a handler. */
  lemma OfferedToolsHaveHandlers(includeExtended: Option<seq<string>>)
    ensures forall t :: t in HaTools.GetTools(includeExtended) ==> t.name in HandlerNames
  {
    CoreToolsHaveHandlers();
    LightToolsHaveHandlers();
    ClimateToolsHaveHandlers();
  }

  lemma CoreToolsHaveHandlers()
    ensures forall t :: t in HaTools.CoreTools ==> t.name in HandlerNames
  {
    forall t | t in HaTools.CoreTools
      ensures t.name in HandlerNames
    {
      var i :| 0 <= i < 5 && HaTools.CoreTools[i] == t;
      assert HandlerNames[i] == t.name;
    }
  }

  lemma LightToolsHaveHandlers()
    ensures forall t :: t in HaTools.LightTools ==> t.name in HandlerNames
  {
    forall t | t in HaTools.LightTools
      ensures t.name in HandlerNames
    {
      var i :| 0 <= i < 2 && HaTools.LightTools[i] == t;
      assert HandlerNames[5 + i] == t.name;
    }
  }

  lemma ClimateToolsHaveHandlers()
    ensures forall t :: t in HaTools.ClimateTools ==> t.name in HandlerNames
  {
    forall t | t in HaTools.ClimateTools
      ensures t.name in HandlerNames
    {
      var i :| 0 <= i < 2 && HaTools.ClimateTools[i] == t;
      assert HandlerNames[7 + i] == t.name;
    }
  }

  // ---------------------------------------------------------------------
  // Entity search

  /** The text before the first `.` of an entity id. */
  function DomainOf(entityId: string): string {
    Text.Before(entityId, ".")
  }

  /** An entry of a search or area answer. */
  function EntityInfo(s: EntityState): Json {
    Obj([("entity_id", Str(s.entityId)),
         ("friendly_name", if s.friendlyName.Some? then Str(s.friendlyName.value) else Null),
         ("state", Str(s.state)),
         ("domain", Str(DomainOf(s.entityId)))])
  }

  /** The domain filter: with a truthy domain, only ids starting with
      `"<domain>."` are looked at. */
  predicate InDomain(domain: Option<string>, entityId: string) {
    !Given(domain) || StartsWith(entityId, domain.value + ".")
  }

  /** The query, lower-cased, is part of the lower-cased id or friendly
      name. */
  predicate MatchesQuery(query: string, s: EntityState) {
    Contains(Lower(s.entityId), Lower(query)) || Contains(Lower(s.friendlyName.GetOr("")), Lower(query))
  }

  /** What the search loop makes of one state. */
  datatype Seen = Skipped | Missed | Found(info: Json)

  function Classify(query: string, domain: Option<string>, s: EntityState): Seen {
    if !InDomain(domain, s.entityId) then Skipped
    else if MatchesQuery(query, s) then Found(EntityInfo(s))
    else Missed
  }

  function ClassifyAll(query: string, domain: Option<string>, states: seq<EntityState>): (r: seq<Seen>)
    ensures |r| == |states| && forall i :: 0 <= i < |states| ==> r[i] == Classify(query, domain, states[i])
  {
    seq(|states|, i requires 0 <= i < |states| => Classify(query, domain, states[i]))
  }

  /** The loop of `_tool_search_entities` from `seen` on, with `results`
      found so far: a skipped state is passed over; after any other the
      loop stops as soon as `limit` results are held. */
  function Scan(limit: int, seen: seq<Seen>, results: seq<Json>): seq<Json>
    decreases |seen|
  {
    if seen == [] then results
    else if seen[0].Skipped? then Scan(limit, seen[1..], results)
    else
      var more := results + if seen[0].Found? then [seen[0].info] else [];
      if |more| >= limit then more else Scan(limit, seen[1..], more)
  }

  /** Every match, in order, with no limit. */
  function AllFound(seen: seq<Seen>): (r: seq<Json>)
    ensures |r| <= |seen|
    ensures forall j :: j in r ==> Found(j) in seen
    decreases |seen|
  {
    if seen == [] then []
    else
      var rest := AllFound(seen[1..]);
      assert forall x :: x in seen[1..] ==> x in seen;
      (if seen[0].Found? then [seen[0].info] else []) + rest
  }

  function Min(a: int, b: int): int {
    if a <= b then a else b
  }

  /** The first `k` of `[x] + rest`, for a positive `k`. */
  lemma TakeCons<T>(x: T, rest: seq<T>, k: int)
    requires 1 <= k
    ensures ([x] + rest)[..Min(k, |rest| + 1)] == [x] + rest[..Min(k - 1, |rest|)]
  {
  }

  /** With a positive limit, the scan gives the first `limit` matches. */
  lemma {:induction false} ScanTakesFound(limit: int, seen: seq<Seen>, results: seq<Json>)
    requires |results| < limit
    ensures Scan(limit, seen, results) == results + AllFound(seen)[..Min(limit - |results|, |AllFound(seen)|)]
    decreases |seen|
  {
    if seen == [] {
      assert results + [] == results;
    } else {
      var rest := AllFound(seen[1..]);
      if !seen[0].Found? {
        assert AllFound(seen) == [] + rest;
        assert results + [] == results;
        ScanTakesFound(limit, seen[1..], results);
      } else {
        var x := seen[0].info;
        var more := results + [x];
        assert AllFound(seen) == [x] + rest;
        TakeCons(x, rest, limit - |results|);
        if |more| < limit {
          ScanTakesFound(limit, seen[1..], more);
        } else {
          assert rest[..Min(limit - |results| - 1, |rest|)] == [];
        }
      }
    }
  }

  /** With a limit of zero or less the scan still looks at the first state
      not skipped, so it can return one result. */
  lemma ScanWithoutLimit(limit: int, seen: seq<Seen>)
    requires limit <= 0
    ensures |Scan(limit, seen, [])| <= 1
    ensures seen != [] && seen[0].Found? ==> Scan(limit, seen, []) == [seen[0].info]
  {
    var i := 0;
    while i < |seen| && seen[i].Skipped?
      invariant 0 <= i <= |seen|
      invariant Scan(limit, seen[i..], []) == Scan(limit, seen, [])
    {
      assert seen[i..][1..] == seen[i + 1..];
      i := i + 1;
    }
    if i < |seen| {
      assert seen[i..][0] == seen[i];
    }
  }

  /** Every result of a scan was found before or is a match. */
  lemma {:induction false} ScanResultsFound(limit: int, seen: seq<Seen>, results: seq<Json>)
    ensures forall r :: r in Scan(limit, seen, results) ==> r in results || Found(r) in seen
    decreases |seen|
  {
    if seen != [] {
      var more := results + if seen[0].Found? then [seen[0].info] else [];
      ScanResultsFound(limit, seen[1..], results);
      ScanResultsFound(limit, seen[1..], more);
      forall r | r in Scan(limit, seen, results)
        ensures r in results || Found(r) in seen
      {
        if r !in results && r !in more {
          assert Found(r) in seen[1..];
        }
      }
    }
  }

  /** `_tool_search_entities` over the host's states. */
  method SearchEntities(query: string, domain: Option<string>, limit: int, states: seq<EntityState>)
    returns (results: seq<Json>)
    ensures results == Scan(limit, ClassifyAll(query, domain, states), [])
    ensures limit >= 1 ==>
      var all := AllFound(ClassifyAll(query, domain, states));
      results == all[..Min(limit, |all|)]
    ensures limit >= 1 ==> |results| <= limit
    ensures limit < 1 ==> |results| <= 1
    ensures forall r :: r in results ==>
      exists s :: s in states && InDomain(domain, s.entityId) && MatchesQuery(query, s) && r == EntityInfo(s)
  {
    results := ScanStates(query, domain, limit, states);
    SearchResults(query, domain, limit, states);
  }

  /** The loop of `_tool_search_entities`: `Classify` applies the domain
      filter and then the query match to each state, as the loop does. */
  method ScanStates(query: string, domain: Option<string>, limit: int, states: seq<EntityState>)
    returns (results: seq<Json>)
    ensures results == Scan(limit, ClassifyAll(query, domain, states), [])
  {
    ghost var seen := ClassifyAll(query, domain, states);
    results := [];
    var i := 0;
    while i < |states|
      invariant 0 <= i <= |states|
      invariant Scan(limit, seen[i..], results) == Scan(limit, seen, [])
    {
      var c := Classify(query, domain, states[i]);
      assert c == seen[i];
      ScanAt(limit, seen, i, results);
      if c.Skipped? {
        assert Scan(limit, seen[i + 1..], results) == Scan(limit, seen, []);
        i := i + 1;
        continue;
      }
      ghost var before := results;
      if c.Found? {
        results := results + [c.info];
      }
      assert results == before + if c.Found? then [c.info] else [];
      if |results| >= limit {
        assert results == Scan(limit, seen, []);
        break;
      }
      assert Scan(limit, seen[i + 1..], results) == Scan(limit, seen, []);
      i := i + 1;
    }
  }

  /** The scan from position `i` looks at `seen[i]` first. */
  lemma ScanAt(limit: int, seen: seq<Seen>, i: nat, results: seq<Json>)
    requires i < |seen|
    ensures Scan(limit, seen[i..], results) ==
      if seen[i].Skipped? then Scan(limit, seen[i + 1..], results)
      else
        var more := results + if seen[i].Found? then [seen[i].info] else [];
        if |more| >= limit then more else Scan(limit, seen[i + 1..], more)
  {
    assert seen[i..][1..] == seen[i + 1..];
  }

  /** What the scan of the host's states returns: the first `limit`
      matches, or at most one for a limit below 1, each the info of a
      matching state in the domain. */
  lemma SearchResults(query: string, domain: Option<string>, limit: int, states: seq<EntityState>)
    ensures limit >= 1 ==>
      var all := AllFound(ClassifyAll(query, domain, states));
      Scan(limit, ClassifyAll(query, domain, states), []) == all[..Min(limit, |all|)]
    ensures limit >= 1 ==> |Scan(limit, ClassifyAll(query, domain, states), [])| <= limit
    ensures limit < 1 ==> |Scan(limit, ClassifyAll(query, domain, states), [])| <= 1
    ensures forall r :: r in Scan(limit, ClassifyAll(query, domain, states), []) ==>
      exists s :: s in states && InDomain(domain, s.entityId) && MatchesQuery(query, s) && r == EntityInfo(s)
  {
    var seen := ClassifyAll(query, domain, states);
    if limit >= 1 {
      ScanTakesFound(limit, seen, []);
    } else {
      ScanWithoutLimit(limit, seen);
    }
    ScanResultsFound(limit, seen, []);
    forall r | r in Scan(limit, seen, [])
      ensures exists s :: s in states && InDomain(domain, s.entityId) && MatchesQuery(query, s) && r == EntityInfo(s)
    {
      var k :| 0 <= k < |seen| && seen[k] == Found(r);
      assert states[k] in states;
    }
  }

  // ---------------------------------------------------------------------
  // Areas

  /** The first area whose name equals `areaName`, ignoring case. */
  function FindArea(areas: seq<Area>, areaName: string): (r: Option<Area>)
    ensures r.Some? ==> r.value in areas && Lower(r.value.name) == Lower(areaName)
    ensures r.None? <==> forall a :: a in areas ==> Lower(a.name) != Lower(areaName)
    decreases |areas|
  {
    if areas == [] then None
    else if Lower(areas[0].name) == Lower(areaName) then Some(areas[0])
    else
      var r := FindArea(areas[1..], areaName);
      assert forall a :: a in areas[1..] ==> a in areas;
      r
  }

  /** The state object of an entity, if the host has one. */
  function StateOf(states: seq<EntityState>, entityId: string): (r: Option<EntityState>)
    ensures r.Some? ==> r.value in states && r.value.entityId == entityId
    decreases |states|
  {
    if states == [] then None
    else if states[0].entityId == entityId then Some(states[0])
    else StateOf(states[1..], entityId)
  }

  /** The registry entries of the area, in the domain, with a state. */
  function AreaEntities(areaId: string, domain: Option<string>, entries: seq<RegistryEntry>,
                        states: seq<EntityState>): (r: seq<Json>)
    ensures |r| <= |entries|
    ensures forall j :: j in r ==>
      exists e :: e in entries && e.areaId == Some(areaId) && InDomain(domain, e.entityId) &&
        StateOf(states, e.entityId).Some? && j == EntityInfo(StateOf(states, e.entityId).value)
    decreases |entries|
  {
    if entries == [] then []
    else
      var e := entries[0];
      var rest := AreaEntities(areaId, domain, entries[1..], states);
      assert forall x :: x in entries[1..] ==> x in entries;
      if e.areaId == Some(areaId) && InDomain(domain, e.entityId) && StateOf(states, e.entityId).Some? then
        [EntityInfo(StateOf(states, e.entityId).value)] + rest
      else rest
  }

  /** `_tool_get_area_entities`: an unknown area gives an error object. */
  function GetAreaEntities(areaName: string, domain: Option<string>, areas: seq<Area>,
                           entries: seq<RegistryEntry>, states: seq<EntityState>): (r: Json)
    ensures FindArea(areas, areaName).None? <==> r.Obj?
    ensures r.Obj? ==> r == Obj([("error", Str("Area '" + areaName + "' not found"))])
    ensures r.Arr? ==> r.items == AreaEntities(FindArea(areas, areaName).value.id, domain, entries, states)
  {
    match FindArea(areas, areaName)
    case None => Obj([("error", Str("Area '" + areaName + "' not found"))])
    case Some(area) => Arr(AreaEntities(area.id, domain, entries, states))
  }

  // ---------------------------------------------------------------------
  // Service calls and brightness

  /** The `service_data` of `_tool_call_service`: `{"entity_id": ...}`
      updated with `data` when it is not empty. */
  function ServiceData(entityId: string, data: Dict<Json>): (r: Dict<Json>)
    ensures data == [] ==> r == [("entity_id", Str(entityId))]
  {
    if data != [] then Update([("entity_id", Str(entityId))], data) else [("entity_id", Str(entityId))]
  }

  /** A key of `data` wins, `entity_id` included; every other key is
      absent. */
  lemma ServiceDataLookup(entityId: string, data: Dict<Json>, k: string)
    requires DistinctKeys(data)
    ensures Get(ServiceData(entityId, data), k) ==
      if Get(data, k).Some? then Get(data, k)
      else if k == "entity_id" then Some(Str(entityId))
      else None
  {
    if data != [] {
      GetUpdate([("entity_id", Str(entityId))], data, k);
    } else {
      GetNone(data, k);
    }
  }

  /** `_tool_call_service`: the call made and the answer given. */
  function CallService(domain: string, service: string, entityId: string, data: Dict<Json>)
    : (r: (string, string, Dict<Json>, Json))
    ensures r.0 == domain && r.1 == service && r.2 == ServiceData(entityId, data)
    ensures r.3 == Obj([("called", Str(domain + "." + service)), ("entity_id", Str(entityId)), ("status", Str("success"))])
  {
    (domain, service, ServiceData(entityId, data),
     Obj([("called", Str(domain + "." + service)), ("entity_id", Str(entityId)), ("status", Str("success"))]))
  }

  /** `int(brightness_pct * 255 / 100)`: Python's `int` truncates toward
      zero. */
  function Brightness(brightnessPct: int): (r: int)
    ensures brightnessPct >= 0 ==> r * 100 <= brightnessPct * 255 < (r + 1) * 100
    ensures brightnessPct < 0 ==> (r - 1) * 100 < brightnessPct * 255 <= r * 100
  {
    if brightnessPct >= 0 then brightnessPct * 255 / 100 else -((-brightnessPct) * 255 / 100)
  }

  /** A percentage maps into `0..255`, with 0 and 100 at the ends, and a
      larger percentage never gives a dimmer light. */
  lemma BrightnessRange(pct: int, pct': int)
    requires 0 <= pct <= pct' <= 100
    ensures 0 <= Brightness(pct) <= Brightness(pct') <= 255
    ensures Brightness(0) == 0 && Brightness(100) == 255
    ensures Brightness(50) == 127
  {
  }
}
