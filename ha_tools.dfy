/** The Home Assistant tool list (`ha_client/tools.py`): five core tools,
    always offered, and two extension groups, `light` and `climate`,
    offered on request. A tool is given by its name and its required
    parameters; descriptions and property schemas are not modelled. */
module HaTools {
  import opened Wrappers

  datatype HaTool = HaTool(name: string, required: seq<string>)

  const CoreTools: seq<HaTool> := [
    HaTool("get_entity_state", ["entity_id"]),
    HaTool("call_service", ["domain", "service", "entity_id"]),
    HaTool("search_entities", ["query"]),
    HaTool("get_area_entities", ["area_name"]),
    HaTool("list_areas", [])]

  const LightTools: seq<HaTool> := [
    HaTool("set_light_brightness", ["entity_id", "brightness_pct"]),
    HaTool("set_light_color", ["entity_id", "color_name"])]

  const ClimateTools: seq<HaTool> := [
    HaTool("set_temperature", ["entity_id", "temperature"]),
    HaTool("set_hvac_mode", ["entity_id", "hvac_mode"])]

  /** `get_tools`: a fresh list holding the core tools, then the light
      tools when `"light"` is asked for, then the climate tools when
      `"climate"` is; other names are ignored. */
  function GetTools(includeExtended: Option<seq<string>>): (r: seq<HaTool>)
    ensures |r| >= |CoreTools| && r[..|CoreTools|] == CoreTools
    ensures includeExtended.None? || includeExtended.value == [] ==> r == CoreTools
    ensures forall t :: t in LightTools ==> (t in r <==> includeExtended.Some? && "light" in includeExtended.value)
    ensures forall t :: t in ClimateTools ==> (t in r <==> includeExtended.Some? && "climate" in includeExtended.value)
    ensures forall t :: t in r ==> t in CoreTools || t in LightTools || t in ClimateTools
    ensures forall i, j :: 0 <= i < j < |r| && r[i] in ClimateTools ==> r[j] in ClimateTools
  {
    var ext := if includeExtended.Some? then includeExtended.value else [];
    var light := if "light" in ext then LightTools else [];
    var climate := if "climate" in ext then ClimateTools else [];
    ToolListsDisjoint();
    var r := CoreTools + light + climate;
    assert forall i :: 0 <= i < |r| ==> r[i] == if i < 5 then CoreTools[i] else (light + climate)[i - 5];
    r
  }

  /** No tool belongs to two of the three lists. */
  lemma ToolListsDisjoint()
    ensures forall t :: t in LightTools ==> t !in CoreTools && t !in ClimateTools
    ensures forall t :: t in ClimateTools ==> t !in CoreTools
  {
    assert "search_entities"[2] != "set_light_color"[2];
    assert "search_entities"[2] != "set_temperature"[2];
    assert "set_light_color"[4] != "set_temperature"[4];
  }

  /** The names of a tool list. */
  function ToolNames(tools: seq<HaTool>): (r: seq<string>)
    ensures |r| == |tools| && forall i :: 0 <= i < |tools| ==> r[i] == tools[i].name
  {
    seq(|tools|, i requires 0 <= i < |tools| => tools[i].name)
  }

  /** No name occurs twice. */
  predicate DistinctNames(tools: seq<HaTool>) {
    forall i, j :: 0 <= i < j < |tools| ==> tools[i].name != tools[j].name
  }

  /** The names across the three lists are pairwise distinct: they differ
      in length, except three of fifteen characters that differ early. */
  lemma AllNamesDistinct()
    ensures DistinctNames(CoreTools + LightTools + ClimateTools)
  {
    var all := CoreTools + LightTools + ClimateTools;
    assert |all| == 9;
    assert |all[0].name| == 16 && |all[1].name| == 12 && |all[2].name| == 15 && |all[3].name| == 17;
    assert |all[4].name| == 10 && |all[5].name| == 20 && |all[6].name| == 15 && |all[7].name| == 15;
    assert |all[8].name| == 13;
    assert all[2].name[2] != all[6].name[2] && all[2].name[2] != all[7].name[2];
    assert all[6].name[4] != all[7].name[4];
  }

  /** No selection of tools repeats a name. */
  lemma GetToolsDistinct(includeExtended: Option<seq<string>>)
    ensures DistinctNames(CoreTools + LightTools + ClimateTools)
    ensures DistinctNames(GetTools(includeExtended))
  {
    AllNamesDistinct();
    var all := CoreTools + LightTools + ClimateTools;
    var r := GetTools(includeExtended);
    var ext := if includeExtended.Some? then includeExtended.value else [];
    var light := if "light" in ext then LightTools else [];
    var climate := if "climate" in ext then ClimateTools else [];
    assert r == CoreTools + light + climate;
    forall i, j | 0 <= i < j < |r|
      ensures r[i].name != r[j].name
    {
      var ii := if i < 5 || light != [] then i else i + 2;
      var jj := if j < 5 || light != [] then j else j + 2;
      assert r[i] == all[ii] && r[j] == all[jj];
    }
  }
}
