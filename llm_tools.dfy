/** Tool discovery over the host's LLM API (`llm_tools.py`).

    The host's tools are `HostTool` values; the host API itself is reached
    through parameters: whether `llm.async_get_api` succeeds, and what
    `async_get_tools` returns (a list, or an error). */
module LlmTools {
  import opened Wrappers
  import opened JsonValue
  import opened LlmBase

  /** A host `llm.Tool`. `domain` is `None` when the tool has no `domain`
      attribute; `readable` is false for a tool whose attributes raise when
      read. */
  datatype HostTool = HostTool(
    name: string,
    description: Option<string>,
    parameters: Json,
    domain: Option<string>,
    readable: bool)

  /** `{"type": "object", "properties": {}, "required": []}` */
  const EmptyParameters: Json :=
    Obj([("type", Str("object")), ("properties", Obj([])), ("required", Arr([]))])

  /** `QUERY_TOOLS_DEFINITION` */
  const QueryToolsDefinition: ToolSchema := ToolSchema(
    "query_tools",
    "Query for available Home Assistant tools and services. Use this when you need to interact with Home Assistant devices, retrieve state information, or control smart home features. You can optionally filter by domain to get specific tool categories.",
    Obj([
      ("type", Str("object")),
      ("properties", Obj([
        ("domain", Obj([
          ("type", Str("string")),
          ("description", Str("Optional: Filter tools by domain (e.g., 'light', 'climate', 'switch', 'sensor'). If not specified, returns all available tools."))]))])),
      ("required", Arr([]))]))

  /** `_convert_tool_to_openai_format` */
  function ConvertTool(t: HostTool): (r: Option<ToolSchema>)
    ensures r.None? <==> !t.readable
    ensures r.Some? ==> r.value.name == t.name
    ensures r.Some? ==>
      r.value.description == (if t.description.Some? && t.description.value != [] then t.description.value else "Execute " + t.name)
    ensures r.Some? ==> r.value.parameters == if Truthy(t.parameters) then t.parameters else EmptyParameters
  {
    if !t.readable then None
    else
      var description := if t.description.Some? && t.description.value != [] then t.description.value else "Execute " + t.name;
      var parameters := if Truthy(t.parameters) then t.parameters else EmptyParameters;
      Some(ToolSchema(t.name, description, parameters))
  }

  /** The domain filter: with a non-empty domain, a tool is skipped only when
      it has a `domain` attribute that differs. */
  predicate Skipped(domain: Option<string>, t: HostTool) {
    domain.Some? && domain.value != [] && t.domain.Some? && t.domain.value != domain.value
  }

  /** What the loop of `query_tools` keeps, in order. */
  function Formatted(domain: Option<string>, tools: seq<HostTool>): seq<ToolSchema>
    decreases |tools|
  {
    if tools == [] then []
    else
      var n := |tools| - 1;
      var kept := Formatted(domain, tools[..n]);
      if Skipped(domain, tools[n]) || ConvertTool(tools[n]).None? then kept
      else kept + [ConvertTool(tools[n]).value]
  }

  /** Every kept schema is the conversion of a host tool that passed the
      filter, and every readable tool that passes it is kept: one whose
      `domain` equals the filter, one without a `domain` attribute, and any
      tool when no domain is given. */
  lemma {:induction false} FormattedSound(domain: Option<string>, tools: seq<HostTool>)
    ensures |Formatted(domain, tools)| <= |tools|
    ensures forall s :: s in Formatted(domain, tools) ==>
      exists t :: t in tools && !Skipped(domain, t) && ConvertTool(t) == Some(s)
    ensures forall t :: t in tools && t.readable && !Skipped(domain, t) ==> ConvertTool(t).value in Formatted(domain, tools)
    ensures forall t :: t in tools && t.domain.None? && t.readable ==> ConvertTool(t).value in Formatted(domain, tools)
    ensures domain.None? || domain.value == [] ==>
      forall t :: t in tools && t.readable ==> ConvertTool(t).value in Formatted(domain, tools)
    decreases |tools|
  {
    if tools != [] {
      var n := |tools| - 1;
      FormattedSound(domain, tools[..n]);
      assert tools == tools[..n] + [tools[n]];
      forall s | s in Formatted(domain, tools)
        ensures exists t :: t in tools && !Skipped(domain, t) && ConvertTool(t) == Some(s)
      {
        if s in Formatted(domain, tools[..n]) {
          var t :| t in tools[..n] && !Skipped(domain, t) && ConvertTool(t) == Some(s);
          assert t in tools;
        } else {
          assert ConvertTool(tools[n]) == Some(s);
        }
      }
    }
  }

  /** `LLMToolManager`: holds the lazily obtained host API handle. */
  class LLMToolManager {
    var apiReady: bool

    constructor ()
      ensures !apiReady
    {
      apiReady := false;
    }

    /** `get_llm_api`: obtains the handle once; a failure is re-raised. */
    method GetLlmApi(apiAvailable: bool) returns (ok: bool)
      modifies this
      ensures ok <==> old(apiReady) || apiAvailable
      ensures apiReady == ok
    {
      if !apiReady {
        if !apiAvailable {
          return false;
        }
        apiReady := true;
      }
      return true;
    }

    /** `query_tools`: the converted host tools that pass the domain filter;
        any error gives `[]`. */
    method QueryTools(domain: Option<string>, apiAvailable: bool, hostTools: Result<seq<HostTool>, string>)
      returns (formatted: seq<ToolSchema>)
      modifies this
      ensures apiReady <==> old(apiReady) || apiAvailable
      ensures formatted == if apiReady && hostTools.Success? then Formatted(domain, hostTools.value) else []
    {
      var ok := GetLlmApi(apiAvailable);
      if !ok || hostTools.Failure? {
        return [];
      }
      var tools := hostTools.value;
      formatted := [];
      var i := 0;
      while i < |tools|
        invariant 0 <= i <= |tools|
        invariant formatted == Formatted(domain, tools[..i])
      {
        assert tools[..i + 1][..i] == tools[..i];
        if !Skipped(domain, tools[i]) {
          var formattedTool := ConvertTool(tools[i]);
          if formattedTool.Some? {
            formatted := formatted + [formattedTool.value];
          }
        }
        i := i + 1;
      }
      assert tools[..i] == tools;
    }

    /** `execute_tool`: the first host tool with the name is called; an
        unknown name and any error become failure objects. `call` is the
        host's `tool.async_call`. */
    method ExecuteTool(name: string, arguments: Json, apiAvailable: bool,
                       hostTools: Result<seq<HostTool>, string>,
                       call: (HostTool, Json) -> Result<Json, string>)
      returns (result: Json)
      modifies this
      ensures apiReady <==> old(apiReady) || apiAvailable
      ensures result == ExecuteResult(name, arguments, apiReady, hostTools, call)
    {
      var ok := GetLlmApi(apiAvailable);
      if !ok {
        return Failed("LLM API unavailable");
      }
      if hostTools.Failure? {
        return Failed(hostTools.error);
      }
      var tool := FindTool(hostTools.value, name);
      if tool.None? {
        return Failed("Tool '" + name + "' not found");
      }
      var r := call(tool.value, arguments);
      if r.Failure? {
        return Failed(r.error);
      }
      return Obj([("success", Bool(true)), ("result", r.value)]);
    }

    /** `get_initial_tools` */
    method GetInitialTools() returns (tools: seq<ToolSchema>)
      ensures tools == [QueryToolsDefinition]
      ensures Names(tools) == ["query_tools"]
    {
      tools := [QueryToolsDefinition];
    }
  }

  /** `{"success": False, "error": message}` */
  function Failed(message: string): Json {
    Obj([("success", Bool(false)), ("error", Str(message))])
  }

  /** `next((t for t in tools if t.name == name), None)` */
  function FindTool(tools: seq<HostTool>, name: string): (r: Option<HostTool>)
    ensures r.Some? ==> r.value in tools && r.value.name == name
    ensures r.None? <==> forall t :: t in tools ==> t.name != name
    ensures r.Some? ==>
      (exists i :: 0 <= i < |tools| && tools[i] == r.value && forall j :: 0 <= j < i ==> tools[j].name != name)
    decreases |tools|
  {
    if tools == [] then None
    else if tools[0].name == name then Some(tools[0])
    else
      var r := FindTool(tools[1..], name);
      assert forall t :: t in tools[1..] ==> t in tools;
      if r.Some? then
        var i :| 0 <= i < |tools[1..]| && tools[1..][i] == r.value && forall j :: 0 <= j < i ==> tools[1..][j].name != name;
        assert tools[i + 1] == r.value;
        r
      else r
  }

  /** The outcome of `execute_tool`. The error text of a failed API lookup
      is not modelled and is fixed here. */
  function ExecuteResult(name: string, arguments: Json, apiReady: bool,
                         hostTools: Result<seq<HostTool>, string>,
                         call: (HostTool, Json) -> Result<Json, string>): Json
  {
    if !apiReady then Failed("LLM API unavailable")
    else if hostTools.Failure? then Failed(hostTools.error)
    else match FindTool(hostTools.value, name)
      case None => Failed("Tool '" + name + "' not found")
      case Some(t) =>
        match call(t, arguments)
        case Failure(e) => Failed(e)
        case Success(v) => Obj([("success", Bool(true)), ("result", v)])
  }

  /** `execute_tool` always answers with a `success` flag: true exactly when
      a tool with the name exists and its call returned. */
  lemma ExecuteResultShape(name: string, arguments: Json, apiReady: bool,
                           hostTools: Result<seq<HostTool>, string>,
                           call: (HostTool, Json) -> Result<Json, string>)
    ensures var r := ExecuteResult(name, arguments, apiReady, hostTools, call);
      r.Obj? && |r.fields| == 2 && r.fields[0].0 == "success" &&
      (r.fields[0].1 == Bool(true) <==>
        apiReady && hostTools.Success? && FindTool(hostTools.value, name).Some? &&
        call(FindTool(hostTools.value, name).value, arguments).Success?)
    ensures apiReady && hostTools.Success? && (forall t :: t in hostTools.value ==> t.name != name) ==>
      ExecuteResult(name, arguments, apiReady, hostTools, call) == Failed("Tool '" + name + "' not found")
  {
  }
}
