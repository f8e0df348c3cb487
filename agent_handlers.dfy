/** The agent's own handlers for single meta-tool calls and the conversion of
    provider tool calls into host tool inputs (`conversation.py`). */
module AgentHandlers {
  import opened Wrappers
  import opened Text
  import opened PyDict
  import opened JsonValue
  import opened LlmBase
  import opened Storage

  /** `llm.ToolInput(id, tool_name, tool_args)` */
  datatype ToolInput = ToolInput(id: string, toolName: string, toolArgs: Json)

  /** `json.loads(arguments)`, or `{}` when the text does not decode. */
  function ParsedArguments(arguments: string, decode: string -> Option<Json>): Json {
    decode(arguments).GetOr(EmptyObject)
  }

  /** The host inputs for a list of provider tool calls. */
  function ToolInputs(calls: seq<ToolCall>, decode: string -> Option<Json>): seq<ToolInput> {
    seq(|calls|, i requires 0 <= i < |calls| => ToolInput(calls[i].id, calls[i].name, ParsedArguments(calls[i].arguments, decode)))
  }

  /** `_convert_tool_calls_to_inputs`: one input per call, in order, with the
      call's id and name; undecodable arguments become `{}`. */
  method ConvertToolCallsToInputs(calls: seq<ToolCall>, decode: string -> Option<Json>)
    returns (inputs: seq<ToolInput>)
    ensures |inputs| == |calls|
    ensures forall i :: 0 <= i < |calls| ==> inputs[i].id == calls[i].id && inputs[i].toolName == calls[i].name
    ensures forall i :: 0 <= i < |calls| ==>
      inputs[i].toolArgs == (if decode(calls[i].arguments).Some? then decode(calls[i].arguments).value else EmptyObject)
    ensures inputs == ToolInputs(calls, decode)
  {
    inputs := [];
    var i := 0;
    while i < |calls|
      invariant 0 <= i <= |calls|
      invariant inputs == ToolInputs(calls[..i], decode)
    {
      var toolArgs := decode(calls[i].arguments);
      var args := if toolArgs.Some? then toolArgs.value else EmptyObject;
      inputs := inputs + [ToolInput(calls[i].id, calls[i].name, args)];
      i := i + 1;
    }
    assert calls[..i] == calls;
  }

  /** The tool list offered to the provider, extended in place by
      `query_tools`. */
  class ToolSet {
    var tools: seq<ToolSchema>

    constructor (tools: seq<ToolSchema>)
      ensures this.tools == tools
    {
      this.tools := tools;
    }
  }

  /** The queried tools whose names were not offered before, in order
      (repeats within the query itself are all kept). */
  function NewTools(found: seq<ToolSchema>, existing: seq<string>): seq<ToolSchema>
    decreases |found|
  {
    if found == [] then []
    else
      var n := |found| - 1;
      NewTools(found[..n], existing) + if found[n].name in existing then [] else [found[n]]
  }

  /** `NewTools` keeps exactly the queried tools with a new name. */
  lemma {:induction false} NewToolsMembers(found: seq<ToolSchema>, existing: seq<string>)
    ensures forall t :: t in NewTools(found, existing) <==> t in found && t.name !in existing
    ensures |NewTools(found, existing)| <= |found|
    decreases |found|
  {
    if found != [] {
      var n := |found| - 1;
      NewToolsMembers(found[..n], existing);
      assert found == found[..n] + [found[n]];
    }
  }

  const ToolsNote: string := "These tools are now available for you to use. You can call them directly."

  /** `f" for domain '{domain}'" if domain else ""` */
  function DomainSuffix(domain: Json, show: Json -> string): string {
    if Truthy(domain) then " for domain '" + Format(domain, show) + "'" else ""
  }

  /** The result `_handle_query_tools` returns for the outcome of the query. */
  function QueryToolsResult(domain: Json, found: Result<seq<ToolSchema>, string>, show: Json -> string): Json {
    match found
    case Failure(err) =>
      Obj([("success", Bool(false)), ("error", Str("Failed to query tools: " + err))])
    case Success(tools) =>
      Obj([("success", Bool(true)),
           ("result", Obj([
              ("message", Str("Found " + NatToString(|tools|) + " tools" + DomainSuffix(domain, show))),
              ("tools", Arr(seq(|tools|, i requires 0 <= i < |tools| => Str(tools[i].name)))),
              ("note", Str(ToolsNote))]))])
  }

  /** `_handle_query_tools`. `query` stands for `tool_manager.query_tools`:
      its outcome for the `domain` argument (`null` when absent). */
  method HandleQueryTools(arguments: Dict<Json>, toolSet: ToolSet,
                          query: Json -> Result<seq<ToolSchema>, string>, show: Json -> string)
    returns (result: Json)
    modifies toolSet
    ensures toolSet.tools == old(toolSet.tools) +
      (if query(Field(arguments, "domain")).Success?
       then NewTools(query(Field(arguments, "domain")).value, Names(old(toolSet.tools))) else [])
    ensures result == QueryToolsResult(Field(arguments, "domain"), query(Field(arguments, "domain")), show)
  {
    var domain := Field(arguments, "domain");
    var found := query(domain);
    if found.Failure? {
      return Obj([("success", Bool(false)), ("error", Str("Failed to query tools: " + found.error))]);
    }
    var haTools := found.value;
    var existingNames := Names(toolSet.tools);
    ghost var before := toolSet.tools;
    var i := 0;
    while i < |haTools|
      invariant 0 <= i <= |haTools|
      invariant toolSet.tools == before + NewTools(haTools[..i], existingNames)
    {
      assert haTools[..i + 1][..i] == haTools[..i];
      if haTools[i].name !in existingNames {
        toolSet.tools := toolSet.tools + [haTools[i]];
      }
      i := i + 1;
    }
    assert haTools[..i] == haTools;
    var toolNames := seq(|haTools|, k requires 0 <= k < |haTools| => Str(haTools[k].name));
    result := Obj([("success", Bool(true)),
                   ("result", Obj([
                      ("message", Str("Found " + NatToString(|haTools|) + " tools" + DomainSuffix(domain, show))),
                      ("tools", Arr(toolNames)),
                      ("note", Str(ToolsNote))]))]);
  }

  /** A query never removes or reorders an offered tool, never offers a name
      twice that was offered before, and offers every new queried tool. */
  lemma QueryToolsMerge(current: seq<ToolSchema>, found: seq<ToolSchema>)
    ensures var merged := current + NewTools(found, Names(current));
      merged[..|current|] == current &&
      (forall t :: t in merged[|current|..] ==> t.name !in Names(current) && t in found) &&
      (forall t :: t in found && t.name !in Names(current) ==> t in merged)
  {
    NewToolsMembers(found, Names(current));
    var merged := current + NewTools(found, Names(current));
    assert merged[|current|..] == NewTools(found, Names(current));
  }

  /** The query result reports the query outcome: on success the number of
      queried tools and their names, in order; on failure the error. */
  lemma QueryToolsResultReports(domain: Json, found: Result<seq<ToolSchema>, string>, show: Json -> string)
    ensures var r := QueryToolsResult(domain, found, show);
      r.Obj? && Field(r.fields, "success") == Bool(found.Success?)
    ensures found.Success? ==>
      var inner := Field(QueryToolsResult(domain, found, show).fields, "result");
      inner.Obj? &&
      Field(inner.fields, "tools").Arr? &&
      |Field(inner.fields, "tools").items| == |found.value| &&
      (forall i :: 0 <= i < |found.value| ==> Field(inner.fields, "tools").items[i] == Str(found.value[i].name)) &&
      Field(inner.fields, "message").Str? &&
      StartsWith(Field(inner.fields, "message").s, "Found " + NatToString(|found.value|) + " tools")
    ensures found.Failure? ==>
      Field(QueryToolsResult(domain, found, show).fields, "error") == Str("Failed to query tools: " + found.error)
  {
    var r := QueryToolsResult(domain, found, show);
    GetAt(r.fields, 0);
    GetAt(r.fields, 1);
    if found.Success? {
      var inner := r.fields[1].1;
      GetAt(inner.fields, 0);
      GetAt(inner.fields, 1);
      var m := "Found " + NatToString(|found.value|) + " tools";
      assert (m + DomainSuffix(domain, show))[..|m|] == m;
    }
  }

  /** The result `_handle_query_facts` returns: every stored fact, whatever
      category was asked for. */
  function QueryFactsResult(facts: Dict<Json>): Json {
    Obj([("success", Bool(true)),
         ("facts", Obj(facts)),
         ("message", Str("Found " + NatToString(|facts|) + " fact(s)"))])
  }

  /** The query_facts result succeeds and carries the whole dict. */
  lemma QueryFactsResultReports(facts: Dict<Json>)
    ensures Lookup(QueryFactsResult(facts), "success", Null) == Bool(true)
    ensures Lookup(QueryFactsResult(facts), "facts", EmptyObject) == Obj(facts)
  {
    GetAt(QueryFactsResult(facts).fields, 0);
    GetAt(QueryFactsResult(facts).fields, 1);
  }

  /** `_handle_query_facts` */
  method HandleQueryFacts(arguments: Dict<Json>, store: FactStore) returns (result: Json)
    requires store.Valid()
    ensures Lookup(result, "success", Null) == Bool(true)
    ensures Lookup(result, "facts", EmptyObject) == Obj(store.facts)
    ensures result == QueryFactsResult(store.facts)
  {
    var facts := store.GetAllFacts();
    result := Obj([("success", Bool(true)),
                   ("facts", Obj(facts)),
                   ("message", Str("Found " + NatToString(|facts|) + " fact(s)"))]);
    QueryFactsResultReports(facts);
  }

  const MissingParameters: string := "Missing required parameters: key and value are required"

  /** The store key for the `key` argument: a string is used as is; any
      other value by its text. */
  function KeyText(key: Json, show: Json -> string): string {
    Format(key, show)
  }

  /** The facts after `_handle_learn_fact` and the result it returns. */
  function LearnFact(facts: Dict<Json>, arguments: Dict<Json>, show: Json -> string): (Dict<Json>, Json) {
    var key := Field(arguments, "key");
    var value := Field(arguments, "value");
    if !Truthy(key) || !Truthy(value) then
      (facts, Obj([("success", Bool(false)), ("error", Str(MissingParameters))]))
    else
      (Set(facts, KeyText(key, show), value),
       Obj([("success", Bool(true)), ("message", Str("Successfully stored " + KeyText(key, show)))]))
  }

  /** `_handle_learn_fact`: a fact with a truthy key and value is added and
      the whole store is saved at once; otherwise nothing changes. */
  method HandleLearnFact(arguments: Dict<Json>, store: FactStore, show: Json -> string)
    returns (result: Json)
    requires store.Valid()
    modifies store
    ensures store.Valid()
    ensures (store.facts, result) == LearnFact(old(store.facts), arguments, show)
    ensures Truthy(Lookup(result, "success", Null)) ==> store.disk == Some(store.facts)
    ensures !Truthy(Lookup(result, "success", Null)) ==> store.disk == old(store.disk)
  {
    var key := Field(arguments, "key");
    var value := Field(arguments, "value");
    if !Truthy(key) || !Truthy(value) {
      return Obj([("success", Bool(false)), ("error", Str(MissingParameters))]);
    }
    store.AddFact(KeyText(key, show), value);
    store.AsyncSave();
    result := Obj([("success", Bool(true)), ("message", Str("Successfully stored " + KeyText(key, show)))]);
  }

  /** A learned fact can be read back under its key and every other fact is
      kept; a call missing the key or the value changes nothing and fails. */
  lemma LearnFactStores(facts: Dict<Json>, arguments: Dict<Json>, show: Json -> string)
    ensures var key := Field(arguments, "key");
      var value := Field(arguments, "value");
      var (after, result) := LearnFact(facts, arguments, show);
      (Truthy(key) && Truthy(value) ==>
        Get(after, KeyText(key, show)) == Some(value) &&
        (forall k :: k != KeyText(key, show) ==> Get(after, k) == Get(facts, k)) &&
        Field(result.fields, "success") == Bool(true)) &&
      (!(Truthy(key) && Truthy(value)) ==>
        after == facts && Field(result.fields, "success") == Bool(false) &&
        Field(result.fields, "error") == Str(MissingParameters))
  {
    var key := Field(arguments, "key");
    var value := Field(arguments, "value");
    GetAt(LearnFact(facts, arguments, show).1.fields, 0);
    GetAt(LearnFact(facts, arguments, show).1.fields, 1);
    GetSetSame(facts, KeyText(key, show), value);
    forall k | k != KeyText(key, show)
      ensures Get(Set(facts, KeyText(key, show), value), k) == Get(facts, k)
    {
      GetSetOther(facts, KeyText(key, show), value, k);
    }
  }
}
