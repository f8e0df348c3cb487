/** Batch handling of the tool calls of one provider response
    (`tool_handlers.py`): the calls are sorted into five categories, and each
    category's calls are answered one by one with a tool message for the
    provider, followed by one summary entry in the host's chat log.

    Every batch handler has the same shape, captured once by `RunBatch`:
    for each call in order, the arguments are decoded (a failure raises and
    ends the batch, keeping the tool messages already appended and adding no
    summary), the call is answered, its result is appended as a tool
    message, and a successful call contributes one summary line. */
module ToolHandlers {
  import opened Wrappers
  import opened Text
  import opened PyDict
  import opened JsonValue
  import opened LlmBase
  import opened Storage
  import opened AgentHandlers

  // ---------------------------------------------------------------------
  // Categories

  datatype Category = QueryToolsCall | QueryFactsCall | LearnFactCall | MusicCall | HomeAssistantCall

  const MusicToolNames: seq<string> :=
    ["play_music", "get_now_playing", "control_playback", "search_music", "transfer_music", "get_music_players"]

  /** The category a tool name belongs to. */
  function CategoryOf(name: string): Category {
    if name == "query_tools" then QueryToolsCall
    else if name == "query_facts" then QueryFactsCall
    else if name == "learn_fact" then LearnFactCall
    else if name in MusicToolNames then MusicCall
    else HomeAssistantCall
  }

  /** The calls of one category, in their original order. */
  function Filter(calls: seq<ToolCall>, cat: Category): seq<ToolCall>
    decreases |calls|
  {
    if calls == [] then []
    else
      var n := |calls| - 1;
      Filter(calls[..n], cat) + if CategoryOf(calls[n].name) == cat then [calls[n]] else []
  }

  /** `categorize_tool_calls` */
  method CategorizeToolCalls(calls: seq<ToolCall>)
    returns (queryTools: seq<ToolCall>, queryFacts: seq<ToolCall>, learnFact: seq<ToolCall>,
             music: seq<ToolCall>, homeAssistant: seq<ToolCall>)
    ensures queryTools == Filter(calls, QueryToolsCall)
    ensures queryFacts == Filter(calls, QueryFactsCall)
    ensures learnFact == Filter(calls, LearnFactCall)
    ensures music == Filter(calls, MusicCall)
    ensures homeAssistant == Filter(calls, HomeAssistantCall)
  {
    queryTools, queryFacts, learnFact, music, homeAssistant := [], [], [], [], [];
    var i := 0;
    while i < |calls|
      invariant 0 <= i <= |calls|
      invariant queryTools == Filter(calls[..i], QueryToolsCall)
      invariant queryFacts == Filter(calls[..i], QueryFactsCall)
      invariant learnFact == Filter(calls[..i], LearnFactCall)
      invariant music == Filter(calls[..i], MusicCall)
      invariant homeAssistant == Filter(calls[..i], HomeAssistantCall)
    {
      assert calls[..i + 1][..i] == calls[..i];
      var toolName := calls[i].name;
      if toolName == "query_tools" {
        queryTools := queryTools + [calls[i]];
      } else if toolName == "query_facts" {
        queryFacts := queryFacts + [calls[i]];
      } else if toolName == "learn_fact" {
        learnFact := learnFact + [calls[i]];
      } else if toolName in MusicToolNames {
        music := music + [calls[i]];
      } else {
        homeAssistant := homeAssistant + [calls[i]];
      }
      i := i + 1;
    }
    assert calls[..i] == calls;
  }

  /** A call is in a category's list exactly when its name belongs to it. */
  lemma {:induction false} FilterMembers(calls: seq<ToolCall>, cat: Category)
    ensures forall c :: c in Filter(calls, cat) <==> c in calls && CategoryOf(c.name) == cat
    decreases |calls|
  {
    if calls != [] {
      var n := |calls| - 1;
      FilterMembers(calls[..n], cat);
      assert calls == calls[..n] + [calls[n]];
    }
  }

  /** The five lists partition the calls: together they hold every call
      exactly as often as the response does, so their lengths add up to the
      number of calls. */
  lemma CategoriesPartition(calls: seq<ToolCall>)
    ensures multiset(Filter(calls, QueryToolsCall)) + multiset(Filter(calls, QueryFactsCall)) +
            multiset(Filter(calls, LearnFactCall)) + multiset(Filter(calls, MusicCall)) +
            multiset(Filter(calls, HomeAssistantCall)) == multiset(calls)
    ensures |Filter(calls, QueryToolsCall)| + |Filter(calls, QueryFactsCall)| + |Filter(calls, LearnFactCall)| +
            |Filter(calls, MusicCall)| + |Filter(calls, HomeAssistantCall)| == |calls|
  {
    FilterIsFilterBy(calls, QueryToolsCall);
    FilterIsFilterBy(calls, QueryFactsCall);
    FilterIsFilterBy(calls, LearnFactCall);
    FilterIsFilterBy(calls, MusicCall);
    FilterIsFilterBy(calls, HomeAssistantCall);
    FiltersCover(calls, CallCategory);
    var a, b, c := Filter(calls, QueryToolsCall), Filter(calls, QueryFactsCall), Filter(calls, LearnFactCall);
    var d, e := Filter(calls, MusicCall), Filter(calls, HomeAssistantCall);
    assert |multiset(a) + multiset(b) + multiset(c) + multiset(d) + multiset(e)| == |multiset(calls)|;
  }

  function CallCategory(call: ToolCall): Category {
    CategoryOf(call.name)
  }

  /** The calls that a classifier `f` files under `cat`, in order. */
  function FilterBy(calls: seq<ToolCall>, f: ToolCall -> Category, cat: Category): seq<ToolCall>
    decreases |calls|
  {
    if calls == [] then []
    else
      var n := |calls| - 1;
      FilterBy(calls[..n], f, cat) + if f(calls[n]) == cat then [calls[n]] else []
  }

  lemma {:induction false} FilterIsFilterBy(calls: seq<ToolCall>, cat: Category)
    ensures Filter(calls, cat) == FilterBy(calls, CallCategory, cat)
    decreases |calls|
  {
    if calls != [] {
      FilterIsFilterBy(calls[..|calls| - 1], cat);
    }
  }

  /** Whatever the classifier, the five lists hold every call once. */
  lemma {:induction false} FiltersCover(calls: seq<ToolCall>, f: ToolCall -> Category)
    ensures multiset(FilterBy(calls, f, QueryToolsCall)) + multiset(FilterBy(calls, f, QueryFactsCall)) +
            multiset(FilterBy(calls, f, LearnFactCall)) + multiset(FilterBy(calls, f, MusicCall)) +
            multiset(FilterBy(calls, f, HomeAssistantCall)) == multiset(calls)
    decreases |calls|
  {
    if calls != [] {
      var n := |calls| - 1;
      var front, c := calls[..n], calls[n];
      FiltersCover(front, f);
      assert multiset(calls) == multiset(front) + multiset{c} by {
        assert calls == front + [c];
      }
      AddToOneCategory(FilterBy(front, f, QueryToolsCall), FilterBy(front, f, QueryFactsCall),
                       FilterBy(front, f, LearnFactCall), FilterBy(front, f, MusicCall),
                       FilterBy(front, f, HomeAssistantCall), c, f(c));
    }
  }

  /** Filing one call under one of the five categories adds it once to the
      union of the five lists. */
  lemma AddToOneCategory(a: seq<ToolCall>, b: seq<ToolCall>, c: seq<ToolCall>, d: seq<ToolCall>, e: seq<ToolCall>,
                         x: ToolCall, k: Category)
    ensures multiset(a + if k == QueryToolsCall then [x] else []) +
            multiset(b + if k == QueryFactsCall then [x] else []) +
            multiset(c + if k == LearnFactCall then [x] else []) +
            multiset(d + if k == MusicCall then [x] else []) +
            multiset(e + if k == HomeAssistantCall then [x] else []) ==
            multiset(a) + multiset(b) + multiset(c) + multiset(d) + multiset(e) + multiset{x}
  {
  }

  // ---------------------------------------------------------------------
  // The shared batch shape

  /** One answered call: the handler's new state, its result and, for a
      successful call, its summary line. */
  datatype CallOutcome<S> = CallOutcome(state: S, result: Json, line: Option<string>)

  /** The state of a batch after some calls: the handler state, the tool
      messages appended, the summary lines so far, and whether no call has
      raised. */
  datatype Batch<S> = Batch(state: S, messages: seq<Message>, lines: seq<string>, complete: bool)

  /** The batch after one more call: a batch that raised stays as it is;
      otherwise the call is answered, or raises. */
  function NextBatch<S>(b: Batch<S>, call: ToolCall, step: (S, ToolCall) -> Option<CallOutcome<S>>,
                        encode: Json -> string): Batch<S>
  {
    if !b.complete then b
    else match step(b.state, call)
      case None => b.(complete := false)
      case Some(o) =>
        Batch(o.state, b.messages + [ToolMessage(call.id, encode(o.result))],
              b.lines + (if o.line.Some? then [o.line.value] else []), true)
  }

  /** The batch over `calls` from state `s0`; `step` answers one call, or
      gives `None` when the call raises. */
  function RunBatch<S>(s0: S, calls: seq<ToolCall>, step: (S, ToolCall) -> Option<CallOutcome<S>>,
                       encode: Json -> string): Batch<S>
    decreases |calls|
  {
    if calls == [] then Batch(s0, [], [], true)
    else NextBatch(RunBatch(s0, calls[..|calls| - 1], step, encode), calls[|calls| - 1], step, encode)
  }

  lemma RunBatchNext<S>(s0: S, calls: seq<ToolCall>, i: nat,
                        step: (S, ToolCall) -> Option<CallOutcome<S>>, encode: Json -> string)
    requires i < |calls|
    ensures RunBatch(s0, calls[..i + 1], step, encode) ==
            NextBatch(RunBatch(s0, calls[..i], step, encode), calls[i], step, encode)
  {
    assert calls[..i + 1][..i] == calls[..i];
  }

  /** A batch that has answered `calls[..i]` answers `calls[i]`. */
  lemma AnsweredNext<S>(s0: S, calls: seq<ToolCall>, i: nat, step: (S, ToolCall) -> Option<CallOutcome<S>>,
                        encode: Json -> string, b: Batch<S>, o: CallOutcome<S>)
    requires i < |calls| && RunBatch(s0, calls[..i], step, encode) == b && b.complete
    requires step(b.state, calls[i]) == Some(o)
    ensures RunBatch(s0, calls[..i + 1], step, encode) ==
      Batch(o.state, b.messages + [ToolMessage(calls[i].id, encode(o.result))],
            b.lines + (if o.line.Some? then [o.line.value] else []), true)
  {
    RunBatchNext(s0, calls, i, step, encode);
  }

  /** A batch that has answered `calls[..i]` stops when `calls[i]` raises. */
  lemma RaisedNext<S>(s0: S, calls: seq<ToolCall>, i: nat, step: (S, ToolCall) -> Option<CallOutcome<S>>,
                      encode: Json -> string, b: Batch<S>)
    requires i < |calls| && RunBatch(s0, calls[..i], step, encode) == b && b.complete
    requires step(b.state, calls[i]).None?
    ensures RunBatch(s0, calls, step, encode) == b.(complete := false)
  {
    RunBatchNext(s0, calls, i, step, encode);
    RunBatchAbort(s0, calls, i + 1, step, encode);
  }

  /** The chat-log entry a batch adds: one summary, only when the batch did
      not raise and some call succeeded. */
  function SummaryEntries<S>(b: Batch<S>): seq<ChatEntry> {
    if b.complete && b.lines != [] then [AssistantText(Join(b.lines, "\n"))] else []
  }

  /** Every batch answers its calls in order, one tool message per call with
      the call's id, until a call raises; there are never more summary lines
      than answered calls. */
  lemma {:induction false} RunBatchShape<S>(s0: S, calls: seq<ToolCall>,
                                           step: (S, ToolCall) -> Option<CallOutcome<S>>, encode: Json -> string)
    ensures var b := RunBatch(s0, calls, step, encode);
      |b.messages| <= |calls| && |b.lines| <= |b.messages| &&
      (b.complete ==> |b.messages| == |calls|) &&
      (!b.complete ==> |b.messages| < |calls|) &&
      (forall i :: 0 <= i < |b.messages| ==> b.messages[i].ToolMessage? && b.messages[i].toolCallId == calls[i].id)
    decreases |calls|
  {
    if calls != [] {
      var n := |calls| - 1;
      RunBatchShape(s0, calls[..n], step, encode);
    }
  }

  /** Once a call has raised, the later calls change nothing. */
  lemma {:induction false} RunBatchAbort<S>(s0: S, calls: seq<ToolCall>, k: nat,
                                           step: (S, ToolCall) -> Option<CallOutcome<S>>, encode: Json -> string)
    requires k <= |calls|
    requires !RunBatch(s0, calls[..k], step, encode).complete
    ensures RunBatch(s0, calls, step, encode) == RunBatch(s0, calls[..k], step, encode)
    decreases |calls|
  {
    if k < |calls| {
      var n := |calls| - 1;
      assert calls[..n][..k] == calls[..k];
      RunBatchAbort(s0, calls[..n], k, step, encode);
    } else {
      assert calls[..k] == calls;
    }
  }

  /** `after` is `before` followed by tool messages only. */
  ghost predicate ExtendedWithToolMessages(before: seq<Message>, after: seq<Message>) {
    |before| <= |after| && after[..|before|] == before &&
    forall k :: |before| <= k < |after| ==> after[k].ToolMessage?
  }

  lemma ExtendedTrans(a: seq<Message>, b: seq<Message>, c: seq<Message>)
    requires ExtendedWithToolMessages(a, b) && ExtendedWithToolMessages(b, c)
    ensures ExtendedWithToolMessages(a, c)
  {
    assert c[..|a|] == c[..|b|][..|a|];
  }

  /** A batch appends tool messages only. */
  lemma BatchExtends<S>(before: seq<Message>, s0: S, calls: seq<ToolCall>,
                        step: (S, ToolCall) -> Option<CallOutcome<S>>, encode: Json -> string)
    ensures ExtendedWithToolMessages(before, before + RunBatch(s0, calls, step, encode).messages)
  {
    RunBatchShape(s0, calls, step, encode);
    var after := before + RunBatch(s0, calls, step, encode).messages;
    assert after[..|before|] == before;
    forall k | |before| <= k < |after| ensures after[k].ToolMessage? {
      assert after[k] == RunBatch(s0, calls, step, encode).messages[k - |before|];
    }
  }

  // ---------------------------------------------------------------------
  // The host side

  /** The provider-facing message list, extended in place. */
  class MessageLog {
    var items: seq<Message>

    constructor (items: seq<Message>)
      ensures this.items == items
    {
      this.items := items;
    }
  }

  /** An entry of the host's chat log added by the agent. */
  datatype ChatEntry =
      /** `async_add_assistant_content_without_tools` */
    | AssistantText(content: string)
      /** `async_add_assistant_content`, which also runs the tool inputs */
    | AssistantWithTools(content: string, inputs: seq<ToolInput>)

  /** The host's chat log, extended in place. */
  class ChatLog {
    var entries: seq<ChatEntry>

    constructor (entries: seq<ChatEntry>)
      ensures this.entries == entries
    {
      this.entries := entries;
    }
  }

  /** `json.loads(arguments)` when it yields a dict; `None` when it raises or
      when a later `arguments.get` would. */
  function ObjectArguments(call: ToolCall, decode: string -> Option<Json>): Option<Dict<Json>> {
    match decode(call.arguments)
    case Some(Obj(fields)) => Some(fields)
    case _ => None
  }

  /** A handler result counts as successful when `result.get("success")` is
      truthy. */
  predicate Succeeded(result: Json) {
    Truthy(Lookup(result, "success", Null))
  }

  // ---------------------------------------------------------------------
  // query_tools

  /** `f"Discovered {len(tools_found)} tools for {domain_filter}"` */
  function DiscoveredLine(arguments: Dict<Json>, result: Json, show: Json -> string): string {
    var toolsFound := Lookup(Lookup(result, "result", EmptyObject), "tools", Arr([]));
    "Discovered " + NatToString(Len(toolsFound)) + " tools for " + Format(FieldOr(arguments, "domain", Str("all domains")), show)
  }

  /** One query_tools call: the tool list after the merge, the result, and
      the summary line of a successful query. */
  function QueryToolsOutcome(query: Json -> Result<seq<ToolSchema>, string>, decode: string -> Option<Json>,
                             show: Json -> string, tools: seq<ToolSchema>, call: ToolCall)
    : Option<CallOutcome<seq<ToolSchema>>>
  {
    match ObjectArguments(call, decode)
    case None => None
    case Some(arguments) =>
      var domain := Field(arguments, "domain");
      var found := query(domain);
      var result := QueryToolsResult(domain, found, show);
      var tools' := tools + if found.Success? then NewTools(found.value, Names(tools)) else [];
      Some(CallOutcome(tools', result, if Succeeded(result) then Some(DiscoveredLine(arguments, result, show)) else None))
  }

  function QueryToolsStep(query: Json -> Result<seq<ToolSchema>, string>, decode: string -> Option<Json>,
                          show: Json -> string): (seq<ToolSchema>, ToolCall) -> Option<CallOutcome<seq<ToolSchema>>>
  {
    (tools, call) => QueryToolsOutcome(query, decode, show, tools, call)
  }

  lemma QueryToolsStepAt(query: Json -> Result<seq<ToolSchema>, string>, decode: string -> Option<Json>,
                         show: Json -> string, tools: seq<ToolSchema>, call: ToolCall, arguments: Dict<Json>)
    requires decode(call.arguments) == Some(Obj(arguments))
    ensures var domain := Field(arguments, "domain");
      var result := QueryToolsResult(domain, query(domain), show);
      QueryToolsStep(query, decode, show)(tools, call) ==
      Some(CallOutcome(tools + (if query(domain).Success? then NewTools(query(domain).value, Names(tools)) else []),
                       result, if Succeeded(result) then Some(DiscoveredLine(arguments, result, show)) else None))
  {
  }

  /** A query_tools call succeeds exactly when the query does, and its
      summary line counts the tools the query found. */
  lemma QueryToolsLine(query: Json -> Result<seq<ToolSchema>, string>, decode: string -> Option<Json>,
                       show: Json -> string, tools: seq<ToolSchema>, call: ToolCall)
    requires ObjectArguments(call, decode).Some?
    ensures var arguments := ObjectArguments(call, decode).value;
      var found := query(Field(arguments, "domain"));
      var o := QueryToolsOutcome(query, decode, show, tools, call).value;
      (o.line.Some? <==> found.Success?) &&
      (found.Success? ==> StartsWith(o.line.value, "Discovered " + NatToString(|found.value|) + " tools for "))
  {
    var arguments := ObjectArguments(call, decode).value;
    var domain := Field(arguments, "domain");
    var found := query(domain);
    QueryToolsResultReports(domain, found, show);
    if found.Success? {
      var head := "Discovered " + NatToString(|found.value|) + " tools for ";
      var o := QueryToolsOutcome(query, decode, show, tools, call).value;
      assert o.line.value == head + Format(FieldOr(arguments, "domain", Str("all domains")), show);
    }
  }

  /** The tool list of a query_tools batch only grows. */
  lemma {:induction false} QueryToolsBatchGrows(s0: seq<ToolSchema>, calls: seq<ToolCall>,
                                               query: Json -> Result<seq<ToolSchema>, string>,
                                               decode: string -> Option<Json>, show: Json -> string,
                                               encode: Json -> string)
    ensures var tools := RunBatch(s0, calls, QueryToolsStep(query, decode, show), encode).state;
      |s0| <= |tools| && tools[..|s0|] == s0
    decreases |calls|
  {
    if calls != [] {
      var n := |calls| - 1;
      QueryToolsBatchGrows(s0, calls[..n], query, decode, show, encode);
    }
  }

  /** `handle_query_tools_calls`; `ok` is false when a call raised. */
  method HandleQueryToolsCalls(calls: seq<ToolCall>, toolSet: ToolSet, messages: MessageLog, chatLog: ChatLog,
                               query: Json -> Result<seq<ToolSchema>, string>, decode: string -> Option<Json>,
                               encode: Json -> string, show: Json -> string)
    returns (ok: bool)
    modifies toolSet, messages, chatLog
    ensures ExtendedWithToolMessages(old(messages.items), messages.items)
    ensures |old(chatLog.entries)| <= |chatLog.entries| && chatLog.entries[..|old(chatLog.entries)|] == old(chatLog.entries)
    ensures |old(toolSet.tools)| <= |toolSet.tools| && toolSet.tools[..|old(toolSet.tools)|] == old(toolSet.tools)
    ensures var b := RunBatch(old(toolSet.tools), calls, QueryToolsStep(query, decode, show), encode);
      ok == b.complete && toolSet.tools == b.state &&
      messages.items == old(messages.items) + b.messages &&
      chatLog.entries == old(chatLog.entries) + SummaryEntries(b)
  {
    if calls == [] {
      return true;
    }
    ghost var s0 := toolSet.tools;
    ghost var m0 := messages.items;
    ghost var c0 := chatLog.entries;
    var summary;
    ok, summary := AnswerQueryTools(calls, toolSet, messages, query, decode, encode, show);
    AddSummary(chatLog, ok, summary);
    BatchExtends(m0, s0, calls, QueryToolsStep(query, decode, show), encode);
    QueryToolsBatchGrows(s0, calls, query, decode, show, encode);
    assert chatLog.entries[..|c0|] == c0;
  }

  /** The loop of `handle_query_tools_calls`. */
  method AnswerQueryTools(calls: seq<ToolCall>, toolSet: ToolSet, messages: MessageLog,
                          query: Json -> Result<seq<ToolSchema>, string>, decode: string -> Option<Json>,
                          encode: Json -> string, show: Json -> string)
    returns (ok: bool, summary: seq<string>)
    modifies toolSet, messages
    ensures var b := RunBatch(old(toolSet.tools), calls, QueryToolsStep(query, decode, show), encode);
      ok == b.complete && toolSet.tools == b.state && summary == b.lines &&
      messages.items == old(messages.items) + b.messages
  {
    var step := QueryToolsStep(query, decode, show);
    ghost var s0 := toolSet.tools;
    ghost var m0 := messages.items;
    ghost var added: seq<Message> := [];
    summary := [];
    ok := true;
    var i := 0;
    while i < |calls|
      invariant 0 <= i <= |calls|
      invariant messages.items == m0 + added
      invariant RunBatch(s0, calls[..i], step, encode) == Batch(toolSet.tools, added, summary, true)
    {
      ghost var b := Batch(toolSet.tools, added, summary, true);
      var o := AnswerQueryToolsCall(calls[i], toolSet, query, decode, show);
      if o.None? {
        RaisedNext(s0, calls, i, step, encode, b);
        ok := false;
        break;
      }
      AnsweredNext(s0, calls, i, step, encode, b, o.value);
      messages.items := messages.items + [ToolMessage(calls[i].id, encode(o.value.result))];
      added := added + [ToolMessage(calls[i].id, encode(o.value.result))];
      if o.value.line.Some? {
        summary := summary + [o.value.line.value];
      }
      i := i + 1;
    }
    if ok {
      assert calls[..i] == calls;
    }
  }

  /** One call of the loop of `handle_query_tools_calls`: `None` when its
      arguments do not decode to an object (the call raises); otherwise the
      tool message's result, the line it adds to the summary, and the tool
      list after the query, as the batch step says. */
  method AnswerQueryToolsCall(call: ToolCall, toolSet: ToolSet, query: Json -> Result<seq<ToolSchema>, string>,
                              decode: string -> Option<Json>, show: Json -> string)
    returns (o: Option<CallOutcome<seq<ToolSchema>>>)
    modifies toolSet
    ensures o == QueryToolsStep(query, decode, show)(old(toolSet.tools), call)
    ensures o.Some? ==> toolSet.tools == o.value.state
    ensures o.None? ==> toolSet.tools == old(toolSet.tools)
  {
    var decoded := decode(call.arguments);
    if decoded.None? || !decoded.value.Obj? {
      return None;
    }
    var arguments := decoded.value.fields;
    QueryToolsStepAt(query, decode, show, toolSet.tools, call, arguments);
    var result := HandleQueryTools(arguments, toolSet, query, show);
    o := Some(CallOutcome(toolSet.tools, result, if Succeeded(result) then Some(DiscoveredLine(arguments, result, show)) else None));
  }

  /** Adds the summary of a batch that did not raise, when it has lines. */
  method AddSummary(chatLog: ChatLog, ok: bool, summary: seq<string>)
    modifies chatLog
    ensures chatLog.entries == old(chatLog.entries) + SummaryEntries(Batch((), [], summary, ok))
  {
    if ok && summary != [] {
      chatLog.entries := chatLog.entries + [AssistantText(Join(summary, "\n"))];
    }
  }

  // ---------------------------------------------------------------------
  // query_facts

  /** `f"Retrieved {len(facts_found)} facts for {category_filter}"` */
  function RetrievedLine(arguments: Dict<Json>, result: Json, show: Json -> string): string {
    "Retrieved " + NatToString(Len(Lookup(result, "facts", EmptyObject))) + " facts for " +
    Format(FieldOr(arguments, "category", Str("all categories")), show)
  }

  /** One query_facts call over the stored `facts`. */
  function QueryFactsOutcome(facts: Dict<Json>, decode: string -> Option<Json>, show: Json -> string,
                             call: ToolCall): Option<CallOutcome<()>>
  {
    match ObjectArguments(call, decode)
    case None => None
    case Some(arguments) =>
      var result := QueryFactsResult(facts);
      Some(CallOutcome((), result, if Succeeded(result) then Some(RetrievedLine(arguments, result, show)) else None))
  }

  function QueryFactsStep(facts: Dict<Json>, decode: string -> Option<Json>, show: Json -> string)
    : ((), ToolCall) -> Option<CallOutcome<()>>
  {
    (u, call) => QueryFactsOutcome(facts, decode, show, call)
  }

  lemma QueryFactsStepAt(facts: Dict<Json>, decode: string -> Option<Json>, show: Json -> string,
                         call: ToolCall, arguments: Dict<Json>)
    requires decode(call.arguments) == Some(Obj(arguments))
    ensures QueryFactsStep(facts, decode, show)((), call) ==
      Some(CallOutcome((), QueryFactsResult(facts), Some(RetrievedLine(arguments, QueryFactsResult(facts), show))))
  {
    QueryFactsResultReports(facts);
  }

  /** Every query_facts call with dict arguments succeeds, and its summary
      line counts all stored facts. */
  lemma QueryFactsLine(facts: Dict<Json>, decode: string -> Option<Json>, show: Json -> string, call: ToolCall)
    requires ObjectArguments(call, decode).Some?
    ensures var o := QueryFactsOutcome(facts, decode, show, call).value;
      o.line.Some? &&
      StartsWith(o.line.value, "Retrieved " + NatToString(|facts|) + " facts for ")
  {
    var arguments := ObjectArguments(call, decode).value;
    var result := QueryFactsResult(facts);
    QueryFactsResultReports(facts);
    assert Succeeded(result);
    RetrievedLineCounts(arguments, facts, show);
  }

  /** The summary line of a query_facts call starts with the fact count. */
  lemma RetrievedLineCounts(arguments: Dict<Json>, facts: Dict<Json>, show: Json -> string)
    ensures StartsWith(RetrievedLine(arguments, QueryFactsResult(facts), show),
                       "Retrieved " + NatToString(|facts|) + " facts for ")
  {
    QueryFactsResultReports(facts);
    var head := "Retrieved " + NatToString(|facts|) + " facts for ";
    var tail := Format(FieldOr(arguments, "category", Str("all categories")), show);
    assert RetrievedLine(arguments, QueryFactsResult(facts), show) == head + tail;
    assert (head + tail)[..|head|] == head;
  }

  /** `handle_query_facts_calls` */
  method HandleQueryFactsCalls(calls: seq<ToolCall>, store: FactStore, messages: MessageLog, chatLog: ChatLog,
                               decode: string -> Option<Json>, encode: Json -> string, show: Json -> string)
    returns (ok: bool)
    requires store.Valid()
    modifies messages, chatLog
    ensures ExtendedWithToolMessages(old(messages.items), messages.items)
    ensures |old(chatLog.entries)| <= |chatLog.entries| && chatLog.entries[..|old(chatLog.entries)|] == old(chatLog.entries)
    ensures var b := RunBatch((), calls, QueryFactsStep(store.facts, decode, show), encode);
      ok == b.complete &&
      messages.items == old(messages.items) + b.messages &&
      chatLog.entries == old(chatLog.entries) + SummaryEntries(b)
  {
    if calls == [] {
      return true;
    }
    ghost var m0 := messages.items;
    ghost var c0 := chatLog.entries;
    var summary;
    ok, summary := AnswerQueryFacts(calls, store, messages, decode, encode, show);
    AddSummary(chatLog, ok, summary);
    BatchExtends(m0, (), calls, QueryFactsStep(store.facts, decode, show), encode);
    assert chatLog.entries[..|c0|] == c0;
  }

  /** The loop of `handle_query_facts_calls`. */
  method AnswerQueryFacts(calls: seq<ToolCall>, store: FactStore, messages: MessageLog,
                          decode: string -> Option<Json>, encode: Json -> string, show: Json -> string)
    returns (ok: bool, summary: seq<string>)
    requires store.Valid()
    modifies messages
    ensures var b := RunBatch((), calls, QueryFactsStep(store.facts, decode, show), encode);
      ok == b.complete && summary == b.lines &&
      messages.items == old(messages.items) + b.messages
  {
    var step := QueryFactsStep(store.facts, decode, show);
    ghost var m0 := messages.items;
    ghost var added: seq<Message> := [];
    summary := [];
    var i := 0;
    while i < |calls|
      invariant 0 <= i <= |calls|
      invariant messages.items == m0 + added
      invariant RunBatch((), calls[..i], step, encode) == Batch((), added, summary, true)
    {
      RunBatchNext((), calls, i, step, encode);
      var decoded := decode(calls[i].arguments);
      if decoded.None? || !decoded.value.Obj? {
        assert step((), calls[i]).None?;
        RunBatchAbort((), calls, i + 1, step, encode);
        return false, summary;
      }
      var arguments := decoded.value.fields;
      QueryFactsStepAt(store.facts, decode, show, calls[i], arguments);
      var result := HandleQueryFacts(arguments, store);
      messages.items := messages.items + [ToolMessage(calls[i].id, encode(result))];
      added := added + [ToolMessage(calls[i].id, encode(result))];
      if Succeeded(result) {
        summary := summary + [RetrievedLine(arguments, result, show)];
      }
      i := i + 1;
    }
    assert calls[..i] == calls;
    ok := true;
  }

  // ---------------------------------------------------------------------
  // learn_fact

  /** `f"Learned fact: {key}"`, with `"unknown"` for a missing key. */
  function LearnedLine(arguments: Dict<Json>, show: Json -> string): string {
    "Learned fact: " + Format(FieldOr(arguments, "key", Str("unknown")), show)
  }

  /** One learn_fact call: the facts after it, its result and its line. */
  function LearnFactOutcome(decode: string -> Option<Json>, show: Json -> string,
                            facts: Dict<Json>, call: ToolCall): Option<CallOutcome<Dict<Json>>>
  {
    match ObjectArguments(call, decode)
    case None => None
    case Some(arguments) =>
      var (facts', result) := LearnFact(facts, arguments, show);
      Some(CallOutcome(facts', result, if Succeeded(result) then Some(LearnedLine(arguments, show)) else None))
  }

  function LearnFactStep(decode: string -> Option<Json>, show: Json -> string)
    : (Dict<Json>, ToolCall) -> Option<CallOutcome<Dict<Json>>>
  {
    (facts, call) => LearnFactOutcome(decode, show, facts, call)
  }

  /** One learn_fact call with dict arguments; a call that fails leaves the
      facts as they were. */
  lemma LearnFactStepAt(decode: string -> Option<Json>, show: Json -> string, facts: Dict<Json>,
                        call: ToolCall, arguments: Dict<Json>)
    requires decode(call.arguments) == Some(Obj(arguments))
    ensures var (after, result) := LearnFact(facts, arguments, show);
      LearnFactStep(decode, show)(facts, call) ==
        Some(CallOutcome(after, result, if Succeeded(result) then Some(LearnedLine(arguments, show)) else None)) &&
      (!Succeeded(result) ==> after == facts)
  {
    LearnFactStores(facts, arguments, show);
  }

  /** A learn_fact call contributes a summary line exactly when it stored a
      fact, that is when its key and value are both truthy. */
  lemma LearnFactLine(decode: string -> Option<Json>, show: Json -> string, facts: Dict<Json>, call: ToolCall)
    requires ObjectArguments(call, decode).Some?
    ensures var arguments := ObjectArguments(call, decode).value;
      var o := LearnFactOutcome(decode, show, facts, call).value;
      (o.line.Some? <==> Truthy(Field(arguments, "key")) && Truthy(Field(arguments, "value"))) &&
      (o.line.None? ==> o.state == facts)
  {
    var arguments := ObjectArguments(call, decode).value;
    LearnFactStores(facts, arguments, show);
  }

  /** `handle_learn_fact_calls`: the store is saved after every fact
      learned, so once one is learned the saved snapshot is the final dict. */
  method HandleLearnFactCalls(calls: seq<ToolCall>, store: FactStore, messages: MessageLog, chatLog: ChatLog,
                              decode: string -> Option<Json>, encode: Json -> string, show: Json -> string)
    returns (ok: bool)
    requires store.Valid()
    modifies store, messages, chatLog
    ensures store.Valid()
    ensures ExtendedWithToolMessages(old(messages.items), messages.items)
    ensures |old(chatLog.entries)| <= |chatLog.entries| && chatLog.entries[..|old(chatLog.entries)|] == old(chatLog.entries)
    ensures var b := RunBatch(old(store.facts), calls, LearnFactStep(decode, show), encode);
      ok == b.complete && store.facts == b.state &&
      messages.items == old(messages.items) + b.messages &&
      chatLog.entries == old(chatLog.entries) + SummaryEntries(b) &&
      (b.lines != [] ==> store.disk == Some(store.facts)) &&
      (b.lines == [] ==> store.disk == old(store.disk) && store.facts == old(store.facts))
  {
    if calls == [] {
      return true;
    }
    ghost var s0 := store.facts;
    ghost var m0 := messages.items;
    ghost var c0 := chatLog.entries;
    var summary;
    ok, summary := AnswerLearnFact(calls, store, messages, decode, encode, show);
    AddSummary(chatLog, ok, summary);
    BatchExtends(m0, s0, calls, LearnFactStep(decode, show), encode);
    assert chatLog.entries[..|c0|] == c0;
  }

  /** The loop of `handle_learn_fact_calls`. */
  method AnswerLearnFact(calls: seq<ToolCall>, store: FactStore, messages: MessageLog,
                         decode: string -> Option<Json>, encode: Json -> string, show: Json -> string)
    returns (ok: bool, summary: seq<string>)
    requires store.Valid()
    modifies store, messages
    ensures store.Valid()
    ensures var b := RunBatch(old(store.facts), calls, LearnFactStep(decode, show), encode);
      ok == b.complete && store.facts == b.state && summary == b.lines &&
      messages.items == old(messages.items) + b.messages &&
      (summary != [] ==> store.disk == Some(store.facts)) &&
      (summary == [] ==> store.disk == old(store.disk) && store.facts == old(store.facts))
  {
    var step := LearnFactStep(decode, show);
    ghost var s0 := store.facts;
    ghost var m0 := messages.items;
    ghost var added: seq<Message> := [];
    summary := [];
    var i := 0;
    while i < |calls|
      invariant 0 <= i <= |calls|
      invariant store.Valid()
      invariant messages.items == m0 + added
      invariant RunBatch(s0, calls[..i], step, encode) == Batch(store.facts, added, summary, true)
      invariant summary != [] ==> store.disk == Some(store.facts)
      invariant summary == [] ==> store.disk == old(store.disk) && store.facts == s0
    {
      ghost var b := Batch(store.facts, added, summary, true);
      ghost var o := step(store.facts, calls[i]);
      var raised, line := LearnOneFact(calls[i], store, messages, decode, encode, show);
      if raised {
        RaisedNext(s0, calls, i, step, encode, b);
        return false, summary;
      }
      AnsweredNext(s0, calls, i, step, encode, b, o.value);
      added := added + [ToolMessage(calls[i].id, encode(o.value.result))];
      if line.Some? {
        summary := summary + [line.value];
      }
      i := i + 1;
    }
    assert calls[..i] == calls;
    ok := true;
  }

  /** One pass of the loop of `handle_learn_fact_calls`: a call whose
      arguments are not a dict raises; otherwise the fact is handled and
      the call answered. */
  method LearnOneFact(call: ToolCall, store: FactStore, messages: MessageLog,
                      decode: string -> Option<Json>, encode: Json -> string, show: Json -> string)
    returns (raised: bool, line: Option<string>)
    requires store.Valid()
    modifies store, messages
    ensures store.Valid()
    ensures var o := LearnFactStep(decode, show)(old(store.facts), call);
      raised == o.None? &&
      (raised ==> unchanged(store) && messages.items == old(messages.items)) &&
      (!raised ==>
        store.facts == o.value.state && line == o.value.line &&
        messages.items == old(messages.items) + [ToolMessage(call.id, encode(o.value.result))] &&
        (line.Some? ==> store.disk == Some(store.facts)) &&
        (line.None? ==> store.disk == old(store.disk) && store.facts == old(store.facts)))
  {
    var decoded := decode(call.arguments);
    if decoded.None? || !decoded.value.Obj? {
      return true, None;
    }
    var arguments := decoded.value.fields;
    LearnFactStepAt(decode, show, store.facts, call, arguments);
    var result := HandleLearnFact(arguments, store, show);
    messages.items := messages.items + [ToolMessage(call.id, encode(result))];
    raised := false;
    line := if Succeeded(result) then Some(LearnedLine(arguments, show)) else None;
  }

  // ---------------------------------------------------------------------
  // Music Assistant tools

  /** The summary line of a successful music call: its `message`, or
      `"Executed <name>"` when it has none. */
  function MusicLine(name: string, result: Json, show: Json -> string): string {
    Format(Lookup(result, "message", Str("Executed " + name)), show)
  }

  /** One music call; `music` stands for the agent's music handler, which
      answers every call with a dict, failures included. */
  function MusicOutcome(music: (string, Json) -> Json, decode: string -> Option<Json>, show: Json -> string,
                        call: ToolCall): Option<CallOutcome<()>>
  {
    match decode(call.arguments)
    case None => None
    case Some(arguments) =>
      var result := music(call.name, arguments);
      Some(CallOutcome((), result, if Succeeded(result) then Some(MusicLine(call.name, result, show)) else None))
  }

  function MusicStep(music: (string, Json) -> Json, decode: string -> Option<Json>, show: Json -> string)
    : ((), ToolCall) -> Option<CallOutcome<()>>
  {
    (u, call) => MusicOutcome(music, decode, show, call)
  }

  /** Unlike the meta-tools, a music call raises only on undecodable
      arguments; any decoded value reaches the handler. A successful result
      without a message is summarised as "Executed <name>". */
  lemma MusicCallsReachHandler(music: (string, Json) -> Json, decode: string -> Option<Json>,
                               show: Json -> string, call: ToolCall)
    ensures MusicOutcome(music, decode, show, call).None? <==> decode(call.arguments).None?
    ensures decode(call.arguments).Some? ==>
      var result := music(call.name, decode(call.arguments).value);
      Succeeded(result) && result.Obj? && Get(result.fields, "message").None? ==>
        MusicOutcome(music, decode, show, call).value.line == Some("Executed " + call.name)
  {
  }

  /** `handle_music_tool_calls` */
  method HandleMusicToolCalls(calls: seq<ToolCall>, messages: MessageLog, chatLog: ChatLog,
                              music: (string, Json) -> Json, decode: string -> Option<Json>,
                              encode: Json -> string, show: Json -> string)
    returns (ok: bool)
    modifies messages, chatLog
    ensures ExtendedWithToolMessages(old(messages.items), messages.items)
    ensures |old(chatLog.entries)| <= |chatLog.entries| && chatLog.entries[..|old(chatLog.entries)|] == old(chatLog.entries)
    ensures var b := RunBatch((), calls, MusicStep(music, decode, show), encode);
      ok == b.complete &&
      messages.items == old(messages.items) + b.messages &&
      chatLog.entries == old(chatLog.entries) + SummaryEntries(b)
  {
    if calls == [] {
      return true;
    }
    ghost var m0 := messages.items;
    ghost var c0 := chatLog.entries;
    var summary;
    ok, summary := AnswerMusic(calls, messages, music, decode, encode, show);
    AddSummary(chatLog, ok, summary);
    BatchExtends(m0, (), calls, MusicStep(music, decode, show), encode);
    assert chatLog.entries[..|c0|] == c0;
  }

  /** The loop of `handle_music_tool_calls`. */
  method AnswerMusic(calls: seq<ToolCall>, messages: MessageLog,
                     music: (string, Json) -> Json, decode: string -> Option<Json>,
                     encode: Json -> string, show: Json -> string)
    returns (ok: bool, summary: seq<string>)
    modifies messages
    ensures var b := RunBatch((), calls, MusicStep(music, decode, show), encode);
      ok == b.complete && summary == b.lines &&
      messages.items == old(messages.items) + b.messages
  {
    var step := MusicStep(music, decode, show);
    ghost var m0 := messages.items;
    summary := [];
    var i := 0;
    while i < |calls|
      invariant 0 <= i <= |calls|
      invariant |m0| <= |messages.items| && messages.items[..|m0|] == m0
      invariant RunBatch((), calls[..i], step, encode) == Batch((), messages.items[|m0|..], summary, true)
    {
      RunBatchNext((), calls, i, step, encode);
      var toolName := calls[i].name;
      var decoded := decode(calls[i].arguments);
      if decoded.None? {
        assert step((), calls[i]).None?;
        RunBatchAbort((), calls, i + 1, step, encode);
        assert messages.items == m0 + messages.items[|m0|..];
        return false, summary;
      }
      var result := music(toolName, decoded.value);
      assert step((), calls[i]) == MusicOutcome(music, decode, show, calls[i]);
      messages.items := messages.items + [ToolMessage(calls[i].id, encode(result))];
      if Succeeded(result) {
        summary := summary + [MusicLine(toolName, result, show)];
      }
      i := i + 1;
    }
    assert calls[..i] == calls;
    assert messages.items == m0 + messages.items[|m0|..];
    ok := true;
  }

  // ---------------------------------------------------------------------
  // Home Assistant tools

  /** One result the host yields while running the tool inputs. */
  datatype HostResult = HostResult(toolCallId: string, toolName: string, toolResult: Json)

  /** The tool messages for the host's results, in the order yielded. */
  function ResultMessages(results: seq<HostResult>, encode: Json -> string): seq<Message> {
    seq(|results|, i requires 0 <= i < |results| => ToolMessage(results[i].toolCallId, encode(results[i].toolResult)))
  }

  /** `handle_ha_tool_calls`: the host runs the converted inputs as part of
      one assistant entry carrying the streamed text; every result it
      yields becomes a tool message. `runTools` stands for the host's
      execution of the inputs. */
  method HandleHaToolCalls(calls: seq<ToolCall>, messages: MessageLog, chatLog: ChatLog, accumulated: string,
                           runTools: seq<ToolInput> -> seq<HostResult>, decode: string -> Option<Json>,
                           encode: Json -> string)
    modifies messages, chatLog
    ensures ExtendedWithToolMessages(old(messages.items), messages.items)
    ensures calls == [] ==> messages.items == old(messages.items) && chatLog.entries == old(chatLog.entries)
    ensures calls != [] ==>
      chatLog.entries == old(chatLog.entries) + [AssistantWithTools(accumulated, ToolInputs(calls, decode))]
    ensures calls != [] ==>
      var results := runTools(ToolInputs(calls, decode));
      |messages.items| == |old(messages.items)| + |results| &&
      messages.items[..|old(messages.items)|] == old(messages.items) &&
      forall i :: 0 <= i < |results| ==>
        messages.items[|old(messages.items)| + i] == ToolMessage(results[i].toolCallId, encode(results[i].toolResult))
  {
    if calls == [] {
      return;
    }
    var toolInputs := ConvertToolCallsToInputs(calls, decode);
    chatLog.entries := chatLog.entries + [AssistantWithTools(accumulated, toolInputs)];
    var results := runTools(toolInputs);
    ghost var m0 := messages.items;
    var i := 0;
    while i < |results|
      invariant 0 <= i <= |results|
      invariant messages.items == m0 + ResultMessages(results[..i], encode)
      invariant chatLog.entries == old(chatLog.entries) + [AssistantWithTools(accumulated, toolInputs)]
    {
      messages.items := messages.items + [ToolMessage(results[i].toolCallId, encode(results[i].toolResult))];
      i := i + 1;
      assert ResultMessages(results[..i], encode) == ResultMessages(results[..i - 1], encode) + [ToolMessage(results[i - 1].toolCallId, encode(results[i - 1].toolResult))];
    }
    assert results[..i] == results;
  }
}
