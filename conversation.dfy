/** The agent's turn loop (`conversation.py`): the provider is asked for a
    reply with the tools currently offered; a reply with tool calls is
    recorded as an assistant message, its calls are answered by the five
    batch handlers, and the provider is asked again, at most
    `MaxToolIterations` times per turn. The provider, the host and the JSON
    codec are the fields of `Host`. */
module Conversation {
  import opened Wrappers
  import opened Text
  import opened PyDict
  import opened JsonValue
  import opened LlmBase
  import opened StreamingBuffer
  import opened ResponseProcessor
  import opened Storage
  import opened ConversationManager
  import opened AgentHandlers
  import opened ToolHandlers

  const MaxToolIterations: nat := 5

  const Fallback: string := "I encountered an issue processing your request."

  /** Everything outside the agent that a turn talks to. */
  datatype Host = Host(
    /** `provider.generate(messages, tools)` */
    generate: (seq<Message>, seq<ToolSchema>) -> GenerateResponse,
    /** the chunks of `provider.generate_stream_with_tools(messages, tools)` */
    stream: (seq<Message>, seq<ToolSchema>) -> seq<StreamChunk>,
    /** `tool_manager.query_tools(domain)` as `_handle_query_tools` sees it */
    query: Json -> Result<seq<ToolSchema>, string>,
    /** `_handle_music_tool(name, arguments)` */
    music: (string, Json) -> Json,
    /** the host running tool inputs and yielding their results */
    runTools: seq<ToolInput> -> seq<HostResult>,
    decode: string -> Option<Json>,
    encode: Json -> string,
    show: Json -> string)

  // ---------------------------------------------------------------------
  // The shape of what a turn appends to the message list

  /** The assistant messages among `ms`, in order. */
  function Assistants(ms: seq<Message>): seq<Message>
    decreases |ms|
  {
    if ms == [] then []
    else
      var n := |ms| - 1;
      Assistants(ms[..n]) + if ms[n].AssistantToolCalls? then [ms[n]] else []
  }

  /** What the tool rounds of a turn appended: each round is one assistant
      message followed by tool messages, and the assistant messages are
      `rounds`, in order. */
  ghost predicate ToolRounds(appended: seq<Message>, rounds: seq<Message>) {
    (appended != [] ==> appended[0].AssistantToolCalls?) &&
    (forall k :: 0 <= k < |appended| ==> appended[k].AssistantToolCalls? || appended[k].ToolMessage?) &&
    Assistants(appended) == rounds
  }

  lemma {:induction false} AssistantsOfToolMessages(a: seq<Message>, t: seq<Message>)
    requires forall k :: 0 <= k < |t| ==> t[k].ToolMessage?
    ensures Assistants(a + t) == Assistants(a)
    decreases |t|
  {
    if t != [] {
      var n := |t| - 1;
      assert (a + t)[..|a + t| - 1] == a + t[..n];
      AssistantsOfToolMessages(a, t[..n]);
    } else {
      assert a + t == a;
    }
  }

  /** One more round keeps the shape and records its assistant message. */
  lemma {:induction false} ToolRoundsExtend(appended: seq<Message>, rounds: seq<Message>, m: Message, t: seq<Message>)
    requires ToolRounds(appended, rounds)
    requires m.AssistantToolCalls?
    requires forall k :: 0 <= k < |t| ==> t[k].ToolMessage?
    ensures ToolRounds(appended + [m] + t, rounds + [m])
  {
    assert (appended + [m])[..|appended|] == appended;
    AssistantsOfToolMessages(appended + [m], t);
  }

  // ---------------------------------------------------------------------
  // One tool round

  /** `a` is a prefix of `b`. */
  ghost predicate Prefix<T>(a: seq<T>, b: seq<T>) {
    |a| <= |b| && b[..|a|] == a
  }

  lemma {:induction false} PrefixTrans<T>(a: seq<T>, b: seq<T>, c: seq<T>)
    requires Prefix(a, b) && Prefix(b, c)
    ensures Prefix(a, c)
  {
    assert c[..|a|] == c[..|b|][..|a|];
  }

  /** The five batch handlers run in order over the categorised calls;
      `content` is the assistant text the host records with its own tool
      calls. `ok` is false when a handler raised; the later handlers are
      then not run. The tool list, the message list and the host's chat log
      only grow, and the messages added are tool results. */
  method HandleToolCalls(calls: seq<ToolCall>, content: string, toolSet: ToolSet, messages: MessageLog,
                         chatLog: ChatLog, store: FactStore, host: Host)
    returns (ok: bool)
    requires store.Valid()
    modifies toolSet, messages, chatLog, store
    ensures store.Valid()
    ensures ExtendedWithToolMessages(old(messages.items), messages.items)
    ensures Prefix(old(toolSet.tools), toolSet.tools)
    ensures Prefix(old(chatLog.entries), chatLog.entries)
  {
    var queryTools, queryFacts, learnFact, music, homeAssistant := CategorizeToolCalls(calls);
    ghost var m0 := messages.items;
    ghost var c0 := chatLog.entries;
    ok := HandleQueryToolsCalls(queryTools, toolSet, messages, chatLog, host.query, host.decode, host.encode, host.show);
    if !ok {
      return;
    }
    ghost var m1 := messages.items;
    ghost var c1 := chatLog.entries;
    ok := HandleQueryFactsCalls(queryFacts, store, messages, chatLog, host.decode, host.encode, host.show);
    ExtendedTrans(m0, m1, messages.items);
    PrefixTrans(c0, c1, chatLog.entries);
    if !ok {
      return;
    }
    ghost var m2 := messages.items;
    ghost var c2 := chatLog.entries;
    ok := HandleLearnFactCalls(learnFact, store, messages, chatLog, host.decode, host.encode, host.show);
    ExtendedTrans(m0, m2, messages.items);
    PrefixTrans(c0, c2, chatLog.entries);
    if !ok {
      return;
    }
    ghost var m3 := messages.items;
    ghost var c3 := chatLog.entries;
    ok := HandleMusicToolCalls(music, messages, chatLog, host.music, host.decode, host.encode, host.show);
    ExtendedTrans(m0, m3, messages.items);
    PrefixTrans(c0, c3, chatLog.entries);
    if !ok {
      return;
    }
    ghost var m4 := messages.items;
    ghost var c4 := chatLog.entries;
    HandleHaToolCalls(homeAssistant, messages, chatLog, content, host.runTools, host.decode, host.encode);
    ExtendedTrans(m0, m4, messages.items);
    assert Prefix(c4, chatLog.entries);
    PrefixTrans(c0, c4, chatLog.entries);
  }

  /** The assistant message recorded for a reply with tool calls. */
  function RoundMessage(r: GenerateResponse): Message
    requires r.toolCalls.Some?
  {
    AssistantToolCalls(r.content, r.toolCalls.value)
  }

  /** The assistant messages the replies `rs` put in the history: one per
      reply with tool calls, in order. */
  function RoundMessages(rs: seq<GenerateResponse>): seq<Message>
    decreases |rs|
  {
    if rs == [] then []
    else
      var n := |rs| - 1;
      RoundMessages(rs[..n]) + if HasToolCalls(rs[n]) then [RoundMessage(rs[n])] else []
  }

  /** A request made after the rounds of `rs`: the turn's starting messages,
      then exactly those rounds. */
  ghost predicate CarriesRounds(m0: seq<Message>, request: seq<Message>, rounds: seq<Message>) {
    Prefix(m0, request) && ToolRounds(request[|m0|..], rounds)
  }

  lemma {:induction false} ToolRoundsEmpty(m0: seq<Message>)
    ensures CarriesRounds(m0, m0, [])
  {
    assert m0[|m0|..] == [];
  }

  /** Appending one round's assistant message and its tool results keeps
      the history in shape. */
  lemma {:induction false} CarriesNextRound(m0: seq<Message>, before: seq<Message>, rounds: seq<Message>, m: Message, after: seq<Message>)
    requires CarriesRounds(m0, before, rounds)
    requires m.AssistantToolCalls?
    requires ExtendedWithToolMessages(before + [m], after)
    ensures CarriesRounds(m0, after, rounds + [m])
  {
    var t := after[|before| + 1..];
    assert after == before + [m] + t;
    forall k | 0 <= k < |t| ensures t[k].ToolMessage? {
      assert t[k] == after[|before| + 1 + k];
    }
    assert after[|m0|..] == before[|m0|..] + [m] + t;
    ToolRoundsExtend(before[|m0|..], rounds, m, t);
    assert after[..|m0|] == before[..|m0|];
  }

  /** The replies of a turn so far, one request at a time: the last reply
      answered the last request, which carried the turn's starting messages
      `m0` followed by exactly the rounds of the replies before it, with the
      starting tools `t0` still in front; the first request carried `m0`
      and `t0` themselves, and every earlier reply asked for tools. */
  ghost predicate Turn(answer: (seq<Message>, seq<ToolSchema>) -> GenerateResponse, m0: seq<Message>, t0: seq<ToolSchema>,
                       requests: seq<(seq<Message>, seq<ToolSchema>)>, responses: seq<GenerateResponse>)
    decreases |responses|
  {
    1 <= |responses| && |requests| == |responses| &&
    var n := |responses| - 1;
    responses[n] == answer(requests[n].0, requests[n].1) &&
    CarriesRounds(m0, requests[n].0, RoundMessages(responses[..n])) && Prefix(t0, requests[n].1) &&
    if n == 0 then requests[0] == (m0, t0)
    else HasToolCalls(responses[n - 1]) && Turn(answer, m0, t0, requests[..n], responses[..n])
  }

  /** What a turn amounts to, reply by reply: `responses[j]` answered
      `requests[j]`, the first request carried `m0` and `t0`, every reply
      but the last asked for tools, and the request after `j` replies
      carried exactly their rounds, with the starting tools in front. */
  lemma {:induction false} TurnMeans(answer: (seq<Message>, seq<ToolSchema>) -> GenerateResponse, m0: seq<Message>, t0: seq<ToolSchema>,
                                     requests: seq<(seq<Message>, seq<ToolSchema>)>, responses: seq<GenerateResponse>)
    requires Turn(answer, m0, t0, requests, responses)
    ensures 1 <= |responses| && |requests| == |responses| && requests[0] == (m0, t0)
    ensures forall j :: 0 <= j < |responses| ==> responses[j] == answer(requests[j].0, requests[j].1)
    ensures forall j :: 0 <= j < |responses| - 1 ==> HasToolCalls(responses[j])
    ensures forall j :: 0 <= j < |requests| ==>
      CarriesRounds(m0, requests[j].0, RoundMessages(responses[..j])) && Prefix(t0, requests[j].1)
  {
    TurnFirst(answer, m0, t0, requests, responses);
    TurnAnswers(answer, m0, t0, requests, responses);
    TurnAsksTools(answer, m0, t0, requests, responses);
    TurnCarries(answer, m0, t0, requests, responses);
  }

  /** The first request of a turn carried `m0` and `t0`. */
  lemma {:induction false} TurnFirst(answer: (seq<Message>, seq<ToolSchema>) -> GenerateResponse, m0: seq<Message>, t0: seq<ToolSchema>,
                                     requests: seq<(seq<Message>, seq<ToolSchema>)>, responses: seq<GenerateResponse>)
    requires Turn(answer, m0, t0, requests, responses)
    ensures requests[0] == (m0, t0)
    decreases |responses|
  {
    var n := |responses| - 1;
    if n > 0 {
      TurnFirst(answer, m0, t0, requests[..n], responses[..n]);
      assert requests[..n][0] == requests[0];
    }
  }

  /** Every reply of a turn answered its request. */
  lemma {:induction false} TurnAnswers(answer: (seq<Message>, seq<ToolSchema>) -> GenerateResponse, m0: seq<Message>, t0: seq<ToolSchema>,
                                     requests: seq<(seq<Message>, seq<ToolSchema>)>, responses: seq<GenerateResponse>)
    requires Turn(answer, m0, t0, requests, responses)
    ensures forall j :: 0 <= j < |responses| ==> responses[j] == answer(requests[j].0, requests[j].1)
    decreases |responses|
  {
    var n := |responses| - 1;
    if n > 0 {
      var rq := requests[..n];
      var rs := responses[..n];
      TurnAnswers(answer, m0, t0, rq, rs);
      forall j | 0 <= j < n
        ensures responses[j] == answer(requests[j].0, requests[j].1)
      {
        assert rq[j] == requests[j] && rs[j] == responses[j];
      }
    }
  }

  /** Every reply of a turn but the last asked for tools. */
  lemma {:induction false} TurnAsksTools(answer: (seq<Message>, seq<ToolSchema>) -> GenerateResponse, m0: seq<Message>, t0: seq<ToolSchema>,
                                     requests: seq<(seq<Message>, seq<ToolSchema>)>, responses: seq<GenerateResponse>)
    requires Turn(answer, m0, t0, requests, responses)
    ensures forall j :: 0 <= j < |responses| - 1 ==> HasToolCalls(responses[j])
    decreases |responses|
  {
    var n := |responses| - 1;
    if n > 0 {
      var rs := responses[..n];
      TurnAsksTools(answer, m0, t0, requests[..n], rs);
      forall j | 0 <= j < n - 1
        ensures HasToolCalls(responses[j])
      {
        assert rs[j] == responses[j];
      }
    }
  }

  /** The request after `j` replies carried exactly their rounds, with the
      starting tools in front. */
  lemma {:induction false} TurnCarries(answer: (seq<Message>, seq<ToolSchema>) -> GenerateResponse, m0: seq<Message>, t0: seq<ToolSchema>,
                                     requests: seq<(seq<Message>, seq<ToolSchema>)>, responses: seq<GenerateResponse>)
    requires Turn(answer, m0, t0, requests, responses)
    ensures forall j :: 0 <= j < |requests| ==>
      CarriesRounds(m0, requests[j].0, RoundMessages(responses[..j])) && Prefix(t0, requests[j].1)
    decreases |responses|
  {
    var n := |responses| - 1;
    if n > 0 {
      var rq := requests[..n];
      var rs := responses[..n];
      TurnCarries(answer, m0, t0, rq, rs);
      forall j | 0 <= j < n
        ensures CarriesRounds(m0, requests[j].0, RoundMessages(responses[..j])) && Prefix(t0, requests[j].1)
      {
        assert rq[j] == requests[j];
        assert rs[..j] == responses[..j];
      }
    }
  }

  lemma {:induction false} TurnStart(answer: (seq<Message>, seq<ToolSchema>) -> GenerateResponse,
                                     m0: seq<Message>, t0: seq<ToolSchema>)
    ensures Turn(answer, m0, t0, [(m0, t0)], [answer(m0, t0)])
  {
    ToolRoundsEmpty(m0);
    assert [answer(m0, t0)][..0] == [];
  }

  /** Asking again after a tool round extends the turn. */
  lemma {:induction false} TurnStep(answer: (seq<Message>, seq<ToolSchema>) -> GenerateResponse, m0: seq<Message>, t0: seq<ToolSchema>,
                 requests: seq<(seq<Message>, seq<ToolSchema>)>, responses: seq<GenerateResponse>,
                 request: (seq<Message>, seq<ToolSchema>))
    requires Turn(answer, m0, t0, requests, responses)
    requires HasToolCalls(responses[|responses| - 1])
    requires CarriesRounds(m0, request.0, RoundMessages(responses)) && Prefix(t0, request.1)
    ensures Turn(answer, m0, t0, requests + [request], responses + [answer(request.0, request.1)])
  {
    var rq := requests + [request];
    var rs := responses + [answer(request.0, request.1)];
    var n := |responses|;
    assert rq[..n] == requests && rs[..n] == responses;
  }

  /** The rounds recorded after the last reply. */
  lemma {:induction false} TurnRounds(responses: seq<GenerateResponse>)
    requires responses != []
    ensures var n := |responses| - 1;
      RoundMessages(responses) ==
        RoundMessages(responses[..n]) + if HasToolCalls(responses[n]) then [RoundMessage(responses[n])] else []
  {
  }

  /** A turn that ends with a reply without tool calls: its last request
      carried the rounds of all its replies. */
  lemma TurnEndsCarrying(answer: (seq<Message>, seq<ToolSchema>) -> GenerateResponse, m0: seq<Message>, t0: seq<ToolSchema>,
                         requests: seq<(seq<Message>, seq<ToolSchema>)>, replies: seq<GenerateResponse>)
    requires Turn(answer, m0, t0, requests, replies) && !HasToolCalls(replies[|replies| - 1])
    ensures CarriesRounds(m0, requests[|requests| - 1].0, RoundMessages(replies))
  {
    TurnRounds(replies);
  }

  /** One tool round of either loop: the last reply of the turn asked for
      tools; its assistant message is appended, then its calls are handled.
      The message list then carries the rounds of every reply so far, and
      the tool list still starts with the turn's starting tools. */
  method ToolRound(toolSet: ToolSet, messages: MessageLog, chatLog: ChatLog, store: FactStore, host: Host,
                   ghost answer: (seq<Message>, seq<ToolSchema>) -> GenerateResponse, ghost m0: seq<Message>,
                   ghost t0: seq<ToolSchema>, ghost requests: seq<(seq<Message>, seq<ToolSchema>)>,
                   response: GenerateResponse, ghost replies: seq<GenerateResponse>)
    returns (ok: bool)
    requires store.Valid()
    requires Turn(answer, m0, t0, requests, replies)
    requires requests[|requests| - 1] == (messages.items, toolSet.tools)
    requires response == replies[|replies| - 1] && HasToolCalls(response)
    modifies toolSet, messages, chatLog, store
    ensures store.Valid()
    ensures CarriesRounds(m0, messages.items, RoundMessages(replies)) && Prefix(t0, toolSet.tools)
    ensures Prefix(old(chatLog.entries), chatLog.entries)
  {
    var n := |replies| - 1;
    TurnRounds(replies);
    ghost var rounds := RoundMessages(replies[..n]);
    assert CarriesRounds(m0, messages.items, rounds) && Prefix(t0, toolSet.tools);
    messages.items := messages.items + [RoundMessage(response)];
    ok := HandleToolCalls(response.toolCalls.value, response.content.GetOr(""), toolSet, messages, chatLog, store, host);
    CarriesNextRound(m0, old(messages.items), rounds, RoundMessage(response), messages.items);
    PrefixTrans(t0, old(toolSet.tools), toolSet.tools);
  }

  /** `_process_with_tools`: `reply` is the final text, or `None` when a tool
      handler raised. The ghost `responses` are the provider's replies, in
      order, each to the message list and tool list in `requests`. */
  method ProcessWithTools(toolSet: ToolSet, messages: MessageLog, chatLog: ChatLog, store: FactStore, host: Host)
    returns (reply: Option<string>, ghost requests: seq<(seq<Message>, seq<ToolSchema>)>,
             ghost responses: seq<GenerateResponse>)
    requires store.Valid()
    modifies toolSet, messages, chatLog, store
    ensures store.Valid()
    ensures Turn(host.generate, old(messages.items), old(toolSet.tools), requests, responses)
    ensures |responses| <= MaxToolIterations
    ensures var last := responses[|responses| - 1];
      (!HasToolCalls(last) ==> reply == Some(last.content.GetOr(""))) &&
      (HasToolCalls(last) && reply.Some? ==> |responses| == MaxToolIterations && reply.value == last.content.GetOr(Fallback))
    ensures CarriesRounds(old(messages.items), messages.items, RoundMessages(responses))
    ensures Prefix(old(chatLog.entries), chatLog.entries)
  {
    ghost var m0 := messages.items;
    ghost var t0 := toolSet.tools;
    ghost var c0 := chatLog.entries;
    requests, responses := [], [];
    var response := GenerateResponse("assistant", None, None);
    var iteration := 0;
    while iteration < MaxToolIterations
      invariant 0 <= iteration <= MaxToolIterations
      invariant store.Valid()
      invariant |responses| == iteration
      invariant NextRequest(host.generate, m0, t0, requests, responses, (messages.items, toolSet.tools))
      invariant iteration > 0 ==> response == responses[iteration - 1]
      invariant Prefix(c0, chatLog.entries)
    {
      var request := (messages.items, toolSet.tools);
      response := host.generate(messages.items, toolSet.tools);
      if responses == [] {
        TurnStart(host.generate, m0, t0);
      } else {
        TurnStep(host.generate, m0, t0, requests, responses, request);
      }
      requests := requests + [request];
      responses := responses + [response];
      if !HasToolCalls(response) {
        TurnEndsCarrying(host.generate, m0, t0, requests, responses);
        reply := Some(response.content.GetOr(""));
        break;
      }
      ghost var beforeLog := chatLog.entries;
      var ok := ToolRound(toolSet, messages, chatLog, store, host, host.generate, m0, t0, requests, response, responses);
      PrefixTrans(c0, beforeLog, chatLog.entries);
      if !ok {
        reply := None;
        break;
      }
      iteration := iteration + 1;
    }
    if iteration == MaxToolIterations {
      reply := Some(response.content.GetOr(Fallback));
    }
  }

  // ---------------------------------------------------------------------
  // The streaming loop

  /** What one streamed iteration amounts to, as the message dict the loop
      works with: the processor's accumulated text and its tool calls. */
  function StreamReply(marker: string, chunks: seq<StreamChunk>): GenerateResponse {
    var st := Run(marker, Initial, chunks).0;
    GenerateResponse("assistant", Some(st.accumulated), st.toolCalls)
  }

  /** The provider's streams seen through a fresh processor each time. */
  function Streamed(marker: string, host: Host): (seq<Message>, seq<ToolSchema>) -> GenerateResponse {
    (m: seq<Message>, t: seq<ToolSchema>) => StreamReply(marker, host.stream(m, t))
  }

  /** Everything `process_chunks` yields for one stream: the deltas of its
      loop, then the flush of a held partial marker. */
  function StreamOut(marker: string, chunks: seq<StreamChunk>): seq<string> {
    var (st, out) := Run(marker, Initial, chunks);
    out + Flush(st)
  }

  /** The deltas of the streams answering `requests`, in order. */
  function Yielded(marker: string, host: Host, requests: seq<(seq<Message>, seq<ToolSchema>)>): seq<string>
    decreases |requests|
  {
    if requests == [] then []
    else
      var n := |requests| - 1;
      Yielded(marker, host, requests[..n]) + StreamOut(marker, host.stream(requests[n].0, requests[n].1))
  }

  lemma {:induction false} YieldedNext(marker: string, host: Host, requests: seq<(seq<Message>, seq<ToolSchema>)>,
                                       request: (seq<Message>, seq<ToolSchema>))
    ensures Yielded(marker, host, requests + [request]) ==
      Yielded(marker, host, requests) + StreamOut(marker, host.stream(request.0, request.1))
  {
    assert (requests + [request])[..|requests|] == requests;
  }

  /** The start of one streaming iteration: a fresh processor consumes the
      provider's stream for the current messages and tools. */
  method StreamOnce(marker: string, messages: MessageLog, toolSet: ToolSet, host: Host)
    returns (processor: StreamingBufferProcessor, out: seq<string>, response: GenerateResponse)
    ensures fresh(processor) && processor.marker == marker
    ensures processor.State() == Run(marker, Initial, host.stream(messages.items, toolSet.tools)).0
    ensures out == StreamOut(marker, host.stream(messages.items, toolSet.tools))
    ensures response == Streamed(marker, host)(messages.items, toolSet.tools)
  {
    processor := new StreamingBufferProcessor(marker);
    var chunks := host.stream(messages.items, toolSet.tools);
    out := processor.ProcessChunks(chunks);
    var result := processor.GetResult();
    response := GenerateResponse("assistant", Some(result.accumulatedContent), result.toolCalls);
  }

  /** What the next request of a turn must be: the starting messages and
      tools when nothing was asked yet, else, after a reply that asked for
      tools, a message list carrying the rounds of every reply so far and a
      tool list that starts with the starting tools. */
  ghost predicate NextRequest(answer: (seq<Message>, seq<ToolSchema>) -> GenerateResponse, m0: seq<Message>,
                              t0: seq<ToolSchema>, requests: seq<(seq<Message>, seq<ToolSchema>)>,
                              replies: seq<GenerateResponse>, request: (seq<Message>, seq<ToolSchema>))
  {
    if replies == [] then requests == [] && request == (m0, t0)
    else
      Turn(answer, m0, t0, requests, replies) && HasToolCalls(replies[|replies| - 1]) &&
      CarriesRounds(m0, request.0, RoundMessages(replies)) && Prefix(t0, request.1)
  }

  /** The start of an iteration of the streaming loop: a fresh processor
      consumes the stream for the current messages and tools, and the turn
      gains that request and its reply. */
  method StreamStep(marker: string, messages: MessageLog, toolSet: ToolSet, host: Host,
                    ghost m0: seq<Message>, ghost t0: seq<ToolSchema>,
                    ghost requests: seq<(seq<Message>, seq<ToolSchema>)>, ghost replies: seq<GenerateResponse>)
    returns (processor: StreamingBufferProcessor, out: seq<string>, response: GenerateResponse,
             ghost requests': seq<(seq<Message>, seq<ToolSchema>)>, ghost replies': seq<GenerateResponse>)
    requires NextRequest(Streamed(marker, host), m0, t0, requests, replies, (messages.items, toolSet.tools))
    ensures requests' == requests + [(messages.items, toolSet.tools)] && replies' == replies + [response]
    ensures Turn(Streamed(marker, host), m0, t0, requests', replies')
    ensures response.content.Some?
    ensures fresh(processor) && processor.marker == marker
    ensures processor.State() == LastStream(marker, host, requests')
    ensures Yielded(marker, host, requests') == Yielded(marker, host, requests) + out
  {
    var request := (messages.items, toolSet.tools);
    processor, out, response := StreamOnce(marker, messages, toolSet, host);
    YieldedNext(marker, host, requests, request);
    if replies == [] {
      TurnStart(Streamed(marker, host), m0, t0);
    } else {
      TurnStep(Streamed(marker, host), m0, t0, requests, replies, request);
    }
    requests' := requests + [request];
    replies' := replies + [response];
  }

  /** The processor's state after the last stream. */
  function LastStream(marker: string, host: Host, requests: seq<(seq<Message>, seq<ToolSchema>)>): BufferState
    requires requests != []
  {
    var request := requests[|requests| - 1];
    Run(marker, Initial, host.stream(request.0, request.1)).0
  }

  /** `_stream_response_with_tools`: `deltas` are the content deltas
      yielded, `held` is `original_content_holder`, and `completed` is false
      when a tool handler raised. Each iteration streams through a fresh
      `StreamingBufferProcessor`; the iterations follow the same history
      rule as the blocking loop, with each stream's accumulated text and
      tool calls in place of a reply. A stream without tool calls ends the
      turn with its `finalize_response` delta; at the cap the fallback text
      is yielded. */
  method StreamResponseWithTools(marker: string, toolSet: ToolSet, messages: MessageLog, chatLog: ChatLog,
                                 store: FactStore, host: Host)
    returns (deltas: seq<string>, held: seq<string>, completed: bool,
             ghost requests: seq<(seq<Message>, seq<ToolSchema>)>, ghost replies: seq<GenerateResponse>)
    requires store.Valid()
    modifies toolSet, messages, chatLog, store
    ensures store.Valid()
    ensures Turn(Streamed(marker, host), old(messages.items), old(toolSet.tools), requests, replies)
    ensures |replies| <= MaxToolIterations
    ensures replies[|replies| - 1].content.Some?
    ensures !HasToolCalls(replies[|replies| - 1]) ==>
      completed && held == [replies[|replies| - 1].content.value] &&
      deltas == Yielded(marker, host, requests) + FinalizeDeltas(marker, LastStream(marker, host, requests))
    ensures HasToolCalls(replies[|replies| - 1]) && completed ==>
      |replies| == MaxToolIterations &&
      held == (if replies[|replies| - 1].content.value != [] then [replies[|replies| - 1].content.value] else []) &&
      deltas == Yielded(marker, host, requests) + [Fallback]
    ensures !completed ==> held == [] && deltas == Yielded(marker, host, requests)
    ensures CarriesRounds(old(messages.items), messages.items, RoundMessages(replies))
    ensures Prefix(old(chatLog.entries), chatLog.entries)
  {
    ghost var m0 := messages.items;
    ghost var t0 := toolSet.tools;
    ghost var c0 := chatLog.entries;
    ghost var answer := Streamed(marker, host);
    deltas, held, requests, replies := [], [], [], [];
    var response := GenerateResponse("assistant", Some([]), None);
    var iteration := 0;
    while iteration < MaxToolIterations
      invariant 0 <= iteration <= MaxToolIterations
      invariant store.Valid()
      invariant |replies| == iteration && held == []
      invariant NextRequest(answer, m0, t0, requests, replies, (messages.items, toolSet.tools))
      invariant iteration > 0 ==> response == replies[iteration - 1] && response.content.Some?
      invariant deltas == Yielded(marker, host, requests)
      invariant Prefix(c0, chatLog.entries)
    {
      var processor, out;
      processor, out, response, requests, replies := StreamStep(marker, messages, toolSet, host, m0, t0, requests, replies);
      deltas := deltas + out;
      if !HasToolCalls(response) {
        TurnEndsCarrying(answer, m0, t0, requests, replies);
        held := [response.content.value];
        var finish := processor.FinalizeResponse();
        deltas := deltas + finish;
        completed := true;
        break;
      }
      ghost var beforeLog := chatLog.entries;
      var ok := ToolRound(toolSet, messages, chatLog, store, host, answer, m0, t0, requests, response, replies);
      PrefixTrans(c0, beforeLog, chatLog.entries);
      if !ok {
        completed := false;
        break;
      }
      iteration := iteration + 1;
    }
    if iteration == MaxToolIterations {
      if response.content.value != [] {
        held := [response.content.value];
      }
      deltas := deltas + [Fallback];
      completed := true;
    }
  }

  /** The rounds of a turn whose replies all asked for tools but perhaps the
      last: one assistant message per such reply, in order. */
  lemma {:induction false} RoundsOfTurn(rs: seq<GenerateResponse>)
    requires forall j :: 0 <= j < |rs| - 1 ==> HasToolCalls(rs[j])
    ensures |RoundMessages(rs)| == (if rs != [] && !HasToolCalls(rs[|rs| - 1]) then |rs| - 1 else |rs|)
    ensures forall j :: 0 <= j < |RoundMessages(rs)| ==> HasToolCalls(rs[j]) && RoundMessages(rs)[j] == RoundMessage(rs[j])
    decreases |rs|
  {
    if rs != [] {
      var n := |rs| - 1;
      RoundsOfTurn(rs[..n]);
      assert forall j :: 0 <= j < |rs[..n]| ==> rs[..n][j] == rs[j];
    }
  }

  // ---------------------------------------------------------------------
  // The request

  /** `_build_messages`: the system message, then the global session's
      turns in order. Listening instructions are added to the prompt
      exactly when auto-continue is off. */
  /** The system prompt sent: the configured one as it is when
      auto-continue is on, else with the listening instructions appended. */
  function SystemMessageText(marker: string, systemPrompt: string, autoContinue: bool): (p: string)
    ensures p == systemPrompt <==> autoContinue
    ensures StartsWith(p, systemPrompt)
    ensures !autoContinue ==> Contains(p, marker)
  {
    if autoContinue then systemPrompt else AddListeningInstructions(marker, systemPrompt)
  }

  /** Put in front of a sequence, an element comes first and every other
      element moves up by one. */
  lemma AfterFirst<T>(x: T, t: seq<T>)
    ensures |[x] + t| == |t| + 1 && ([x] + t)[0] == x
    ensures forall i :: 0 <= i < |t| ==> ([x] + t)[i + 1] == t[i]
  {
  }

  /** Each session turn as a plain chat message. */
  function TurnMessages(turns: seq<ChatTurn>): (r: seq<Message>)
    ensures |r| == |turns|
    ensures forall i :: 0 <= i < |turns| ==> r[i] == Plain(turns[i].role, turns[i].content)
  {
    seq(|turns|, i requires 0 <= i < |turns| => Plain(turns[i].role, turns[i].content))
  }

  function BuildMessages(marker: string, systemPrompt: string, autoContinue: bool, turns: seq<ChatTurn>)
    : (r: seq<Message>)
    ensures |r| == |turns| + 1
    ensures r[0].Plain?
    ensures r[0].role == "system"
    ensures forall i :: 0 <= i < |turns| ==> r[i + 1] == Plain(turns[i].role, turns[i].content)
    ensures r[0].content == systemPrompt <==> autoContinue
    ensures StartsWith(r[0].content, systemPrompt)
    ensures !autoContinue ==> Contains(r[0].content, marker)
  {
    var prompt := SystemMessageText(marker, systemPrompt, autoContinue);
    AfterFirst(Plain("system", prompt), TurnMessages(turns));
    [Plain("system", prompt)] + TurnMessages(turns)
  }
}
