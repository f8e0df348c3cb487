/** The shapes that travel between the agent and its LLM provider: tool
    calls, stream chunks, tool schemas and chat messages
    (`llm/base.py` and the dicts built in `llm/groq.py`). */
module LlmBase {
  import opened Wrappers
  import opened JsonValue

  /** `{"id", "type", "function": {"name", "arguments"}}`; `arguments` is the
      JSON-encoded argument object, as it arrives on the wire. */
  datatype ToolCall = ToolCall(id: string, kind: string, name: string, arguments: string)

  /** `StreamChunk(content, tool_calls, is_final)`; `None` is Python's `None`. */
  datatype StreamChunk = StreamChunk(content: Option<string>, toolCalls: Option<seq<ToolCall>>, isFinal: bool)

  /** `{"type": "function", "function": {"name", "description", "parameters"}}` */
  datatype ToolSchema = ToolSchema(name: string, description: string, parameters: Json)

  /** The message dicts sent to the provider. */
  datatype Message =
      /** `{"role", "content"}` */
    | Plain(role: string, content: string)
      /** `{"role": "assistant", "content", "tool_calls"}` */
    | AssistantToolCalls(reply: Option<string>, calls: seq<ToolCall>)
      /** `{"role": "tool", "tool_call_id", "content"}` */
    | ToolMessage(toolCallId: string, content: string)

  /** The dict `generate` returns; `None` in a field means the key is absent. */
  datatype GenerateResponse = GenerateResponse(role: string, content: Option<string>, toolCalls: Option<seq<ToolCall>>)

  /** `response["tool_calls"]` present and non-empty. */
  predicate HasToolCalls(r: GenerateResponse) {
    r.toolCalls.Some? && r.toolCalls.value != []
  }

  function Names(tools: seq<ToolSchema>): seq<string> {
    seq(|tools|, i requires 0 <= i < |tools| => tools[i].name)
  }
}
