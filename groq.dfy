/** The Groq provider (`llm/groq.py`): the request it sends, the shaping of
    a blocking reply, the key check, and the streaming generator that turns
    the API's chunks into `StreamChunk`s while it accumulates tool-call
    fragments by index.

    The API is reached through values: a blocking call's outcome is an
    `ApiOutcome`, and a stream is the sequence of `ApiChunk`s it delivers. */
module Groq {
  import opened Wrappers
  import opened Text
  import opened LlmBase

  // ---------------------------------------------------------------------
  // The API's side

  /** `tc_delta.function`: fragments of a tool call's name and arguments. */
  datatype FunctionDelta = FunctionDelta(name: Option<string>, arguments: Option<string>)

  /** One entry of `delta.tool_calls`. */
  datatype ToolCallDelta = ToolCallDelta(index: nat, id: Option<string>, call: Option<FunctionDelta>)

  datatype Delta = Delta(content: Option<string>, toolCalls: Option<seq<ToolCallDelta>>)

  datatype Choice = Choice(delta: Delta, finishReason: Option<string>)

  /** A streamed `ChatCompletionChunk`. */
  datatype ApiChunk = ApiChunk(choices: seq<Choice>)

  /** `response.choices[0].message` of a blocking call. */
  datatype ApiMessage = ApiMessage(role: string, content: Option<string>, toolCalls: Option<seq<ToolCall>>)

  /** How an awaited API call ended. */
  datatype ApiOutcome<T> = Answered(value: T) | TimedOut | Raised(error: string)

  /** The exception `generate` re-raises. */
  datatype ApiFailure = Timeout | ApiError(message: string)

  // ---------------------------------------------------------------------
  // The request

  /** The keyword arguments of `chat.completions.create`; temperature is
      not modelled. */
  datatype Request = Request(
    model: string,
    messages: seq<Message>,
    maxTokens: int,
    stream: bool,
    tools: Option<seq<ToolSchema>>,
    toolChoice: Option<string>)

  /** The `kwargs` of `generate`, `generate_stream` and
      `generate_stream_with_tools`: tools and `tool_choice: "auto"` are
      sent only for a non-empty tool list. */
  function BuildRequest(model: string, messages: seq<Message>, maxTokens: int,
                        tools: Option<seq<ToolSchema>>, stream: bool): (r: Request)
    ensures r.tools.Some? <==> tools.Some? && tools.value != []
    ensures r.toolChoice.Some? <==> r.tools.Some?
    ensures r.tools.Some? ==> r.tools == tools && r.toolChoice == Some("auto")
    ensures r.model == model && r.messages == messages && r.maxTokens == maxTokens && r.stream == stream
  {
    var base := Request(model, messages, maxTokens, stream, None, None);
    if tools.Some? && tools.value != [] then base.(tools := tools, toolChoice := Some("auto")) else base
  }

  // ---------------------------------------------------------------------
  // Blocking calls

  /** `generate`: a missing or empty content becomes `""`, and the
      `tool_calls` key is present only when the message has tool calls; a
      timeout or an API error is re-raised. */
  function GenerateResult(outcome: ApiOutcome<ApiMessage>): (r: Result<GenerateResponse, ApiFailure>)
    ensures r.Success? <==> outcome.Answered?
    ensures outcome.TimedOut? ==> r == Failure(Timeout)
    ensures outcome.Raised? ==> r == Failure(ApiError(outcome.error))
    ensures r.Success? ==> r.value.role == outcome.value.role
    ensures r.Success? ==> r.value.content == Some(if outcome.value.content.Some? then outcome.value.content.value else "")
    ensures r.Success? ==> (r.value.toolCalls.Some? <==> outcome.value.toolCalls.Some? && outcome.value.toolCalls.value != [])
    ensures r.Success? && r.value.toolCalls.Some? ==> r.value.toolCalls == outcome.value.toolCalls
    ensures r.Success? ==> (HasToolCalls(r.value) <==> outcome.value.toolCalls.Some? && outcome.value.toolCalls.value != [])
  {
    match outcome
    case TimedOut => Failure(Timeout)
    case Raised(e) => Failure(ApiError(e))
    case Answered(m) =>
      var content := if m.content.Some? && m.content.value != [] then m.content.value else "";
      var calls := if m.toolCalls.Some? && m.toolCalls.value != [] then m.toolCalls else None;
      Success(GenerateResponse(m.role, Some(content), calls))
  }

  /** `validate_api_key`: true exactly when the one-token request was
      answered; a timeout or any error gives false instead of raising. */
  function ValidateApiKey(outcome: ApiOutcome<ApiMessage>): (valid: bool)
    ensures valid <==> outcome.Answered?
    ensures outcome.TimedOut? || outcome.Raised? ==> !valid
  {
    match outcome
    case Answered(_) => true
    case TimedOut => false
    case Raised(_) => false
  }

  // ---------------------------------------------------------------------
  // Accumulating tool-call fragments

  /** An entry of `accumulated_tool_calls`: the id so far and the name and
      argument fragments, joined only when the stream finishes. */
  datatype PartialCall = PartialCall(id: string, kind: string, nameParts: seq<string>, argumentParts: seq<string>)

  /** The placeholder appended for an index not seen yet. */
  const Placeholder: PartialCall := PartialCall("", "function", [], [])

  /** The `while len(accumulated_tool_calls) <= idx` loop: the list is
      padded with placeholders until `index` is a valid position. */
  function Pad(acc: seq<PartialCall>, index: nat): (r: seq<PartialCall>)
    ensures |r| == if index < |acc| then |acc| else index + 1
    ensures r[..|acc|] == acc
    ensures forall k :: |acc| <= k < |r| ==> r[k] == Placeholder
    decreases index + 1 - |acc|
  {
    if index < |acc| then acc else Pad(acc + [Placeholder], index)
  }

  /** The fragment a delta field contributes: nothing when it is empty. */
  function Fragment(s: Option<string>): seq<string> {
    if Given(s) then [s.value] else []
  }

  /** One `tc_delta` applied to the accumulator. */
  function ApplyDelta(acc: seq<PartialCall>, d: ToolCallDelta): seq<PartialCall> {
    var padded := Pad(acc, d.index);
    var p := padded[d.index];
    var withId := if Given(d.id) then p.(id := d.id.value) else p;
    var withFunction :=
      if d.call.Some? then
        withId.(nameParts := withId.nameParts + Fragment(d.call.value.name),
                argumentParts := withId.argumentParts + Fragment(d.call.value.arguments))
      else withId;
    padded[d.index := withFunction]
  }

  /** The deltas `ds` applied in arrival order. */
  function ApplyDeltas(acc: seq<PartialCall>, ds: seq<ToolCallDelta>): seq<PartialCall>
    decreases |ds|
  {
    if ds == [] then acc else ApplyDelta(ApplyDeltas(acc, ds[..|ds| - 1]), ds[|ds| - 1])
  }

  /** What the accumulator held at `i` before the deltas, or a placeholder. */
  function Before(acc: seq<PartialCall>, i: nat): PartialCall {
    if i < |acc| then acc[i] else Placeholder
  }

  /** The length of the accumulator after the deltas: one past the highest
      index seen, and never shorter than before. */
  function Width(acc: seq<PartialCall>, ds: seq<ToolCallDelta>): nat
    decreases |ds|
  {
    if ds == [] then |acc|
    else
      var w := Width(acc, ds[..|ds| - 1]);
      var idx := ds[|ds| - 1].index;
      if idx < w then w else idx + 1
  }

  /** The id at `i`: the last truthy id among the deltas for `i`. */
  function IdAt(acc: seq<PartialCall>, ds: seq<ToolCallDelta>, i: nat): string
    decreases |ds|
  {
    if ds == [] then Before(acc, i).id
    else
      var d := ds[|ds| - 1];
      if d.index == i && Given(d.id) then d.id.value else IdAt(acc, ds[..|ds| - 1], i)
  }

  /** The non-empty name fragments sent for index `i`, in arrival order. */
  function NameFragments(ds: seq<ToolCallDelta>, i: nat): seq<string>
    decreases |ds|
  {
    if ds == [] then []
    else
      var d := ds[|ds| - 1];
      NameFragments(ds[..|ds| - 1], i) + if d.index == i && d.call.Some? then Fragment(d.call.value.name) else []
  }

  /** The non-empty argument fragments sent for index `i`, in arrival order. */
  function ArgumentFragments(ds: seq<ToolCallDelta>, i: nat): seq<string>
    decreases |ds|
  {
    if ds == [] then []
    else
      var d := ds[|ds| - 1];
      ArgumentFragments(ds[..|ds| - 1], i) + if d.index == i && d.call.Some? then Fragment(d.call.value.arguments) else []
  }

  /** One delta: the list grows to cover its index, only its entry changes,
      the id is replaced only by a truthy id, and the fragments are
      appended. */
  lemma ApplyDeltaShape(acc: seq<PartialCall>, d: ToolCallDelta)
    ensures var r := ApplyDelta(acc, d);
      |r| == (if d.index < |acc| then |acc| else d.index + 1) &&
      (forall k :: 0 <= k < |r| && k != d.index ==> r[k] == Before(acc, k)) &&
      r[d.index].id == (if Given(d.id) then d.id.value else Before(acc, d.index).id) &&
      r[d.index].kind == Before(acc, d.index).kind &&
      r[d.index].nameParts ==
        Before(acc, d.index).nameParts + (if d.call.Some? then Fragment(d.call.value.name) else []) &&
      r[d.index].argumentParts ==
        Before(acc, d.index).argumentParts + (if d.call.Some? then Fragment(d.call.value.arguments) else [])
  {
    var padded := Pad(acc, d.index);
    forall k | 0 <= k < |padded|
      ensures padded[k] == Before(acc, k)
    {
      if k < |acc| {
        assert padded[k] == padded[..|acc|][k];
      }
    }
  }

  /** After any deltas, each entry holds the last truthy id sent for its
      index and all the non-empty fragments sent for it, in order, after
      what it held before. */
  lemma {:induction false} ApplyDeltasShape(acc: seq<PartialCall>, ds: seq<ToolCallDelta>)
    ensures |ApplyDeltas(acc, ds)| == Width(acc, ds)
    ensures forall i :: 0 <= i < Width(acc, ds) ==>
      ApplyDeltas(acc, ds)[i] ==
        PartialCall(IdAt(acc, ds, i), Before(acc, i).kind,
                    Before(acc, i).nameParts + NameFragments(ds, i),
                    Before(acc, i).argumentParts + ArgumentFragments(ds, i))
  {
    WidthIsLength(acc, ds);
    forall i | 0 <= i < Width(acc, ds)
      ensures ApplyDeltas(acc, ds)[i] ==
        PartialCall(IdAt(acc, ds, i), Before(acc, i).kind,
                    Before(acc, i).nameParts + NameFragments(ds, i),
                    Before(acc, i).argumentParts + ArgumentFragments(ds, i))
    {
      ApplyDeltasAt(acc, ds, i);
    }
  }

  /** The accumulator is exactly as wide as the highest index seen requires. */
  lemma {:induction false} WidthIsLength(acc: seq<PartialCall>, ds: seq<ToolCallDelta>)
    ensures |ApplyDeltas(acc, ds)| == Width(acc, ds)
    decreases |ds|
  {
    if ds != [] {
      var n := |ds| - 1;
      WidthIsLength(acc, ds[..n]);
      ApplyDeltaShape(ApplyDeltas(acc, ds[..n]), ds[n]);
    }
  }

  /** The entry at one index after one delta. */
  lemma ApplyDeltaAt(acc: seq<PartialCall>, d: ToolCallDelta, i: nat)
    requires i < |acc| || i <= d.index
    ensures i < |ApplyDelta(acc, d)|
    ensures ApplyDelta(acc, d)[i] ==
      if i != d.index then Before(acc, i)
      else PartialCall(if Given(d.id) then d.id.value else Before(acc, i).id, Before(acc, i).kind,
                       Before(acc, i).nameParts + (if d.call.Some? then Fragment(d.call.value.name) else []),
                       Before(acc, i).argumentParts + (if d.call.Some? then Fragment(d.call.value.arguments) else []))
  {
    ApplyDeltaShape(acc, d);
  }

  /** The entry at one index after the deltas. */
  lemma {:induction false} ApplyDeltasAt(acc: seq<PartialCall>, ds: seq<ToolCallDelta>, i: nat)
    requires i < Width(acc, ds)
    ensures i < |ApplyDeltas(acc, ds)|
    ensures ApplyDeltas(acc, ds)[i] ==
      PartialCall(IdAt(acc, ds, i), Before(acc, i).kind,
                  Before(acc, i).nameParts + NameFragments(ds, i),
                  Before(acc, i).argumentParts + ArgumentFragments(ds, i))
    decreases |ds|
  {
    WidthIsLength(acc, ds);
    if ds != [] {
      var n := |ds| - 1;
      var prev := ApplyDeltas(acc, ds[..n]);
      var d := ds[n];
      WidthIsLength(acc, ds[..n]);
      ApplyDeltaAt(prev, d, i);
      assert ApplyDeltas(acc, ds) == ApplyDelta(prev, d);
      var b := Before(prev, i);
      if i < |prev| {
        ApplyDeltasAt(acc, ds[..n], i);
        assert b == prev[i];
      } else {
        FragmentsBeyondWidth(acc, ds[..n], i);
        assert b == Placeholder;
      }
      assert b == PartialCall(IdAt(acc, ds[..n], i), Before(acc, i).kind,
                              Before(acc, i).nameParts + NameFragments(ds[..n], i),
                              Before(acc, i).argumentParts + ArgumentFragments(ds[..n], i));
      if i != d.index {
        assert ApplyDeltas(acc, ds)[i] == b;
        assert IdAt(acc, ds, i) == IdAt(acc, ds[..n], i);
        assert NameFragments(ds, i) == NameFragments(ds[..n], i) + [];
        assert ArgumentFragments(ds, i) == ArgumentFragments(ds[..n], i) + [];
      }
    }
  }

  /** Nothing has been sent for an index beyond the accumulator's width. */
  lemma {:induction false} FragmentsBeyondWidth(acc: seq<PartialCall>, ds: seq<ToolCallDelta>, i: nat)
    requires i >= Width(acc, ds)
    ensures NameFragments(ds, i) == [] && ArgumentFragments(ds, i) == []
    ensures IdAt(acc, ds, i) == "" && Before(acc, i) == Placeholder
    decreases |ds|
  {
    if ds != [] {
      FragmentsBeyondWidth(acc, ds[..|ds| - 1], i);
    }
  }

  /** The finalised list: fragments joined with `"".join`. */
  function Finalize(acc: seq<PartialCall>): (r: seq<ToolCall>)
    ensures |r| == |acc|
    ensures forall i :: 0 <= i < |acc| ==>
      r[i].id == acc[i].id && r[i].kind == acc[i].kind &&
      r[i].name == Concat(acc[i].nameParts) && r[i].arguments == Concat(acc[i].argumentParts)
  {
    seq(|acc|, i requires 0 <= i < |acc| =>
      ToolCall(acc[i].id, acc[i].kind, Concat(acc[i].nameParts), Concat(acc[i].argumentParts)))
  }

  /** The chunk emitted on a `finish_reason`. */
  function FinalChunk(acc: seq<PartialCall>): StreamChunk {
    StreamChunk(None, if acc != [] then Some(Finalize(acc)) else None, true)
  }

  // ---------------------------------------------------------------------
  // The streaming generator

  /** One iteration of the `async for` loop: the accumulator after the
      chunk and the chunks yielded for it. */
  function ChunkStep(acc: seq<PartialCall>, c: ApiChunk): (seq<PartialCall>, seq<StreamChunk>) {
    if c.choices == [] then (acc, [])
    else
      var choice := c.choices[0];
      var text := if Given(choice.delta.content) then [StreamChunk(choice.delta.content, None, false)] else [];
      var next :=
        if choice.delta.toolCalls.Some? && choice.delta.toolCalls.value != [] then ApplyDeltas(acc, choice.delta.toolCalls.value)
        else acc;
      var final := if Given(choice.finishReason) then [FinalChunk(next)] else [];
      (next, text + final)
  }

  /** The whole loop over the API's chunks. */
  function Emit(acc: seq<PartialCall>, chunks: seq<ApiChunk>): (seq<PartialCall>, seq<StreamChunk>)
    decreases |chunks|
  {
    if chunks == [] then (acc, [])
    else
      var (prev, out) := Emit(acc, chunks[..|chunks| - 1]);
      var (next, more) := ChunkStep(prev, chunks[|chunks| - 1]);
      (next, out + more)
  }

  /** The tool-call deltas the stream delivered, in order. */
  function StreamDeltas(chunks: seq<ApiChunk>): seq<ToolCallDelta>
    decreases |chunks|
  {
    if chunks == [] then []
    else
      var c := chunks[|chunks| - 1];
      StreamDeltas(chunks[..|chunks| - 1]) +
        if c.choices != [] && c.choices[0].delta.toolCalls.Some? then c.choices[0].delta.toolCalls.value else []
  }

  /** A yielded chunk is either a non-empty content delta or a final chunk
      with no content whose tool calls, when present, are not empty. */
  predicate WellFormedChunk(c: StreamChunk) {
    (Given(c.content) && c.toolCalls.None? && !c.isFinal) ||
    (c.content.None? && c.isFinal && (c.toolCalls.Some? ==> c.toolCalls.value != []))
  }

  lemma {:induction false} ApplyDeltasAppend(acc: seq<PartialCall>, a: seq<ToolCallDelta>, b: seq<ToolCallDelta>)
    ensures ApplyDeltas(acc, a + b) == ApplyDeltas(ApplyDeltas(acc, a), b)
    decreases |b|
  {
    if b == [] {
      assert a + b == a;
    } else {
      var n := |b| - 1;
      assert (a + b)[..|a + b| - 1] == a + b[..n];
      ApplyDeltasAppend(acc, a, b[..n]);
    }
  }

  /** The accumulator after a stream is the stream's deltas applied in
      order. */
  lemma {:induction false} EmitState(chunks: seq<ApiChunk>)
    ensures Emit([], chunks).0 == ApplyDeltas([], StreamDeltas(chunks))
    decreases |chunks|
  {
    if chunks != [] {
      var n := |chunks| - 1;
      EmitState(chunks[..n]);
      var c := chunks[n];
      if c.choices != [] && c.choices[0].delta.toolCalls.Some? {
        ApplyDeltasAppend([], StreamDeltas(chunks[..n]), c.choices[0].delta.toolCalls.value);
        if c.choices[0].delta.toolCalls.value == [] {
          assert StreamDeltas(chunks[..n]) + [] == StreamDeltas(chunks[..n]);
        }
      } else {
        assert StreamDeltas(chunks) == StreamDeltas(chunks[..n]) + [];
        assert StreamDeltas(chunks[..n]) + [] == StreamDeltas(chunks[..n]);
      }
    }
  }

  /** The chunks yielded for one API chunk are well formed, and a
      `finish_reason` makes the final chunk the last of them. */
  lemma ChunkStepShape(acc: seq<PartialCall>, c: ApiChunk)
    ensures forall k :: 0 <= k < |ChunkStep(acc, c).1| ==> WellFormedChunk(ChunkStep(acc, c).1[k])
    ensures c.choices != [] && Given(c.choices[0].finishReason) ==>
      ChunkStep(acc, c).1 != [] && ChunkStep(acc, c).1[|ChunkStep(acc, c).1| - 1] == FinalChunk(ChunkStep(acc, c).0)
  {
    var (next, more) := ChunkStep(acc, c);
    if c.choices != [] && Given(c.choices[0].finishReason) {
      assert more[|more| - 1] == FinalChunk(next);
      assert next != [] ==> Finalize(next) != [];
    }
  }

  /** Every chunk the generator yields is well formed, and a stream whose
      last chunk finishes ends with the final chunk for its accumulator. */
  lemma {:induction false} EmitWellFormed(chunks: seq<ApiChunk>)
    ensures forall k :: 0 <= k < |Emit([], chunks).1| ==> WellFormedChunk(Emit([], chunks).1[k])
    ensures chunks != [] && chunks[|chunks| - 1].choices != [] && Given(chunks[|chunks| - 1].choices[0].finishReason) ==>
      Emit([], chunks).1 != [] && Emit([], chunks).1[|Emit([], chunks).1| - 1] == FinalChunk(Emit([], chunks).0)
    decreases |chunks|
  {
    if chunks != [] {
      var n := |chunks| - 1;
      EmitWellFormed(chunks[..n]);
      var prev, out := Emit([], chunks[..n]).0, Emit([], chunks[..n]).1;
      ChunkStepShape(prev, chunks[n]);
      var next, more := ChunkStep(prev, chunks[n]).0, ChunkStep(prev, chunks[n]).1;
      assert forall k :: 0 <= k < |out| ==> WellFormedChunk(out[k]);
      assert forall k :: 0 <= k < |more| ==> WellFormedChunk(more[k]);
      assert Emit([], chunks) == (next, out + more);
      forall k | 0 <= k < |out + more|
        ensures WellFormedChunk((out + more)[k])
      {
        if k < |out| {
          assert (out + more)[k] == out[k];
        } else {
          assert (out + more)[k] == more[k - |out|];
        }
      }
      if chunks[n].choices != [] && Given(chunks[n].choices[0].finishReason) {
        assert (out + more)[|out + more| - 1] == more[|more| - 1];
      }
    }
  }

  /** The tool calls of the final chunk: each index's call carries the last
      truthy id and the concatenation of every non-empty name and argument
      fragment sent for that index. */
  lemma FinalToolCalls(chunks: seq<ApiChunk>, i: nat)
    requires i < |Emit([], chunks).0|
    ensures var calls := Finalize(Emit([], chunks).0);
      var ds := StreamDeltas(chunks);
      calls[i] == ToolCall(IdAt([], ds, i), "function", Concat(NameFragments(ds, i)), Concat(ArgumentFragments(ds, i)))
  {
    EmitState(chunks);
    var ds := StreamDeltas(chunks);
    ApplyDeltasShape([], ds);
    assert [] + NameFragments(ds, i) == NameFragments(ds, i);
    assert [] + ArgumentFragments(ds, i) == ArgumentFragments(ds, i);
  }

  /** One `tc_delta` applied in place: the placeholder loop, then the id
      and fragment updates. */
  method AccumulateToolCall(acc: seq<PartialCall>, d: ToolCallDelta) returns (r: seq<PartialCall>)
    ensures r == ApplyDelta(acc, d)
  {
    r := acc;
    while |r| <= d.index
      invariant Pad(r, d.index) == Pad(acc, d.index)
      decreases d.index + 1 - |r|
    {
      r := r + [Placeholder];
    }
    ghost var padded := r;
    ghost var withId := if Given(d.id) then r[d.index].(id := d.id.value) else r[d.index];
    if Given(d.id) {
      r := r[d.index := r[d.index].(id := d.id.value)];
    }
    assert r == padded[d.index := withId];
    if d.call.Some? {
      var f := d.call.value;
      if Given(f.name) {
        r := r[d.index := r[d.index].(nameParts := r[d.index].nameParts + [f.name.value])];
      } else {
        assert withId.nameParts + Fragment(f.name) == withId.nameParts;
      }
      assert r == padded[d.index := withId.(nameParts := withId.nameParts + Fragment(f.name))];
      if Given(f.arguments) {
        r := r[d.index := r[d.index].(argumentParts := r[d.index].argumentParts + [f.arguments.value])];
      } else {
        assert withId.argumentParts + Fragment(f.arguments) == withId.argumentParts;
      }
    }
  }

  /** `generate_stream_with_tools` over a stream that ends normally. */
  method GenerateStreamWithTools(chunks: seq<ApiChunk>) returns (out: seq<StreamChunk>)
    ensures out == Emit([], chunks).1
    ensures forall k :: 0 <= k < |out| ==> WellFormedChunk(out[k])
    ensures chunks != [] && chunks[|chunks| - 1].choices != [] && Given(chunks[|chunks| - 1].choices[0].finishReason) ==>
      out != [] && out[|out| - 1] == FinalChunk(Emit([], chunks).0)
  {
    var accumulated: seq<PartialCall> := [];
    out := [];
    var i := 0;
    while i < |chunks|
      invariant 0 <= i <= |chunks|
      invariant (accumulated, out) == Emit([], chunks[..i])
    {
      assert chunks[..i + 1][..i] == chunks[..i];
      var chunk := chunks[i];
      ghost var step := ChunkStep(accumulated, chunk);
      ghost var before := out;
      i := i + 1;
      if chunk.choices == [] {
        assert out + [] == out;
        continue;
      }
      var choice := chunk.choices[0];
      if Given(choice.delta.content) {
        out := out + [StreamChunk(choice.delta.content, None, false)];
      }
      if choice.delta.toolCalls.Some? && choice.delta.toolCalls.value != [] {
        var deltas := choice.delta.toolCalls.value;
        ghost var start := accumulated;
        var j := 0;
        while j < |deltas|
          invariant 0 <= j <= |deltas|
          invariant accumulated == ApplyDeltas(start, deltas[..j])
        {
          assert deltas[..j + 1][..j] == deltas[..j];
          accumulated := AccumulateToolCall(accumulated, deltas[j]);
          j := j + 1;
        }
        assert deltas[..j] == deltas;
      }
      assert accumulated == step.0;
      if Given(choice.finishReason) {
        var finalized := FinalizeCalls(accumulated);
        out := out + [StreamChunk(None, if finalized != [] then Some(finalized) else None, true)];
      }
      assert out == before + step.1;
    }
    assert chunks[..i] == chunks;
    EmitWellFormed(chunks);
  }

  /** The join loop run on a `finish_reason`. */
  method FinalizeCalls(acc: seq<PartialCall>) returns (r: seq<ToolCall>)
    ensures r == Finalize(acc)
  {
    r := [];
    var k := 0;
    while k < |acc|
      invariant 0 <= k <= |acc|
      invariant r == Finalize(acc[..k])
    {
      r := r + [ToolCall(acc[k].id, acc[k].kind, Concat(acc[k].nameParts), Concat(acc[k].argumentParts))];
      k := k + 1;
    }
    assert acc[..k] == acc;
  }
}
