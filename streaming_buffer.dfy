/** The per-stream marker scrubber (`streaming_buffer.py`).

    A `StreamingBufferProcessor` consumes the provider's stream chunks and
    yields the text deltas the user sees. Text that could be the start of
    the control marker is held back; a buffer holding the whole marker is
    yielded with every occurrence removed. The pure functions `Step`, `Run`,
    `Flush` and `FinalizeDeltas` say what one chunk, a whole stream, the
    end-of-stream flush and `finalize_response` do to the processor's state;
    the class's methods are proved to follow them, and the lemmas state what
    the functions guarantee (and, by counterexample, what they do not). */
module StreamingBuffer {
  import opened Wrappers
  import opened Text
  import opened LlmBase

  /** The four fields the processor updates. */
  datatype BufferState = BufferState(
    accumulated: string,
    buffer: string,
    markerFound: bool,
    toolCalls: Option<seq<ToolCall>>)

  /** `StreamResult(accumulated_content, marker_found, tool_calls)` */
  datatype StreamResult = StreamResult(accumulatedContent: string, markerFound: bool, toolCalls: Option<seq<ToolCall>>)

  const Initial: BufferState := BufferState([], [], false, None)

  /** The buffer ends with `marker[:i]` for some `1 <= i < len(marker)`. */
  predicate HoldsPartialMarker(marker: string, buffer: string) {
    exists i :: 1 <= i < |marker| && EndsWith(buffer, marker[..i])
  }

  /** The text a chunk carries (`chunk.content`, or nothing). */
  function ChunkText(c: StreamChunk): string {
    if c.content.Some? then c.content.value else []
  }

  /** A non-empty content delta added to the buffer. */
  function StepText(marker: string, st: BufferState, t: string): (BufferState, seq<string>) {
    var acc := st.accumulated + t;
    var b := st.buffer + t;
    if Contains(b, marker) then
      var clean := RemoveAll(b, marker);
      (st.(accumulated := acc, buffer := [], markerFound := true), if clean != [] then [clean] else [])
    else if HoldsPartialMarker(marker, b) then
      (st.(accumulated := acc, buffer := b), [])
    else
      (st.(accumulated := acc, buffer := []), if b != [] then [b] else [])
  }

  /** One iteration of the `async for` loop: the new state and what it yields. */
  function Step(marker: string, st: BufferState, c: StreamChunk): (BufferState, seq<string>) {
    var (st1, out) := if ChunkText(c) != [] then StepText(marker, st, ChunkText(c)) else (st, []);
    var st2 := if c.isFinal && c.toolCalls.Some? && c.toolCalls.value != [] then st1.(toolCalls := c.toolCalls) else st1;
    (st2, out)
  }

  /** The whole loop over `chunks`: the state after it and everything yielded in it. */
  function Run(marker: string, st: BufferState, chunks: seq<StreamChunk>): (BufferState, seq<string>)
    decreases |chunks|
  {
    if chunks == [] then (st, [])
    else
      var (st1, out1) := Run(marker, st, chunks[..|chunks| - 1]);
      var (st2, out2) := Step(marker, st1, chunks[|chunks| - 1]);
      (st2, out1 + out2)
  }

  /** After the loop: the held buffer is yielded only if no marker was found. */
  function Flush(st: BufferState): seq<string> {
    if st.buffer != [] && !st.markerFound then [st.buffer] else []
  }

  /** `finalize_response` */
  function FinalizeDeltas(marker: string, st: BufferState): seq<string> {
    if st.markerFound && !EndsWith(Strip(RemoveAll(st.accumulated, marker)), "?") then ["?"] else []
  }

  /** The concatenation of the text of every chunk. */
  function AllText(chunks: seq<StreamChunk>): string
    decreases |chunks|
  {
    if chunks == [] then [] else AllText(chunks[..|chunks| - 1]) + ChunkText(chunks[|chunks| - 1])
  }

  /** Between chunks the buffer is empty, or it lacks the marker and ends
      with a proper prefix of it. */
  predicate BufferInvariant(marker: string, buffer: string) {
    buffer == [] || (!Contains(buffer, marker) && HoldsPartialMarker(marker, buffer))
  }

  predicate NoEmptyDelta(out: seq<string>) {
    forall i :: 0 <= i < |out| ==> out[i] != []
  }

  class StreamingBufferProcessor {
    const marker: string
    var accumulatedContent: string
    var chunkBuffer: string
    var markerFound: bool
    var toolCalls: Option<seq<ToolCall>>

    function State(): BufferState
      reads this
    {
      BufferState(accumulatedContent, chunkBuffer, markerFound, toolCalls)
    }

    constructor (marker: string)
      ensures this.marker == marker && State() == Initial
    {
      this.marker := marker;
      accumulatedContent := [];
      chunkBuffer := [];
      markerFound := false;
      toolCalls := None;
    }

    /** `_might_contain_partial_marker`: scans `marker[:1]`, `marker[:2]`, ...
        and stops at the first one the buffer ends with. */
    method MightContainPartialMarker(buffer: string) returns (r: bool)
      ensures r <==> HoldsPartialMarker(marker, buffer)
    {
      var i := 1;
      while i < |marker|
        invariant 1 <= i
        invariant forall j :: 1 <= j < i && j < |marker| ==> !EndsWith(buffer, marker[..j])
      {
        if EndsWith(buffer, marker[..i]) {
          return true;
        }
        i := i + 1;
      }
      return false;
    }

    /** The body of the `async for` loop for one chunk; returns what it yields. */
    method ProcessChunk(chunk: StreamChunk) returns (out: seq<string>)
      modifies this
      ensures (State(), out) == Step(marker, old(State()), chunk)
    {
      out := [];
      if chunk.content.Some? && chunk.content.value != [] {
        accumulatedContent := accumulatedContent + chunk.content.value;
        chunkBuffer := chunkBuffer + chunk.content.value;
        if Contains(chunkBuffer, marker) {
          markerFound := true;
          var cleanBuffer := RemoveAll(chunkBuffer, marker);
          if cleanBuffer != [] {
            out := [cleanBuffer];
          }
          chunkBuffer := [];
        } else {
          var partial := MightContainPartialMarker(chunkBuffer);
          if !partial {
            if chunkBuffer != [] {
              out := [chunkBuffer];
            }
            chunkBuffer := [];
          }
        }
      }
      if chunk.isFinal && chunk.toolCalls.Some? && chunk.toolCalls.value != [] {
        toolCalls := chunk.toolCalls;
      }
    }

    /** `process_chunks`: the loop over the stream, then the final flush. */
    method ProcessChunks(chunks: seq<StreamChunk>) returns (deltas: seq<string>)
      modifies this
      ensures State() == Run(marker, old(State()), chunks).0
      ensures deltas == Run(marker, old(State()), chunks).1 + Flush(State())
    {
      deltas := [];
      var i := 0;
      while i < |chunks|
        invariant 0 <= i <= |chunks|
        invariant (State(), deltas) == Run(marker, old(State()), chunks[..i])
      {
        var out := ProcessChunk(chunks[i]);
        deltas := deltas + out;
        assert chunks[..i + 1][..i] == chunks[..i];
        i := i + 1;
      }
      assert chunks[..i] == chunks;
      if chunkBuffer != [] && !markerFound {
        deltas := deltas + [chunkBuffer];
      }
    }

    /** `get_result` */
    method GetResult() returns (r: StreamResult)
      ensures r.accumulatedContent == accumulatedContent
      ensures r.markerFound == markerFound
      ensures r.toolCalls == toolCalls
    {
      r := StreamResult(accumulatedContent, markerFound, toolCalls);
    }

    /** `finalize_response`: one `"?"` when the marker was found and the
        marker-free, stripped text does not already end in `?`. */
    method FinalizeResponse() returns (out: seq<string>)
      ensures out == FinalizeDeltas(marker, State())
      ensures |out| <= 1
      ensures out == ["?"] <==> markerFound && !EndsWith(Strip(RemoveAll(accumulatedContent, marker)), "?")
    {
      out := [];
      if markerFound {
        var cleanContent := Strip(RemoveAll(accumulatedContent, marker));
        if !EndsWith(cleanContent, "?") {
          out := ["?"];
        }
      }
    }
  }

  // -----------------------------------------------------------------------
  // What one step does

  /** The three branches of one non-empty text delta: a completed marker is
      removed and the buffer emptied; the buffer is held, with nothing
      yielded, exactly when it lacks the marker and ends with a proper
      prefix of it; otherwise the whole buffer is yielded. */
  lemma StepTextBranches(marker: string, st: BufferState, t: string)
    requires t != []
    ensures var (st', out) := StepText(marker, st, t);
      && st'.accumulated == st.accumulated + t
      && st'.toolCalls == st.toolCalls
      && (Contains(st.buffer + t, marker) ==>
            st'.markerFound && st'.buffer == []
            && out == (if RemoveAll(st.buffer + t, marker) != [] then [RemoveAll(st.buffer + t, marker)] else []))
      && ((out == [] && st'.buffer == st.buffer + t) <==>
            (!Contains(st.buffer + t, marker) && HoldsPartialMarker(marker, st.buffer + t)))
      && (!Contains(st.buffer + t, marker) && !HoldsPartialMarker(marker, st.buffer + t) ==>
            out == [st.buffer + t] && st'.buffer == [] && st'.markerFound == st.markerFound)
  {
  }

  /** Every chunk's text reaches `accumulated`, whether or not the chunk also
      carries tool calls; tool calls are taken only from a final chunk with a
      non-empty list. */
  lemma StepTextAndToolCalls(marker: string, st: BufferState, c: StreamChunk)
    ensures Step(marker, st, c).0.accumulated == st.accumulated + ChunkText(c)
    ensures Step(marker, st, c).0.toolCalls ==
      if c.isFinal && c.toolCalls.Some? && c.toolCalls.value != [] then c.toolCalls else st.toolCalls
  {
  }

  // -----------------------------------------------------------------------
  // What a whole stream does

  /** `accumulated_content` ends up as the in-order concatenation of every
      chunk's text, markers included. */
  lemma {:induction false} AccumulatedIsAllText(marker: string, st: BufferState, chunks: seq<StreamChunk>)
    ensures Run(marker, st, chunks).0.accumulated == st.accumulated + AllText(chunks)
    decreases |chunks|
  {
    if chunks != [] {
      var n := |chunks| - 1;
      AccumulatedIsAllText(marker, st, chunks[..n]);
      StepTextAndToolCalls(marker, Run(marker, st, chunks[..n]).0, chunks[n]);
    }
  }

  /** The buffer invariant holds between any two chunks. */
  lemma {:induction false} InvariantBetweenChunks(marker: string, st: BufferState, chunks: seq<StreamChunk>)
    requires BufferInvariant(marker, st.buffer)
    ensures BufferInvariant(marker, Run(marker, st, chunks).0.buffer)
    decreases |chunks|
  {
    if chunks != [] {
      InvariantBetweenChunks(marker, st, chunks[..|chunks| - 1]);
    }
  }

  /** No empty delta is ever yielded, by the loop or by the flush. */
  lemma {:induction false} NoEmptyDeltas(marker: string, st: BufferState, chunks: seq<StreamChunk>)
    ensures NoEmptyDelta(Run(marker, st, chunks).1)
    ensures NoEmptyDelta(Flush(Run(marker, st, chunks).0))
    decreases |chunks|
  {
    if chunks != [] {
      NoEmptyDeltas(marker, st, chunks[..|chunks| - 1]);
    }
  }

  /** Once found, the marker stays found. */
  lemma {:induction false} MarkerFoundStays(marker: string, st: BufferState, chunks: seq<StreamChunk>)
    requires st.markerFound
    ensures Run(marker, st, chunks).0.markerFound
    decreases |chunks|
  {
    if chunks != [] {
      MarkerFoundStays(marker, st, chunks[..|chunks| - 1]);
    }
  }

  /** While no marker has been found, what was yielded followed by what is
      held is exactly what was accumulated. */
  /** One step that finds no marker keeps "yielded + held == accumulated". */
  lemma StepKeepsYieldedPlusHeld(marker: string, st: BufferState, c: StreamChunk, yielded: string)
    requires yielded + st.buffer == st.accumulated
    requires !Step(marker, st, c).0.markerFound
    ensures yielded + Concat(Step(marker, st, c).1) + Step(marker, st, c).0.buffer
            == Step(marker, st, c).0.accumulated
  {
    var (st', out) := Step(marker, st, c);
    assert Concat([]) == [];
    if out != [] {
      assert out == [st.buffer + ChunkText(c)];
      assert Concat(out) == st.buffer + ChunkText(c) by {
        assert out[..0] == [];
      }
    }
  }

  lemma {:induction false} YieldedPlusHeld(marker: string, chunks: seq<StreamChunk>)
    requires !Run(marker, Initial, chunks).0.markerFound
    ensures Concat(Run(marker, Initial, chunks).1) + Run(marker, Initial, chunks).0.buffer
            == Run(marker, Initial, chunks).0.accumulated
    decreases |chunks|
  {
    if chunks != [] {
      var n := |chunks| - 1;
      var (st1, out1) := Run(marker, Initial, chunks[..n]);
      assert !st1.markerFound;
      YieldedPlusHeld(marker, chunks[..n]);
      StepKeepsYieldedPlusHeld(marker, st1, chunks[n], Concat(out1));
      ConcatAppend(out1, Step(marker, st1, chunks[n]).1);
    }
  }

  /** With no marker in the stream, the deltas (loop and flush) concatenate
      to exactly the accumulated text. */
  lemma RoundTripWithoutMarker(marker: string, chunks: seq<StreamChunk>)
    requires !Run(marker, Initial, chunks).0.markerFound
    ensures var (st, out) := Run(marker, Initial, chunks);
      Concat(out + Flush(st)) == st.accumulated && st.accumulated == AllText(chunks)
  {
    var (st, out) := Run(marker, Initial, chunks);
    YieldedPlusHeld(marker, chunks);
    ConcatAppend(out, Flush(st));
    assert Concat([st.buffer]) == st.buffer by {
      assert [st.buffer][..0] == [];
    }
    AccumulatedIsAllText(marker, Initial, chunks);
  }

  /** When a marker was found, the flush yields nothing: whatever the buffer
      still holds is discarded, and by the invariant it is empty or ends with
      a proper prefix of the marker. */
  lemma HeldTextDiscardedAfterMarker(marker: string, chunks: seq<StreamChunk>)
    requires Run(marker, Initial, chunks).0.markerFound
    ensures Flush(Run(marker, Initial, chunks).0) == []
    ensures BufferInvariant(marker, Run(marker, Initial, chunks).0.buffer)
  {
    InvariantBetweenChunks(marker, Initial, chunks);
  }

  /** Tool calls, when set, come from a final chunk with a non-empty list. */
  lemma {:induction false} ToolCallsFromFinalChunk(marker: string, chunks: seq<StreamChunk>)
    requires Run(marker, Initial, chunks).0.toolCalls.Some?
    ensures exists k :: (0 <= k < |chunks| && chunks[k].isFinal
      && chunks[k].toolCalls == Run(marker, Initial, chunks).0.toolCalls
      && chunks[k].toolCalls.value != [])
    decreases |chunks|
  {
    var n := |chunks| - 1;
    var st1 := Run(marker, Initial, chunks[..n]).0;
    StepTextAndToolCalls(marker, st1, chunks[n]);
    var c := chunks[n];
    if !(c.isFinal && c.toolCalls.Some? && c.toolCalls.value != []) {
      ToolCallsFromFinalChunk(marker, chunks[..n]);
      var k :| 0 <= k < n && chunks[..n][k].isFinal
        && chunks[..n][k].toolCalls == st1.toolCalls && chunks[..n][k].toolCalls.value != [];
      assert chunks[k] == chunks[..n][k];
    }
  }

  // -----------------------------------------------------------------------
  // Examples and counterexamples

  /** Text shorter than the marker cannot contain it. */
  lemma ShortTextLacksMarker(s: string, marker: string)
    requires |s| < |marker|
    ensures !Contains(s, marker)
  {
  }

  /** Text without the marker's first character ends with no prefix of it. */
  lemma NoPartialWithoutFirstChar(marker: string, s: string)
    requires marker != []
    requires forall k :: 0 <= k < |s| ==> s[k] != marker[0]
    ensures !HoldsPartialMarker(marker, s)
  {
    forall i | 1 <= i < |marker|
      ensures !EndsWith(s, marker[..i])
    {
      if i <= |s| {
        assert s[|s| - i..][0] == s[|s| - i];
      }
    }
  }

  /** A non-final text chunk whose buffer completes the marker. */
  lemma StepFindsMarker(marker: string, st: BufferState, c: StreamChunk)
    requires ChunkText(c) != [] && !c.isFinal
    requires Contains(st.buffer + ChunkText(c), marker)
    ensures Step(marker, st, c).0 == st.(accumulated := st.accumulated + ChunkText(c), buffer := [], markerFound := true)
    ensures var clean := RemoveAll(st.buffer + ChunkText(c), marker);
      Step(marker, st, c).1 == if clean != [] then [clean] else []
  {
  }

  /** A non-final text chunk whose buffer is held. */
  lemma StepHolds(marker: string, st: BufferState, c: StreamChunk)
    requires ChunkText(c) != [] && !c.isFinal
    requires !Contains(st.buffer + ChunkText(c), marker)
    requires HoldsPartialMarker(marker, st.buffer + ChunkText(c))
    ensures Step(marker, st, c) == (st.(accumulated := st.accumulated + ChunkText(c), buffer := st.buffer + ChunkText(c)), [])
  {
  }

  /** A non-final text chunk whose buffer is yielded whole. */
  lemma StepYields(marker: string, st: BufferState, c: StreamChunk)
    requires ChunkText(c) != [] && !c.isFinal
    requires !Contains(st.buffer + ChunkText(c), marker)
    requires !HoldsPartialMarker(marker, st.buffer + ChunkText(c))
    ensures Step(marker, st, c) == (st.(accumulated := st.accumulated + ChunkText(c), buffer := []), [st.buffer + ChunkText(c)])
  {
  }

  /** `Run` over two and three chunks. */
  lemma RunTwo(marker: string, c1: StreamChunk, c2: StreamChunk)
    ensures Run(marker, Initial, [c1, c2]) ==
      (Step(marker, Step(marker, Initial, c1).0, c2).0,
       Step(marker, Initial, c1).1 + Step(marker, Step(marker, Initial, c1).0, c2).1)
  {
    assert [c1, c2][..1] == [c1];
    assert [c1][..0] == [];
    assert Run(marker, Initial, [c1]).1 == [] + Step(marker, Initial, c1).1;
    assert [] + Step(marker, Initial, c1).1 == Step(marker, Initial, c1).1;
  }

  lemma RunThree(marker: string, c1: StreamChunk, c2: StreamChunk, c3: StreamChunk)
    ensures Run(marker, Initial, [c1, c2, c3]) ==
      (Step(marker, Run(marker, Initial, [c1, c2]).0, c3).0,
       Run(marker, Initial, [c1, c2]).1 + Step(marker, Run(marker, Initial, [c1, c2]).0, c3).1)
  {
    assert [c1, c2, c3][..2] == [c1, c2];
  }

  lemma SplitStep1()
    ensures Step("[CONTINUE_LISTENING]", Initial, StreamChunk(Some("Hello"), None, false))
      == (BufferState("Hello", [], false, None), ["Hello"])
  {
    var m := "[CONTINUE_LISTENING]";
    assert Initial.buffer + "Hello" == "Hello";
    ShortTextLacksMarker("Hello", m);
    NoPartialWithoutFirstChar(m, "Hello");
    StepYields(m, Initial, StreamChunk(Some("Hello"), None, false));
  }

  lemma SplitStep2()
    ensures Step("[CONTINUE_LISTENING]", BufferState("Hello", [], false, None), StreamChunk(Some(" [CON"), None, false))
      == (BufferState("Hello [CON", " [CON", false, None), [])
  {
    var m := "[CONTINUE_LISTENING]";
    var st := BufferState("Hello", [], false, None);
    assert st.buffer + " [CON" == " [CON";
    OpenBracketIsPartial(m);
    StepHolds(m, st, StreamChunk(Some(" [CON"), None, false));
    assert st.accumulated + " [CON" == "Hello [CON";
  }

  /** `" [CON"` lacks the marker but ends with its first four characters. */
  lemma OpenBracketIsPartial(m: string)
    requires m == "[CONTINUE_LISTENING]"
    ensures !Contains(" [CON", m) && HoldsPartialMarker(m, " [CON")
  {
    ShortTextLacksMarker(" [CON", m);
    assert EndsWith(" [CON", m[..4]);
  }

  /** A character that cannot start the marker, then the marker. */
  lemma RemoveAllCharThenMarker(c: char, marker: string)
    requires marker != [] && marker[0] != c
    ensures Contains([c] + marker, marker)
    ensures RemoveAll([c] + marker, marker) == [c]
  {
    var b := [c] + marker;
    assert b[0] != marker[0];
    assert b[..|marker|] != marker;
    assert b[1..] == marker;
    assert b[1..][..|marker|] == marker;
    assert b[1..][|marker|..] == [];
    ContainsInfix([c], marker, []);
    assert [c] + marker + [] == b;
  }

  lemma SplitStep3()
    ensures var r := Step("[CONTINUE_LISTENING]", BufferState("Hello [CON", " [CON", false, None),
                          StreamChunk(Some("TINUE_LISTENING]"), None, false));
      r.1 == [" "] && r.0.markerFound
  {
    var m := "[CONTINUE_LISTENING]";
    var st := BufferState("Hello [CON", " [CON", false, None);
    assert st.buffer + "TINUE_LISTENING]" == [' '] + m;
    RemoveAllCharThenMarker(' ', m);
    StepFindsMarker(m, st, StreamChunk(Some("TINUE_LISTENING]"), None, false));
  }

  /** A marker split over two chunks is held and then removed:
      `"Hello"`, `" [CON"`, `"TINUE_LISTENING]"` yield `"Hello"` and `" "`. */
  lemma SplitMarkerIsRemoved()
    ensures var m := "[CONTINUE_LISTENING]";
      var chunks := [StreamChunk(Some("Hello"), None, false),
                     StreamChunk(Some(" [CON"), None, false),
                     StreamChunk(Some("TINUE_LISTENING]"), None, false)];
      Run(m, Initial, chunks).1 == ["Hello", " "] && Run(m, Initial, chunks).0.markerFound
  {
    var m := "[CONTINUE_LISTENING]";
    var c1 := StreamChunk(Some("Hello"), None, false);
    var c2 := StreamChunk(Some(" [CON"), None, false);
    var c3 := StreamChunk(Some("TINUE_LISTENING]"), None, false);
    SplitStep1();
    SplitStep2();
    SplitStep3();
    RunTwo(m, c1, c2);
    RunThree(m, c1, c2, c3);
  }

  lemma SpellStep1()
    ensures Step("[MARKER]", Initial, StreamChunk(Some("[MARKER][MAR"), None, false))
      == (BufferState("[MARKER][MAR", [], true, None), ["[MAR"])
  {
    var m := "[MARKER]";
    var b := Initial.buffer + "[MARKER][MAR";
    assert b == [] + m + "[MAR";
    ContainsInfix([], m, "[MAR");
    StepFindsMarker(m, Initial, StreamChunk(Some("[MARKER][MAR"), None, false));
    assert b[|m|..] == "[MAR";
    ShortTextLacksMarker("[MAR", m);
    RemoveAllAbsent("[MAR", m);
    assert RemoveAll(b, m) == "[MAR";
    assert Initial.accumulated + "[MARKER][MAR" == "[MARKER][MAR";
  }

  lemma SpellStep2()
    ensures Step("[MARKER]", BufferState("[MARKER][MAR", [], true, None), StreamChunk(Some("KER]"), None, false)).1
      == ["KER]"]
  {
    var m := "[MARKER]";
    var st := BufferState("[MARKER][MAR", [], true, None);
    assert st.buffer + "KER]" == "KER]";
    ShortTextLacksMarker("KER]", m);
    NoPartialWithoutFirstChar(m, "KER]");
    StepYields(m, st, StreamChunk(Some("KER]"), None, false));
  }

  lemma SpellsMarker()
    ensures Contains(Concat(["[MAR", "KER]"]), "[MARKER]")
  {
    var out := ["[MAR", "KER]"];
    assert out[..1] == ["[MAR"];
    assert ["[MAR"][..0] == [];
    assert Concat(out) == "[MAR" + "KER]";
    assert "[MAR" + "KER]" == [] + "[MARKER]" + [];
    ContainsInfix([], "[MARKER]", []);
  }

  /** The deltas can spell the marker: with marker `"[MARKER]"`, the chunks
      `"[MARKER][MAR"` and `"KER]"` yield `"[MAR"` and then `"KER]"`, whose
      concatenation is the marker itself. Text left after a removed marker
      is not held back again. */
  lemma DeltasCanSpellTheMarker()
    ensures var m := "[MARKER]";
      var chunks := [StreamChunk(Some("[MARKER][MAR"), None, false), StreamChunk(Some("KER]"), None, false)];
      Run(m, Initial, chunks).1 == ["[MAR", "KER]"] && Contains(Concat(Run(m, Initial, chunks).1), m)
  {
    var m := "[MARKER]";
    SpellStep1();
    SpellStep2();
    RunTwo(m, StreamChunk(Some("[MARKER][MAR"), None, false), StreamChunk(Some("KER]"), None, false));
    SpellsMarker();
  }

  lemma DropStep1()
    ensures Step("[MARKER]", Initial, StreamChunk(Some("A[MARKER]"), None, false))
      == (BufferState("A[MARKER]", [], true, None), ["A"])
  {
    var m := "[MARKER]";
    var b := Initial.buffer + "A[MARKER]";
    assert b == "A" + m + [];
    ContainsInfix("A", m, []);
    StepFindsMarker(m, Initial, StreamChunk(Some("A[MARKER]"), None, false));
    assert b[1..] == m;
    assert RemoveAll(b[1..], m) == [];
    assert RemoveAll(b, m) == "A";
    assert Initial.accumulated + "A[MARKER]" == "A[MARKER]";
  }

  lemma DropStep2()
    ensures Step("[MARKER]", BufferState("A[MARKER]", [], true, None), StreamChunk(Some("B["), None, false))
      == (BufferState("A[MARKER]B[", "B[", true, None), [])
  {
    var m := "[MARKER]";
    var st := BufferState("A[MARKER]", [], true, None);
    assert st.buffer + "B[" == "B[";
    ShortTextLacksMarker("B[", m);
    assert EndsWith("B[", m[..1]);
    StepHolds(m, st, StreamChunk(Some("B["), None, false));
    assert st.accumulated + "B[" == "A[MARKER]B[";
  }

  /** Text held after the marker was found is dropped at the end of the
      stream: `"A[MARKER]"`, `"B["` yield only `"A"`, though `"B["` was
      accumulated. */
  lemma HeldTextAfterMarkerIsDropped()
    ensures var m := "[MARKER]";
      var chunks := [StreamChunk(Some("A[MARKER]"), None, false), StreamChunk(Some("B["), None, false)];
      var (st, out) := Run(m, Initial, chunks);
      out + Flush(st) == ["A"] && st.accumulated == "A[MARKER]B[" && st.buffer == "B["
  {
    DropStep1();
    DropStep2();
    RunTwo("[MARKER]", StreamChunk(Some("A[MARKER]"), None, false), StreamChunk(Some("B["), None, false));
  }
}
