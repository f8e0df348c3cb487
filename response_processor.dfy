/** Post-processing of a complete (non-streamed) reply for listening control
    (`response_processor.py`). The control marker is removed from the reply;
    a reply that carried it ends with `?` and keeps the microphone open.
    Without the marker, and unless auto-continue is on, a trailing `?` is
    replaced by the fullwidth question mark U+FF1F so that the voice pipeline
    does not start listening again. */
module ResponseProcessor {
  import opened Text

  const FakeQuestionMark: char := '\U{FF1F}'

  /** Where `re.sub(r'\?(\s*)$', ...)` can match: a `?` followed only by
      whitespace up to the end, or up to a final newline (Python's `$` also
      matches just before a trailing `\n`). */
  predicate TrailingQuestionMatch(s: string, p: int) {
    0 <= p < |s| && s[p] == '?' &&
    ((forall k :: p < k < |s| ==> IsSpace(s[k])) ||
     (s[|s| - 1] == '\n' && forall k :: p < k < |s| - 1 ==> IsSpace(s[k])))
  }

  /** `process_response_for_listening(response, auto_continue_listening)`:
      the text to speak and whether to keep listening. */
  function ProcessResponseForListening(marker: string, response: string, autoContinue: bool): (r: (string, bool))
    ensures r.1 <==> Contains(response, marker) || (autoContinue && EndsWith(Strip(RemoveAll(response, marker)), "?"))
    ensures Contains(response, marker) ==> EndsWith(r.0, "?")
    ensures !Contains(response, marker) && !autoContinue ==> !EndsWith(r.0, "?")
    ensures !Contains(response, marker) && autoContinue ==> r.0 == Strip(response)
    ensures !Contains(response, marker) && !autoContinue && !EndsWith(Strip(response), "?") ==>
      r == (Strip(response), false)
  {
    var wantsListening := Contains(response, marker);
    var processed := Strip(RemoveAll(response, marker));
    StrippedHasNoTrailingSpace(processed);
    var endsWithQuestion := EndsWith(RStrip(processed), "?");
    if wantsListening then
      (if !endsWithQuestion then RStrip(processed) + "?" else processed, true)
    else if autoContinue then
      RemoveAllAbsent(response, marker);
      (processed, endsWithQuestion)
    else if endsWithQuestion then
      RemoveAllAbsent(response, marker);
      (processed[..|processed| - 1] + [FakeQuestionMark], false)
    else
      RemoveAllAbsent(response, marker);
      (processed, false)
  }

  /** `rstrip` leaves an already stripped text alone. */
  lemma StrippedHasNoTrailingSpace(s: string)
    requires s == [] || !IsSpace(s[|s| - 1])
    ensures RStrip(s) == s
  {
  }

  /** On the stripped text that ends with `?`, the pattern matches only at
      the final `?` and its group is empty, so the substitution replaces
      exactly that character and leaves everything before it alone. */
  lemma OnlyFinalQuestionMarkMatches(s: string, p: int)
    requires s != [] && s[|s| - 1] == '?'
    requires TrailingQuestionMatch(s, p)
    ensures p == |s| - 1
  {
  }

  /** Without the marker and without auto-continue, a reply ending in `?`
      keeps its length and its text; only the last `?` becomes U+FF1F. */
  lemma QuestionMarkReplacedInPlace(marker: string, response: string)
    requires !Contains(response, marker)
    requires EndsWith(Strip(RemoveAll(response, marker)), "?")
    ensures var r := ProcessResponseForListening(marker, response, false).0;
      var p := Strip(response);
      |r| == |p| && r[..|r| - 1] == p[..|p| - 1] && r[|r| - 1] == FakeQuestionMark
      && TrailingQuestionMatch(p, |p| - 1)
  {
    RemoveAllAbsent(response, marker);
    StrippedHasNoTrailingSpace(Strip(response));
  }

  /** With the marker, a reply that already ends with `?` is returned as
      the stripped, marker-free text; otherwise exactly one `?` is added
      after its trailing whitespace is removed. */
  lemma MarkerAddsAtMostOneQuestionMark(marker: string, response: string, autoContinue: bool)
    requires Contains(response, marker)
    ensures var p := Strip(RemoveAll(response, marker));
      var r := ProcessResponseForListening(marker, response, autoContinue).0;
      r == (if EndsWith(p, "?") then p else p + "?")
  {
    StrippedHasNoTrailingSpace(Strip(RemoveAll(response, marker)));
  }

  /** The marker is honoured whether or not auto-continue is on. */
  lemma MarkerIgnoresAutoContinue(marker: string, response: string)
    requires Contains(response, marker)
    ensures ProcessResponseForListening(marker, response, true) == ProcessResponseForListening(marker, response, false)
  {
  }

  /** The listening instructions appended to the system prompt, cut at the
      three places where they name the marker. */
  const InstructionPieces: seq<string> := [
    "\n\n**Voice Assistant Listening Control:**\n" +
    "By default, I will NOT keep listening after your response, even if you ask a question.\n" +
    "If you want me to continue listening for the user's response (for clarifying questions or follow-ups),\n" +
    "include the marker ",
    " anywhere in your response. The marker will be removed\n" +
    "before the response is spoken, and if your response doesn't end with a question mark, one will be added automatically.\n\n" +
    "Example:\n" +
    "- \"What temperature would you like?\" -> Stops listening\n" +
    "- \"What temperature would you like ",
    "\" -> Continues listening (? preserved)\n" +
    "- \"I need more information ",
    "\" -> \"I need more information?\" (? added, continues listening)\n\n" +
    "Only use the marker when you genuinely need user input to proceed."]

  /** The listening instructions with the marker filled in. */
  function ListeningInstructions(marker: string): string {
    Join(InstructionPieces, marker)
  }

  /** `add_listening_instructions_to_prompt`: the prompt is kept as a prefix
      and the result names the marker. */
  function AddListeningInstructions(marker: string, prompt: string): (r: string)
    ensures StartsWith(r, prompt)
    ensures Contains(r, marker)
    ensures |r| > |prompt|
  {
    InstructionsNameMarker(marker);
    AppendedTextNamesMarker(prompt, ListeningInstructions(marker), marker);
    prompt + ListeningInstructions(marker)
  }

  /** The instructions are not empty and name the marker. */
  lemma InstructionsNameMarker(marker: string)
    ensures ListeningInstructions(marker) != []
    ensures Contains(ListeningInstructions(marker), marker)
  {
    var parts := InstructionPieces;
    var n := |parts| - 1;
    assert parts[n] != [];
    assert Join(parts, marker) == Join(parts[..n], marker) + marker + parts[n];
    ContainsInfix(Join(parts[..n], marker), marker, parts[n]);
  }

  /** Text that names the marker, appended to the prompt, keeps the prompt as
      a prefix and makes the result name the marker. */
  lemma AppendedTextNamesMarker(prompt: string, text: string, marker: string)
    requires text != [] && Contains(text, marker)
    ensures StartsWith(prompt + text, prompt)
    ensures Contains(prompt + text, marker)
    ensures |prompt + text| > |prompt|
  {
    ContainsPrepend(prompt, text, marker);
    assert (prompt + text)[..|prompt|] == prompt;
  }
}
