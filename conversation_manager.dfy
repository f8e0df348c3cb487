/** The global conversation session and fact learning
    (`conversation_manager.py`).

    One `ConversationSession` holds the transcript shared by every
    conversation, with the time of its last activity; the clock is an
    integer `now` passed in. The `ConversationManager` clears the session
    when it has been idle for longer than the timeout and, on that
    occasion, asks the LLM to extract facts from the transcript into the
    `FactStore`. The LLM is the parameter `llm` (the reply text to a
    transcript, or an error); `json.loads` is the parameter `decode`. */
module ConversationManager {
  import opened Wrappers
  import opened Text
  import opened PyDict
  import opened JsonValue
  import opened Storage

  /** A transcript entry `{"role", "content"}`. */
  datatype ChatTurn = ChatTurn(role: string, content: string)

  /** `"<Role>: <content>"` */
  function TurnLine(t: ChatTurn): string {
    Capitalize(t.role) + ": " + t.content
  }

  function TurnLines(turns: seq<ChatTurn>): (r: seq<string>)
    ensures |r| == |turns|
    ensures forall i :: 0 <= i < |turns| ==> r[i] == TurnLine(turns[i])
  {
    seq(|turns|, i requires 0 <= i < |turns| => TurnLine(turns[i]))
  }

  /** The transcript rendered for fact extraction. */
  function ConversationText(turns: seq<ChatTurn>): string {
    Join(TurnLines(turns), "\n")
  }

  /** Appending a turn appends its line after a newline (or gives just the
      line for an empty transcript); every turn's line occurs in the text. */
  lemma ConversationTextShape(turns: seq<ChatTurn>, t: ChatTurn)
    ensures ConversationText([]) == ""
    ensures ConversationText(turns + [t]) ==
      if turns == [] then TurnLine(t) else ConversationText(turns) + "\n" + TurnLine(t)
    ensures forall i :: 0 <= i < |turns| ==> Contains(ConversationText(turns), TurnLine(turns[i]))
  {
    assert TurnLines(turns + [t]) == TurnLines(turns) + [TurnLine(t)];
    if turns != [] {
      JoinSnoc(TurnLines(turns), TurnLine(t), "\n");
    }
    forall i | 0 <= i < |turns| ensures Contains(ConversationText(turns), TurnLine(turns[i])) {
      JoinHasPart(TurnLines(turns), "\n", i);
    }
  }

  class ConversationSession {
    var messages: seq<ChatTurn>
    var lastActivity: int

    constructor (now: int)
      ensures messages == [] && lastActivity == now
    {
      messages := [];
      lastActivity := now;
    }

    /** `add_message` */
    method AddMessage(role: string, content: string, now: int)
      modifies this
      ensures messages == old(messages) + [ChatTurn(role, content)]
      ensures messages[..|old(messages)|] == old(messages)
      ensures lastActivity == now
    {
      messages := messages + [ChatTurn(role, content)];
      lastActivity := now;
    }

    /** `is_expired`: strictly more than `timeoutSeconds` since the last activity. */
    predicate IsExpired(now: int, timeoutSeconds: int)
      reads this
    {
      now - lastActivity > timeoutSeconds
    }

    /** `get_conversation_text` */
    method GetConversationText() returns (text: string)
      ensures text == ConversationText(messages)
      ensures messages == [] ==> text == ""
    {
      var lines: seq<string> := [];
      var i := 0;
      while i < |messages|
        invariant 0 <= i <= |messages|
        invariant lines == TurnLines(messages[..i])
      {
        var role := Capitalize(messages[i].role);
        lines := lines + [role + ": " + messages[i].content];
        i := i + 1;
      }
      assert messages[..i] == messages;
      text := Join(lines, "\n");
    }

    /** `clear` */
    method Clear(now: int)
      modifies this
      ensures messages == [] && lastActivity == now
    {
      messages := [];
      lastActivity := now;
    }
  }

  /** An expiry is strict: a session idle for exactly the timeout is live. */
  lemma ExpiryIsStrict(s: ConversationSession, now: int, timeoutSeconds: int)
    ensures now - s.lastActivity == timeoutSeconds ==> !s.IsExpired(now, timeoutSeconds)
    ensures now - s.lastActivity == timeoutSeconds + 1 ==> s.IsExpired(now, timeoutSeconds)
  {
  }

  // -------------------------------------------------------------------------
  // The extraction reply

  const Fence: string := "```"
  const JsonFence: string := "```json"

  /** `content.split(open)[1].split("```")[0]` */
  function FencedText(content: string, open: string): (r: string)
    requires open != [] && Contains(content, open)
    ensures !Contains(r, Fence)
    ensures r == Before(Before(After(content, open), open), Fence)
  {
    SplitParts(content, open);
    var piece := Split(content, open)[1];
    SplitParts(piece, Fence);
    BeforeLacksPattern(piece, Fence);
    Split(piece, Fence)[0]
  }

  /** The JSON text inside the reply's code fence: after the first
      "```json" up to the next "```", else between the first two "```",
      else the whole reply. */
  function ExtractJsonText(content: string): (r: string)
    ensures !Contains(content, Fence) ==> r == content
    ensures Contains(content, Fence) ==> !Contains(r, Fence)
    ensures !Contains(content, JsonFence) && Contains(content, Fence) ==>
      r == Before(After(content, Fence), Fence)
    ensures Contains(content, JsonFence) ==> r == Before(Before(After(content, JsonFence), JsonFence), Fence)
  {
    if Contains(content, JsonFence) then
      JsonFenceIsAFence(content);
      FencedText(content, JsonFence)
    else if Contains(content, Fence) then
      BeforeIdempotent(After(content, Fence), Fence);
      FencedText(content, Fence)
    else content
  }

  /** Cutting twice at the same pattern is cutting once. */
  lemma BeforeIdempotent(s: string, pat: string)
    requires pat != []
    ensures Before(Before(s, pat), pat) == Before(s, pat)
  {
    BeforeLacksPattern(s, pat);
  }

  /** With a "```json" fence and no second one after it, the text used is
      the text after that fence up to the next "```". */
  lemma JsonFenceText(content: string)
    requires Contains(content, JsonFence)
    requires !Contains(After(content, JsonFence), JsonFence)
    ensures ExtractJsonText(content) == Before(After(content, JsonFence), Fence)
  {
  }

  /** A reply without "```" but containing "```json" cannot happen: the
      second pattern starts with the first. */
  lemma JsonFenceIsAFence(content: string)
    requires Contains(content, JsonFence)
    ensures Contains(content, Fence)
  {
    ContainsPrefixOfPattern(content, JsonFence, 3);
    assert JsonFence[..3] == Fence;
  }

  /** The decoded fact object of an extraction reply, or `None` when the
      reply was an error, did not decode, or is not an object (each of
      which is caught and logged). */
  function ExtractedFacts(reply: Result<string, string>, decode: string -> Option<Json>): Option<Dict<Json>> {
    if reply.Failure? then None
    else
      match decode(Strip(ExtractJsonText(reply.value)))
      case Some(Obj(fields)) => Some(fields)
      case _ => None
  }

  /** The facts after storing every truthy value of `items`, in order. */
  function AddTruthy(d: Dict<Json>, items: Dict<Json>): Dict<Json>
    decreases |items|
  {
    if items == [] then d
    else AddTruthy(if Truthy(items[0].1) then Set(d, items[0].0, items[0].1) else d, items[1..])
  }

  lemma {:induction false} AddTruthyDistinct(d: Dict<Json>, items: Dict<Json>)
    requires DistinctKeys(d)
    ensures DistinctKeys(AddTruthy(d, items))
    decreases |items|
  {
    if items != [] {
      if Truthy(items[0].1) {
        SetDistinct(d, items[0].0, items[0].1);
      }
      AddTruthyDistinct(if Truthy(items[0].1) then Set(d, items[0].0, items[0].1) else d, items[1..]);
    }
  }

  /** After extraction, a key of the reply with a truthy value has that
      value; every other key keeps what it had. */
  lemma {:induction false} AddTruthyGet(d: Dict<Json>, items: Dict<Json>, k: string)
    requires DistinctKeys(items)
    ensures Get(AddTruthy(d, items), k) ==
      if Get(items, k).Some? && Truthy(Get(items, k).value) then Get(items, k) else Get(d, k)
    decreases |items|
  {
    if items != [] {
      var (k0, v0) := items[0];
      var d' := if Truthy(v0) then Set(d, k0, v0) else d;
      AddTruthyGet(d', items[1..], k);
      if Truthy(v0) {
        if k == k0 {
          GetSetSame(d, k, v0);
        } else {
          GetSetOther(d, k0, v0, k);
        }
      }
    }
  }

  // -------------------------------------------------------------------------
  // The fact section of the prompt

  /** `key.replace("_", " ").title()` */
  function FactKeyTitle(key: string): string {
    Title(ReplaceChar(key, '_', ' '))
  }

  /** A value as written in the section: a list is joined with ", ". */
  function FactValueText(v: Json, show: Json -> string): string {
    if v.Arr? then Join(seq(|v.items|, i requires 0 <= i < |v.items| => Format(v.items[i], show)), ", ")
    else Format(v, show)
  }

  function FactLine(entry: (string, Json), show: Json -> string): string {
    "- " + FactKeyTitle(entry.0) + ": " + FactValueText(entry.1, show)
  }

  const FactsHeader: string := "\n\n**Known information about this user:**"

  function FactLines(facts: Dict<Json>, show: Json -> string): (r: seq<string>)
    ensures |r| == |facts|
    ensures forall i :: 0 <= i < |facts| ==> r[i] == FactLine(facts[i], show)
  {
    seq(|facts|, i requires 0 <= i < |facts| => FactLine(facts[i], show))
  }

  /** The prompt section for a set of facts: empty without facts. */
  function FactsSection(facts: Dict<Json>, show: Json -> string): string {
    if facts == [] then "" else Join([FactsHeader] + FactLines(facts, show), "\n")
  }

  /** A non-empty section starts with the header and holds one line per fact. */
  lemma FactsSectionHasEveryFact(facts: Dict<Json>, show: Json -> string)
    requires facts != []
    ensures StartsWith(FactsSection(facts, show), FactsHeader)
    ensures forall i :: 0 <= i < |facts| ==> Contains(FactsSection(facts, show), FactLine(facts[i], show))
  {
    var parts := [FactsHeader] + FactLines(facts, show);
    JoinStartsWithFirst(parts, "\n");
    forall i | 0 <= i < |facts| ensures Contains(FactsSection(facts, show), FactLine(facts[i], show)) {
      assert parts[i + 1] == FactLine(facts[i], show);
      JoinHasPart(parts, "\n", i + 1);
    }
  }

  lemma {:induction false} JoinStartsWithFirst(parts: seq<string>, sep: string)
    requires parts != []
    ensures StartsWith(Join(parts, sep), parts[0])
    decreases |parts|
  {
    if |parts| > 1 {
      var n := |parts| - 1;
      JoinStartsWithFirst(parts[..n], sep);
      assert Join(parts, sep) == Join(parts[..n], sep) + (sep + parts[n]);
    }
  }

  // -------------------------------------------------------------------------
  // The manager

  /** A task created by `get_session` for `_handle_session_timeout`. When
      the host runs a new task eagerly up to its first `await`, the task
      reads the transcript before the clear and is left waiting for the
      LLM's reply to `AwaitingReply(text)` (or ends at once, `Finished`,
      when there is nothing to do); otherwise it has `NotStarted` and will
      read the session only when it runs. */
  datatype TimeoutTask = NotStarted | Finished | AwaitingReply(conversationText: string)

  class ConversationManager {
    const factStore: FactStore
    const session: ConversationSession
    const timeoutSeconds: int
    var hasProvider: bool
    var tasks: seq<TimeoutTask>

    ghost predicate Valid()
      reads this, factStore
    {
      factStore.Valid()
    }

    constructor (factStore: FactStore, timeoutSeconds: int, now: int)
      requires factStore.Valid()
      ensures Valid() && this.factStore == factStore && this.timeoutSeconds == timeoutSeconds
      ensures fresh(session) && session.messages == [] && session.lastActivity == now
      ensures !hasProvider && tasks == []
    {
      this.factStore := factStore;
      this.timeoutSeconds := timeoutSeconds;
      session := new ConversationSession(now);
      hasProvider := false;
      tasks := [];
    }

    /** `set_llm_provider` */
    method SetLlmProvider()
      modifies this
      ensures hasProvider && tasks == old(tasks)
    {
      hasProvider := true;
    }

    /** `get_session`: an expired session has a timeout task scheduled and
        is cleared in place; a live one is returned untouched. Whether the
        task starts eagerly is the host's choice, `eagerStart`. */
    method GetSession(now: int, eagerStart: bool) returns (s: ConversationSession)
      modifies this, session
      ensures s == session && hasProvider == old(hasProvider)
      ensures old(session.IsExpired(now, timeoutSeconds)) ==>
        session.messages == [] && session.lastActivity == now &&
        tasks == old(tasks) + [
          if !eagerStart then NotStarted
          else if old(session.messages) == [] || !hasProvider then Finished
          else AwaitingReply(ConversationText(old(session.messages)))]
      ensures !old(session.IsExpired(now, timeoutSeconds)) ==>
        session.messages == old(session.messages) && session.lastActivity == old(session.lastActivity) &&
        tasks == old(tasks)
    {
      if session.IsExpired(now, timeoutSeconds) {
        var task: TimeoutTask := NotStarted;
        if eagerStart {
          if session.messages == [] || !hasProvider {
            task := Finished;
          } else {
            var text := session.GetConversationText();
            task := AwaitingReply(text);
          }
        }
        tasks := tasks + [task];
        session.Clear(now);
      }
      s := session;
    }

    /** `_extract_and_save_facts` for the current transcript: the reply's
        fact object is stored value by value, keeping only truthy values,
        then saved once; any failure leaves the store as it was. */
    method ExtractAndSaveFacts(llm: string -> Result<string, string>, decode: string -> Option<Json>)
      requires Valid()
      modifies factStore
      ensures Valid()
      ensures !hasProvider ==> factStore.facts == old(factStore.facts) && factStore.disk == old(factStore.disk)
      ensures hasProvider ==>
        match ExtractedFacts(llm(ConversationText(session.messages)), decode)
        case None => factStore.facts == old(factStore.facts) && factStore.disk == old(factStore.disk)
        case Some(items) => factStore.facts == AddTruthy(old(factStore.facts), items) && factStore.disk == Some(factStore.facts)
    {
      if !hasProvider {
        return;
      }
      var conversationText := session.GetConversationText();
      var response := llm(conversationText);
      if response.Failure? {
        return;
      }
      var content := ExtractJsonText(response.value);
      var parsed := decode(Strip(content));
      if parsed.None? || !parsed.value.Obj? {
        return;
      }
      var items := parsed.value.fields;
      var i := 0;
      while i < |items|
        invariant 0 <= i <= |items|
        invariant factStore.Valid() && factStore.disk == old(factStore.disk)
        invariant AddTruthy(factStore.facts, items[i..]) == AddTruthy(old(factStore.facts), items)
      {
        assert items[i..][1..] == items[i + 1..];
        if Truthy(items[i].1) {
          factStore.AddFact(items[i].0, items[i].1);
        }
        i := i + 1;
      }
      factStore.AsyncSave();
    }

    /** `_handle_session_timeout`: nothing happens for an empty transcript. */
    method HandleSessionTimeout(llm: string -> Result<string, string>, decode: string -> Option<Json>)
      requires Valid()
      modifies factStore
      ensures Valid()
      ensures session.messages == [] || !hasProvider ==>
        factStore.facts == old(factStore.facts) && factStore.disk == old(factStore.disk)
      ensures session.messages != [] && hasProvider ==>
        match ExtractedFacts(llm(ConversationText(session.messages)), decode)
        case None => factStore.facts == old(factStore.facts) && factStore.disk == old(factStore.disk)
        case Some(items) => factStore.facts == AddTruthy(old(factStore.facts), items) && factStore.disk == Some(factStore.facts)
    {
      if session.messages == [] {
        return;
      }
      ExtractAndSaveFacts(llm, decode);
    }

    /** One check of `_cleanup_loop`: an expired, non-empty session has its
        facts extracted (awaited) and is then cleared. */
    method CleanupTick(now: int, llm: string -> Result<string, string>, decode: string -> Option<Json>)
      requires Valid()
      modifies factStore, session
      ensures Valid()
      ensures old(session.IsExpired(now, timeoutSeconds)) && old(session.messages) != [] ==>
        session.messages == [] && session.lastActivity == now
      ensures old(session.IsExpired(now, timeoutSeconds)) && old(session.messages) != [] && !hasProvider ==>
        factStore.facts == old(factStore.facts) && factStore.disk == old(factStore.disk)
      ensures old(session.IsExpired(now, timeoutSeconds)) && old(session.messages) != [] && hasProvider ==>
        match ExtractedFacts(llm(ConversationText(old(session.messages))), decode)
        case None => factStore.facts == old(factStore.facts) && factStore.disk == old(factStore.disk)
        case Some(items) => factStore.facts == AddTruthy(old(factStore.facts), items) && factStore.disk == Some(factStore.facts)
      ensures !(old(session.IsExpired(now, timeoutSeconds)) && old(session.messages) != []) ==>
        session.messages == old(session.messages) && session.lastActivity == old(session.lastActivity) &&
        factStore.facts == old(factStore.facts) && factStore.disk == old(factStore.disk)
    {
      if session.IsExpired(now, timeoutSeconds) && session.messages != [] {
        HandleSessionTimeout(llm, decode);
        session.Clear(now);
      }
    }

    /** `build_facts_prompt_section` */
    method BuildFactsPromptSection(show: Json -> string) returns (section: string)
      requires Valid()
      ensures section == FactsSection(factStore.facts, show)
      ensures factStore.facts == [] <==> section == ""
    {
      var facts := factStore.GetAllFacts();
      if facts == [] {
        return "";
      }
      var lines := [FactsHeader];
      var i := 0;
      while i < |facts|
        invariant 0 <= i <= |facts|
        invariant |lines| == i + 1 && lines[0] == FactsHeader
        invariant forall j :: 0 <= j < i ==> lines[j + 1] == FactLine(facts[j], show)
      {
        var keyFormatted := FactKeyTitle(facts[i].0);
        var value := FactValueText(facts[i].1, show);
        assert "- " + keyFormatted + ": " + value == FactLine(facts[i], show);
        lines := lines + ["- " + keyFormatted + ": " + value];
        i := i + 1;
      }
      ghost var parts := [FactsHeader] + FactLines(facts, show);
      assert |lines| == |parts|;
      forall j | 0 <= j < |lines| ensures lines[j] == parts[j] {
        if j > 0 {
          assert parts[j] == FactLine(facts[j - 1], show);
        }
      }
      assert lines == parts;
      section := Join(lines, "\n");
      FactsSectionHasEveryFact(facts, show);
      assert StartsWith(section, FactsHeader) && |FactsHeader| > 0;
    }
  }
}
