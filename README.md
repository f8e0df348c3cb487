# Voice assistant core, modelled in Dafny

This project models the logic of a Home Assistant conversation agent. The
agent sends the user's request to a Groq chat model, lets the model discover
and call Home Assistant tools, and remembers facts about the user across
conversations. The model covers the text and collection processing around
the network calls:

- the streaming marker scrubber, which removes the listening-control marker
  from the reply the user hears when the marker arrives within one held
  window;
- the post-processing of a complete reply;
- the five-way categorisation of the tool calls of one reply, and the batch
  handlers that answer them;
- the bounded tool loop of the agent, blocking and streamed;
- the global session transcript, its expiry and the fact extraction;
- the fact store;
- the Groq provider's request shaping and its accumulation of streamed
  tool-call fragments by index;
- host tool discovery, the Music Assistant helpers, the Home Assistant
  client's tools and the provider factory.

The language model, the Home Assistant host, the JSON codec and the clock
are parameters: a function from request to reply, a sequence of states, a
partial decoder `string -> Option<Json>`, an encoder `Json -> string`, and
an integer `now`. The control marker is a parameter `marker` too, because
the constants module the sources import it from does not define it.

Python dicts are sequences of key/value pairs in insertion order (module
`PyDict`), and Python strings are `seq<char>` with ASCII-only case mapping
and Python's own set of whitespace characters (module `Text`). Where a
Python function changes an object in place, the model is a class with
those fields and `modifies` clauses. Where it loops, the model is a method
with a loop, proved equal to a specification function. Lemmas then state
what that function guarantees.

## Model

| member | source | states |
|---|---|---|
| Storage.FactStore.constructor | custom_components/voice_assistant/storage.py:22-26 | a new store holds no facts and leaves the host store as it was |
| Storage.FactStore.AsyncLoad | custom_components/voice_assistant/storage.py:28-33 | the stored snapshot replaces the facts only when it exists and is non-empty; otherwise the facts are unchanged |
| Storage.FactStore.AsyncSave | custom_components/voice_assistant/storage.py:35-38 | the whole current dict becomes the stored snapshot and the facts do not change |
| Storage.FactStore.AddFact | custom_components/voice_assistant/storage.py:40-42 | afterwards the key reads back as the value, every other key reads as before, and the keys stay distinct |
| Storage.FactStore.GetFact | custom_components/voice_assistant/storage.py:44-46 | a value is returned exactly when some entry has the key, and it is one of the stored values; an absent key gives None |
| Storage.FactStore.GetAllFacts | custom_components/voice_assistant/storage.py:48-50 | returns a value equal to the facts, with distinct keys, which later changes to the store cannot reach |
| Storage.FactStore.RemoveFact | custom_components/voice_assistant/storage.py:52-54 | afterwards the key is absent and every other key reads as before; removing an absent key changes nothing |
| Storage.FactStore.Clear | custom_components/voice_assistant/storage.py:56-58 | leaves the store empty and the stored snapshot as it was |
| Storage.GetPresence | custom_components/voice_assistant/storage.py:44-46 | a dict lookup succeeds exactly when some entry carries the key |
| Storage.AddThenGet | custom_components/voice_assistant/storage.py:40-46 | adding a fact and reading it back gives the value; adding the same key again overwrites it without growing the dict |
| StreamingBuffer.StreamingBufferProcessor.constructor | custom_components/voice_assistant/streaming_buffer.py:34-44 | the processor starts with no text, an empty buffer, no marker found and no tool calls |
| StreamingBuffer.StreamingBufferProcessor.MightContainPartialMarker | custom_components/voice_assistant/streaming_buffer.py:46-66 | true exactly when the buffer ends with `marker[:i]` for some `1 <= i < len(marker)` |
| StreamingBuffer.StreamingBufferProcessor.ProcessChunk | custom_components/voice_assistant/streaming_buffer.py:85-122 | one chunk takes the fields and yielded text to the result of the step function `Step` |
| StreamingBuffer.StreamingBufferProcessor.ProcessChunks | custom_components/voice_assistant/streaming_buffer.py:68-126 | the state after the stream is `Run` over all chunks, and the deltas are what `Run` yields followed by the final flush |
| StreamingBuffer.StreamingBufferProcessor.GetResult | custom_components/voice_assistant/streaming_buffer.py:137-147 | the result carries the accumulated text, the marker flag and the tool calls |
| StreamingBuffer.StreamingBufferProcessor.FinalizeResponse | custom_components/voice_assistant/streaming_buffer.py:149-164 | yields at most one delta, and yields `"?"` exactly when the marker was found and the marker-free, stripped text does not end in `?` |
| StreamingBuffer.StepTextBranches | custom_components/voice_assistant/streaming_buffer.py:87-117 | a completed marker sets the flag, empties the buffer and yields the marker-free buffer only if non-empty; the buffer is held with nothing yielded exactly when it lacks the marker and ends with a proper prefix of it; otherwise the whole buffer is yielded |
| StreamingBuffer.StepTextAndToolCalls | custom_components/voice_assistant/streaming_buffer.py:87-121 | every chunk's text is appended to the accumulated text; tool calls are taken only from a final chunk with a non-empty list |
| StreamingBuffer.AccumulatedIsAllText | custom_components/voice_assistant/streaming_buffer.py:87-89 | after the stream, the accumulated text is the in-order concatenation of every chunk's text, markers included |
| StreamingBuffer.InvariantBetweenChunks | custom_components/voice_assistant/streaming_buffer.py:92-117 | between chunks the buffer is empty, or it lacks the marker and ends with a proper prefix of it |
| StreamingBuffer.NoEmptyDeltas | custom_components/voice_assistant/streaming_buffer.py:98-126 | no empty delta is ever yielded, by the loop or by the flush |
| StreamingBuffer.MarkerFoundStays | custom_components/voice_assistant/streaming_buffer.py:92-93 | once found, the marker stays found for the rest of the stream |
| StreamingBuffer.StepKeepsYieldedPlusHeld | custom_components/voice_assistant/streaming_buffer.py:104-117 | a step that finds no marker keeps "yielded text + held buffer == accumulated text" |
| StreamingBuffer.YieldedPlusHeld | custom_components/voice_assistant/streaming_buffer.py:85-122 | without a marker, everything yielded followed by the held buffer is the accumulated text |
| StreamingBuffer.RoundTripWithoutMarker | custom_components/voice_assistant/streaming_buffer.py:85-126 | when no marker is seen, the deltas including the flush concatenate to exactly the accumulated text, which is all chunk text |
| StreamingBuffer.HeldTextDiscardedAfterMarker | custom_components/voice_assistant/streaming_buffer.py:125-126 | once the marker was found, the flush yields nothing, and the buffer it drops satisfies the invariant |
| StreamingBuffer.ToolCallsFromFinalChunk | custom_components/voice_assistant/streaming_buffer.py:119-121 | tool calls, when set, come from some final chunk with a non-empty list |
| StreamingBuffer.ShortTextLacksMarker | custom_components/voice_assistant/streaming_buffer.py:92 | text shorter than the marker cannot contain it |
| StreamingBuffer.NoPartialWithoutFirstChar | custom_components/voice_assistant/streaming_buffer.py:60-66 | text without the marker's first character ends with no prefix of it |
| StreamingBuffer.StepFindsMarker | custom_components/voice_assistant/streaming_buffer.py:92-102 | a text chunk that completes the marker sets the flag, empties the buffer and yields the rest if non-empty |
| StreamingBuffer.StepHolds | custom_components/voice_assistant/streaming_buffer.py:104-111 | a text chunk whose buffer ends with a partial marker is held and nothing is yielded |
| StreamingBuffer.StepYields | custom_components/voice_assistant/streaming_buffer.py:113-117 | a text chunk whose buffer has neither the marker nor a partial one is yielded whole |
| StreamingBuffer.RunTwo | custom_components/voice_assistant/streaming_buffer.py:85-122 | a two-chunk stream is two steps |
| StreamingBuffer.RunThree | custom_components/voice_assistant/streaming_buffer.py:85-122 | a three-chunk stream is two chunks and one more step |
| StreamingBuffer.SplitStep1 | custom_components/voice_assistant/streaming_buffer.py:113-117 | the chunk `"Hello"` is yielded at once |
| StreamingBuffer.SplitStep2 | custom_components/voice_assistant/streaming_buffer.py:104-111 | the chunk `" [CON"` is held |
| StreamingBuffer.RemoveAllCharThenMarker | custom_components/voice_assistant/streaming_buffer.py:97 | one character that cannot start the marker, then the marker, leaves that character |
| StreamingBuffer.SplitStep3 | custom_components/voice_assistant/streaming_buffer.py:92-99 | the chunk that completes the marker yields only the held space |
| StreamingBuffer.SplitMarkerIsRemoved | custom_components/voice_assistant/streaming_buffer.py:85-122 | a marker split over chunks `"Hello"`, `" [CON"`, `"TINUE_LISTENING]"` is removed: the deltas are `"Hello"` and `" "` |
| StreamingBuffer.SpellStep1 | custom_components/voice_assistant/streaming_buffer.py:97-99 | the chunk `"[MARKER][MAR"` yields `"[MAR"` |
| StreamingBuffer.SpellStep2 | custom_components/voice_assistant/streaming_buffer.py:113-117 | the next chunk `"KER]"` is yielded whole |
| StreamingBuffer.SpellsMarker | custom_components/voice_assistant/streaming_buffer.py:97-117 | `"[MAR"` followed by `"KER]"` spells the marker |
| StreamingBuffer.DeltasCanSpellTheMarker | custom_components/voice_assistant/streaming_buffer.py:97-117 | counterexample: the deltas of a stream can concatenate to text that contains the marker |
| StreamingBuffer.DropStep1 | custom_components/voice_assistant/streaming_buffer.py:92-99 | the chunk `"A[MARKER]"` yields `"A"` and sets the flag |
| StreamingBuffer.DropStep2 | custom_components/voice_assistant/streaming_buffer.py:104-111 | the next chunk `"B["` is held |
| StreamingBuffer.HeldTextAfterMarkerIsDropped | custom_components/voice_assistant/streaming_buffer.py:125-126 | counterexample: text held after a marker was found is never yielded, so the deltas are not the marker-free accumulated text |
| ResponseProcessor.ProcessResponseForListening | custom_components/voice_assistant/response_processor.py:20-64 | keep listening exactly when the marker occurs, or when auto-continue is on and the marker-free stripped text ends in `?`; with the marker the text ends in `?`; without it and without auto-continue it does not end in `?`; with auto-continue and no marker it is the stripped input; without marker, auto-continue or a trailing `?` it is the stripped input with the flag false |
| ResponseProcessor.StrippedHasNoTrailingSpace | custom_components/voice_assistant/response_processor.py:37-40 | `rstrip` leaves already stripped text alone |
| ResponseProcessor.OnlyFinalQuestionMarkMatches | custom_components/voice_assistant/response_processor.py:61 | on stripped text ending in `?`, the substitution pattern can match only at that last `?` |
| ResponseProcessor.QuestionMarkReplacedInPlace | custom_components/voice_assistant/response_processor.py:59-64 | without marker and auto-continue, only the final `?` becomes U+FF1F; length and all earlier text are kept |
| ResponseProcessor.MarkerAddsAtMostOneQuestionMark | custom_components/voice_assistant/response_processor.py:42-51 | with the marker, text already ending in `?` is returned as is; otherwise exactly one `?` is appended |
| ResponseProcessor.MarkerIgnoresAutoContinue | custom_components/voice_assistant/response_processor.py:34-51 | with the marker, auto-continue makes no difference to the result |
| ResponseProcessor.AddListeningInstructions | custom_components/voice_assistant/response_processor.py:67-91 | the result starts with the prompt, is longer than it, and names the marker |
| ResponseProcessor.AppendedTextNamesMarker | custom_components/voice_assistant/response_processor.py:76-91 | appending text that holds the marker keeps the prompt as a prefix and contains the marker |
| ResponseProcessor.InstructionsNameMarker | custom_components/voice_assistant/response_processor.py:76-91 | the listening instructions are not empty and name the marker |
| ConversationManager.TurnLines | custom_components/voice_assistant/conversation_manager.py:62-66 | one line `"<Capitalized role>: <content>"` per message, in order |
| ConversationManager.ConversationTextShape | custom_components/voice_assistant/conversation_manager.py:60-67 | an empty transcript renders as `""`; one more message adds a newline and its line; every message's line occurs in the text |
| ConversationManager.ConversationSession.constructor | custom_components/voice_assistant/conversation_manager.py:37-42 | a new session has no messages and its activity time is now |
| ConversationManager.ConversationSession.AddMessage | custom_components/voice_assistant/conversation_manager.py:44-47 | appends `{role, content}` at the end, keeps earlier messages, and sets the activity time to now |
| ConversationManager.ConversationSession.GetConversationText | custom_components/voice_assistant/conversation_manager.py:60-67 | the text is the lines of the messages joined by newlines, and `""` for an empty session |
| ConversationManager.ConversationSession.Clear | custom_components/voice_assistant/conversation_manager.py:69-72 | empties the messages and sets the activity time to now |
| ConversationManager.ExpiryIsStrict | custom_components/voice_assistant/conversation_manager.py:49-58 | a session idle for exactly the timeout is live; one second more and it is expired |
| ConversationManager.FencedText | custom_components/voice_assistant/conversation_manager.py:153-155 | the text cut out after the opening fence contains no closing fence |
| ConversationManager.ExtractJsonText | custom_components/voice_assistant/conversation_manager.py:152-155 | a reply with "```json" gives the text after it up to the next fence; otherwise a reply with "```" gives the text between the first two fences; a reply without fences is used whole |
| ConversationManager.BeforeIdempotent | custom_components/voice_assistant/conversation_manager.py:155 | cutting twice at the same pattern is cutting once |
| ConversationManager.JsonFenceText | custom_components/voice_assistant/conversation_manager.py:152-153 | with one "```json" fence, the text used runs from it to the next "```" |
| ConversationManager.JsonFenceIsAFence | custom_components/voice_assistant/conversation_manager.py:152-155 | a reply containing "```json" contains "```" |
| ConversationManager.AddTruthyDistinct | custom_components/voice_assistant/conversation_manager.py:160-162 | storing the extracted facts keeps the keys distinct |
| ConversationManager.AddTruthyGet | custom_components/voice_assistant/conversation_manager.py:160-162 | after extraction, a key with a truthy extracted value has that value, and every other key keeps what it had |
| ConversationManager.FactLines | custom_components/voice_assistant/conversation_manager.py:180-185 | one line `"- <Title Key>: <value>"` per fact, in order |
| ConversationManager.FactsSectionHasEveryFact | custom_components/voice_assistant/conversation_manager.py:179-187 | a non-empty section starts with the header and contains every fact's line |
| ConversationManager.JoinStartsWithFirst | custom_components/voice_assistant/conversation_manager.py:187 | a joined list starts with its first part |
| ConversationManager.ConversationManager.constructor | custom_components/voice_assistant/conversation_manager.py:78-96 | a new manager has a fresh empty session, no provider and no pending task |
| ConversationManager.ConversationManager.SetLlmProvider | custom_components/voice_assistant/conversation_manager.py:98-100 | a provider is set and nothing else changes |
| ConversationManager.ConversationManager.GetSession | custom_components/voice_assistant/conversation_manager.py:102-116 | an expired session gets one timeout task and is cleared in place; a live one is returned untouched; the task's view of the transcript depends on the host's eager start |
| ConversationManager.ConversationManager.ExtractAndSaveFacts | custom_components/voice_assistant/conversation_manager.py:133-171 | without a provider, or when the reply fails, does not decode or is not an object, the store is unchanged; otherwise every truthy extracted value is stored and the store is saved once |
| ConversationManager.ConversationManager.HandleSessionTimeout | custom_components/voice_assistant/conversation_manager.py:118-131 | an empty transcript or a missing provider changes nothing; otherwise the facts are extracted as above |
| ConversationManager.ConversationManager.CleanupTick | custom_components/voice_assistant/conversation_manager.py:209-213 | an expired non-empty session has its facts extracted first: without a provider or with an unusable reply the store and its snapshot are unchanged, otherwise the reply's truthy facts are added and saved; the session is then cleared; in every other case the session and the store are unchanged |
| ConversationManager.ConversationManager.BuildFactsPromptSection | custom_components/voice_assistant/conversation_manager.py:173-187 | the section is empty exactly when there are no facts; otherwise it is the header and one line per fact |
| ToolHandlers.CategorizeToolCalls | custom_components/voice_assistant/tool_handlers.py:32-65 | each of the five lists is the calls of its category, in their original order |
| ToolHandlers.FilterMembers | custom_components/voice_assistant/tool_handlers.py:50-62 | a call is in a category's list exactly when its name belongs to that category |
| ToolHandlers.CategoriesPartition | custom_components/voice_assistant/tool_handlers.py:44-65 | the five lists together hold every call exactly once: their multisets add up to the input and their lengths sum to its length |
| ToolHandlers.FiltersCover | custom_components/voice_assistant/tool_handlers.py:50-65 | whatever the classifier, the five lists together hold every call exactly once |
| ToolHandlers.AddToOneCategory | custom_components/voice_assistant/tool_handlers.py:50-62 | filing one call under one category adds it once to the union of the five lists |
| ToolHandlers.FilterIsFilterBy | custom_components/voice_assistant/tool_handlers.py:50-62 | the list of a category is the calls the name classifier files there |
| ToolHandlers.RunBatchNext | custom_components/voice_assistant/tool_handlers.py:90-107 | a batch over one more call is the batch so far plus that call |
| ToolHandlers.AnsweredNext | custom_components/voice_assistant/tool_handlers.py:90-107 | a call that is answered adds its tool message, its summary line if any, and the new handler state |
| ToolHandlers.RaisedNext | custom_components/voice_assistant/tool_handlers.py:91 | a call that raises ends the batch with what was answered before it |
| ToolHandlers.RunBatchShape | custom_components/voice_assistant/tool_handlers.py:90-107 | a batch that did not raise appends one tool message per call, in order, with the call's id and the encoded result |
| ToolHandlers.RunBatchAbort | custom_components/voice_assistant/tool_handlers.py:91 | once a call raised, the later calls change nothing |
| ToolHandlers.ExtendedTrans | custom_components/voice_assistant/tool_handlers.py:96-100 | appending tool messages twice is appending tool messages |
| ToolHandlers.BatchExtends | custom_components/voice_assistant/tool_handlers.py:96-100 | a batch adds tool messages only, after the messages already there |
| ToolHandlers.MessageLog.constructor | custom_components/voice_assistant/tool_handlers.py:72 | the message list holds the given messages |
| ToolHandlers.ChatLog.constructor | custom_components/voice_assistant/tool_handlers.py:73 | the chat log holds the given entries |
| ToolHandlers.QueryToolsStepAt | custom_components/voice_assistant/tool_handlers.py:91-107 | one query_tools call runs the handler with the decoded arguments |
| ToolHandlers.QueryToolsLine | custom_components/voice_assistant/tool_handlers.py:102-107 | a query_tools call adds a summary line exactly when the query succeeded, naming the count and the domain or "all domains" |
| ToolHandlers.QueryToolsBatchGrows | custom_components/voice_assistant/tool_handlers.py:90-94 | the tool list of a query_tools batch only grows |
| ToolHandlers.HandleQueryToolsCalls | custom_components/voice_assistant/tool_handlers.py:68-114 | an empty list changes nothing; otherwise the messages, the tool list and the chat log follow the batch, and a summary is added once only when the batch did not raise and has lines |
| ToolHandlers.AnswerQueryTools | custom_components/voice_assistant/tool_handlers.py:90-107 | the loop leaves the messages and the tool list as the batch specifies |
| ToolHandlers.AnswerQueryToolsCall | custom_components/voice_assistant/tool_handlers.py:91-107 | one call raises on undecodable arguments and leaves the tools alone; otherwise the handler's result, summary line and tool list are those of the batch step |
| ToolHandlers.AddSummary | custom_components/voice_assistant/tool_handlers.py:109-114 | a summary entry with the joined lines is added exactly when the batch did not raise and has lines |
| ToolHandlers.QueryFactsStepAt | custom_components/voice_assistant/tool_handlers.py:136-152 | one query_facts call runs the handler with the decoded arguments |
| ToolHandlers.QueryFactsLine | custom_components/voice_assistant/tool_handlers.py:147-152 | every query_facts call with dict arguments succeeds and adds a line naming the fact count and the category or "all categories" |
| ToolHandlers.RetrievedLineCounts | custom_components/voice_assistant/tool_handlers.py:147-152 | the summary line of a query_facts call starts with `"Retrieved <count> facts for "` |
| ToolHandlers.HandleQueryFactsCalls | custom_components/voice_assistant/tool_handlers.py:117-159 | an empty list changes nothing; otherwise the messages and chat log follow the batch over the stored facts |
| ToolHandlers.AnswerQueryFacts | custom_components/voice_assistant/tool_handlers.py:135-152 | the loop leaves the messages as the batch specifies |
| ToolHandlers.LearnFactLine | custom_components/voice_assistant/tool_handlers.py:192-196 | a learn_fact call adds the line `"Learned fact: <key>"` exactly when it stored a fact |
| ToolHandlers.LearnFactStepAt | custom_components/voice_assistant/tool_handlers.py:180-196 | one learn_fact call runs the handler with the decoded arguments; a call that fails leaves the facts as they were |
| ToolHandlers.HandleLearnFactCalls | custom_components/voice_assistant/tool_handlers.py:162-203 | an empty list changes nothing; otherwise the facts, the messages and the chat log follow the batch, and the store keeps distinct keys |
| ToolHandlers.AnswerLearnFact | custom_components/voice_assistant/tool_handlers.py:180-196 | the loop leaves the facts and the messages as the batch specifies |
| ToolHandlers.LearnOneFact | custom_components/voice_assistant/tool_handlers.py:180-196 | a call whose arguments are not a dict raises and changes nothing; otherwise the facts, the tool message and the summary line are those of the batch step |
| ToolHandlers.MusicCallsReachHandler | custom_components/voice_assistant/tool_handlers.py:224-238 | a music call raises only on undecodable arguments; otherwise its result is the handler's, and a successful result's line is its message or "Executed <name>" |
| ToolHandlers.HandleMusicToolCalls | custom_components/voice_assistant/tool_handlers.py:206-245 | an empty list changes nothing; otherwise the messages and chat log follow the batch |
| ToolHandlers.AnswerMusic | custom_components/voice_assistant/tool_handlers.py:224-238 | the loop leaves the messages as the batch specifies |
| ToolHandlers.HandleHaToolCalls | custom_components/voice_assistant/tool_handlers.py:248-289 | an empty list changes nothing; otherwise one assistant entry with the converted inputs is added, and one tool message is appended per result the host yields, keyed by that result's call id |
| AgentHandlers.ConvertToolCallsToInputs | custom_components/voice_assistant/conversation.py:397-438 | one input per call, in order, with the same id and name; arguments that do not decode become `{}` |
| AgentHandlers.ToolSet.constructor | custom_components/voice_assistant/conversation.py:303 | the tool set holds the given tools |
| AgentHandlers.NewToolsMembers | custom_components/voice_assistant/conversation.py:531-534 | the merge keeps exactly the discovered tools whose names were not offered before |
| AgentHandlers.HandleQueryTools | custom_components/voice_assistant/conversation.py:508-559 | new tools are appended in discovery order without repeating an existing name; the result reports the query outcome |
| AgentHandlers.QueryToolsMerge | custom_components/voice_assistant/conversation.py:531-534 | a query never removes or reorders an offered tool and never adds a name that was offered before |
| AgentHandlers.QueryToolsResultReports | custom_components/voice_assistant/conversation.py:544-559 | on success the result carries the count, the tool names and the domain; on failure it carries `"Failed to query tools: <err>"` |
| AgentHandlers.QueryFactsResultReports | custom_components/voice_assistant/conversation.py:588-592 | the query_facts result succeeds and carries the whole fact dict |
| AgentHandlers.HandleQueryFacts | custom_components/voice_assistant/conversation.py:561-599 | the result succeeds and carries every stored fact, whatever the category |
| AgentHandlers.HandleLearnFact | custom_components/voice_assistant/conversation.py:601-648 | a missing or falsy key or value fails and leaves the store untouched; otherwise the fact is added and the store saved |
| AgentHandlers.LearnFactStores | custom_components/voice_assistant/conversation.py:620-641 | a learned fact reads back under its key and every other fact is unchanged |
| Conversation.AssistantsOfToolMessages | custom_components/voice_assistant/conversation.py:479-502 | tool messages add no assistant message |
| Conversation.ToolRoundsExtend | custom_components/voice_assistant/conversation.py:479-502 | one more round keeps the shape of the appended messages and records its assistant message |
| Conversation.PrefixTrans | custom_components/voice_assistant/conversation.py:486-502 | the chat log and tool list only grow at the end |
| Conversation.HandleToolCalls | custom_components/voice_assistant/conversation.py:475-502 | the five handlers append tool messages only; the tool list and the chat log only grow |
| Conversation.ToolRoundsEmpty | custom_components/voice_assistant/conversation.py:460 | a turn starts with no rounds |
| Conversation.CarriesNextRound | custom_components/voice_assistant/conversation.py:479-502 | one round's assistant message and tool results keep the history in shape |
| Conversation.ToolRound | custom_components/voice_assistant/conversation.py:471-502 | a round appends the reply's assistant message and handles its calls; the message list then carries the rounds of every reply so far and the tool list still starts with the turn's starting tools |
| Conversation.TurnStart | custom_components/voice_assistant/conversation.py:460-464 | the first request of a turn is the starting messages and tools |
| Conversation.TurnStep | custom_components/voice_assistant/conversation.py:460-502 | asking again after a tool round extends the turn |
| Conversation.TurnRounds | custom_components/voice_assistant/conversation.py:467-506 | the rounds recorded are those of the replies that asked for tools |
| Conversation.TurnMeans | custom_components/voice_assistant/conversation.py:440-506 | in a turn every reply answered its request, the first request carried the starting messages and tools, every reply but the last asked for tools, and each request carried exactly the rounds of the replies before it |
| Conversation.TurnFirst | custom_components/voice_assistant/conversation.py:460-464 | the first request of a turn carried the starting messages and tools |
| Conversation.TurnAnswers | custom_components/voice_assistant/conversation.py:460-464 | every reply of a turn answered its own request |
| Conversation.TurnAsksTools | custom_components/voice_assistant/conversation.py:467-470 | every reply of a turn but the last asked for tools |
| Conversation.TurnCarries | custom_components/voice_assistant/conversation.py:471-502 | the request after `j` replies carried exactly their rounds after the starting messages, with the starting tools in front |
| Conversation.TurnEndsCarrying | custom_components/voice_assistant/conversation.py:467-470 | a turn ending with a reply without tool calls leaves the messages carrying the rounds of all its replies |
| Conversation.ProcessWithTools | custom_components/voice_assistant/conversation.py:440-506 | at most five `generate` calls; the first reply without tool calls ends the turn with its content or `""`; at the cap the last reply's content is returned; each round appends one assistant message before its results |
| Conversation.YieldedNext | custom_components/voice_assistant/conversation.py:333-336 | the deltas of one more stream follow those already yielded |
| Conversation.StreamOnce | custom_components/voice_assistant/conversation.py:329-341 | a fresh processor consumes one stream; its state and deltas are those of the scrubber over that stream |
| Conversation.StreamStep | custom_components/voice_assistant/conversation.py:325-341 | each streaming iteration consumes the stream for the current messages and tools through a fresh processor, whose state is the scrubber's over that stream, and extends the turn by that request and reply |
| Conversation.StreamResponseWithTools | custom_components/voice_assistant/conversation.py:300-395 | a final reply yields the finalize deltas after the stream's; at the cap the fixed fallback delta is yielded; the history carries each tool round |
| Conversation.RoundsOfTurn | custom_components/voice_assistant/conversation.py:467-502 | every recorded round belongs to a reply with tool calls, and only the final reply may lack them |
| Conversation.BuildMessages | custom_components/voice_assistant/conversation.py:716-750 | the system message comes first, then the session messages in order; the listening instructions are appended to the prompt exactly when auto-continue is off |
| Conversation.SystemMessageText | custom_components/voice_assistant/conversation.py:731-738 | the prompt is sent unchanged exactly when auto-continue is on; otherwise it is extended by instructions naming the marker |
| Conversation.TurnMessages | custom_components/voice_assistant/conversation.py:740-745 | each session turn becomes one plain message with its role and content, in order |
| Groq.BuildRequest | custom_components/voice_assistant/llm/groq.py:73-82 | tools and `tool_choice: "auto"` are sent exactly when the tool list is non-empty; the other fields pass through |
| Groq.GenerateResult | custom_components/voice_assistant/llm/groq.py:84-116 | an answered call succeeds with the role, with the content or `""`, and with tool calls only when present and non-empty; a timeout or error is re-raised |
| Groq.ValidateApiKey | custom_components/voice_assistant/llm/groq.py:253-274 | true exactly when the request was answered; a timeout or error gives false |
| Groq.Pad | custom_components/voice_assistant/llm/groq.py:212-217 | the list is extended with placeholders just until the index is valid, keeping the existing entries |
| Groq.ApplyDeltaShape | custom_components/voice_assistant/llm/groq.py:211-225 | one delta changes only its own entry: the id is replaced only by a truthy id, and non-empty fragments are appended |
| Groq.ApplyDeltasShape | custom_components/voice_assistant/llm/groq.py:208-225 | after any deltas, each entry holds the last truthy id for its index and all non-empty fragments for it, in order |
| Groq.ApplyDeltaAt | custom_components/voice_assistant/llm/groq.py:211-225 | one delta sets the id of its own entry only when the id is truthy, appends its non-empty fragments, and leaves the other entries alone |
| Groq.ApplyDeltasAt | custom_components/voice_assistant/llm/groq.py:208-225 | after any deltas, each entry holds the last truthy id and every non-empty fragment sent for its index, in order |
| Groq.WidthIsLength | custom_components/voice_assistant/llm/groq.py:211-217 | the accumulator is exactly as wide as the highest index seen requires |
| Groq.FragmentsBeyondWidth | custom_components/voice_assistant/llm/groq.py:211-217 | nothing was sent for an index beyond the accumulator's width |
| Groq.Finalize | custom_components/voice_assistant/llm/groq.py:230-239 | each finalised call keeps id and type and joins its name and argument fragments |
| Groq.ApplyDeltasAppend | custom_components/voice_assistant/llm/groq.py:208-225 | applying two batches of deltas is applying their concatenation |
| Groq.EmitState | custom_components/voice_assistant/llm/groq.py:196-225 | the accumulator after a stream is the stream's deltas applied in order |
| Groq.ChunkStepShape | custom_components/voice_assistant/llm/groq.py:197-244 | the chunks yielded for one API chunk are well formed, and a finish reason makes the final chunk the last of them |
| Groq.EmitWellFormed | custom_components/voice_assistant/llm/groq.py:196-244 | every chunk yielded is a non-empty content delta or a final chunk with a non-empty list or none; a finishing stream ends with the final chunk |
| Groq.FinalToolCalls | custom_components/voice_assistant/llm/groq.py:228-244 | each finalised call carries the last truthy id and the concatenation of every non-empty fragment sent for its index |
| Groq.AccumulateToolCall | custom_components/voice_assistant/llm/groq.py:209-225 | the in-place update of one delta gives the accumulator `ApplyDelta` specifies |
| Groq.GenerateStreamWithTools | custom_components/voice_assistant/llm/groq.py:161-251 | the chunks yielded are those `Emit` specifies; every one is well formed; a finishing stream ends with the final chunk |
| Groq.FinalizeCalls | custom_components/voice_assistant/llm/groq.py:230-239 | the join loop gives the finalised list |
| LlmTools.ConvertTool | custom_components/voice_assistant/llm_tools.py:104-127 | a tool whose parameters cannot be read gives None; otherwise the name is kept, the description defaults to "Execute <name>", and falsy parameters default to the empty object schema |
| LlmTools.FormattedSound | custom_components/voice_assistant/llm_tools.py:81-90 | every kept schema is the conversion of a tool that passed the domain filter; every readable tool that passes the filter is kept, in particular one whose domain equals the filter and one without a domain; no filter keeps every convertible tool |
| LlmTools.LLMToolManager.constructor | custom_components/voice_assistant/llm_tools.py:38-42 | a new manager has no API handle |
| LlmTools.LLMToolManager.GetLlmApi | custom_components/voice_assistant/llm_tools.py:44-63 | the handle is obtained once and kept; a failure leaves it absent |
| LlmTools.LLMToolManager.QueryTools | custom_components/voice_assistant/llm_tools.py:65-102 | the converted tools passing the domain filter, in order, or `[]` on any error |
| LlmTools.LLMToolManager.ExecuteTool | custom_components/voice_assistant/llm_tools.py:129-158 | the result is `ExecuteResult` for the API state, the host's tools and the call |
| LlmTools.LLMToolManager.GetInitialTools | custom_components/voice_assistant/llm_tools.py:160-166 | exactly the query_tools definition |
| LlmTools.FindTool | custom_components/voice_assistant/llm_tools.py:146 | the first tool with the name, or None exactly when no tool has it |
| LlmTools.ExecuteResultShape | custom_components/voice_assistant/llm_tools.py:141-158 | success is true exactly when the tool was found and ran; an unknown name gives `"Tool '<name>' not found"`; an error gives its text |
| MusicUtils.StripFirstSuffix | custom_components/voice_assistant/music_utils.py:30-34 | None exactly when no suffix matches; otherwise the name without the first matching suffix in list order |
| MusicUtils.StripFirstSuffixAt | custom_components/voice_assistant/music_utils.py:30-33 | the suffix removed is the first in list order that the name ends with |
| MusicUtils.StripFirstSuffixIsFirst | custom_components/voice_assistant/music_utils.py:30-33 | removing the first matching suffix and putting it back gives the name |
| MusicUtils.RoomOfEntityId | custom_components/voice_assistant/music_utils.py:39-40 | the room from an entity id is no longer than the id and has no underscore |
| MusicUtils.ExtractRoomName | custom_components/voice_assistant/music_utils.py:10-40 | a name without the suffixes is unchanged; otherwise the first matching suffix is removed once; an empty name gives the room from the entity id |
| MusicUtils.SuffixRemovedOnce | custom_components/voice_assistant/music_utils.py:30-34 | a name ending in two suffixes keeps the inner one |
| MusicUtils.NormalizeRoomName | custom_components/voice_assistant/music_utils.py:43-58 | the result has no upper-case letter and no edge whitespace |
| MusicUtils.StripKeepsNoUpper | custom_components/voice_assistant/music_utils.py:58 | stripping text without upper-case letters leaves none |
| MusicUtils.StripLower | custom_components/voice_assistant/music_utils.py:58 | stripping commutes with lower-casing |
| MusicUtils.NormalizeIdempotent | custom_components/voice_assistant/music_utils.py:58 | a normalised name is its own normal form |
| MusicUtils.FirstOverlap | custom_components/voice_assistant/music_utils.py:95-99 | the value of the first room whose key contains the query or is contained in it, or None when there is none |
| MusicUtils.FuzzyMatchRoom | custom_components/voice_assistant/music_utils.py:61-99 | None for an empty normalised query; an exact key match wins; otherwise the first overlapping room; None exactly when nothing matches; any result is a cached value |
| MusicUtils.ExactBeforeFuzzy | custom_components/voice_assistant/music_utils.py:91-92 | an exact key is found even when an earlier key merely overlaps |
| MusicAssistant.CachedReachable | custom_components/voice_assistant/music_assistant.py:67-69 | every player found is reachable through its normalised room name |
| MusicAssistant.CachedLast | custom_components/voice_assistant/music_assistant.py:67-69 | the last player stored keeps its room name |
| MusicAssistant.CachedReaches | custom_components/voice_assistant/music_assistant.py:67-69 | every Music Assistant player found is cached under its room name |
| MusicAssistant.CachedValues | custom_components/voice_assistant/music_assistant.py:67-69 | every cached id was cached before or belongs to a player found |
| MusicAssistant.PlayersAreMaPlayers | custom_components/voice_assistant/music_assistant.py:43-65 | the players list holds exactly the Music Assistant players, in order |
| MusicAssistant.FirstActive | custom_components/voice_assistant/music_assistant.py:95-99 | the first playing player, else the first player, else None |
| MusicAssistant.FirstPlaying | custom_components/voice_assistant/music_assistant.py:95-97 | the position of the first playing player, or None when none plays |
| MusicAssistant.WithEntity | custom_components/voice_assistant/music_assistant.py:191 | exactly the players with the target id |
| MusicAssistant.PlayingOnly | custom_components/voice_assistant/music_assistant.py:195 | exactly the playing players |
| MusicAssistant.PlayerInfo | custom_components/voice_assistant/music_assistant.py:207-218 | player and state always; track, artist and album only when truthy |
| MusicAssistant.InfoLookup | custom_components/voice_assistant/music_assistant.py:208-217 | a lookup in the entry finds the first part that has the key |
| MusicAssistant.PlaybackService | custom_components/voice_assistant/music_assistant.py:252-282 | `volume_set` with a level calls volume_set; a mapped action calls its service; anything else, `volume_set` without a level included, calls nothing |
| MusicAssistant.ServiceMapEntries | custom_components/voice_assistant/music_assistant.py:252-262 | "play" maps to media_play and "seek" maps to nothing |
| MusicAssistant.VolumeSetUnmapped | custom_components/voice_assistant/music_assistant.py:252-262 | `volume_set` is not in the service map, so without a level it is an unknown action |
| MusicAssistant.PlayerName | custom_components/voice_assistant/music_assistant.py:171-176 | an entity without a state is named by its id |
| MusicAssistant.SearchRequest | custom_components/voice_assistant/music_assistant.py:322-331 | the search text; a limit that is the smaller of the request and the cap; media type only when truthy; favorite only when asked |
| MusicAssistant.SearchMusic | custom_components/voice_assistant/music_assistant.py:297-353 | unavailable gives the fixed error; a failed search gives `"Search failed: <err>"`; success carries the results and the query |
| MusicAssistant.MusicAssistantHandler.constructor | custom_components/voice_assistant/music_assistant.py:23-26 | a new handler has an empty cache |
| MusicAssistant.MusicAssistantHandler.LoadAndCachePlayers | custom_components/voice_assistant/music_assistant.py:32-71 | returns the Music Assistant players in order and caches each under its normalised room name |
| MusicAssistant.MusicAssistantHandler.ResolvePlayer | custom_components/voice_assistant/music_assistant.py:73-90 | None for an empty reference; an entity id is returned as is; otherwise the fuzzy match over the cache; any result is the reference or a cached id |
| MusicAssistant.MusicAssistantHandler.GetFirstActivePlayer | custom_components/voice_assistant/music_assistant.py:92-99 | loads the players and returns the first playing one, else the first, else None |
| MusicAssistant.MusicAssistantHandler.GetNowPlaying | custom_components/voice_assistant/music_assistant.py:178-223 | the answer `NowPlaying` specifies for the loaded players and the resolved player |
| MusicAssistant.MusicAssistantHandler.ControlPlayback | custom_components/voice_assistant/music_assistant.py:225-295 | no target gives "No Music Assistant player found"; an unknown action gives "Unknown action"; otherwise the mapped service is called on the target and the answer reports it |
| MusicAssistant.ResolvesToPlayer | custom_components/voice_assistant/music_assistant.py:67-90 | after loading, a room reference that resolves names an entity id it was given or a player found |
| MusicAssistant.BuildInfos | custom_components/voice_assistant/music_assistant.py:206-218 | the loop builds one entry per player, in order |
| MusicAssistant.Infos | custom_components/voice_assistant/music_assistant.py:206-218 | one `PlayerInfo` entry per player, in order |
| MusicAssistant.NowPlayingShape | custom_components/voice_assistant/music_assistant.py:189-204 | without a player only playing players are reported when any play; an empty list gives "Nothing is currently playing"; with a player only that entity is reported |
| HaTools.GetTools | custom_components/voice_assistant/ha_client/tools.py:207-225 | starts with the core tools; None or `[]` gives exactly them; light and climate tools are present exactly when asked for; climate comes after light; nothing else is added |
| HaTools.ToolNames | custom_components/voice_assistant/ha_client/tools.py:8-205 | the names of a tool list, in order |
| HaTools.GetToolsDistinct | custom_components/voice_assistant/ha_client/tools.py:8-225 | names are distinct across the three lists and in every selection |
| HaTools.ToolListsDisjoint | custom_components/voice_assistant/ha_client/tools.py:8-205 | no tool belongs to two of the three lists |
| HaTools.AllNamesDistinct | custom_components/voice_assistant/ha_client/tools.py:8-205 | the names across the three lists are pairwise distinct |
| HaClient.ExecuteTool | custom_components/voice_assistant/ha_client/client.py:21-43 | success exactly when a handler exists and ran; an unknown name gives `"Unknown tool: <name>"`; an error gives its text |
| HaClient.OfferedToolsHaveHandlers | custom_components/voice_assistant/ha_client/client.py:33-36 | every tool offered has a handler |
| HaClient.CoreToolsHaveHandlers | custom_components/voice_assistant/ha_client/client.py:33-36 | every core tool has a handler |
| HaClient.LightToolsHaveHandlers | custom_components/voice_assistant/ha_client/client.py:33-36 | every light tool has a handler |
| HaClient.ClimateToolsHaveHandlers | custom_components/voice_assistant/ha_client/client.py:33-36 | every climate tool has a handler |
| HaClient.ClassifyAll | custom_components/voice_assistant/ha_client/client.py:93-108 | each state is classified on its own |
| HaClient.AllFound | custom_components/voice_assistant/ha_client/client.py:102-108 | every match, in order, at most one per state |
| HaClient.TakeCons | custom_components/voice_assistant/ha_client/client.py:110-111 | taking a prefix of a longer list |
| HaClient.ScanTakesFound | custom_components/voice_assistant/ha_client/client.py:93-113 | with a positive limit the search keeps the first `limit` matches |
| HaClient.ScanWithoutLimit | custom_components/voice_assistant/ha_client/client.py:110-111 | with a limit of zero or less the search stops at the first state in the domain, so it returns at most one result |
| HaClient.ScanResultsFound | custom_components/voice_assistant/ha_client/client.py:102-108 | every result was a match |
| HaClient.ScanStates | custom_components/voice_assistant/ha_client/client.py:93-111 | the search loop returns the scan of the classified states |
| HaClient.ScanAt | custom_components/voice_assistant/ha_client/client.py:102-111 | the scan looks at each state in turn and stops once the results reach the limit |
| HaClient.SearchResults | custom_components/voice_assistant/ha_client/client.py:93-113 | a positive limit gives the first `limit` matches; a limit below 1 at most one; every result is the info of a matching state in the domain |
| HaClient.SearchEntities | custom_components/voice_assistant/ha_client/client.py:83-113 | a positive limit gives the first `limit` matches in state order; every result matches the query, case-insensitively, in id or friendly name, within the domain |
| HaClient.FindArea | custom_components/voice_assistant/ha_client/client.py:127-132 | the first area whose name equals the given one ignoring case, or None exactly when there is none |
| HaClient.StateOf | custom_components/voice_assistant/ha_client/client.py:145 | the state, when found, belongs to the entity |
| HaClient.AreaEntities | custom_components/voice_assistant/ha_client/client.py:138-154 | every entry is an entity of the area, in the domain, with a state |
| HaClient.GetAreaEntities | custom_components/voice_assistant/ha_client/client.py:115-154 | an unknown area gives `"Area '<name>' not found"`; otherwise the area's entities |
| HaClient.ServiceData | custom_components/voice_assistant/ha_client/client.py:66-68 | without data the service data is just the entity id |
| HaClient.ServiceDataLookup | custom_components/voice_assistant/ha_client/client.py:66-68 | a key of the data wins, `entity_id` included; the entity id is used only when the data lacks it |
| HaClient.CallService | custom_components/voice_assistant/ha_client/client.py:58-81 | calls the service with the merged data and reports `"<domain>.<service>"` |
| HaClient.Brightness | custom_components/voice_assistant/ha_client/client.py:171 | the percentage times 255 over 100, truncated toward zero |
| HaClient.BrightnessRange | custom_components/voice_assistant/ha_client/client.py:171 | 0..100 maps monotonically into 0..255, with 0 to 0, 100 to 255 and 50 to 127 |
| LlmFactory.CreateLlmProvider | custom_components/voice_assistant/llm/factory.py:13-47 | succeeds exactly for `"groq"`, passing key, model and extras through with defaults 0.7 and 1024; any other tag fails with "Unsupported LLM provider: <tag>" |
| LlmFactory.FactoryCases | custom_components/voice_assistant/llm/factory.py:37-47 | "openai", "anthropic" and None are refused; "groq" with nothing else given gets the defaults |

## Left out

- Network I/O, timeouts and the Groq client's lifetime: each API call is a value (`ApiOutcome`, a chunk sequence), not a call.
- Concurrency: the cleanup task's start, stop and sleep. Only one step of its loop (`CleanupTick`) is modelled. The timeout task created by `get_session` is recorded, not run.
- Floating point: temperature is a `real` passed through; `volume_level / VOLUME_SCALE_FACTOR` and `check_interval` are not modelled.
- Unicode: `lower`, `capitalize`, `title` and the case-insensitive comparisons use ASCII case mapping only.
- `json.loads`, `json.dumps` and Python's `str()` of a value are function parameters, not modelled codecs.
- Fixed prompt text: the fact-extraction prompt and the tool descriptions and property schemas of the tool lists.
- `MAX_MUSIC_SEARCH_RESULTS` and `VOLUME_SCALE_FACTOR` are imported by the Music Assistant handler, but the constants module does not define them. The cap is the parameter `maxResults`.
- `play_music`, `transfer_music` and `is_available` of the Music Assistant handler are not modelled. Availability is the parameter `available`. The volume level of a player entry is not kept.
- `_handle_music_tool`, the agent's dispatch of music tool names, is the parameter `music`.
- The client tools `get_entity_state`, `list_areas`, `set_light_color`, `set_temperature` and `set_hvac_mode` are plain host look-ups or service pass-throughs. Only their presence in the dispatch table is modelled.
- `generate_stream` without tools is not modelled. A stream that raises part way is not modelled. A negative tool-call index cannot occur, since `ToolCallDelta.index` is a `nat`.
- The agent's query-tools handler calls the asynchronous `query_tools` without awaiting it. The model takes the query's outcome as a parameter, so it covers both the awaited result and the error path that happens as written.
- `LLMToolManager` is built with `chat_log`, but its constructor takes `hass`. `get_initial_tools` is called with `include_music`, but it takes no arguments. Each file is modelled as written.
- Fact keys are strings. A `learn_fact` call with a truthy non-string key is stored under its rendered text.
- The entry point, the blocking and streaming wrappers around the tool loop, and the conversion of the final text to the host's response are not modelled. Neither is the config lookup.
- HaClient.SearchEntities: with a limit of zero or less, the limit check after the first state in the domain stops the loop, matched or not. That state is returned if it matches, and nothing otherwise. This is modelled as written.
- The streamed reply is not promised to be marker-free. `DeltasCanSpellTheMarker` and `HeldTextAfterMarkerIsDropped` exhibit the two ways it fails.
