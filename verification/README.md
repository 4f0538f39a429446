# Levial voice agent — a Dafny model of its conversational core

Levial is a local voice assistant. A wake word, a UI click or an idle-time
random trigger wakes it. It records one utterance, transcribes it and asks a
local language model for an answer. That answer may be a JSON tool call, which
is run through a tool service with its output fed back, for at most five turns.
The final answer is spoken, remembered in an episodic store, and mined for facts
about the user. Those facts go into a saved user profile.

This project models, as pure Dafny functions over immutable data:

- `ConversationOrchestrator` (`levial/orchestrator.py`), in two modules:
  - `Orchestrator` covers the status events, `update_config`, `trigger_wake`,
    the proactivity rule and the wake wait. It also covers the transcript
    decisions (empty, "goodbye", "alexa"), the preference string, the
    final-answer effects, the speaking state and the classification of a
    spoken interruption.
  - `AgentLoop` and `ToolCalls` cover the bounded agentic tool-call loop.
- the agent prompt of `OllamaLLM.build_prompt` (`levial/llm.py`) and the
  push-to-talk prompt (`Prompts`);
- `MemoryManager` (`levial/memory/manager.py`): episodic records, the
  retrieval context, knowledge extraction and the manual profile update
  (`Memory`);
- the push-to-talk loop of `voice_loop.py` (`PushToTalk`);
- the archived threaded `VoiceAgent` of `archive/voice_loop.py`
  (`ArchiveAgent`).

Collaborators the core only calls become inputs:

- the microphone, Whisper, Ollama and Piper;
- the tool service and the vector store;
- the clock and `random.random()`;
- the JSON parser.

An operation receives them as function-valued parameters or as fields of a
`World` record. `Strings` models the few Python string operations the code
relies on: `find`, `rfind`, `in`, `lower`, `upper`, `strip`, `join` and `str`
of an integer. `JsonValues` models decoded JSON values and Python
truthiness.

## Model

| member | source | states |
|---|---|---|
| Strings.Find | levial/orchestrator.py:302 | `find('{')` yields the first index of the character, or -1 exactly when it does not occur |
| Strings.RFind | levial/orchestrator.py:303 | `rfind('}')` yields the last index of the character, or -1 exactly when it does not occur |
| Strings.Contains | levial/orchestrator.py:268 | `sub in s` holds exactly when `sub` occurs at some position of `s` |
| Strings.StripPadded | voice_loop.py:194 | `strip()` removes exactly the surrounding whitespace of a command and keeps the word inside |
| Strings.DecimalRoundTrip | levial/memory/manager.py:36 | the decimal text of a timestamp reads back as the same number |
| Conversation.RenderHistory | levial/llm.py:29-30 | one `ROLE: content` line per history entry, in history order |
| Conversation.RoleLabels | levial/llm.py:30 | the role labels in a prompt are USER, ASSISTANT, SYSTEM and AGENT |
| Prompts.AgentPromptLayout | levial/llm.py:8-33 | the agent prompt is the system line, the optional preference, tools and context lines (each only when its input is non-empty, in that order), one line per history entry, then `USER: text` and `ASSISTANT:` |
| Prompts.AgentPromptSections | levial/llm.py:19-27 | a preference, tools or context section is in the prompt if and only if its input is non-empty; no history line can be mistaken for one |
| Prompts.PreferencesPresence | levial/llm.py:19-20 | the preference line is present exactly when preferences are non-empty |
| Prompts.ToolsPresence | levial/llm.py:22-24 | the tools block and the call instruction are present exactly when a tool catalogue is given |
| Prompts.ContextPresence | levial/llm.py:26-27 | the context block is present exactly when context is given |
| Prompts.BodyHasNoSection | levial/llm.py:29-32 | history and closing lines always start with a role label, never with a section marker |
| Prompts.AgentPromptEnds | levial/llm.py:31-33 | the joined prompt starts with the system text and ends with the `USER:` line and a bare `ASSISTANT:` |
| Prompts.LegacyPromptLayout | voice_loop.py:132-141 | the push-to-talk prompt is the fixed system line, one line per history entry in order, then `USER: text` and `ASSISTANT:`, joined by newlines |
| Prompts.LegacyMatchesBareAgentPrompt | archive/voice_loop.py:168-177 | the archived push-to-talk prompt and the agent prompt with no optional section differ only in their system line |
| ToolCalls.BraceCandidate | levial/orchestrator.py:302-305 | there is no candidate exactly when a brace is missing; a non-empty candidate runs from a `{` with none before it to a `}` with none after it |
| ToolCalls.EmptyCandidateIff | levial/orchestrator.py:305 | when both braces occur, the candidate is empty if and only if every `}` precedes every `{` |
| ToolCalls.Detect | levial/orchestrator.py:304-310 | a reply is a tool call exactly when its candidate decodes to an object holding both `tool` and `arguments`; the call carries those two values and `server` defaults to null |
| ToolCalls.NoBracesNoToolCall | levial/orchestrator.py:304 | a reply missing either brace is never a tool call, whatever the parser does |
| ToolCalls.InvertedBracesNoToolCall | levial/orchestrator.py:305-306 | with a parser that rejects the empty string, a reply whose last `}` precedes its first `{` is final text |
| ToolCalls.MissingServerObservation | levial/orchestrator.py:312-320 | without a truthy server the observation is the "server missing" error and the tool service is never consulted |
| ToolCalls.ServerObservation | levial/orchestrator.py:312-318 | with a server, the observation is the tool's result, or the prefixed error text when the tool raised |
| AgentLoop.TurnStep | levial/orchestrator.py:290-325 | a tool-call turn calls the tool service at most once, and only for a call with a server |
| AgentLoop.Run | levial/orchestrator.py:283-287 | the loop never runs more than `max_turns = 5` turns; running out of budget means exactly five turns ran; a stop means shutdown was seen at the loop condition |
| AgentLoop.RunCounts | levial/orchestrator.py:293-329 | history grows by two entries per tool-call turn plus one for a final answer; there is one `thinking` event per turn plus one `response` for a final answer |
| AgentLoop.RunHistoryPrefix | levial/orchestrator.py:321-329 | the loop only appends to history, and a final answer is the last entry it adds |
| AgentLoop.RunToolPairs | levial/orchestrator.py:321-322 | each tool-call turn adds an (assistant reply, system "Tool Output: ...") pair after the starting history, in turn order |
| AgentLoop.RunStatusPrefix | levial/orchestrator.py:293-328 | events are only appended; a final answer is announced by a closing `response` with its text |
| AgentLoop.RunThinkingOrder | levial/orchestrator.py:287-293 | the `thinking` events carry consecutive turn numbers starting after the starting turn |
| AgentLoop.RunInvocationShape | levial/orchestrator.py:312-314 | earlier calls are kept; at most one call per tool-call turn, each naming a server |
| AgentLoop.RunAllToolCalls | levial/orchestrator.py:286-323 | a step that makes a tool call on every turn, with shutdown never set, exhausts the budget |
| AgentLoop.TurnCallsAtMostOnce | levial/orchestrator.py:312-323 | the real turn calls the tool service at most once, and only with a server |
| AgentLoop.ToolCallsEveryTurn | levial/orchestrator.py:300-323 | a model that always answers with a well-formed tool call makes every turn a tool-call turn |
| AgentLoop.RunBudgetHistory | levial/orchestrator.py:283-323 | always calling tools from the start runs exactly five turns and adds exactly five (reply, tool output) pairs after the original history |
| AgentLoop.RunBudgetEvents | levial/orchestrator.py:286-293 | that run emits `thinking` for turns 1 to 5 and nothing else |
| AgentLoop.BudgetExhaustedByToolCalls | levial/orchestrator.py:283-325 | a model that always calls tools ends the loop after five turns, with five tool pairs in history and five `thinking` events |
| AgentLoop.PlainReplyEndsFirstTurn | levial/orchestrator.py:327-352 | a first reply that is not a tool call ends the loop on turn 1: history gains just that reply, the events are `thinking{1}` and `response`, and no tool is called |
| Memory.IdRoundTrip | levial/memory/manager.py:29-36 | the record id reads back as exactly the second and the role it was made from |
| Memory.IdInjective | levial/memory/manager.py:36 | two ids coincide only for the same second and role; the user and assistant records of one exchange never collide |
| Memory.AddInteraction | levial/memory/manager.py:25-37 | the record stores the content verbatim with exactly the metadata role, timestamp and type "conversation", and its id decodes to that second and role |
| Memory.StoredRoleShown | levial/memory/manager.py:57 | a record written by `add_interaction` is listed in the context under the role it was stored with |
| Memory.MemorySection | levial/memory/manager.py:53-57 | the memory section is empty exactly when the store returns no hit, and otherwise opens with the header |
| Memory.HitLineInOrder | levial/memory/manager.py:56-57 | each hit's line comes right after the lines of the hits before it, so every hit is listed in store order |
| Memory.RenderMemories | levial/memory/manager.py:53-57 | the accumulating string loop produces exactly the header followed by one line per hit |
| Memory.RelevantContext | levial/memory/manager.py:39-59 | the context opens with the time and profile lines, equals them alone exactly when there is no hit, and otherwise continues with the header and the hit lines |
| Memory.MergeFacts | levial/memory/manager.py:110-111 | merged facts hold every stored and extracted key; extracted values win and other stored values are kept |
| Memory.MergeFactsLoop | levial/memory/manager.py:110-111 | the key-by-key loop yields that merge, whatever order the keys are visited in |
| Memory.ExtractionPromptQuotes | levial/memory/manager.py:73-90 | the extraction prompt quotes the user message and the reply verbatim, between the fixed introduction and the fixed instructions |
| Memory.ApplyKnowledge | levial/memory/manager.py:105-128 | unmergeable facts give the empty result with only the name step applied to the live profile and nothing saved; a raising interest merge gives the empty result, the live profile it left behind and nothing saved; returning the decoded (non-empty) knowledge means the live profile was saved |
| Memory.ExtractAndUpdate | levial/memory/manager.py:92-128 | a failed query, an answer without both braces, or a brace candidate `json.loads` rejects leaves the profile alone and returns the empty result; the saved profile only ever changes to the live one |
| Memory.InterestMergeRaisedNotSaved | levial/memory/manager.py:113-128 | when `update_interest` raises after the name and facts steps, the result is the empty one, nothing is saved and the live profile is what the failed merge left |
| Memory.MergeKeeps | levial/memory/manager.py:113-115 | an interest merge that touches only `interests` keeps every other profile entry |
| Memory.ExtractedNameIff | levial/memory/manager.py:106-107 | after decoding, the live name is the extracted one if and only if that name is truthy; otherwise it is left alone |
| Memory.ExtractedFactsMerged | levial/memory/manager.py:109-111 | with mergeable facts, the live facts become the stored facts overwritten key by key by the extracted facts |
| Memory.ExtractionSaves | levial/memory/manager.py:118-121 | when nothing raises, the live profile is saved and the decoded knowledge is returned unchanged |
| Memory.UnmergeableFactsNotSaved | levial/memory/manager.py:109-128 | facts that cannot be merged give the empty result and save nothing, but a name set just before stays in the live profile |
| Memory.EmptyKnowledgeChangesNothing | levial/memory/manager.py:88-118 | the "nothing new was learned" answer leaves the live profile as it was and saves it |
| Memory.ParisOverLyon | levial/memory/manager.py:109-111 | extracting `{city: Paris}` over `{city: Lyon, age: 5}` leaves `{city: Paris, age: 5}` |
| Memory.UpdateKnowledge | levial/memory/manager.py:130-151 | `name`, `interests` and `facts` are replaced wholesale when present; other update keys are ignored, other entries are kept, and the saved, live and returned profiles agree |
| Memory.UpdateKnowledgeIdempotent | levial/memory/manager.py:130-151 | applying the same manual update twice equals applying it once |
| Orchestrator.Payload | levial/orchestrator.py:109-111 | the payload holds `status` plus every data key, with data values winning |
| Orchestrator.PayloadShape | levial/orchestrator.py:109-111 | apart from the data, the payload carries only its own status; no data means the status alone |
| Orchestrator.EmitAll | levial/orchestrator.py:108-112 | events reach the callback, in order, only when one is installed; nothing else in the session changes |
| Orchestrator.Emit | levial/orchestrator.py:106-112 | `_emit_status` appends one event with its payload only when a callback is installed; nothing else changes |
| Orchestrator.UpdateConfig | levial/orchestrator.py:114-121 | the silence duration is stored as given; the proactivity level changes exactly when `float()` accepts it; a raising `float()` still leaves the new silence duration stored |
| Orchestrator.UpdateConfigIdempotent | levial/orchestrator.py:114-121 | sending the same configuration twice changes nothing the second time |
| Orchestrator.TriggerWake | levial/orchestrator.py:123-129 | afterwards the wake event is set; when it was already set nothing changes; otherwise the label is "Manual Trigger" |
| Orchestrator.TriggerWakeIdempotent | levial/orchestrator.py:123-129 | a second trigger has no effect |
| Orchestrator.ProactiveRule | levial/orchestrator.py:196-201 | never with proactivity off or within 30 seconds of idling; otherwise fires exactly when the draw is below `level * 0.01` |
| Orchestrator.ProactiveBounds | levial/orchestrator.py:200-201 | with level at most 1, a draw of 0.01 or more never fires; raising the level never stops a firing draw from firing |
| Orchestrator.Wait | levial/orchestrator.py:192-204 | the wait only ends woken by a label or a proactive trigger; with proactivity off it is never proactive |
| Orchestrator.WaitFirstEvent | levial/orchestrator.py:192-209 | the first poll that is not quiet decides the outcome, and shutdown takes precedence over a wake |
| Orchestrator.QuietTicksKeepWaiting | levial/orchestrator.py:192-193 | polls with no wake, no shutdown and no proactive draw keep the orchestrator waiting |
| Orchestrator.ClassifyInterruption | levial/orchestrator.py:442-450 | "thank you" anywhere, in any case, stops speech; otherwise "goodbye" ends the session; otherwise the interruption is ignored |
| Orchestrator.ThankYouEndsSessionAsWritten | levial/orchestrator.py:442-444 | as written, the interruption "Thank you" ends the whole session |
| Orchestrator.InterruptionEndsOnlyOnGoodbye | levial/orchestrator.py:442-450 | as intended, an interruption ends the session if and only if it says "goodbye" without "thank you"; anything else returns to idle |
| Orchestrator.AudioLevel | levial/orchestrator.py:235 | the reported level never exceeds 1 and is five times the raw level below the cap |
| Orchestrator.LevelEvents | levial/orchestrator.py:230-236 | one `audio_level` event per volume callback, in order |
| Orchestrator.Listen | levial/orchestrator.py:171-258 | waiting, waking, pausing on "alexa" and recording only add events; they never touch history, memory, profile or settings |
| Orchestrator.ListenHears | levial/orchestrator.py:173-255 | woken without "alexa" with a transcript, the session emits `idle` then `listening` and hands on the transcript |
| Orchestrator.Admit | levial/orchestrator.py:260-272 | an empty transcript is skipped silently; any other is announced; one containing "goodbye" ends the session with history untouched; the rest is appended as the user's turn, and nothing else changes |
| Orchestrator.PreferencesText | levial/orchestrator.py:279-280 | falsy preferences give the empty string; a list of strings is always joined; a truthy number or boolean raises |
| Orchestrator.PreferencesJoin | levial/orchestrator.py:280 | one preference is shown as it is, and each further one adds ", " and itself |
| Orchestrator.FinalEffects | levial/orchestrator.py:330-346 | a final answer stores the user and assistant records, applies knowledge extraction to the profile and announces `knowledge_update` with the live profile and the extraction; nothing else changes |
| Orchestrator.Speak | levial/orchestrator.py:354-448 | an empty reply is not spoken; otherwise `speaking` is announced and the reply enters history as the agent's turn; a finished playback continues, a shutdown during playback ends the session, and an interruption ends it exactly when it says "goodbye" without "thank you" (the corrected reading, see Findings); memory and profile are untouched |
| Orchestrator.AfterLoopHistory | levial/orchestrator.py:286-352 | the history after the loop extends the history it started from |
| Orchestrator.RespondHistory | levial/orchestrator.py:275-361 | the thinking and speaking states only ever append to history |
| Orchestrator.CycleHistoryAppendOnly | levial/orchestrator.py:171-361 | no cycle of `run_loop` removes or rewrites an earlier turn of history |
| Orchestrator.EmptyTranscriptSkipped | levial/orchestrator.py:260-262 | an empty transcript ends the cycle after `idle`, `listening` and the level events: no `transcript` event, history, memory and profile untouched, back to idle |
| Orchestrator.GoodbyeEndsBeforeHistory | levial/orchestrator.py:264-270 | a "goodbye" transcript ends the session right after its `transcript` event; history, memory and profile are untouched and no `thinking` is emitted |
| Orchestrator.PlainLoop | levial/orchestrator.py:283-352 | a plain first answer ends the agentic loop on turn 1 with that answer as the final reply |
| Orchestrator.HeardAndAdmitted | levial/orchestrator.py:171-272 | waking and hearing a transcript other than "goodbye" emits `idle`, `listening`, `transcript` and records the user's turn before the loop starts |
| Orchestrator.AfterPlain | levial/orchestrator.py:293-346 | after a plain first answer: history gains the answer; the events are `thinking{1}`, `response` and `knowledge_update`; both records are stored; the profile is the extracted one |
| Orchestrator.SpeakPlayed | levial/orchestrator.py:355-366 | a reply that plays out announces `speaking`, adds the agent's turn, stamps the interaction time and continues |
| Orchestrator.RespondPlain | levial/orchestrator.py:275-361 | a plain first answer is exactly what gets spoken after the loop |
| Orchestrator.AnswerSpoken | levial/orchestrator.py:327-366 | after a plain answer the events are `thinking{1}`, `response`, `knowledge_update`, `speaking`; history gains the answer twice, as assistant and as agent |
| Orchestrator.PlainAnswerScenario | levial/orchestrator.py:171-366 | one full cycle with a plain first answer emits exactly `idle`, `listening`, `transcript`, `thinking{1}`, `response`, `knowledge_update`, `speaking`; history gains user, assistant and agent turns; both records are stored; the session continues |
| PushToTalk.QuitPadded | voice_loop.py:194-197 | a quit word in any letter case, padded with any whitespace, quits |
| PushToTalk.QuitLength | voice_loop.py:194-195 | only a stripped command of one to four characters can quit; a bare Enter never does |
| PushToTalk.Step | voice_loop.py:193-227 | an iteration exchanges a turn exactly when the command is not a quit and recording, transcription and the query all succeed with a non-empty transcript; then history gains the user's transcript and the reply, and otherwise it is unchanged |
| PushToTalk.PlaybackDoesNotMatter | voice_loop.py:220-227 | a synthesis or playback failure does not undo the history update |
| PushToTalk.Run | voice_loop.py:193-197 | the loop never logs more iterations than there are attempts |
| PushToTalk.RunHistoryGrowth | voice_loop.py:209-221 | history is never rewritten and grows by exactly two entries per successful exchange |
| PushToTalk.QuitIsLast | voice_loop.py:194-197 | a quit is the last iteration and the only one whose command quits; stopping early means the loop quit |
| PushToTalk.NothingAfterQuit | voice_loop.py:195-197 | attempts after a quit are never looked at |
| PushToTalk.StepPaired | voice_loop.py:220-221 | every iteration keeps history as alternating user and assistant turns |
| PushToTalk.RunPaired | voice_loop.py:188-221 | starting from a paired history, the loop only ever holds user/assistant pairs |
| PushToTalk.Converse | voice_loop.py:183-227 | `main` from an empty history computes the loop's outcome and ends with a paired history |
| ArchiveAgent.NewAgent | archive/voice_loop.py:219-226 | a fresh agent is neither running nor listening, has no status callback, no events and no history |
| ArchiveAgent.SetStatusCallback | archive/voice_loop.py:228-229 | installs or clears the status callback and changes nothing else |
| ArchiveAgent.CallbackReceivesOnlyOnceSet | archive/voice_loop.py:224-233 | a fresh agent reports nothing; once a callback is set, a status reaches it |
| ArchiveAgent.Emit | archive/voice_loop.py:231-233 | an event reaches the callback only when one is installed; nothing else changes |
| ArchiveAgent.StartListening | archive/voice_loop.py:244-252 | afterwards the agent is listening; already listening means no change; otherwise `listening` is announced |
| ArchiveAgent.StopListening | archive/voice_loop.py:254-262 | afterwards the agent is not listening; not listening means no change; otherwise `idle` is announced |
| ArchiveAgent.Start | archive/voice_loop.py:235-237 | `start` only sets the running flag |
| ArchiveAgent.Stop | archive/voice_loop.py:239-242 | `stop` leaves the agent neither running nor listening, with history kept |
| ArchiveAgent.ListeningIdempotent | archive/voice_loop.py:244-262 | a second start or stop changes nothing and announces nothing |
| ArchiveAgent.ListeningRound | archive/voice_loop.py:244-262 | a start/stop round announces `listening` then `idle`, or only `idle` if the agent was already listening |
| ArchiveAgent.SliceFromEnd | archive/voice_loop.py:330 | `h[-m:]` keeps the last `m` entries for positive `m`, and for `m <= 0` drops the first `-m`, clamped at the length |
| ArchiveAgent.Trim | archive/voice_loop.py:329-330 | with no limit (None or 0) history is kept; otherwise the result is always a suffix of the history |
| ArchiveAgent.TrimKeepsNewest | archive/voice_loop.py:327-330 | a positive limit keeps exactly the newest `min(len, limit)` entries, including the newest one, and drops nothing from a history within the limit |
| ArchiveAgent.TrimIdempotent | archive/voice_loop.py:329-330 | trimming twice equals trimming once |
| ArchiveAgent.NegativeLimitDropsOldest | archive/voice_loop.py:329-330 | a negative limit `-k` drops the `k` oldest entries instead of keeping the newest |
| ArchiveAgent.TrimKeepsPairs | archive/voice_loop.py:327-330 | with an even limit, trimming a user/assistant-paired history keeps it paired |
| ArchiveAgent.ProcessKeepsPairs | archive/voice_loop.py:327-330 | with no limit or an even one, including the default 6, processing an utterance keeps a paired history paired |
| ArchiveAgent.ProcessUtterance | archive/voice_loop.py:313-340 | processing only adds events and changes history; running, listening and the callback are untouched |
| ArchiveAgent.ProcessHistory | archive/voice_loop.py:322-330 | history changes only when both the transcript and the reply arrive, and then becomes the trimmed history with the new pair appended |
| ArchiveAgent.NewestPairKept | archive/voice_loop.py:327-330 | with a limit of at least two, the pair just exchanged always survives trimming as the last two entries |
| ArchiveAgent.ProcessEvents | archive/voice_loop.py:313-340 | each path's exact events: empty → `idle`; an exception → `error` with its message then `idle`, after what was already announced; success → `transcript`, `response`, `speaking`, `idle` |
| ArchiveAgent.ListenLoop | archive/voice_loop.py:264-311 | a stream error reports `error`; no frames does nothing; otherwise `processing` is announced and the utterance is processed |
| ArchiveAgent.ListenLoopHistory | archive/voice_loop.py:288-311 | only a processed utterance can change history |

## Left out

- Audio capture and playback, the wake-word and speech detectors, Whisper,
  Ollama, Piper, the tool service and the vector store are left out because
  they are external programs or services. They appear only as oracle
  parameters: `Oracles`, `World`, `Attempt`, `Utterance`, `Search`.
- `json.loads` and `json.dumps` are left out because the JSON grammar is not
  part of the core. Parsing is a function from the brace candidate to an
  optional object. The tool catalogue arrives as already-dumped text.
- Python's `str()` of the profile dictionary and of a tool result,
  `time.strftime` and `time.time()` are left out because they are library
  formatting and the clock. They arrive as text and numbers (`profileText`,
  `timeText`, `userStamp`, `now`, idle time).
- `random.random()` is left out because it is randomness. Each poll's draw
  is an input of `Tick`.
- `lower`, `upper`, `strip` and `isspace` are modelled on ASCII only. Unicode
  case mapping and Unicode whitespace are left out.
- Floating-point numbers are modelled as `real`. Rounding is left out.
- The barge-in monitoring and interruption recording (levial/orchestrator.py:370-441)
  are left out because they are threads, audio queues and RMS arithmetic. A
  cycle's `Playback` input says how speech ended: played, interrupted with a
  transcribed text, or stopped by shutdown. In the source, that monitoring sits
  inside the `except Exception` handler of synthesis and playback. The model
  leaves that placement out.
- The concurrency of `update_config` and `trigger_wake` with `run_loop` is left
  out. Each command is modelled as an atomic step on its own state.
- `UserProfile.update_interest` is not part of this model. The interest merge
  is a parameter (`InterestMerge`), which may report that it raised.
- `get_profile()` is taken to return the live profile data, and
  `save_profile()` is taken never to raise, because `UserProfile` is not part
  of this model.
- Memory.UpdateKnowledge: the re-raise at levial/memory/manager.py:152-154 is
  left out, because with `save_profile` assumed not to raise, no step of the
  update can raise.
- Memory.ExtractAndUpdate: its own contract gives the cases that leave the
  profile alone (a failed query, no braces, a candidate the parser rejects) and
  the save invariant. The outcomes after decoding are stated by
  `ApplyKnowledge`, `ExtractedNameIff`, `ExtractedFactsMerged`,
  `ExtractionSaves`, `UnmergeableFactsNotSaved`,
  `InterestMergeRaisedNotSaved` and `EmptyKnowledgeChangesNothing`.
- Orchestrator.Respond and Orchestrator.Cycle carry no contract of their own.
  Their properties are the lemmas that name them (`RespondHistory`,
  `CycleHistoryAppendOnly`, `PlainAnswerScenario` and the rest).
- Orchestrator.Speak: uses the corrected interruption handling, in which
  "thank you" returns to idle. As written, levial/orchestrator.py:442-444 ends
  `run_loop` on "thank you" too; that behaviour is modelled separately by
  `InterruptionNextAsWritten` (see Findings), and `Cycle` and the lemmas about
  it follow the corrected program.
- Orchestrator.PreferencesText: a truthy string of preferences is joined
  character by character, as Python does. A dictionary of preferences is
  treated as raising, although Python would join its keys.
- Orchestrator.Listen: the audio level events are passed in as raw levels. How
  the recorder samples them is left out.
- The knowledge extraction in levial/orchestrator.py:334-349 has its own
  `except Exception`. The model does not use it, because `save_profile` and
  `get_profile` are assumed not to raise, and extraction catches everything else
  itself.
- The archive's threads are left out: `start_listening` starting the recording
  thread, `stop_listening` joining it with a timeout, and the `stop_event`
  polling in `_listen_loop`. A recording arrives as a `Recording` value.
- The archive's CLI `main` (archive/voice_loop.py:342-361) is left out except
  for its quit test, which is the same as `PushToTalk.IsQuit`.
- ArchiveAgent.Trim: a `MAX_HISTORY_TURNS` that is not an integer or null (a
  float, a string) is left out. The limit is an optional integer.
- PushToTalk.Converse: `_require_file`, the banner prints and exceptions other
  than the subprocess failures that `main` catches are left out. Such
  exceptions propagate out of `main` in the source.
- Configuration loading (`load_config`, the profile JSON) is left out because
  it is file I/O. The server entry points (`server.py`) are left out because
  they are not part of the core.

## Findings

| source | as written | input that shows it | evidently intended | confidence | as-written member | corrected member |
|---|---|---|---|---|---|---|
| levial/orchestrator.py:442-448 | The `break` after "thank you" is outside the agentic `while` loop, which has already ended. It therefore leaves `run_loop`'s outer loop and ends the session. | an interruption transcribed as "Thank you" | the comment "Exit Turn Loop -> Go to IDLE": stop speaking and return to idle; only "goodbye" ends the session | not executed | Orchestrator.ThankYouEndsSessionAsWritten | Orchestrator.InterruptionEndsOnlyOnGoodbye |

The as-written reading is `Orchestrator.InterruptionNextAsWritten`. The
corrected reading is `Orchestrator.InterruptionNext`, and `Orchestrator.Speak`
uses it.

Two further points follow the code rather than its prose. First, the idle
threshold for a proactive turn is strict (`idle_time > 30`), so exactly 30
seconds of idleness does not qualify. Second, the reply that gets spoken is
`run_loop`'s variable `reply`. When a cycle's loop produced no reply (a query
failure on turn 1, or shutdown before turn 1), that variable still holds an
earlier cycle's answer, which is spoken again. On the very first cycle the
variable is unbound and `run_loop` crashes. `Orchestrator.Respond` keeps the
variable in `Session.reply` and models both cases.
