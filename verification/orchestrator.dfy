/** `ConversationOrchestrator` (levial/orchestrator.py): the status events it
    emits, its small commands (`update_config`, `trigger_wake`), the
    proactivity rule, and one cycle of `run_loop` — wait for a wake signal,
    capture a transcript, decide what to do with it, run the agentic loop,
    apply the final-answer effects and speak.

    Audio, transcription, the model, the tool service, the vector store, the
    clock and the random draw are oracles: one cycle reads them from a
    `World`. */
module Orchestrator {
  import opened Wrappers
  import opened Strings
  import opened JsonValues
  import opened Conversation
  import opened ToolCalls
  import opened AgentLoop
  import opened Memory
  import opened SeqFacts

  // ---------------------------------------------------------------------
  // Status events (`_emit_status`)
  // ---------------------------------------------------------------------

  /** What the status callback receives: the status name and its payload. */
  datatype Event = Event(status: string, payload: map<string, Json>)

  /** `{"status": status}` updated with `data` when `data` is non-empty;
      a `status` key in `data` wins. */
  function Payload(status: string, data: map<string, Json>): (p: map<string, Json>)
    ensures p.Keys == {"status"} + data.Keys
    ensures forall key :: key in data ==> p[key] == data[key]
    ensures "status" !in data ==> p["status"] == JStr(status)
  {
    if Truthy(JObj(data)) then map["status" := JStr(status)] + data else map["status" := JStr(status)]
  }

  /** The proactivity and silence settings `update_config` may change. The
      silence duration is stored as received and only ever handed to the
      recorder, so it stays a JSON value. */
  datatype Settings = Settings(silenceDuration: Json, proactivityLevel: real)

  /** The orchestrator's state between cycles.
      - `callbackSet`: whether a status callback is installed;
      - `events`: every event the callback has received;
      - `history`: the conversation history;
      - `lastInteraction`: when the agent last spoke;
      - `store`: the user profile, live and saved;
      - `memories`: the records handed to the episodic store;
      - `reply`: `run_loop`'s local `reply`, which outlives a cycle. */
  datatype Session = Session(
    callbackSet: bool,
    events: seq<Event>,
    history: seq<Entry>,
    settings: Settings,
    lastInteraction: real,
    store: ProfileStore,
    memories: seq<MemoryRecord>,
    reply: Option<string>)

  /** Hands `evs` to the callback, if there is one. */
  function EmitAll(s: Session, evs: seq<Event>): (r: Session)
    ensures r == s.(events := if s.callbackSet then s.events + evs else s.events)
  {
    if s.callbackSet then s.(events := s.events + evs) else s
  }

  /** `_emit_status(status, data)`. */
  function Emit(s: Session, status: string, data: map<string, Json>): (r: Session)
    ensures r == s.(events := if s.callbackSet then s.events + [Event(status, Payload(status, data))] else s.events)
  {
    EmitAll(s, [Event(status, Payload(status, data))])
  }

  /** The payload of every event lists its own status, then the data; an
      event without data carries the status alone. */
  lemma PayloadShape(status: string, data: map<string, Json>)
    requires "status" !in data
    ensures Payload(status, data) - data.Keys == map["status" := JStr(status)]
    ensures data == map[] ==> Payload(status, data) == map["status" := JStr(status)]
  {
    UnionMinus(map["status" := JStr(status)], data);
  }

  // ---------------------------------------------------------------------
  // Commands: `update_config` and `trigger_wake`
  // ---------------------------------------------------------------------

  /** The settings after `update_config`, and whether `float()` raised on the
      proactivity level (after the silence duration was already stored). */
  datatype Configured = Configured(settings: Settings, raised: bool)

  /** `update_config(config)`: the silence duration is stored as given; the
      proactivity level goes through `float()`, which may raise. */
  function UpdateConfig(st: Settings, config: map<string, Json>, parseFloat: string -> Option<real>): (r: Configured)
    ensures r.settings.silenceDuration == if "silence_duration" in config then config["silence_duration"] else st.silenceDuration
    ensures r.raised <==> "proactivity_level" in config && ToFloat(config["proactivity_level"], parseFloat).None?
    ensures r.settings.proactivityLevel ==
      if "proactivity_level" in config && !r.raised then ToFloat(config["proactivity_level"], parseFloat).value
      else st.proactivityLevel
  {
    var silenced := if "silence_duration" in config then st.(silenceDuration := config["silence_duration"]) else st;
    if "proactivity_level" in config then
      match ToFloat(config["proactivity_level"], parseFloat)
      case Some(level) => Configured(silenced.(proactivityLevel := level), false)
      case None => Configured(silenced, true)
    else Configured(silenced, false)
  }

  /** Sending the same configuration twice changes nothing the second time. */
  lemma UpdateConfigIdempotent(st: Settings, config: map<string, Json>, parseFloat: string -> Option<real>)
    ensures var r := UpdateConfig(st, config, parseFloat);
      UpdateConfig(r.settings, config, parseFloat) == r
  {
  }

  /** The wake event and the label recorded with it. */
  datatype WakeFlag = WakeFlag(isSet: bool, detected: Option<string>)

  const ManualTrigger: string := "Manual Trigger"

  /** `trigger_wake()`: acts only while the wake event is clear. */
  function TriggerWake(w: WakeFlag): (r: WakeFlag)
    ensures r.isSet
    ensures w.isSet ==> r == w
    ensures !w.isSet ==> r.detected == Some(ManualTrigger)
  {
    if !w.isSet then WakeFlag(true, Some(ManualTrigger)) else w
  }

  /** A second trigger has no effect. */
  lemma TriggerWakeIdempotent(w: WakeFlag)
    ensures TriggerWake(TriggerWake(w)) == TriggerWake(w)
  {
  }

  // ---------------------------------------------------------------------
  // The proactivity rule and the wake wait
  // ---------------------------------------------------------------------

  /** Seconds of idleness before a proactive turn may start (a strict bound). */
  const ProactiveIdle: real := 30.0

  /** The chance per poll at full proactivity. */
  const ProactiveChance: real := 0.01

  /** One poll of the proactivity check, with the idle time and the draw of
      `random.random()` as inputs. */
  predicate ProactiveFires(level: real, idle: real, sample: real) {
    level > 0.0 && idle > ProactiveIdle && sample < level * ProactiveChance
  }

  /** Never with proactivity off or within 30 seconds of the last interaction;
      otherwise exactly when the draw falls under `level * 0.01`. */
  lemma ProactiveRule(level: real, idle: real, sample: real)
    ensures level <= 0.0 || idle <= 30.0 ==> !ProactiveFires(level, idle, sample)
    ensures level > 0.0 && idle > 30.0 ==> (ProactiveFires(level, idle, sample) <==> sample < level * 0.01)
  {
  }

  /** With a level of at most 1, a draw of 0.01 or more never fires, and a
      draw that fires at some level also fires at any higher level. */
  lemma ProactiveBounds(level: real, higher: real, idle: real, sample: real)
    requires level <= higher
    ensures level <= 1.0 && sample >= 0.01 ==> !ProactiveFires(level, idle, sample)
    ensures ProactiveFires(level, idle, sample) ==> ProactiveFires(higher, idle, sample)
  {
    if level <= 1.0 && sample >= 0.01 && level > 0.0 {
      assert level * 0.01 <= 0.01;
    }
    if ProactiveFires(level, idle, sample) {
      assert level * 0.01 <= higher * 0.01;
    }
  }

  /** One 0.5-second poll of the wake wait: the wake label delivered during
      it (by the detector or by `trigger_wake`), whether shutdown is set when
      the loop condition is checked, the idle time and the random draw. */
  datatype Tick = Tick(wake: Option<string>, shutdown: bool, idle: real, sample: real)

  /** How the wait ended, if it did within the polls given. */
  datatype Waited = StillWaiting | ShutdownSeen | Woke(proactive: bool, detected: Option<string>)

  /** A poll that neither wakes, fires nor sees shutdown. */
  predicate Quiet(level: real, t: Tick) {
    t.wake.None? && !t.shutdown && !ProactiveFires(level, t.idle, t.sample)
  }

  /** The wait loop: poll until the wake event or shutdown is set. The
      proactivity check runs on every poll, also on the one that woke, and
      shutdown takes precedence over a wake. */
  function Wait(level: real, ticks: seq<Tick>): (r: Waited)
    ensures r.Woke? ==> r.proactive || r.detected.Some?
    ensures level <= 0.0 ==> !(r.Woke? && r.proactive)
    decreases |ticks|
  {
    if |ticks| == 0 then StillWaiting
    else
      var t := ticks[0];
      if t.shutdown then ShutdownSeen
      else if Quiet(level, t) then Wait(level, ticks[1..])
      else Woke(ProactiveFires(level, t.idle, t.sample), t.wake)
  }

  /** The wait ends at the first poll that is not quiet, and that poll alone
      decides how. */
  lemma {:induction false} WaitFirstEvent(level: real, ticks: seq<Tick>, i: nat)
    requires i < |ticks| && !Quiet(level, ticks[i])
    requires forall j :: 0 <= j < i ==> Quiet(level, ticks[j])
    ensures Wait(level, ticks) ==
      if ticks[i].shutdown then ShutdownSeen
      else Woke(ProactiveFires(level, ticks[i].idle, ticks[i].sample), ticks[i].wake)
    decreases i
  {
    if i > 0 {
      assert Quiet(level, ticks[0]);
      forall j | 0 <= j < i - 1 ensures Quiet(level, ticks[1..][j]) {
        assert ticks[1..][j] == ticks[j + 1];
      }
      WaitFirstEvent(level, ticks[1..], i - 1);
    }
  }

  /** Polls that are all quiet keep the orchestrator waiting. */
  lemma {:induction false} QuietTicksKeepWaiting(level: real, ticks: seq<Tick>)
    requires forall j :: 0 <= j < |ticks| ==> Quiet(level, ticks[j])
    ensures Wait(level, ticks) == StillWaiting
    decreases |ticks|
  {
    if |ticks| > 0 {
      assert Quiet(level, ticks[0]);
      forall j | 0 <= j < |ticks| - 1 ensures Quiet(level, ticks[1..][j]) {
        assert ticks[1..][j] == ticks[j + 1];
      }
      QuietTicksKeepWaiting(level, ticks[1..]);
    }
  }

  // ---------------------------------------------------------------------
  // Interruptions during speech
  // ---------------------------------------------------------------------

  /** How an interruption's transcript is read: "thank you" is checked before
      "goodbye". */
  datatype Interruption = StopSpeaking | Terminate | Ignore

  function ClassifyInterruption(text: string): (c: Interruption)
    ensures c == StopSpeaking <==> Contains(Lower(text), "thank you")
    ensures c == Terminate <==> !Contains(Lower(text), "thank you") && Contains(Lower(text), "goodbye")
  {
    var t := Lower(text);
    if Contains(t, "thank you") then StopSpeaking
    else if Contains(t, "goodbye") then Terminate
    else Ignore
  }

  /** What the session does after a cycle.
      - `Continue`: back to the top of `run_loop`;
      - `End`: `run_loop` returns;
      - `Waiting`: the wait had not ended within the polls given;
      - `Crashed`: an exception escaped `run_loop`. */
  datatype Next = Continue | End | Waiting | Crashed(reason: string)

  /** The interruption handling as the source writes it: both `break`
      statements sit outside the agentic loop, so they leave `run_loop`
      itself, and "thank you" ends the session like "goodbye" does. */
  function InterruptionNextAsWritten(c: Interruption): Next {
    match c
    case StopSpeaking => End
    case Terminate => End
    case Ignore => Continue
  }

  /** The interruption handling as its comments describe it: "thank you"
      goes back to idle, only "goodbye" ends the session. */
  function InterruptionNext(c: Interruption): Next {
    match c
    case StopSpeaking => Continue
    case Terminate => End
    case Ignore => Continue
  }

  /** As written, saying "thank you" during speech ends the whole session. */
  lemma ThankYouEndsSessionAsWritten()
    ensures InterruptionNextAsWritten(ClassifyInterruption("Thank you")) == End
  {
    var t := Lower("Thank you");
    assert t == "thank you";
    assert OccursAt(t, "thank you", 0);
  }

  /** As intended, an interruption ends the session exactly when it says
      "goodbye" without "thank you"; anything else returns to idle. */
  lemma InterruptionEndsOnlyOnGoodbye(text: string)
    ensures InterruptionNext(ClassifyInterruption(text)) == End <==>
      !Contains(Lower(text), "thank you") && Contains(Lower(text), "goodbye")
    ensures InterruptionNext(ClassifyInterruption(text)) != End ==>
      InterruptionNext(ClassifyInterruption(text)) == Continue
  {
  }

  // ---------------------------------------------------------------------
  // One cycle of `run_loop`
  // ---------------------------------------------------------------------

  /** What recording and transcription produced. */
  datatype Recording = NoAudio | AsrFailed(stderr: string) | Transcribed(text: string)

  /** The listening step: the raw levels passed to the volume callback,
      whether shutdown is set once recording returns, and what it produced. */
  datatype Capture = Capture(levels: seq<real>, shutdownAfter: bool, recording: Recording)

  /** How speech ended: played out, interrupted by a transcribed
      utterance, or stopped by shutdown. */
  datatype Playback = Played | Interrupted(text: string) | ShutdownDuringPlayback

  /** Everything one cycle reads from outside. */
  datatype World = World(
    shutdownAtTop: bool,
    ticks: seq<Tick>,
    capture: Capture,
    timeText: string,
    profileText: string,
    search: Search,
    show: Json -> string,
    toolsJson: string,
    oracles: Oracles,
    extract: string -> Outcome<string>,
    merge: InterestMerge,
    userStamp: nat,
    assistantStamp: nat,
    now: real,
    playback: Playback)

  /** The transcript a proactive trigger stands in for the user's. */
  const ProactivePrompt: string := "System: The user has been idle. Initiate a conversation based on their interests."

  /** `min(level * 5, 1.0)`, the level sent with `audio_level`. */
  function AudioLevel(level: real): (r: real)
    ensures r <= 1.0
    ensures level * 5.0 <= 1.0 ==> r == level * 5.0
  {
    if level * 5.0 < 1.0 then level * 5.0 else 1.0
  }

  /** One `audio_level` event per volume callback, in order. */
  function LevelEvents(levels: seq<real>): (evs: seq<Event>)
    ensures |evs| == |levels|
    ensures forall i :: 0 <= i < |levels| ==> evs[i].status == "audio_level"
  {
    seq(|levels|, i requires 0 <= i < |levels| =>
      Event("audio_level", Payload("audio_level", map["level" := JFloat(AudioLevel(levels[i]))])))
  }

  /** Either a transcript to act on, or how the cycle ends without one. */
  datatype Heard = Stop(next: Next) | Heard(transcript: string)

  datatype Listened = Listened(session: Session, heard: Heard)

  /** The idle and listening states: emit `idle`, wait; on a proactive
      trigger take the fixed system transcript; on an "alexa" label go back
      to idle; otherwise emit `listening`, record and transcribe. Only
      events change. */
  function Listen(s: Session, w: World): (r: Listened)
    ensures r.session == s.(events := r.session.events)
    ensures s.events <= r.session.events
  {
    var idle := Emit(s, "idle", map[]);
    match Wait(s.settings.proactivityLevel, w.ticks)
    case StillWaiting => Listened(idle, Stop(Waiting))
    case ShutdownSeen => Listened(idle, Stop(End))
    case Woke(proactive, detected) =>
      if proactive then
        Listened(Emit(idle, "wake_word_detected", map["wake_word" := JStr("Proactive")]), Heard(ProactivePrompt))
      else if detected.Some? && Contains(Lower(detected.value), "alexa") then
        Listened(Emit(idle, "idle", map[]), Stop(Continue))
      else
        Record(idle, w)
  }

  /** The listening state proper: emit `listening` and the volume levels,
      then stop on shutdown, skip on no audio or a failed transcription, or
      hand on the transcript. */
  function Record(s: Session, w: World): (r: Listened)
    ensures r.session == s.(events := r.session.events)
    ensures s.events <= r.session.events
  {
    var recorded := EmitAll(Emit(s, "listening", map[]), LevelEvents(w.capture.levels));
    if w.capture.shutdownAfter then Listened(recorded, Stop(End))
    else
      match w.capture.recording
      case NoAudio => Listened(recorded, Stop(Continue))
      case AsrFailed(_) => Listened(recorded, Stop(Continue))
      case Transcribed(t) => Listened(recorded, Heard(t))
  }

  /** The transcript decisions: an empty transcript is skipped silently; any
      other is announced with `transcript`; one containing "goodbye" (in any
      case) ends the session before history is touched; the rest is appended
      to history as the user's turn. */
  function Admit(s: Session, t: string): (r: Listened)
    ensures t == "" ==> r == Listened(s, Stop(Continue))
    ensures t != "" ==> r.session.events == Emit(s, "transcript", map["text" := JStr(t)]).events
    ensures Contains(Lower(t), "goodbye") ==> r.heard.Stop? && r.session.history == s.history
    ensures r.heard.Heard? <==> t != "" && !Contains(Lower(t), "goodbye")
    ensures r.heard.Heard? ==> r.heard.transcript == t && r.session.history == s.history + [Entry(User, t)]
    ensures r.session == s.(events := r.session.events, history := r.session.history)
  {
    if t == "" then Listened(s, Stop(Continue))
    else
      var announced := Emit(s, "transcript", map["text" := JStr(t)]);
      if Contains(Lower(t), "goodbye") then Listened(announced, Stop(End))
      else Listened(announced.(history := announced.history + [Entry(User, t)]), Heard(t))
  }

  /** `user_profile.get("preferences", [])`. */
  function PreferencesOf(profile: ProfileData): Json {
    if "preferences" in profile then profile["preferences"] else JArr([])
  }

  predicate AllStrings(items: seq<Json>) {
    forall i :: 0 <= i < |items| ==> items[i].JStr?
  }

  function Texts(items: seq<Json>): (ts: seq<string>)
    requires AllStrings(items)
    ensures |ts| == |items|
    ensures forall i :: 0 <= i < |items| ==> ts[i] == items[i].s
  {
    seq(|items|, i requires 0 <= i < |items| => items[i].s)
  }

  /** The one-character strings iterating over `s` yields. */
  function Chars(s: string): (cs: seq<string>)
    ensures |cs| == |s|
    ensures forall i :: 0 <= i < |s| ==> cs[i] == [s[i]]
  {
    seq(|s|, i requires 0 <= i < |s| => [s[i]])
  }

  /** `", ".join(preferences) if preferences else ""`. A list of strings is
      joined; a string is joined character by character; anything else
      (a number, a list holding a non-string, a dictionary) is `None`. */
  function PreferencesText(v: Json): (r: Option<string>)
    ensures !Truthy(v) ==> r == Some("")
    ensures v.JArr? && AllStrings(v.items) ==> r.Some?
    ensures (v.JInt? || v.JFloat? || v.JBool?) && Truthy(v) ==> r.None?
  {
    if !Truthy(v) then Some("")
    else
      match v
      case JArr(items) => if AllStrings(items) then Some(Join(Texts(items), ", ")) else None
      case JStr(s) => Some(Join(Chars(s), ", "))
      case _ => None
  }

  /** One preference is shown as it is; each further one adds ", " and itself. */
  lemma PreferencesJoin(items: seq<Json>, x: string)
    requires AllStrings(items)
    ensures PreferencesText(JArr([JStr(x)])) == Some(x)
    ensures |items| > 0 ==>
      PreferencesText(JArr(items + [JStr(x)])) == Some(PreferencesText(JArr(items)).value + ", " + x)
  {
    assert Texts([JStr(x)]) == [x];
    if |items| > 0 {
      assert Texts(items + [JStr(x)]) == Texts(items) + [x];
      JoinSnoc(Texts(items), x, ", ");
    }
  }

  /** The event a loop status becomes. */
  function StatusEvent(st: Status): Event {
    match st
    case Thinking(k) => Event("thinking", Payload("thinking", map["turn" := JInt(k)]))
    case Response(text) => Event("response", Payload("response", map["text" := JStr(text)]))
  }

  function StatusEvents(sts: seq<Status>): (evs: seq<Event>)
    ensures |evs| == |sts|
    ensures forall i :: 0 <= i < |sts| ==> evs[i] == StatusEvent(sts[i])
  {
    seq(|sts|, i requires 0 <= i < |sts| => StatusEvent(sts[i]))
  }

  lemma StatusEventsPair(a: Status, b: Status)
    ensures StatusEvents([a, b]) == [StatusEvent(a), StatusEvent(b)]
  {
  }

  /** Knowledge extraction for the exchange (`t`, `reply`): `extract` is the
      model, asked with the extraction prompt that quotes the exchange. */
  function Extracted(store: ProfileStore, w: World, t: string, reply: string): Extraction {
    ExtractAndUpdate(store, w.extract(ExtractionPrompt(t, reply)), w.oracles.parse, w.merge)
  }

  /** `knowledge_update` with the live profile and the extracted knowledge. */
  function KnowledgeEvent(ex: Extraction): Event {
    Event("knowledge_update", Payload("knowledge_update",
      map["profile" := JObj(ex.store.live), "latest_extraction" := JObj(ex.knowledge)]))
  }

  /** What a final answer adds: the user's and the assistant's episodic
      records, the knowledge extraction, and a `knowledge_update` event with
      the live profile and the extracted knowledge. */
  function FinalEffects(s: Session, w: World, t: string, reply: string): (r: Session)
    ensures r.memories == s.memories + [AddInteraction(w.userStamp, "user", t),
                                        AddInteraction(w.assistantStamp, "assistant", reply)]
    ensures r.store == Extracted(s.store, w, t, reply).store
    ensures r == s.(events := if s.callbackSet then s.events + [KnowledgeEvent(Extracted(s.store, w, t, reply))] else s.events,
                    memories := r.memories, store := r.store)
  {
    var ex := Extracted(s.store, w, t, reply);
    var stored := s.(memories := s.memories + [AddInteraction(w.userStamp, "user", t),
                                             AddInteraction(w.assistantStamp, "assistant", reply)],
                     store := ex.store);
    EmitAll(stored, [KnowledgeEvent(ex)])
  }

  datatype CycleResult = CycleResult(session: Session, next: Next)

  /** The speaking state: a non-empty reply is announced with `speaking`,
      appended to history as the agent's turn and stamps the interaction
      time; playback may then be interrupted. An empty reply is not spoken.
      A finished playback continues the session and a shutdown during
      playback ends it; an interruption ends it only when it says "goodbye"
      and not "thank you" (the corrected reading of the "thank you" case). */
  function Speak(s: Session, w: World, reply: string): (r: CycleResult)
    ensures reply == "" ==> r == CycleResult(s, Continue)
    ensures reply != "" ==> r.session.history == s.history + [Entry(Agent, reply)]
    ensures reply != "" ==> r.session.events == Emit(s, "speaking", map[]).events
    ensures r.session.memories == s.memories && r.session.store == s.store
    ensures reply != "" && w.playback.Played? ==> r.next == Continue
    ensures reply != "" && w.playback.ShutdownDuringPlayback? ==> r.next == End
    ensures reply != "" && w.playback.Interrupted? ==>
      && (r.next == Continue || r.next == End)
      && (r.next == End <==>
            !Contains(Lower(w.playback.text), "thank you") && Contains(Lower(w.playback.text), "goodbye"))
  {
    if reply == "" then CycleResult(s, Continue)
    else
      var speaking := Emit(s, "speaking", map[]);
      var spoken := speaking.(history := speaking.history + [Entry(Agent, reply)], lastInteraction := w.now);
      match w.playback
      case Played => CycleResult(spoken, Continue)
      case ShutdownDuringPlayback => CycleResult(spoken, End)
      case Interrupted(text) => CycleResult(spoken, InterruptionNext(ClassifyInterruption(text)))
  }

  /** The request every prompt of the loop is built from. */
  function RequestFor(s: Session, w: World, t: string, prefs: string): Request {
    Request(t, RelevantContext(w.timeText, w.profileText, t, w.search, w.show), w.toolsJson, prefs)
  }

  /** The session after the agentic loop: its history, its events and, for
      a final answer, the final-answer effects. */
  function AfterLoop(s: Session, w: World, t: string, loop: LoopResult): Session {
    var looped := EmitAll(s.(history := loop.state.history), StatusEvents(loop.state.statuses));
    if loop.ending.Final? then FinalEffects(looped, w, t, loop.ending.reply) else looped
  }

  /** The thinking and speaking states for an admitted transcript. The reply
      spoken afterwards is `run_loop`'s variable `reply`: the loop's latest
      reply, or, when the loop got none, whatever an earlier cycle left there. */
  function Respond(s: Session, w: World, t: string): (r: CycleResult)
  {
    match PreferencesText(PreferencesOf(s.store.live))
    case None => CycleResult(s, Crashed("preferences cannot be joined"))
    case Some(prefs) =>
      var loop := AgentLoop.AgentLoop(RequestFor(s, w, t, prefs), w.oracles, s.history);
      var after := AfterLoop(s, w, t, loop);
      var reply := if loop.state.last.Some? then loop.state.last else s.reply;
      match reply
      case None => CycleResult(after, Crashed("reply is unbound"))
      case Some(text) => Speak(after.(reply := reply), w, text)
  }

  /** One iteration of `run_loop`'s outer loop. */
  function Cycle(s: Session, w: World): CycleResult {
    if w.shutdownAtTop then CycleResult(s, End)
    else
      var l := Listen(s, w);
      match l.heard
      case Stop(next) => CycleResult(l.session, next)
      case Heard(t) =>
        var a := Admit(l.session, t);
        match a.heard
        case Stop(next) => CycleResult(a.session, next)
        case Heard(t') => Respond(a.session, w, t')
  }

  // ---------------------------------------------------------------------
  // Properties of a cycle
  // ---------------------------------------------------------------------

  /** The status names of a run of events. */
  function Names(evs: seq<Event>): (ns: seq<string>)
    ensures |ns| == |evs|
    ensures forall i :: 0 <= i < |evs| ==> ns[i] == evs[i].status
  {
    seq(|evs|, i requires 0 <= i < |evs| => evs[i].status)
  }

  /** The admitted transcript and the state `Respond` starts from, when the
      cycle gets that far. */
  ghost predicate AdmittedIn(s: Session, w: World, t: string) {
    && !w.shutdownAtTop
    && Listen(s, w).heard.Heard?
    && Admit(Listen(s, w).session, Listen(s, w).heard.transcript).heard == Heard(t)
  }

  /** The history after the loop extends the history it started from. */
  lemma AfterLoopHistory(s: Session, w: World, t: string, req: Request)
    ensures var loop := AgentLoop.AgentLoop(req, w.oracles, s.history);
      s.history <= AfterLoop(s, w, t, loop).history
  {
    RunHistoryPrefix(Turn(req, w.oracles), w.oracles.stopRequested, Start(s.history));
  }

  /** `Respond` only ever appends to history. */
  lemma RespondHistory(s: Session, w: World, t: string)
    ensures s.history <= Respond(s, w, t).session.history
  {
    match PreferencesText(PreferencesOf(s.store.live))
    case None =>
    case Some(prefs) =>
      AfterLoopHistory(s, w, t, RequestFor(s, w, t, prefs));
  }

  /** History is append-only across a whole cycle: no cycle removes or
      rewrites an earlier turn. */
  lemma CycleHistoryAppendOnly(s: Session, w: World)
    ensures s.history <= Cycle(s, w).session.history
  {
    if !w.shutdownAtTop {
      var l := Listen(s, w);
      assert l.session.history == s.history;
      if l.heard.Heard? {
        var a := Admit(l.session, l.heard.transcript);
        assert s.history <= a.session.history;
        if a.heard.Heard? {
          RespondHistory(a.session, w, a.heard.transcript);
          assert Cycle(s, w) == Respond(a.session, w, a.heard.transcript);
        } else {
          assert Cycle(s, w) == CycleResult(a.session, a.heard.next);
        }
      } else {
        assert Cycle(s, w) == CycleResult(l.session, l.heard.next);
      }
    }
  }

  /** An empty transcript ends the cycle after `idle`, `listening` and the
      volume levels: no `transcript` event, history, memories and profile
      untouched, back to idle. */
  lemma EmptyTranscriptSkipped(s: Session, w: World, wakeLabel: Option<string>)
    requires !w.shutdownAtTop
    requires Wait(s.settings.proactivityLevel, w.ticks) == Woke(false, wakeLabel)
    requires !(wakeLabel.Some? && Contains(Lower(wakeLabel.value), "alexa"))
    requires !w.capture.shutdownAfter && w.capture.recording == Transcribed("")
    ensures var r := Cycle(s, w);
      && r.next == Continue
      && r.session.(events := s.events) == s
      && r.session.events == Emit(Emit(s, "idle", map[]), "listening", map[]).events + (if s.callbackSet then LevelEvents(w.capture.levels) else [])
  {
    var recorded := EmitAll(Emit(Emit(s, "idle", map[]), "listening", map[]), LevelEvents(w.capture.levels));
    assert Listen(s, w) == Listened(recorded, Heard(""));
    assert Cycle(s, w) == CycleResult(recorded, Continue);
  }

  /** A transcript containing "goodbye" ends the session right after its
      `transcript` event: history, memories and profile are untouched and the
      loop never runs, so no `thinking` event is emitted. */
  lemma GoodbyeEndsBeforeHistory(s: Session, w: World)
    requires !w.shutdownAtTop && Listen(s, w).heard.Heard?
    requires Contains(Lower(Listen(s, w).heard.transcript), "goodbye")
    ensures var r := Cycle(s, w);
      var l := Listen(s, w);
      && r.next == End
      && r.session.(events := s.events) == s
      && r.session.events == Emit(l.session, "transcript", map["text" := JStr(l.heard.transcript)]).events
  {
  }

  /** Woken without a pause label, with a transcript: `idle`, `listening`,
      and the transcript is handed on. */
  lemma ListenHears(s: Session, w: World, wakeLabel: Option<string>, t: string)
    requires Wait(s.settings.proactivityLevel, w.ticks) == Woke(false, wakeLabel)
    requires !(wakeLabel.Some? && Contains(Lower(wakeLabel.value), "alexa"))
    requires w.capture == Capture([], false, Transcribed(t))
    ensures Listen(s, w) == Listened(Emit(Emit(s, "idle", map[]), "listening", map[]), Heard(t))
  {
  }

  /** The loop's result when the model's first reply is plain text. */
  lemma PlainLoop(s: Session, w: World, t: string, prefs: string, answer: string)
    requires !w.oracles.stopRequested(0)
    requires forall p :: w.oracles.query(1, p) == Reply(answer)
    requires !IsToolCallReply(answer, w.oracles.parse)
    ensures AgentLoop.AgentLoop(RequestFor(s, w, t, prefs), w.oracles, s.history) == PlainResult(s.history, answer)
  {
    PlainReplyEndsFirstTurn(RequestFor(s, w, t, prefs), w.oracles, s.history);
  }

  /** The loop result of a plain first answer, as `PlainLoop` computes it. */
  function PlainResult(history: seq<Entry>, answer: string): LoopResult {
    LoopResult(LoopState(1, history + [Entry(Assistant, answer)], [Thinking(1), Response(answer)], [], Some(answer)),
               Final(answer))
  }

  /** After a plain first answer: the status events of the loop, the
      knowledge update, then `speaking`; history gains the answer and the
      spoken answer; both sides of the exchange go to episodic memory. */
  lemma AnswerSpoken(s: Session, w: World, t: string, answer: string)
    requires s.callbackSet
    requires answer != "" && w.playback == Played
    ensures var r := Speak(AfterLoop(s, w, t, PlainResult(s.history, answer)).(reply := Some(answer)), w, answer);
      && r.next == Continue
      && r.session.history == s.history + [Entry(Assistant, answer), Entry(Agent, answer)]
      && r.session.events == s.events + [StatusEvent(Thinking(1)), StatusEvent(Response(answer)),
                                         KnowledgeEvent(Extracted(s.store, w, t, answer)),
                                         Event("speaking", Payload("speaking", map[]))]
      && r.session.memories == s.memories + [AddInteraction(w.userStamp, "user", t),
                                             AddInteraction(w.assistantStamp, "assistant", answer)]
  {
    AfterPlain(s, w, t, answer);
    var after := AfterLoop(s, w, t, PlainResult(s.history, answer));
    SpeakPlayed(after.(reply := Some(answer)), w, answer);
    AppendFour(s.events, StatusEvent(Thinking(1)), StatusEvent(Response(answer)),
                  KnowledgeEvent(Extracted(s.store, w, t, answer)), Event("speaking", Payload("speaking", map[])));
    AppendTwo(s.history, Entry(Assistant, answer), Entry(Agent, answer));
  }

  /** The session after a plain first answer, before it is spoken. */
  lemma AfterPlain(s: Session, w: World, t: string, answer: string)
    requires s.callbackSet
    ensures AfterLoop(s, w, t, PlainResult(s.history, answer))
         == s.(history := s.history + [Entry(Assistant, answer)],
               events := s.events + [StatusEvent(Thinking(1)), StatusEvent(Response(answer))]
                                  + [KnowledgeEvent(Extracted(s.store, w, t, answer))],
               memories := s.memories + [AddInteraction(w.userStamp, "user", t),
                                         AddInteraction(w.assistantStamp, "assistant", answer)],
               store := Extracted(s.store, w, t, answer).store)
  {
    var loop := PlainResult(s.history, answer);
    var thought := [StatusEvent(Thinking(1)), StatusEvent(Response(answer))];
    StatusEventsPair(Thinking(1), Response(answer));
    var looped := s.(history := s.history + [Entry(Assistant, answer)], events := s.events + thought);
    assert EmitAll(s.(history := loop.state.history), StatusEvents(loop.state.statuses)) == looped;
    assert AfterLoop(s, w, t, loop) == FinalEffects(looped, w, t, answer);
  }

  /** A non-empty reply that plays out: `speaking`, the agent's turn in
      history, the interaction time stamped, and the loop continues. */
  lemma SpeakPlayed(s: Session, w: World, reply: string)
    requires s.callbackSet && reply != "" && w.playback == Played
    ensures Speak(s, w, reply)
         == CycleResult(s.(events := s.events + [Event("speaking", Payload("speaking", map[]))],
                           history := s.history + [Entry(Agent, reply)],
                           lastInteraction := w.now),
                        Continue)
  {
  }

  /** A plain first answer that plays out, through `Respond`. */
  lemma RespondPlain(s: Session, w: World, t: string, answer: string)
    requires s.callbackSet
    requires PreferencesText(PreferencesOf(s.store.live)).Some?
    requires !w.oracles.stopRequested(0)
    requires forall p :: w.oracles.query(1, p) == Reply(answer)
    requires answer != "" && !IsToolCallReply(answer, w.oracles.parse)
    requires w.playback == Played
    ensures Respond(s, w, t) == Speak(AfterLoop(s, w, t, PlainResult(s.history, answer)).(reply := Some(answer)), w, answer)
  {
    var prefs := PreferencesText(PreferencesOf(s.store.live)).value;
    PlainLoop(s, w, t, prefs, answer);
  }

  /** The thinking and speaking states for a plain first answer that plays
      out: `thinking{1}`, `response`, `knowledge_update`, `speaking`; the
      answer enters history as the assistant's and as the agent's turn; both
      sides of the exchange go to episodic memory; the session continues. */
  lemma PlainTurn(s: Session, w: World, t: string, answer: string)
    requires s.callbackSet
    requires PreferencesText(PreferencesOf(s.store.live)).Some?
    requires !w.oracles.stopRequested(0)
    requires forall p :: w.oracles.query(1, p) == Reply(answer)
    requires answer != "" && !IsToolCallReply(answer, w.oracles.parse)
    requires w.playback == Played
    ensures var r := Respond(s, w, t);
      && r.next == Continue
      && r.session.history == s.history + [Entry(Assistant, answer), Entry(Agent, answer)]
      && r.session.events == s.events + [StatusEvent(Thinking(1)), StatusEvent(Response(answer)),
                                         KnowledgeEvent(Extracted(s.store, w, t, answer)),
                                         Event("speaking", Payload("speaking", map[]))]
      && r.session.memories == s.memories + [AddInteraction(w.userStamp, "user", t),
                                             AddInteraction(w.assistantStamp, "assistant", answer)]
  {
    RespondPlain(s, w, t, answer);
    AnswerSpoken(s, w, t, answer);
  }

  /** The plain-answer scenario: the user wakes the agent, says something
      other than "goodbye", the model answers with plain text on its first
      turn and the answer plays out. The callback then receives `idle`,
      `listening`, `transcript`, `thinking` for turn 1, `response`,
      `knowledge_update` and `speaking`, in that order; history gains the
      user's turn, the answer and the spoken answer; both sides of the
      exchange go to episodic memory; and the session returns to idle. */
  lemma PlainAnswerScenario(s: Session, w: World, wakeLabel: Option<string>, t: string, answer: string)
    requires s.callbackSet && !w.shutdownAtTop
    requires Wait(s.settings.proactivityLevel, w.ticks) == Woke(false, wakeLabel)
    requires !(wakeLabel.Some? && Contains(Lower(wakeLabel.value), "alexa"))
    requires w.capture == Capture([], false, Transcribed(t))
    requires t != "" && !Contains(Lower(t), "goodbye")
    requires PreferencesText(PreferencesOf(s.store.live)).Some?
    requires !w.oracles.stopRequested(0)
    requires forall p :: w.oracles.query(1, p) == Reply(answer)
    requires answer != "" && !IsToolCallReply(answer, w.oracles.parse)
    requires w.playback == Played
    ensures var r := Cycle(s, w);
      && r.next == Continue
      && r.session.history == s.history + [Entry(User, t), Entry(Assistant, answer), Entry(Agent, answer)]
      && r.session.events == s.events + [Event("idle", Payload("idle", map[])),
                                         Event("listening", Payload("listening", map[])),
                                         Event("transcript", Payload("transcript", map["text" := JStr(t)])),
                                         Event("thinking", Payload("thinking", map["turn" := JInt(1)])),
                                         Event("response", Payload("response", map["text" := JStr(answer)])),
                                         KnowledgeEvent(Extracted(s.store, w, t, answer)),
                                         Event("speaking", Payload("speaking", map[]))]
      && r.session.memories == s.memories + [AddInteraction(w.userStamp, "user", t),
                                             AddInteraction(w.assistantStamp, "assistant", answer)]
  {
    var idle := Event("idle", Payload("idle", map[]));
    var listening := Event("listening", Payload("listening", map[]));
    var transcript := Event("transcript", Payload("transcript", map["text" := JStr(t)]));
    var a := s.(events := s.events + [idle, listening, transcript], history := s.history + [Entry(User, t)]);
    PlainTurn(a, w, t, answer);
    HeardAndAdmitted(s, w, wakeLabel, t);
    AppendThree(s.history, Entry(User, t), Entry(Assistant, answer), Entry(Agent, answer));
    var thinking := StatusEvent(Thinking(1));
    var response := StatusEvent(Response(answer));
    assert thinking == Event("thinking", Payload("thinking", map["turn" := JInt(1)]));
    assert response == Event("response", Payload("response", map["text" := JStr(answer)]));
    AppendThreeThenFour(s.events, idle, listening, transcript, thinking, response,
                KnowledgeEvent(Extracted(s.store, w, t, answer)), Event("speaking", Payload("speaking", map[])));
  }

  /** Woken without "alexa", recording a transcript that is neither empty
      nor "goodbye": `idle`, `listening`, `transcript`, the user's turn in
      history, and `Respond` takes over. */
  lemma HeardAndAdmitted(s: Session, w: World, wakeLabel: Option<string>, t: string)
    requires s.callbackSet && !w.shutdownAtTop
    requires Wait(s.settings.proactivityLevel, w.ticks) == Woke(false, wakeLabel)
    requires !(wakeLabel.Some? && Contains(Lower(wakeLabel.value), "alexa"))
    requires w.capture == Capture([], false, Transcribed(t))
    requires t != "" && !Contains(Lower(t), "goodbye")
    ensures var a := s.(events := s.events + [Event("idle", Payload("idle", map[])),
                                              Event("listening", Payload("listening", map[])),
                                              Event("transcript", Payload("transcript", map["text" := JStr(t)]))],
                        history := s.history + [Entry(User, t)]);
      Cycle(s, w) == Respond(a, w, t)
  {
    ListenHears(s, w, wakeLabel, t);
    var l := Listen(s, w);
    var a := Admit(l.session, t);
    var idle := Event("idle", Payload("idle", map[]));
    var listening := Event("listening", Payload("listening", map[]));
    var transcript := Event("transcript", Payload("transcript", map["text" := JStr(t)]));
    assert l.session.events == s.events + [idle] + [listening];
    assert a.session.events == s.events + [idle] + [listening] + [transcript];
    AppendThree(s.events, idle, listening, transcript);
    assert a.session == s.(events := s.events + [idle, listening, transcript], history := s.history + [Entry(User, t)]);
  }

}
