/** The archived `VoiceAgent` of `archive/voice_loop.py`: a listening flag
    toggled by `start_listening`/`stop_listening`, and the processing of one
    recorded utterance, which reports its progress through status events and
    keeps a history trimmed to the newest `MAX_HISTORY_TURNS` entries.
    Threads, audio and the external programs are inputs. */
module ArchiveAgent {
  import opened Wrappers
  import opened Conversation
  import opened Prompts
  import PushToTalk
  import opened SeqFacts

  /** What the status callback receives: a status and its optional data. */
  datatype Event = Event(status: string, data: Option<map<string, string>>)

  /** The agent's state.
      - `running`: `is_running`;
      - `listening`: `is_listening`;
      - `callbackSet`: whether a status callback is installed;
      - `events`: everything the callback has received;
      - `history`: the conversation history;
      - `maxTurns`: `MAX_HISTORY_TURNS` (`None` when the profile sets it to null). */
  datatype VoiceAgent = VoiceAgent(
    running: bool,
    listening: bool,
    callbackSet: bool,
    events: seq<Event>,
    history: seq<Entry>,
    maxTurns: Option<int>)

  /** A fresh `VoiceAgent()` with the given trimming setting: no callback
      is installed yet. */
  function NewAgent(maxTurns: Option<int>): (a: VoiceAgent)
    ensures !a.running && !a.listening && !a.callbackSet && a.events == [] && a.history == []
    ensures a.maxTurns == maxTurns
  {
    VoiceAgent(false, false, false, [], [], maxTurns)
  }

  /** `set_status_callback`: installs a callback (`installed`) or clears it
      (a falsy callback such as `None`); nothing else changes. */
  function SetStatusCallback(a: VoiceAgent, installed: bool): (r: VoiceAgent)
    ensures r.callbackSet == installed
    ensures r.(callbackSet := a.callbackSet) == a
  {
    a.(callbackSet := installed)
  }

  /** A fresh agent reports nothing until a callback is installed; after
      `set_status_callback` every status reaches it. */
  lemma CallbackReceivesOnlyOnceSet(maxTurns: Option<int>, status: string, data: Option<map<string, string>>)
    ensures Emit(NewAgent(maxTurns), status, data) == NewAgent(maxTurns)
    ensures Emit(SetStatusCallback(NewAgent(maxTurns), true), status, data).events == [Event(status, data)]
  {
  }

  /** `_emit_status`: the event reaches the callback only when one is set. */
  function Emit(a: VoiceAgent, status: string, data: Option<map<string, string>>): (r: VoiceAgent)
    ensures r == a.(events := if a.callbackSet then a.events + [Event(status, data)] else a.events)
  {
    if a.callbackSet then a.(events := a.events + [Event(status, data)]) else a
  }

  // ---------------------------------------------------------------------
  // The listening flag
  // ---------------------------------------------------------------------

  /** `start_listening`: nothing when already listening; otherwise raise the
      flag and announce `listening` (the recording thread is not modelled). */
  function StartListening(a: VoiceAgent): (r: VoiceAgent)
    ensures r.listening
    ensures a.listening ==> r == a
    ensures !a.listening ==> r == Emit(a.(listening := true), "listening", None)
  {
    if a.listening then a else Emit(a.(listening := true), "listening", None)
  }

  /** `stop_listening`: nothing when not listening; otherwise lower the flag
      and announce `idle`. */
  function StopListening(a: VoiceAgent): (r: VoiceAgent)
    ensures !r.listening
    ensures !a.listening ==> r == a
    ensures a.listening ==> r == Emit(a.(listening := false), "idle", None)
  {
    if !a.listening then a else Emit(a.(listening := false), "idle", None)
  }

  function Start(a: VoiceAgent): (r: VoiceAgent)
    ensures r.running && r.(running := a.running) == a
  {
    a.(running := true)
  }

  /** `stop`: clear the running flag, then stop listening. */
  function Stop(a: VoiceAgent): (r: VoiceAgent)
    ensures !r.running && !r.listening
    ensures r.history == a.history
  {
    StopListening(a.(running := false))
  }

  /** Starting and stopping are idempotent: a second call changes nothing
      and announces nothing. */
  lemma ListeningIdempotent(a: VoiceAgent)
    ensures StartListening(StartListening(a)) == StartListening(a)
    ensures StopListening(StopListening(a)) == StopListening(a)
  {
  }

  /** A start/stop round from an idle agent restores the flag and announces
      exactly `listening` then `idle`; a round on an agent that was already
      listening announces only `idle`. */
  lemma ListeningRound(a: VoiceAgent)
    requires a.callbackSet
    ensures var r := StopListening(StartListening(a));
      && !r.listening
      && r.history == a.history
      && r.events == a.events + (if a.listening then [] else [Event("listening", None)]) + [Event("idle", None)]
  {
  }

  // ---------------------------------------------------------------------
  // History trimming
  // ---------------------------------------------------------------------

  /** Python's `h[-m:]`: a negative start counts from the end and is clamped
      at zero; a non-negative start `-m` (when `m <= 0`) is clamped at the length. */
  function SliceFromEnd<T>(h: seq<T>, m: int): (r: seq<T>)
    ensures m > 0 ==> r == h[|h| - (if m < |h| then m else |h|)..]
    ensures m <= 0 ==> r == h[(if -m < |h| then -m else |h|)..]
  {
    if m > 0 then
      var start := |h| - m;
      h[(if start < 0 then 0 else start)..]
    else
      h[(if -m < |h| then -m else |h|)..]
  }

  /** Whether `MAX_HISTORY_TURNS` is falsy (`None` or `0`). */
  predicate NoLimit(maxTurns: Option<int>) {
    maxTurns.None? || maxTurns.value == 0
  }

  /** `if MAX_HISTORY_TURNS and len(history) > MAX_HISTORY_TURNS:
      history = history[-MAX_HISTORY_TURNS:]`. */
  function Trim(h: seq<Entry>, maxTurns: Option<int>): (r: seq<Entry>)
    ensures NoLimit(maxTurns) ==> r == h
    ensures |r| <= |h| && r == h[|h| - |r|..]
  {
    if !NoLimit(maxTurns) && |h| > maxTurns.value then SliceFromEnd(h, maxTurns.value) else h
  }

  /** With a positive limit, trimming keeps exactly the newest
      `min(len, limit)` entries: at most the limit, and nothing is dropped
      unless the history was over it. */
  lemma TrimKeepsNewest(h: seq<Entry>, n: int)
    requires n > 0
    ensures var r := Trim(h, Some(n));
      && |r| == (if |h| < n then |h| else n)
      && r == h[|h| - |r|..]
      && (|h| <= n ==> r == h)
      && (|h| > 0 ==> r[|r| - 1] == h[|h| - 1])
  {
  }

  /** Trimming twice is trimming once. */
  lemma TrimIdempotent(h: seq<Entry>, maxTurns: Option<int>)
    requires NoLimit(maxTurns) || maxTurns.value > 0
    ensures Trim(Trim(h, maxTurns), maxTurns) == Trim(h, maxTurns)
  {
  }

  /** A zero or negative limit drops the oldest entries rather than keeping
      the newest: with a limit of `-k` the first `k` entries go. */
  lemma NegativeLimitDropsOldest(h: seq<Entry>, k: int)
    requires 0 < k < |h|
    ensures Trim(h, Some(-k)) == h[k..]
  {
  }

  /** With an even limit, trimming a user/assistant-paired history keeps
      it paired: the newest entry is always an assistant reply. */
  lemma TrimKeepsPairs(h: seq<Entry>, n: int)
    requires n > 0 && n % 2 == 0
    requires PushToTalk.Paired(h)
    ensures PushToTalk.Paired(Trim(h, Some(n)))
  {
    var r := Trim(h, Some(n));
    TrimKeepsNewest(h, n);
    if |h| > n {
      EvenDifference(|h|, n);
      assert r == h[|h| - n..];
      SuffixPaired(h, |h| - n);
    }
  }

  lemma EvenDifference(a: int, b: int)
    requires a % 2 == 0 && b % 2 == 0
    ensures (a - b) % 2 == 0
  {
  }

  /** Dropping an even number of the oldest entries keeps a history paired. */
  lemma SuffixPaired(h: seq<Entry>, d: int)
    requires PushToTalk.Paired(h)
    requires 0 <= d <= |h| && d % 2 == 0
    ensures PushToTalk.Paired(h[d..])
  {
    var r := h[d..];
    forall i | 0 <= i < |r|
      ensures r[i].role == (if i % 2 == 0 then User else Assistant)
    {
      assert r[i] == h[d + i];
      EvenShift(d, i);
    }
  }

  lemma EvenShift(d: int, i: int)
    requires d % 2 == 0
    ensures (d + i) % 2 == i % 2
  {
  }

  // ---------------------------------------------------------------------
  // Processing an utterance
  // ---------------------------------------------------------------------

  /** What the outside world does while one utterance is processed.
      - `transcription`: Whisper's stripped transcript, or the exception;
      - `query`: the model's stripped reply to a prompt, or the exception;
      - `playback`: success of synthesis and playback, or the exception. */
  datatype Utterance = Utterance(
    transcription: Outcome<string>,
    query: string -> Outcome<string>,
    playback: Outcome<bool>)

  function Message(m: string): Option<map<string, string>> {
    Some(map["message" := m])
  }

  /** `_process_utterance`. Any exception emits `error` with its message,
      then `idle`; what happened before the exception stays. */
  function ProcessUtterance(a: VoiceAgent, u: Utterance): (r: VoiceAgent)
    ensures r.(events := a.events, history := a.history) == a
    ensures a.events <= r.events
  {
    match u.transcription
    case Raised(e) => Emit(Emit(a, "error", Message(e)), "idle", None)
    case Ok(transcript) =>
      if transcript == "" then Emit(a, "idle", None)
      else
        var heard := Emit(a, "transcript", Some(map["text" := transcript]));
        match u.query(BuildLegacyPrompt(a.history, transcript))
        case Raised(e) => Emit(Emit(heard, "error", Message(e)), "idle", None)
        case Ok(reply) =>
          var answered := Emit(heard, "response", Some(map["text" := reply]));
          var remembered := answered.(history := Trim(answered.history + [Entry(User, transcript), Entry(Assistant, reply)], a.maxTurns));
          var speaking := Emit(remembered, "speaking", None);
          match u.playback
          case Raised(e) => Emit(Emit(speaking, "error", Message(e)), "idle", None)
          case Ok(_) => Emit(speaking, "idle", None)
  }

  /** The history after an utterance: unchanged unless both the
      transcript and the reply arrived, and then the trimmed history with
      the new user/assistant pair appended last. */
  lemma ProcessHistory(a: VoiceAgent, u: Utterance)
    ensures var r := ProcessUtterance(a, u);
      if u.transcription.Ok? && u.transcription.value != ""
         && u.query(BuildLegacyPrompt(a.history, u.transcription.value)).Ok?
      then
        var t := u.transcription.value;
        var reply := u.query(BuildLegacyPrompt(a.history, t)).value;
        r.history == Trim(a.history + [Entry(User, t), Entry(Assistant, reply)], a.maxTurns)
      else r.history == a.history
  {
  }

  /** The pair just exchanged survives trimming whenever the limit allows
      two entries: the history ends with the user's turn and the reply. */
  lemma NewestPairKept(h: seq<Entry>, user: Entry, reply: Entry, n: int)
    requires n >= 2
    ensures var r := Trim(h + [user, reply], Some(n));
      && 2 <= |r| <= n
      && r[|r| - 2..] == [user, reply]
  {
    var grown := h + [user, reply];
    TrimKeepsNewest(grown, n);
    var r := Trim(grown, Some(n));
    assert r[|r| - 2..] == grown[|grown| - 2..];
  }

  /** `MAX_HISTORY_TURNS` when the profile does not set it. */
  const DefaultHistoryTurns: int := 6

  /** Appending one user/assistant exchange keeps a history paired. */
  lemma ExchangePaired(h: seq<Entry>, t: string, reply: string)
    requires PushToTalk.Paired(h)
    ensures PushToTalk.Paired(h + [Entry(User, t), Entry(Assistant, reply)])
  {
  }

  /** With no limit or an even one (the default of 6 included), processing
      an utterance keeps a user/assistant-paired history paired: trimming
      never leaves a reply without its question. */
  lemma ProcessKeepsPairs(a: VoiceAgent, u: Utterance)
    requires PushToTalk.Paired(a.history)
    requires NoLimit(a.maxTurns) || (a.maxTurns.value > 0 && a.maxTurns.value % 2 == 0)
    ensures PushToTalk.Paired(ProcessUtterance(a, u).history)
  {
    ProcessHistory(a, u);
    if u.transcription.Ok? && u.transcription.value != ""
       && u.query(BuildLegacyPrompt(a.history, u.transcription.value)).Ok? {
      var t := u.transcription.value;
      var reply := u.query(BuildLegacyPrompt(a.history, t)).value;
      ExchangePaired(a.history, t, reply);
      if !NoLimit(a.maxTurns) {
        TrimKeepsPairs(a.history + [Entry(User, t), Entry(Assistant, reply)], a.maxTurns.value);
      }
    }
  }

  /** What one utterance announces, for each way it can go: an empty
      transcript only returns to idle; every exception reports `error` with
      its message and then `idle`; the spoken path ends in `idle`. */
  lemma ProcessEvents(a: VoiceAgent, u: Utterance)
    requires a.callbackSet
    ensures var evs := ProcessUtterance(a, u).events;
      match u.transcription
      case Raised(e) => evs == a.events + [Event("error", Message(e)), Event("idle", None)]
      case Ok(t) =>
        if t == "" then evs == a.events + [Event("idle", None)]
        else
          var heard := Event("transcript", Some(map["text" := t]));
          match u.query(BuildLegacyPrompt(a.history, t))
          case Raised(e) => evs == a.events + [heard, Event("error", Message(e)), Event("idle", None)]
          case Ok(reply) =>
            var answered := Event("response", Some(map["text" := reply]));
            match u.playback
            case Raised(e) =>
              evs == a.events + [heard, answered, Event("speaking", None), Event("error", Message(e)), Event("idle", None)]
            case Ok(_) => evs == a.events + [heard, answered, Event("speaking", None), Event("idle", None)]
  {
    var idle := Event("idle", None);
    match u.transcription
    case Raised(e) =>
      AppendTwo(a.events, Event("error", Message(e)), idle);
    case Ok(t) =>
      if t != "" {
        var heard := Event("transcript", Some(map["text" := t]));
        match u.query(BuildLegacyPrompt(a.history, t))
        case Raised(e) =>
          AppendThree(a.events, heard, Event("error", Message(e)), idle);
        case Ok(reply) =>
          var answered := Event("response", Some(map["text" := reply]));
          match u.playback
          case Raised(e) =>
            AppendFive(a.events, heard, answered, Event("speaking", None), Event("error", Message(e)), idle);
          case Ok(_) =>
            AppendFour(a.events, heard, answered, Event("speaking", None), idle);
      }
  }

  // ---------------------------------------------------------------------
  // The recording thread
  // ---------------------------------------------------------------------

  /** How the recording of `_listen_loop` ended. */
  datatype Recording = StreamFailed(message: string) | NoFrames | Frames(u: Utterance)

  /** `_listen_loop` after the stop event: a stream error reports `error`;
      no frames means nothing; otherwise `processing`, then the utterance. */
  function ListenLoop(a: VoiceAgent, rec: Recording): (r: VoiceAgent)
    ensures rec.NoFrames? ==> r == a
    ensures rec.StreamFailed? ==> r == Emit(a, "error", Message(rec.message))
    ensures rec.Frames? ==> r == ProcessUtterance(Emit(a, "processing", None), rec.u)
  {
    match rec
    case StreamFailed(m) => Emit(a, "error", Message(m))
    case NoFrames => a
    case Frames(u) => ProcessUtterance(Emit(a, "processing", None), u)
  }

  /** Only a processed utterance can change history: the recording thread's
      error and empty paths leave it as it was. */
  lemma ListenLoopHistory(a: VoiceAgent, rec: Recording)
    ensures !rec.Frames? ==> ListenLoop(a, rec).history == a.history
    ensures rec.Frames? ==> ListenLoop(a, rec).history == ProcessUtterance(a, rec.u).history
  {
  }
}
