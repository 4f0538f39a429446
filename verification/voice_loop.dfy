/** The push-to-talk loop of `voice_loop.py`: each iteration reads a command,
    records, transcribes, queries the model with the legacy prompt, records
    the exchange in history and speaks the reply. Microphone, Whisper,
    Ollama and Piper are inputs of an iteration. */
module PushToTalk {
  import opened Wrappers
  import opened Strings
  import opened Conversation
  import opened Prompts
  import opened SeqFacts

  // ---------------------------------------------------------------------
  // Quit commands
  // ---------------------------------------------------------------------

  /** The command is stripped, then lower-cased, then looked up. */
  predicate IsQuit(command: string) {
    Lower(Strip(command)) in {"q", "quit", "exit"}
  }

  /** A quit word in any letter case, surrounded by any whitespace, quits. */
  lemma QuitPadded(a: string, w: string, b: string)
    requires AllSpace(a) && AllSpace(b) && Trimmed(w)
    requires Lower(w) in {"q", "quit", "exit"}
    ensures IsQuit(a + w + b)
  {
    StripPadded(a, w, b);
  }

  /** Only a stripped command of one to four characters can quit: the plain
      Enter that starts a recording never does. */
  lemma QuitLength(command: string)
    ensures IsQuit(command) ==> 1 <= |Strip(command)| <= 4
    ensures Strip(command) == "" ==> !IsQuit(command)
  {
  }

  // ---------------------------------------------------------------------
  // One iteration of `main`
  // ---------------------------------------------------------------------

  /** What the outside world does during one iteration.
      - `command`: the line typed at the prompt;
      - `recorded`: whether any audio frames were captured;
      - `transcription`: Whisper's stripped transcript, or its failure;
      - `query`: the model's stripped reply to a prompt, or its failure;
      - `played`: whether synthesis and playback succeeded. */
  datatype Attempt = Attempt(
    command: string,
    recorded: bool,
    transcription: Outcome<string>,
    query: string -> Outcome<string>,
    played: bool)

  /** How an iteration ended. */
  datatype Iteration =
    | Quit
    | NoAudio
    | WhisperFailed(error: string)
    | EmptyTranscript
    | QueryFailed(stderr: string)
    | Exchanged(transcript: string, reply: string, played: bool)

  datatype Stepped = Stepped(what: Iteration, history: seq<Entry>)

  /** One pass through the body of `main`'s `while True`. */
  function Step(history: seq<Entry>, a: Attempt): (r: Stepped)
    ensures r.what.Exchanged? <==>
      && !IsQuit(a.command) && a.recorded
      && a.transcription.Ok? && a.transcription.value != ""
      && a.query(BuildLegacyPrompt(history, a.transcription.value)).Ok?
    ensures r.what.Exchanged? ==>
      && r.what.transcript == a.transcription.value
      && r.what.reply == a.query(BuildLegacyPrompt(history, r.what.transcript)).value
      && r.history == history + [Entry(User, r.what.transcript), Entry(Assistant, r.what.reply)]
    ensures !r.what.Exchanged? ==> r.history == history
    ensures r.what.Quit? <==> IsQuit(a.command)
  {
    if IsQuit(a.command) then Stepped(Quit, history)
    else if !a.recorded then Stepped(NoAudio, history)
    else
      match a.transcription
      case Raised(e) => Stepped(WhisperFailed(e), history)
      case Ok(transcript) =>
        if transcript == "" then Stepped(EmptyTranscript, history)
        else
          match a.query(BuildLegacyPrompt(history, transcript))
          case Raised(stderr) => Stepped(QueryFailed(stderr), history)
          case Ok(reply) =>
            Stepped(Exchanged(transcript, reply, a.played),
                    history + [Entry(User, transcript), Entry(Assistant, reply)])
  }

  /** A synthesis or playback failure does not undo the history update: the
      history after an iteration does not depend on `played`. */
  lemma PlaybackDoesNotMatter(history: seq<Entry>, a: Attempt)
    ensures Step(history, a).history == Step(history, a.(played := !a.played)).history
  {
  }

  // ---------------------------------------------------------------------
  // The whole loop
  // ---------------------------------------------------------------------

  /** The history `main` ends with, and how each iteration ended. */
  datatype Finished = Finished(history: seq<Entry>, log: seq<Iteration>)

  /** `main`'s loop over a sequence of attempts, stopping at the first quit. */
  function Run(history: seq<Entry>, attempts: seq<Attempt>): (r: Finished)
    ensures |r.log| <= |attempts|
    decreases |attempts|
  {
    if |attempts| == 0 then Finished(history, [])
    else
      var st := Step(history, attempts[0]);
      if st.what.Quit? then Finished(history, [Quit])
      else
        var rest := Run(st.history, attempts[1..]);
        Finished(rest.history, [st.what] + rest.log)
  }

  /** The number of iterations that exchanged a turn with the model. */
  function Exchanges(log: seq<Iteration>): nat {
    if |log| == 0 then 0 else (if log[0].Exchanged? then 1 else 0) + Exchanges(log[1..])
  }

  /** History grows by exactly two entries per successful exchange and by
      nothing otherwise, and the starting history is never rewritten. */
  lemma {:induction false} RunHistoryGrowth(history: seq<Entry>, attempts: seq<Attempt>)
    ensures var r := Run(history, attempts);
      && history <= r.history
      && |r.history| == |history| + 2 * Exchanges(r.log)
    decreases |attempts|
  {
    if |attempts| > 0 {
      var st := Step(history, attempts[0]);
      if !st.what.Quit? {
        RunHistoryGrowth(st.history, attempts[1..]);
      }
    }
  }

  /** A quit ends the loop: it is the last logged iteration, and no
      iteration before it quit. */
  lemma {:induction false} QuitIsLast(history: seq<Entry>, attempts: seq<Attempt>)
    ensures var r := Run(history, attempts);
      forall i :: 0 <= i < |r.log| ==> (r.log[i].Quit? <==> i == |r.log| - 1 && IsQuit(attempts[i].command))
    ensures var r := Run(history, attempts);
      |r.log| < |attempts| ==> |r.log| > 0 && r.log[|r.log| - 1] == Quit
    decreases |attempts|
  {
    if |attempts| > 0 {
      var st := Step(history, attempts[0]);
      if !st.what.Quit? {
        QuitIsLast(st.history, attempts[1..]);
        var rest := Run(st.history, attempts[1..]);
        var r := Run(history, attempts);
        assert r.log == [st.what] + rest.log;
        forall i | 0 <= i < |r.log|
          ensures r.log[i].Quit? <==> i == |r.log| - 1 && IsQuit(attempts[i].command)
        {
          if i > 0 {
            assert r.log[i] == rest.log[i - 1];
            assert attempts[i] == attempts[1..][i - 1];
          }
        }
      }
    }
  }

  /** Attempts after a quit are never looked at. */
  lemma {:induction false} NothingAfterQuit(history: seq<Entry>, attempts: seq<Attempt>, later: seq<Attempt>)
    requires exists i :: 0 <= i < |attempts| && IsQuit(attempts[i].command)
    ensures Run(history, attempts + later) == Run(history, attempts)
    decreases |attempts|
  {
    var all := attempts + later;
    AppendTail(attempts, later);
    if !IsQuit(attempts[0].command) {
      var st := Step(history, attempts[0]);
      var i :| 0 <= i < |attempts| && IsQuit(attempts[i].command);
      assert attempts[1..][i - 1] == attempts[i];
      NothingAfterQuit(st.history, attempts[1..], later);
      assert Run(history, all) == Finished(Run(st.history, all[1..]).history, [st.what] + Run(st.history, all[1..]).log);
    }
  }

  /** History in the push-to-talk loop alternates user then assistant turns. */
  ghost predicate Paired(h: seq<Entry>) {
    && |h| % 2 == 0
    && forall i :: 0 <= i < |h| ==> h[i].role == (if i % 2 == 0 then User else Assistant)
  }

  /** Every iteration keeps the history paired. */
  lemma StepPaired(history: seq<Entry>, a: Attempt)
    requires Paired(history)
    ensures Paired(Step(history, a).history)
  {
  }

  /** Starting from a paired history (the empty one, say), the loop only
      ever holds user/assistant pairs. */
  lemma {:induction false} RunPaired(history: seq<Entry>, attempts: seq<Attempt>)
    requires Paired(history)
    ensures Paired(Run(history, attempts).history)
    decreases |attempts|
  {
    if |attempts| > 0 {
      var st := Step(history, attempts[0]);
      if !st.what.Quit? {
        StepPaired(history, attempts[0]);
        RunPaired(st.history, attempts[1..]);
      }
    }
  }

  /** `main` itself: the loop with an empty starting history. */
  method Converse(attempts: seq<Attempt>) returns (history: seq<Entry>, log: seq<Iteration>)
    ensures Finished(history, log) == Run([], attempts)
    ensures Paired(history)
  {
    history, log := [], [];
    var i := 0;
    while i < |attempts|
      invariant 0 <= i <= |attempts|
      invariant Run([], attempts) == Finished(Run(history, attempts[i..]).history, log + Run(history, attempts[i..]).log)
      invariant Paired(history)
    {
      var st := Step(history, attempts[i]);
      assert attempts[i..][0] == attempts[i];
      if st.what.Quit? {
        log := log + [Quit];
        return;
      }
      assert attempts[i..][1..] == attempts[i + 1..];
      StepPaired(history, attempts[i]);
      log := log + [st.what];
      history := st.history;
      i := i + 1;
    }
  }
}
