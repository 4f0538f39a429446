/** The bounded agentic tool-call loop of `ConversationOrchestrator.run_loop`
    (levial/orchestrator.py). The language model, the JSON parser, the tool
    service and the shutdown flag are oracles; everything else is the loop's
    own bookkeeping: the history it appends to, the status events it emits,
    the tool calls it makes and the turn counter bounded by `MaxTurns`. */
module AgentLoop {
  import opened Wrappers
  import opened Conversation
  import opened Prompts
  import opened ToolCalls

  /** The hard turn budget (`max_turns = 5`). */
  const MaxTurns: nat := 5

  /** What one `llm.query` call produced: the reply text, or the stderr of the
      failed subprocess. */
  datatype Reply = Reply(text: string) | QueryFailed(stderr: string)

  /** The collaborators of the loop.
      - `query(k, prompt)`: the model's reply to `prompt` in turn `k`;
      - `parse`: `json.loads` on a brace candidate;
      - `invoke(k, call)`: the tool service's answer in turn `k`;
      - `stopRequested(k)`: the shutdown flag as the loop condition reads it
        after `k` turns. */
  datatype Oracles = Oracles(
    query: (nat, string) -> Reply,
    parse: Parser,
    invoke: (nat, ToolCall) -> Outcome<string>,
    stopRequested: nat -> bool)

  /** The per-utterance inputs of every prompt of the loop. */
  datatype Request = Request(transcript: string, context: string, toolsJson: string, preferences: string)

  /** The status events the loop emits: `thinking` with the turn number
      before each query, `response` with the text of a final answer. */
  datatype Status = Thinking(turn: nat) | Response(text: string)

  /** How the loop ended.
      - `Final`: a reply that is not a tool call (the loop breaks);
      - `Exhausted`: every turn of the budget was a tool call; `last` is the
        last reply, which is spoken as it is;
      - `QueryError`: the model query failed (the loop breaks);
      - `Stopped`: the shutdown flag was seen at the loop condition. */
  datatype Ending =
    | Final(reply: string)
    | Exhausted(last: string)
    | QueryError(stderr: string)
    | Stopped(lastReply: Option<string>)

  /** The loop's variables between two turns: the turns run so far, the
      history, the events emitted, the tool calls made and the latest reply. */
  datatype LoopState = LoopState(
    turn: nat,
    history: seq<Entry>,
    statuses: seq<Status>,
    invoked: seq<ToolCall>,
    last: Option<string>)
  {
    /** Within budget, and a reply exists exactly when a turn has run. */
    ghost predicate Valid() {
      turn <= MaxTurns && (turn > 0 <==> last.Some?)
    }
  }

  datatype LoopResult = LoopResult(state: LoopState, ending: Ending)

  const ToolOutputPrefix: string := "Tool Output: "

  /** Entries `i` and `i + 1` of `h` are one tool-call turn: the assistant's
      reply followed by the system's "Tool Output: ..." entry. */
  ghost predicate ToolPairAt(h: seq<Entry>, i: int) {
    && 0 <= i && i + 1 < |h|
    && h[i].role == Assistant && h[i + 1].role == System
    && ToolOutputPrefix <= h[i + 1].content
  }

  /** `n` consecutive tool-call pairs of `h` start at index `start`. */
  ghost predicate ToolPairsFrom(h: seq<Entry>, start: int, n: int)
    decreases n
  {
    n <= 0 || (ToolPairAt(h, start) && ToolPairsFrom(h, start + 2, n - 1))
  }

  /** How many entries the closing turn added: one for a final answer, none otherwise. */
  function ClosingEntries(e: Ending): nat {
    if e.Final? then 1 else 0
  }

  /** How many of the turns run since `s` were tool-call turns: all but a
      closing final answer or failed query. */
  function ToolTurns(r: LoopResult, s: LoopState): int {
    r.state.turn - s.turn - (if r.ending.Final? || r.ending.QueryError? then 1 else 0)
  }

  /** The prompt of the next turn, built from the current history. */
  function PromptFor(req: Request, history: seq<Entry>): string {
    BuildAgentPrompt(history, req.transcript, req.context, req.toolsJson, req.preferences)
  }

  function ToolTurnEntries(reply: string, observation: string): seq<Entry> {
    [Entry(Assistant, reply), Entry(System, ToolOutputPrefix + observation)]
  }

  /** What one turn of the loop does once its prompt is answered. */
  datatype Step =
    | Failed(stderr: string)
    | ToolTurn(reply: string, observation: string, called: seq<ToolCall>)
    | Answer(reply: string)

  /** Turn `k`: query the model with the prompt built from the current history,
      then either run the tool call the reply carries or take the reply as the
      final answer. */
  function TurnStep(req: Request, o: Oracles, k: nat, history: seq<Entry>): (s: Step)
    ensures s.ToolTurn? ==> |s.called| <= 1 && forall c :: c in s.called ==> Invokes(c)
  {
    match o.query(k, PromptFor(req, history))
    case QueryFailed(e) => Failed(e)
    case Reply(reply) =>
      match Detect(reply, o.parse)
      case Some(call) =>
        ToolTurn(reply, Observe(call, c => o.invoke(k, c)), if Invokes(call) then [call] else [])
      case None => Answer(reply)
  }

  /** One turn as the loop skeleton sees it: turn `k` on the current history. */
  type Stepper = (nat, seq<Entry>) -> Step

  /** Every turn of the loop is `TurnStep` with the request and collaborators fixed. */
  function Turn(req: Request, o: Oracles): Stepper {
    (k: nat, h: seq<Entry>) => TurnStep(req, o, k, h)
  }

  /** The loop's variables after the tool-call turn `t`: one more turn, the
      (reply, tool output) pair in history, a `thinking` event, the calls made. */
  function AfterToolTurn(s: LoopState, t: Step): LoopState
    requires t.ToolTurn?
  {
    LoopState(s.turn + 1, s.history + ToolTurnEntries(t.reply, t.observation),
              s.statuses + [Thinking(s.turn + 1)], s.invoked + t.called, Some(t.reply))
  }

  /** The loop from state `s` on: stop at the budget or when shutdown is
      requested, otherwise run the next turn and continue only after a tool
      call. */
  function Run(step: Stepper, stop: nat -> bool, s: LoopState): (r: LoopResult)
    requires s.Valid()
    ensures s.turn <= r.state.turn <= MaxTurns
    ensures r.ending.Exhausted? ==> r.state.turn == MaxTurns
    ensures r.ending.Stopped? ==> stop(r.state.turn)
    decreases MaxTurns - s.turn
  {
    if s.turn == MaxTurns then
      LoopResult(s, Exhausted(s.last.value))
    else if stop(s.turn) then
      LoopResult(s, Stopped(s.last))
    else
      var k := s.turn + 1;
      var t := step(k, s.history);
      match t
      case Failed(e) =>
        LoopResult(s.(turn := k, statuses := s.statuses + [Thinking(k)]), QueryError(e))
      case ToolTurn(_, _, _) =>
        Run(step, stop, AfterToolTurn(s, t))
      case Answer(reply) =>
        LoopResult(LoopState(k, s.history + [Entry(Assistant, reply)],
                             s.statuses + [Thinking(k), Response(reply)], s.invoked, Some(reply)),
                   Final(reply))
  }

  /** How much the loop appends: two history entries per tool-call turn and
      one per final answer; one status event per turn run and one per final
      answer. */
  lemma {:induction false} RunCounts(step: Stepper, stop: nat -> bool, s: LoopState)
    requires s.Valid()
    ensures var r := Run(step, stop, s);
      && 0 <= ToolTurns(r, s)
      && |r.state.history| == |s.history| + 2 * ToolTurns(r, s) + ClosingEntries(r.ending)
      && |r.state.statuses| == |s.statuses| + (r.state.turn - s.turn) + ClosingEntries(r.ending)
    decreases MaxTurns - s.turn
  {
    if s.turn < MaxTurns && !stop(s.turn) {
      var t := step(s.turn + 1, s.history);
      if t.ToolTurn? {
        RunCounts(step, stop, AfterToolTurn(s, t));
      }
    }
  }

  /** History is append-only during the loop, and a final answer is the last
      entry it adds. */
  lemma {:induction false} RunHistoryPrefix(step: Stepper, stop: nat -> bool, s: LoopState)
    requires s.Valid()
    ensures var r := Run(step, stop, s);
      && s.history <= r.state.history
      && (r.ending.Final? ==>
            |r.state.history| > 0 && r.state.history[|r.state.history| - 1] == Entry(Assistant, r.ending.reply))
    decreases MaxTurns - s.turn
  {
    if s.turn < MaxTurns && !stop(s.turn) {
      var t := step(s.turn + 1, s.history);
      if t.ToolTurn? {
        RunHistoryPrefix(step, stop, AfterToolTurn(s, t));
      }
    }
  }

  /** Each tool-call turn adds one (assistant reply, system "Tool Output:
      ...") pair right after the history the loop started from, in turn order. */
  lemma {:induction false} RunToolPairs(step: Stepper, stop: nat -> bool, s: LoopState)
    requires s.Valid()
    ensures var r := Run(step, stop, s);
      ToolPairsFrom(r.state.history, |s.history|, ToolTurns(r, s))
    decreases MaxTurns - s.turn
  {
    var r := Run(step, stop, s);
    if s.turn < MaxTurns && !stop(s.turn) {
      var t := step(s.turn + 1, s.history);
      if t.ToolTurn? {
        var s' := AfterToolTurn(s, t);
        RunToolPairs(step, stop, s');
        RunHistoryPrefix(step, stop, s');
        RunCounts(step, stop, s');
        var n := |s.history|;
        assert r.state.history[n] == s'.history[n] && r.state.history[n + 1] == s'.history[n + 1];
      }
    }
  }

  /** The status events are append-only during the loop, and a final answer
      is announced by a closing `response` event. */
  lemma {:induction false} RunStatusPrefix(step: Stepper, stop: nat -> bool, s: LoopState)
    requires s.Valid()
    ensures var r := Run(step, stop, s);
      && s.statuses <= r.state.statuses
      && (r.ending.Final? ==>
            |r.state.statuses| > 0 && r.state.statuses[|r.state.statuses| - 1] == Response(r.ending.reply))
    decreases MaxTurns - s.turn
  {
    if s.turn < MaxTurns && !stop(s.turn) {
      var t := step(s.turn + 1, s.history);
      if t.ToolTurn? {
        RunStatusPrefix(step, stop, AfterToolTurn(s, t));
      }
    }
  }

  /** The loop emits one `thinking` event per turn it runs, numbered
      consecutively from the turn after the one it starts at. */
  lemma {:induction false} RunThinkingOrder(step: Stepper, stop: nat -> bool, s: LoopState)
    requires s.Valid()
    ensures var r := Run(step, stop, s);
      && |s.statuses| + (r.state.turn - s.turn) <= |r.state.statuses|
      && forall i :: |s.statuses| <= i < |s.statuses| + (r.state.turn - s.turn) ==>
           r.state.statuses[i] == Thinking(s.turn + 1 + i - |s.statuses|)
    decreases MaxTurns - s.turn
  {
    RunCounts(step, stop, s);
    if s.turn < MaxTurns && !stop(s.turn) {
      var t := step(s.turn + 1, s.history);
      if t.ToolTurn? {
        var s' := AfterToolTurn(s, t);
        RunThinkingOrder(step, stop, s');
        RunStatusPrefix(step, stop, s');
        assert Run(step, stop, s).state.statuses[|s.statuses|] == s'.statuses[|s.statuses|];
      }
    }
  }

  /** Every tool-call step calls the tool service at most once, and only for
      a call that names a server. */
  ghost predicate CallsAtMostOnce(step: Stepper) {
    forall k, h :: step(k, h).ToolTurn? ==>
      |step(k, h).called| <= 1 && forall c :: c in step(k, h).called ==> Invokes(c)
  }

  /** The tool service is called at most once per tool-call turn, and only
      for calls that name a server; earlier calls are kept in order. */
  lemma {:induction false} RunInvocationShape(step: Stepper, stop: nat -> bool, s: LoopState)
    requires s.Valid()
    requires CallsAtMostOnce(step)
    ensures var r := Run(step, stop, s);
      && s.invoked <= r.state.invoked
      && |r.state.invoked| <= |s.invoked| + ToolTurns(r, s)
      && forall i :: |s.invoked| <= i < |r.state.invoked| ==> Invokes(r.state.invoked[i])
    decreases MaxTurns - s.turn
  {
    if s.turn < MaxTurns && !stop(s.turn) {
      var t := step(s.turn + 1, s.history);
      if t.ToolTurn? {
        RunInvocationShape(step, stop, AfterToolTurn(s, t));
      }
    }
  }

  /** A step that makes a tool call on every turn, under a flag that is never
      raised, runs every remaining turn of the budget. */
  lemma {:induction false} RunAllToolCalls(step: Stepper, stop: nat -> bool, s: LoopState)
    requires s.Valid()
    requires forall k, h :: 1 <= k <= MaxTurns ==> step(k, h).ToolTurn?
    requires forall k :: 0 <= k < MaxTurns ==> !stop(k)
    ensures var r := Run(step, stop, s);
      r.ending.Exhausted? && r.state.turn == MaxTurns
    decreases MaxTurns - s.turn
  {
    if s.turn < MaxTurns {
      var t := step(s.turn + 1, s.history);
      RunAllToolCalls(step, stop, AfterToolTurn(s, t));
    }
  }

  /** The loop's variables before the first turn of an utterance. */
  function Start(history: seq<Entry>): LoopState {
    LoopState(0, history, [], [], None)
  }

  /** `run_loop`'s agentic loop for one utterance, starting at turn 0. */
  function AgentLoop(req: Request, o: Oracles, history: seq<Entry>): LoopResult {
    Run(Turn(req, o), o.stopRequested, Start(history))
  }

  /** The real turn calls the tool service at most once, and only with a server. */
  lemma TurnCallsAtMostOnce(req: Request, o: Oracles)
    ensures CallsAtMostOnce(Turn(req, o))
  {
    forall k: nat, h: seq<Entry> | Turn(req, o)(k, h).ToolTurn?
      ensures |Turn(req, o)(k, h).called| <= 1
      ensures forall c :: c in Turn(req, o)(k, h).called ==> Invokes(c)
    {
      assert Turn(req, o)(k, h) == TurnStep(req, o, k, h);
    }
  }

  /** The oracle answers every query with a well-formed tool call. */
  ghost predicate AlwaysToolCalls(o: Oracles) {
    forall k, p :: 1 <= k <= MaxTurns ==>
      o.query(k, p).Reply? && IsToolCallReply(o.query(k, p).text, o.parse)
  }

  ghost predicate NeverStopped(o: Oracles) {
    forall k :: 0 <= k < MaxTurns ==> !o.stopRequested(k)
  }

  /** Such a model makes every turn of the budget a tool-call turn. */
  lemma ToolCallsEveryTurn(req: Request, o: Oracles)
    requires AlwaysToolCalls(o)
    ensures forall k, h :: 1 <= k <= MaxTurns ==> Turn(req, o)(k, h).ToolTurn?
  {
    forall k: nat, h: seq<Entry> | 1 <= k <= MaxTurns ensures Turn(req, o)(k, h).ToolTurn? {
      assert o.query(k, PromptFor(req, h)).Reply?;
      assert IsToolCallReply(o.query(k, PromptFor(req, h)).text, o.parse);
    }
  }

  /** From the start, a step that makes a tool call on every turn runs the
      whole budget: exactly `MaxTurns` turns, exactly `MaxTurns` (assistant,
      tool output) pairs after the starting history. */
  lemma RunBudgetHistory(step: Stepper, stop: nat -> bool, history: seq<Entry>)
    requires forall k, h :: 1 <= k <= MaxTurns ==> step(k, h).ToolTurn?
    requires forall k :: 0 <= k < MaxTurns ==> !stop(k)
    ensures var r := Run(step, stop, Start(history));
      && r.ending.Exhausted?
      && r.state.turn == MaxTurns
      && |r.state.history| == |history| + 2 * MaxTurns
      && history <= r.state.history
      && ToolPairsFrom(r.state.history, |history|, MaxTurns)
  {
    var s := Start(history);
    RunAllToolCalls(step, stop, s);
    RunCounts(step, stop, s);
    RunHistoryPrefix(step, stop, s);
    RunToolPairs(step, stop, s);
  }

  /** ... and its events are exactly `thinking` for turns 1 to 5. */
  lemma RunBudgetEvents(step: Stepper, stop: nat -> bool, history: seq<Entry>)
    requires forall k, h :: 1 <= k <= MaxTurns ==> step(k, h).ToolTurn?
    requires forall k :: 0 <= k < MaxTurns ==> !stop(k)
    ensures Run(step, stop, Start(history)).state.statuses
            == [Thinking(1), Thinking(2), Thinking(3), Thinking(4), Thinking(5)]
  {
    var s := Start(history);
    RunAllToolCalls(step, stop, s);
    RunCounts(step, stop, s);
    RunThinkingOrder(step, stop, s);
    var sts := Run(step, stop, s).state.statuses;
    assert sts[0] == Thinking(1) && sts[1] == Thinking(2) && sts[2] == Thinking(3);
    assert sts[3] == Thinking(4) && sts[4] == Thinking(5);
  }

  /** A model that always answers with a tool call runs the whole budget: the
      loop ends after exactly `MaxTurns` turns, having added exactly
      `MaxTurns` (assistant, tool output) pairs after the history it started
      from and emitted `thinking` for turns 1 to 5 and nothing else. */
  lemma BudgetExhaustedByToolCalls(req: Request, o: Oracles, history: seq<Entry>)
    requires AlwaysToolCalls(o) && NeverStopped(o)
    ensures var r := AgentLoop(req, o, history);
      && r.ending.Exhausted?
      && r.state.turn == MaxTurns
      && |r.state.history| == |history| + 2 * MaxTurns
      && history <= r.state.history
      && ToolPairsFrom(r.state.history, |history|, MaxTurns)
      && r.state.statuses == [Thinking(1), Thinking(2), Thinking(3), Thinking(4), Thinking(5)]
  {
    ToolCallsEveryTurn(req, o);
    RunBudgetHistory(Turn(req, o), o.stopRequested, history);
    RunBudgetEvents(Turn(req, o), o.stopRequested, history);
  }

  /** A first reply that is not a well-formed tool call ends the loop on its
      first turn: the reply is the final answer, history gains just that
      reply, and the events are `thinking{turn: 1}` then `response`. */
  lemma PlainReplyEndsFirstTurn(req: Request, o: Oracles, history: seq<Entry>)
    requires !o.stopRequested(0)
    requires o.query(1, PromptFor(req, history)).Reply?
    requires !IsToolCallReply(o.query(1, PromptFor(req, history)).text, o.parse)
    ensures var reply := o.query(1, PromptFor(req, history)).text;
      var r := AgentLoop(req, o, history);
      && r.state.turn == 1
      && r.ending == Final(reply)
      && r.state.history == history + [Entry(Assistant, reply)]
      && r.state.statuses == [Thinking(1), Response(reply)]
      && r.state.invoked == []
  {
    var reply := o.query(1, PromptFor(req, history)).text;
    assert TurnStep(req, o, 1, history) == Answer(reply);
    assert Turn(req, o)(1, history) == Answer(reply);
    var statuses: seq<Status> := [];
    assert statuses + [Thinking(1), Response(reply)] == [Thinking(1), Response(reply)];
    assert AgentLoop(req, o, history)
        == LoopResult(LoopState(1, history + [Entry(Assistant, reply)], statuses + [Thinking(1), Response(reply)],
                                [], Some(reply)),
                      Final(reply));
  }
}
