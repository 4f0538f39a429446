/** Tool-call detection in a model reply (levial/orchestrator.py): the
    first-`{`-to-last-`}` slice is handed to the JSON parser, and the result is
    a tool call only when it holds both a `tool` and an `arguments` key. The
    same slice heuristic is used by knowledge extraction (levial/memory/manager.py). */
module ToolCalls {
  import opened Wrappers
  import opened Strings
  import opened JsonValues

  /** `json.loads` on a candidate that starts with `{` and ends with `}`:
      either a decoded object or a decode error. Its grammar is not modelled. */
  type Parser = string -> Option<map<string, Json>>

  /** The slice `text[text.find('{') : text.rfind('}') + 1]`, or `None` when
      either brace is absent. */
  function BraceCandidate(text: string): (r: Option<string>)
    ensures r.None? <==> '{' !in text || '}' !in text
    ensures r.Some? && r.value != "" ==>
      && r.value[0] == '{' && r.value[|r.value| - 1] == '}'
      && exists i :: && 0 <= i && i + |r.value| <= |text|
                     && text[i..i + |r.value|] == r.value
                     && '{' !in text[..i] && '}' !in text[i + |r.value|..]
  {
    var s := Find(text, '{');
    var e := RFind(text, '}');
    if s == -1 || e == -1 then None
    else
      var v := Slice(text, s, e + 1);
      assert v != "" ==> text[s..s + |v|] == v;
      Some(v)
  }

  /** When both braces occur, the candidate is empty exactly when every `}`
      comes before every `{` (Python's slice with stop before start). */
  lemma EmptyCandidateIff(text: string)
    requires '{' in text && '}' in text
    ensures BraceCandidate(text) == Some("") <==>
      forall i, j :: 0 <= i < |text| && 0 <= j < |text| && text[i] == '}' && text[j] == '{' ==> i < j
  {
    var s := Find(text, '{');
    var e := RFind(text, '}');
    if BraceCandidate(text) == Some("") {
      assert e < s;
      forall i, j | 0 <= i < |text| && 0 <= j < |text| && text[i] == '}' && text[j] == '{'
        ensures i < j
      {
      }
    }
  }

  /** A decoded tool call. `server` is `None` (JNull) when the key is absent,
      exactly as `tool_call.get("server")` returns it. */
  datatype ToolCall = ToolCall(tool: Json, server: Json, arguments: Json)

  /** The reply carries a well-formed tool call: its candidate decodes to an
      object with both required keys. */
  ghost predicate IsToolCallReply(reply: string, parse: Parser) {
    && BraceCandidate(reply).Some?
    && parse(BraceCandidate(reply).value).Some?
    && "tool" in parse(BraceCandidate(reply).value).value
    && "arguments" in parse(BraceCandidate(reply).value).value
  }

  function Detect(reply: string, parse: Parser): (r: Option<ToolCall>)
    ensures r.Some? <==> IsToolCallReply(reply, parse)
    ensures r.Some? ==>
      var obj := parse(BraceCandidate(reply).value).value;
      r.value == ToolCall(obj["tool"], Get(obj, "server"), obj["arguments"])
  {
    match BraceCandidate(reply)
    case None => None
    case Some(candidate) =>
      match parse(candidate)
      case None => None
      case Some(obj) =>
        if "tool" in obj && "arguments" in obj then
          Some(ToolCall(obj["tool"], Get(obj, "server"), obj["arguments"]))
        else None
  }

  /** A reply missing either brace is final text, whatever the parser does. */
  lemma NoBracesNoToolCall(reply: string, parse: Parser)
    requires '{' !in reply || '}' !in reply
    ensures Detect(reply, parse).None?
  {
  }

  /** With a parser that rejects the empty string (as `json.loads("")` does),
      a reply whose last `}` precedes its first `{` is final text. */
  lemma InvertedBracesNoToolCall(reply: string, parse: Parser)
    requires parse("").None?
    requires '{' in reply && '}' in reply
    requires forall i, j :: 0 <= i < |reply| && 0 <= j < |reply| && reply[i] == '}' && reply[j] == '{' ==> i < j
    ensures Detect(reply, parse).None?
  {
    EmptyCandidateIff(reply);
  }

  const ServerMissing: string := "Error: Server name missing."
  const ToolFailedPrefix: string := "Error: Tool execution failed: "

  /** Whether the tool-execution service is called at all: only for a truthy server. */
  predicate Invokes(call: ToolCall) {
    Truthy(call.server)
  }

  /** The observation folded back into history for one tool call. The tool is
      invoked only when the server is truthy; its result text, or the text of
      the exception it raised, becomes the observation. */
  function Observe(call: ToolCall, invoke: ToolCall -> Outcome<string>): string {
    if !Invokes(call) then ServerMissing
    else
      match invoke(call)
      case Ok(result) => result
      case Raised(e) => ToolFailedPrefix + e
  }

  /** A call without a usable server observes exactly the "server missing"
      error, and its observation does not depend on the tool service at all. */
  lemma MissingServerObservation(call: ToolCall, invoke: ToolCall -> Outcome<string>,
                                 other: ToolCall -> Outcome<string>)
    requires !Truthy(call.server)
    ensures Observe(call, invoke) == ServerMissing
    ensures Observe(call, invoke) == Observe(call, other)
  {
  }

  /** With a server, a failing tool yields the prefixed error text and a
      succeeding one its result text. */
  lemma ServerObservation(call: ToolCall, invoke: ToolCall -> Outcome<string>)
    requires Truthy(call.server)
    ensures invoke(call).Ok? ==> Observe(call, invoke) == invoke(call).value
    ensures invoke(call).Raised? ==> Observe(call, invoke) == ToolFailedPrefix + invoke(call).message
  {
  }
}
