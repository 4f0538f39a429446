/** Prompt assembly: the agent's `OllamaLLM.build_prompt` (levial/llm.py) and
    the `build_prompt` shared by both push-to-talk loops (voice_loop.py and
    archive/voice_loop.py). Both build a list of lines and join it with "\n". */
module Prompts {
  import opened Strings
  import opened Conversation

  const AgentSystemPrompt: string :=
    "You are Levial, "
    + "a capable and intelligent voice assistant. "
    + "You have access to external tools to help the user. "
    + "Use these tools silently and naturally to fulfill requests. "
    + "Do NOT list your tools or explain your capabilities unless explicitly asked. "
    + "Answer conversationally and concisely (1-3 sentences)."

  const PreferencesMarker: string := "IMPORTANT - ADAPT TO USER PREFERENCES: "
  const ToolsMarker: string := "\nAVAILABLE TOOLS (Use JSON to call):\n"
  const ToolInstruction: string :=
    "To call a tool, " + "output ONLY a JSON object: "
    + "{\"tool\": \"tool_name\", \"server\": \"server_name\", \"arguments\": {...}}"
  const ContextMarker: string := "\nCONTEXT:\n"

  const LegacySystemPrompt: string :=
    "You are Local "
    + "Voice Chat Agent, a concise helpful companion. "
    + "Answer conversationally in 1-3 sentences."

  /** The fixed closing lines: the current utterance, then the open assistant turn. */
  function Closing(userText: string): seq<string> {
    ["USER: " + userText, "ASSISTANT:"]
  }

  /** The optional sections between the system line and the history, in source order. */
  function Sections(context: string, toolsJson: string, preferences: string): seq<string> {
    (if preferences != "" then [PreferencesMarker + preferences] else [])
    + (if toolsJson != "" then [ToolsMarker + toolsJson + "\n", ToolInstruction] else [])
    + (if context != "" then [ContextMarker + context + "\n"] else [])
  }

  function AgentPromptLines(history: seq<Entry>, userText: string, context: string,
                            toolsJson: string, preferences: string): seq<string> {
    [AgentSystemPrompt] + Sections(context, toolsJson, preferences)
    + RenderHistory(history) + Closing(userText)
  }

  /** `OllamaLLM.build_prompt`. */
  function BuildAgentPrompt(history: seq<Entry>, userText: string, context: string,
                            toolsJson: string, preferences: string): string {
    Join(AgentPromptLines(history, userText, context, toolsJson, preferences), "\n")
  }

  function LegacyPromptLines(history: seq<Entry>, userText: string): seq<string> {
    [LegacySystemPrompt] + RenderHistory(history) + Closing(userText)
  }

  /** `build_prompt` of the push-to-talk loops. */
  function BuildLegacyPrompt(history: seq<Entry>, userText: string): string {
    Join(LegacyPromptLines(history, userText), "\n")
  }

  ghost predicate HasLineStarting(lines: seq<string>, prefix: string) {
    exists i :: 0 <= i < |lines| && prefix <= lines[i]
  }

  /** The first two characters of every line the agent prompt can hold, for
      telling the sections apart. */
  ghost predicate LeadsWith(line: string, c0: char, c1: char) {
    |line| >= 2 && line[0] == c0 && line[1] == c1
  }

  lemma RenderedEntryLead(e: Entry)
    ensures LeadsWith(RenderEntry(e), 'U', 'S') || LeadsWith(RenderEntry(e), 'A', 'S')
         || LeadsWith(RenderEntry(e), 'S', 'Y') || LeadsWith(RenderEntry(e), 'A', 'G')
  {
    RoleLabels();
  }

  /** Every history and closing line starts with an upper-case role label,
      so none of them can be mistaken for an optional section. */
  lemma {:induction false} BodyLinesLead(history: seq<Entry>, userText: string)
    ensures forall i :: 0 <= i < |RenderHistory(history) + Closing(userText)| ==>
      var l := (RenderHistory(history) + Closing(userText))[i];
      LeadsWith(l, 'U', 'S') || LeadsWith(l, 'A', 'S') || LeadsWith(l, 'S', 'Y') || LeadsWith(l, 'A', 'G')
  {
    var body := RenderHistory(history) + Closing(userText);
    forall i | 0 <= i < |body|
      ensures LeadsWith(body[i], 'U', 'S') || LeadsWith(body[i], 'A', 'S')
           || LeadsWith(body[i], 'S', 'Y') || LeadsWith(body[i], 'A', 'G')
    {
      if i < |history| {
        RenderedEntryLead(history[i]);
      }
    }
  }

  /** The characters that tell the fixed lines apart. */
  lemma MarkerLeads()
    ensures AgentSystemPrompt[0] == 'Y' && AgentSystemPrompt[9] == 'e'
    ensures LegacySystemPrompt[9] == 'o'
    ensures PreferencesMarker[0] == 'I'
    ensures ToolsMarker[0] == '\n' && ToolsMarker[1] == 'A'
    ensures ToolInstruction[0] == 'T'
    ensures ContextMarker[0] == '\n' && ContextMarker[1] == 'C'
  {
    var agentHead, legacyHead, toolHead := "You are Levial, ", "You are Local ", "To call a tool, ";
    assert agentHead[0] == 'Y' && agentHead[9] == 'e';
    assert legacyHead[9] == 'o';
    assert toolHead[0] == 'T';
  }

  lemma {:induction false} HasLineConcat(a: seq<string>, b: seq<string>, prefix: string)
    ensures HasLineStarting(a + b, prefix) <==> HasLineStarting(a, prefix) || HasLineStarting(b, prefix)
  {
    if HasLineStarting(a + b, prefix) {
      var i :| 0 <= i < |a + b| && prefix <= (a + b)[i];
      if i >= |a| { assert b[i - |a|] == (a + b)[i]; }
    }
    if HasLineStarting(b, prefix) {
      var j :| 0 <= j < |b| && prefix <= b[j];
      assert (a + b)[|a| + j] == b[j];
    }
    if HasLineStarting(a, prefix) {
      var i :| 0 <= i < |a| && prefix <= a[i];
      assert (a + b)[i] == a[i];
    }
  }

  /** No history or closing line looks like an optional section. */
  lemma BodyHasNoSection(history: seq<Entry>, userText: string)
    ensures var body := RenderHistory(history) + Closing(userText);
      && !HasLineStarting(body, PreferencesMarker)
      && !HasLineStarting(body, ToolsMarker)
      && !HasLineStarting(body, ContextMarker)
      && ToolInstruction !in body
  {
    var body := RenderHistory(history) + Closing(userText);
    BodyLinesLead(history, userText);
    MarkerLeads();
    forall i | 0 <= i < |body|
      ensures !(PreferencesMarker <= body[i]) && !(ToolsMarker <= body[i])
      ensures !(ContextMarker <= body[i]) && body[i] != ToolInstruction
    {
      assert LeadsWith(body[i], 'U', 'S') || LeadsWith(body[i], 'A', 'S')
          || LeadsWith(body[i], 'S', 'Y') || LeadsWith(body[i], 'A', 'G');
    }
  }

  /** The preference line is present exactly when preferences were given. */
  lemma PreferencesPresence(context: string, toolsJson: string, preferences: string)
    ensures HasLineStarting([AgentSystemPrompt] + Sections(context, toolsJson, preferences), PreferencesMarker)
            <==> preferences != ""
  {
    MarkerLeads();
    var s := [AgentSystemPrompt] + Sections(context, toolsJson, preferences);
    var p := if preferences != "" then 1 else 0;
    var t := if toolsJson != "" then 2 else 0;
    forall i | 0 <= i < |s| ensures PreferencesMarker <= s[i] ==> preferences != "" {
      if 1 + p <= i < 1 + p + t {
        assert s[i] == ToolsMarker + toolsJson + "\n" || s[i] == ToolInstruction;
      } else if 1 + p + t <= i {
        assert s[i] == ContextMarker + context + "\n";
      }
    }
    if preferences != "" { assert PreferencesMarker <= s[1]; }
  }

  /** The tools block and the call instruction are present exactly when a
      tool catalogue was given. */
  lemma ToolsPresence(context: string, toolsJson: string, preferences: string)
    ensures var s := [AgentSystemPrompt] + Sections(context, toolsJson, preferences);
      && (HasLineStarting(s, ToolsMarker) <==> toolsJson != "")
      && (ToolInstruction in s <==> toolsJson != "")
  {
    MarkerLeads();
    var s := [AgentSystemPrompt] + Sections(context, toolsJson, preferences);
    var p := if preferences != "" then 1 else 0;
    var t := if toolsJson != "" then 2 else 0;
    forall i | 0 <= i < |s|
      ensures ToolsMarker <= s[i] ==> toolsJson != ""
      ensures s[i] == ToolInstruction ==> toolsJson != ""
    {
      if 0 < i < 1 + p {
        assert s[i] == PreferencesMarker + preferences;
      } else if 1 + p + t <= i {
        assert s[i] == ContextMarker + context + "\n";
      }
    }
    if toolsJson != "" { assert ToolsMarker <= s[1 + p] && s[2 + p] == ToolInstruction; }
  }

  /** The context block is present exactly when context was given. */
  lemma ContextPresence(context: string, toolsJson: string, preferences: string)
    ensures HasLineStarting([AgentSystemPrompt] + Sections(context, toolsJson, preferences), ContextMarker)
            <==> context != ""
  {
    MarkerLeads();
    var s := [AgentSystemPrompt] + Sections(context, toolsJson, preferences);
    var p := if preferences != "" then 1 else 0;
    var t := if toolsJson != "" then 2 else 0;
    forall i | 0 <= i < |s| ensures ContextMarker <= s[i] ==> context != "" {
      if 0 < i < 1 + p {
        assert s[i] == PreferencesMarker + preferences;
      } else if 1 + p <= i < 1 + p + t {
        assert s[i] == ToolsMarker + toolsJson + "\n" || s[i] == ToolInstruction;
      }
    }
    if context != "" { assert ContextMarker <= s[1 + p + t]; }
  }

  /** The layout of the agent prompt (levial/llm.py): the system line first;
      the preference line if preferences were given; the tools block followed
      by the call instruction if a tool catalogue was given; the context block
      if context was given, after the tools; one `ROLE: content` line per
      history entry in order; and the `USER:` / `ASSISTANT:` lines last. */
  lemma AgentPromptLayout(history: seq<Entry>, userText: string, context: string,
                          toolsJson: string, preferences: string)
    ensures var lines := AgentPromptLines(history, userText, context, toolsJson, preferences);
      var p := if preferences != "" then 1 else 0;
      var t := if toolsJson != "" then 2 else 0;
      var c := if context != "" then 1 else 0;
      && |lines| == 1 + p + t + c + |history| + 2
      && lines[0] == AgentSystemPrompt
      && (preferences != "" ==> lines[1] == PreferencesMarker + preferences)
      && (toolsJson != "" ==> lines[1 + p] == ToolsMarker + toolsJson + "\n" && lines[2 + p] == ToolInstruction)
      && (context != "" ==> lines[1 + p + t] == ContextMarker + context + "\n")
      && (forall i :: 0 <= i < |history| ==> lines[1 + p + t + c + i] == RenderEntry(history[i]))
      && lines[|lines| - 2] == "USER: " + userText
      && lines[|lines| - 1] == "ASSISTANT:"
  {
  }

  /** Each optional section appears in the agent prompt exactly when its
      input is non-empty; no history line can pass for one. */
  lemma AgentPromptSections(history: seq<Entry>, userText: string, context: string,
                            toolsJson: string, preferences: string)
    ensures var lines := AgentPromptLines(history, userText, context, toolsJson, preferences);
      && (HasLineStarting(lines, PreferencesMarker) <==> preferences != "")
      && (HasLineStarting(lines, ToolsMarker) <==> toolsJson != "")
      && (ToolInstruction in lines <==> toolsJson != "")
      && (HasLineStarting(lines, ContextMarker) <==> context != "")
  {
    var head := [AgentSystemPrompt] + Sections(context, toolsJson, preferences);
    var body := RenderHistory(history) + Closing(userText);
    assert AgentPromptLines(history, userText, context, toolsJson, preferences) == head + body;
    PreferencesPresence(context, toolsJson, preferences);
    ToolsPresence(context, toolsJson, preferences);
    ContextPresence(context, toolsJson, preferences);
    BodyHasNoSection(history, userText);
    HasLineConcat(head, body, PreferencesMarker);
    HasLineConcat(head, body, ToolsMarker);
    HasLineConcat(head, body, ContextMarker);
  }

  /** The joined agent prompt opens with the system text and closes with the
      `USER:` line and the bare `ASSISTANT:` line, separated by newlines. */
  lemma AgentPromptEnds(history: seq<Entry>, userText: string, context: string,
                        toolsJson: string, preferences: string)
    ensures var prompt := BuildAgentPrompt(history, userText, context, toolsJson, preferences);
      var front := [AgentSystemPrompt] + Sections(context, toolsJson, preferences) + RenderHistory(history);
      && AgentSystemPrompt <= prompt
      && prompt == Join(front, "\n") + "\n" + ("USER: " + userText) + "\n" + "ASSISTANT:"
  {
    var front := [AgentSystemPrompt] + Sections(context, toolsJson, preferences) + RenderHistory(history);
    ClosingJoin(front, userText);
  }

  /** The push-to-talk prompt (voice_loop.py): the fixed system line, one
      `ROLE: content` line per history entry in order, then the `USER:` and
      `ASSISTANT:` lines, joined by newlines. */
  lemma LegacyPromptLayout(history: seq<Entry>, userText: string)
    ensures var lines := LegacyPromptLines(history, userText);
      && |lines| == |history| + 3
      && lines[0] == LegacySystemPrompt
      && (forall i :: 0 <= i < |history| ==> lines[1 + i] == RenderEntry(history[i]))
      && lines[|history| + 1] == "USER: " + userText
      && lines[|history| + 2] == "ASSISTANT:"
    ensures var prompt := BuildLegacyPrompt(history, userText);
      && LegacySystemPrompt <= prompt
      && prompt == Join([LegacySystemPrompt] + RenderHistory(history), "\n") + "\n" + ("USER: " + userText) + "\n" + "ASSISTANT:"
  {
    ClosingJoin([LegacySystemPrompt] + RenderHistory(history), userText);
  }

  /** The archived push-to-talk prompt differs from the agent prompt with no
      optional section only in its system line. */
  lemma LegacyMatchesBareAgentPrompt(history: seq<Entry>, userText: string)
    ensures AgentPromptLines(history, userText, "", "", "")[1..] == LegacyPromptLines(history, userText)[1..]
    ensures AgentPromptLines(history, userText, "", "", "")[0] != LegacyPromptLines(history, userText)[0]
  {
    MarkerLeads();
  }

  lemma ClosingJoin(front: seq<string>, userText: string)
    requires |front| > 0
    ensures front[0] <= Join(front + Closing(userText), "\n")
    ensures Join(front + Closing(userText), "\n") == Join(front, "\n") + "\n" + ("USER: " + userText) + "\n" + "ASSISTANT:"
  {
    var u := "USER: " + userText;
    assert front + Closing(userText) == (front + [u]) + ["ASSISTANT:"];
    JoinSnoc(front, u, "\n");
    JoinSnoc(front + [u], "ASSISTANT:", "\n");
    JoinStartsWith(front + Closing(userText), "\n");
  }
}
