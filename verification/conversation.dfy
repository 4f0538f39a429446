/** Conversation history: an ordered sequence of (role, text) turns. */
module Conversation {
  import opened Strings

  /** The four roles the agent ever writes into history. */
  datatype Role = User | Assistant | System | Agent

  /** The role string stored in the history tuple. */
  function RoleName(r: Role): string {
    match r
    case User => "user"
    case Assistant => "assistant"
    case System => "system"
    case Agent => "agent"
  }

  datatype Entry = Entry(role: Role, content: string)

  /** A history entry as both prompt builders render it: `ROLE.upper() + ": " + content`. */
  function RenderEntry(e: Entry): string {
    Upper(RoleName(e.role)) + ": " + e.content
  }

  /** One rendered line per history entry, in history order. */
  function RenderHistory(h: seq<Entry>): (lines: seq<string>)
    ensures |lines| == |h|
    ensures forall i :: 0 <= i < |h| ==> lines[i] == RenderEntry(h[i])
  {
    seq(|h|, i requires 0 <= i < |h| => RenderEntry(h[i]))
  }

  /** The rendered role labels are the upper-case role names. */
  lemma RoleLabels()
    ensures Upper(RoleName(User)) == "USER"
    ensures Upper(RoleName(Assistant)) == "ASSISTANT"
    ensures Upper(RoleName(System)) == "SYSTEM"
    ensures Upper(RoleName(Agent)) == "AGENT"
  {
    assert Upper("user") == "USER";
    assert Upper("assistant") == "ASSISTANT";
    assert Upper("system") == "SYSTEM";
    assert Upper("agent") == "AGENT";
  }
}
