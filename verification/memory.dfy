/** `MemoryManager` (levial/memory/manager.py): the episodic-memory records
    written after each final answer, the context string assembled for every
    utterance, knowledge extraction from a finished exchange and the manual
    profile update.

    The vector store, the clock, `time.strftime`, Python's `str` of the
    profile dictionary and `UserProfile.update_interest` are not part of this
    model: they enter as parameters. The profile is its `profile_data`
    dictionary twice over: `live` is the object in memory, `saved` what
    `save_profile` last wrote. */
module Memory {
  import opened Wrappers
  import opened Strings
  import opened JsonValues
  import opened ToolCalls

  // ---------------------------------------------------------------------
  // Episodic memory records (`add_interaction`)
  // ---------------------------------------------------------------------

  /** One entry handed to the vector store's `add_memory`. */
  datatype MemoryRecord = MemoryRecord(id: string, content: string, metadata: map<string, Json>)

  const ConversationType: string := "conversation"

  /** The record id: the whole-second timestamp in decimal, `_`, the role. */
  function InteractionId(timestamp: nat, role: string): string {
    NatToString(timestamp) + "_" + role
  }

  /** Reads an id back: the digits before the first `_` and everything after it. */
  function DecodeId(id: string): Option<(nat, string)> {
    var u := Find(id, '_');
    if u <= 0 then None
    else if forall i :: 0 <= i < u ==> IsDigit(id[i]) then Some((DigitsValue(id[..u]), id[u + 1..]))
    else None
  }

  /** Every id `add_interaction` makes reads back as its timestamp and role. */
  lemma IdRoundTrip(timestamp: nat, role: string)
    ensures DecodeId(InteractionId(timestamp, role)) == Some((timestamp, role))
  {
    var d := NatToString(timestamp);
    var id := InteractionId(timestamp, role);
    assert id[|d|] == '_';
    assert '_' !in d by {
      forall i | 0 <= i < |d| ensures d[i] != '_' {
        assert IsDigit(d[i]);
      }
    }
    var u := Find(id, '_');
    assert u == |d|;
    assert id[..u] == d;
    assert id[u + 1..] == role;
    DecimalRoundTrip(timestamp);
  }

  /** Two records get the same id only for the same second and the same role;
      in particular the user and assistant records of one exchange never
      share an id. */
  lemma IdInjective(t1: nat, r1: string, t2: nat, r2: string)
    requires InteractionId(t1, r1) == InteractionId(t2, r2)
    ensures t1 == t2 && r1 == r2
  {
    IdRoundTrip(t1, r1);
    IdRoundTrip(t2, r2);
  }

  function InteractionMetadata(timestamp: nat, role: string): map<string, Json> {
    map["role" := JStr(role), "timestamp" := JInt(timestamp), "type" := JStr(ConversationType)]
  }

  /** `add_interaction(role, content)` at clock reading `timestamp`: the
      record stores the content verbatim, tags it as a conversation turn of
      `role` at `timestamp`, and its id encodes exactly that second and role. */
  function AddInteraction(timestamp: nat, role: string, content: string): (m: MemoryRecord)
    ensures m.content == content
    ensures m.metadata.Keys == {"role", "timestamp", "type"}
    ensures m.metadata["role"] == JStr(role)
    ensures m.metadata["timestamp"] == JInt(timestamp)
    ensures m.metadata["type"] == JStr("conversation")
    ensures DecodeId(m.id) == Some((timestamp, role))
  {
    IdRoundTrip(timestamp, role);
    MemoryRecord(InteractionId(timestamp, role), content, InteractionMetadata(timestamp, role))
  }

  // ---------------------------------------------------------------------
  // Context assembly (`get_relevant_context`)
  // ---------------------------------------------------------------------

  /** A search result: the stored text and its metadata. */
  datatype Hit = Hit(text: string, metadata: map<string, Json>)

  /** The vector store's `search_memory(query, n_results)`. */
  type Search = (string, nat) -> seq<Hit>

  /** How many memories the context asks for. */
  const SearchResults: nat := 3

  const MemoryHeader: string := "\nRelevant Past Conversations:\n"

  /** `metadata.get('role', 'unknown')` as an f-string shows it; `show` is
      Python's `str` of a non-string value. */
  function RoleOf(metadata: map<string, Json>, show: Json -> string): string {
    if "role" in metadata then
      match metadata["role"]
      case JStr(s) => s
      case v => show(v)
    else "unknown"
  }

  /** A record written by `add_interaction` is shown with the role it was stored under. */
  lemma StoredRoleShown(timestamp: nat, role: string, content: string, show: Json -> string)
    ensures RoleOf(AddInteraction(timestamp, role, content).metadata, show) == role
  {
  }

  function HitLine(h: Hit, show: Json -> string): string {
    "- " + RoleOf(h.metadata, show) + ": " + h.text + "\n"
  }

  /** One line per hit, in hit order. */
  function HitLines(hits: seq<Hit>, show: Json -> string): string
    decreases |hits|
  {
    if |hits| == 0 then "" else HitLines(hits[..|hits| - 1], show) + HitLine(hits[|hits| - 1], show)
  }

  /** The memory section: empty without hits, otherwise a header then the hit lines. */
  function MemorySection(hits: seq<Hit>, show: Json -> string): (r: string)
    ensures r == "" <==> |hits| == 0
    ensures |hits| > 0 ==> MemoryHeader <= r
  {
    if |hits| == 0 then "" else MemoryHeader + HitLines(hits, show)
  }

  /** The lines of the first `j` hits are a prefix of the lines of all of them. */
  lemma {:induction false} HitLinesPrefix(hits: seq<Hit>, j: nat, show: Json -> string)
    requires j <= |hits|
    ensures HitLines(hits[..j], show) <= HitLines(hits, show)
    decreases |hits|
  {
    if j < |hits| {
      var init := hits[..|hits| - 1];
      assert init[..j] == hits[..j];
      HitLinesPrefix(init, j, show);
    } else {
      assert hits[..j] == hits;
    }
  }

  /** Hit `i`'s line comes right after the lines of the hits before it: the
      section lists every hit, in the order the store returned them. */
  lemma HitLineInOrder(hits: seq<Hit>, i: nat, show: Json -> string)
    requires i < |hits|
    ensures HitLines(hits[..i], show) + HitLine(hits[i], show) <= HitLines(hits, show)
  {
    assert hits[..i + 1][..i] == hits[..i];
    HitLinesPrefix(hits, i + 1, show);
  }

  /** Extending the hits by one extends the section by that hit's line. */
  lemma HitLinesSnoc(hits: seq<Hit>, i: nat, show: Json -> string)
    requires i < |hits|
    ensures MemoryHeader + HitLines(hits[..i + 1], show) == MemoryHeader + HitLines(hits[..i], show) + HitLine(hits[i], show)
  {
    assert hits[..i + 1][..i] == hits[..i];
  }

  /** The string loop of `get_relevant_context`: `memory_str` starts empty,
      gains the header when there are hits, then one line per hit. */
  method RenderMemories(hits: seq<Hit>, show: Json -> string) returns (memoryStr: string)
    ensures memoryStr == MemorySection(hits, show)
  {
    memoryStr := "";
    if |hits| > 0 {
      memoryStr := MemoryHeader;
      var i := 0;
      while i < |hits|
        invariant 0 <= i <= |hits|
        invariant memoryStr == MemoryHeader + HitLines(hits[..i], show)
      {
        HitLinesSnoc(hits, i, show);
        memoryStr := memoryStr + HitLine(hits[i], show);
        i := i + 1;
      }
      assert hits[..i] == hits;
    }
  }

  /** The time line and the profile line, each closed by a newline. */
  function ContextHead(timeText: string, profileText: string): string {
    "Current Time: " + timeText + "\n" + "User Profile: " + profileText + "\n"
  }

  /** `get_relevant_context(query)`: the time line, the profile line and the
      memory section for the store's three best hits. The memory section is
      always present, and empty exactly when the store has no hit. */
  function RelevantContext(timeText: string, profileText: string, query: string,
                           search: Search, show: Json -> string): (r: string)
    ensures ContextHead(timeText, profileText) <= r
    ensures r == ContextHead(timeText, profileText) <==> search(query, SearchResults) == []
    ensures search(query, SearchResults) != [] ==>
      r[|ContextHead(timeText, profileText)|..] == MemoryHeader + HitLines(search(query, SearchResults), show)
  {
    var head := ContextHead(timeText, profileText);
    var r := head + MemorySection(search(query, SearchResults), show);
    assert r[|head|..] == MemorySection(search(query, SearchResults), show);
    r
  }

  // ---------------------------------------------------------------------
  // The user profile
  // ---------------------------------------------------------------------

  /** `UserProfile.profile_data`. */
  type ProfileData = map<string, Json>

  /** The profile in memory and the profile as last saved. */
  datatype ProfileStore = ProfileStore(live: ProfileData, saved: ProfileData)

  /** Key-by-key overwrite: `for key, value in extracted.items(): stored[key] = value`. */
  function MergeFacts(stored: map<string, Json>, extracted: map<string, Json>): (m: map<string, Json>)
    ensures m.Keys == stored.Keys + extracted.Keys
    ensures forall key :: key in extracted ==> m[key] == extracted[key]
    ensures forall key :: key in stored && key !in extracted ==> m[key] == stored[key]
  {
    stored + extracted
  }

  /** The loop itself, one key at a time in whatever order `items()` yields
      them: the outcome does not depend on that order. */
  method MergeFactsLoop(stored: map<string, Json>, extracted: map<string, Json>)
    returns (m: map<string, Json>)
    ensures m == MergeFacts(stored, extracted)
  {
    m := stored;
    var todo := extracted.Keys;
    while todo != {}
      invariant todo <= extracted.Keys
      invariant m.Keys == stored.Keys + (extracted.Keys - todo)
      invariant forall key :: key in extracted.Keys - todo ==> m[key] == extracted[key]
      invariant forall key :: key in stored && key !in extracted.Keys - todo ==> m[key] == stored[key]
      decreases todo
    {
      var key :| key in todo;
      m := m[key := extracted[key]];
      todo := todo - {key};
    }
  }

  // ---------------------------------------------------------------------
  // Knowledge extraction (`extract_and_update_knowledge`)
  // ---------------------------------------------------------------------

  /** What extraction reports when it learned nothing or failed. */
  const EmptyKnowledge: map<string, Json> :=
    map["facts" := JObj(map[]), "interests" := JArr([]), "name" := JNull]

  /** The profile after `update_interest` was called for each interest, and
      the exception text if one of those calls raised. */
  datatype Applied = Applied(data: ProfileData, raised: Option<string>)

  /** `for interest in interests: update_interest(interest)`; `UserProfile`
      is not part of this model, so this is a parameter. */
  type InterestMerge = (ProfileData, Json) -> Applied

  /** An interest merge that touches nothing but the `interests` entry. */
  ghost predicate InterestsOnly(merge: InterestMerge) {
    forall p, v :: merge(p, v).data - {"interests"} == p - {"interests"}
  }

  /** The profile store and the returned knowledge after one extraction. */
  datatype Extraction = Extraction(store: ProfileStore, knowledge: map<string, Json>)

  /** The fixed text around the exchange in the extraction prompt. */
  const ExtractionIntro: string :=
    "Based on this conversation, extract any facts about the user that should be remembered.\n\n"
  const ExtractionInstructions: string :=
    "Extract ONLY factual information about the user (name, preferences, interests, locations, relationships, etc.).\n"
    + "Format your response as JSON:\n"
    + "{\n  \"facts\": {\n    \"key\": \"value\"\n  },\n  \"interests\": [\"topic1\", \"topic2\"],\n  \"name\": \"their name if mentioned\"\n}\n\n"
    + "If nothing new was learned, return: {\"facts\": {}, \"interests\": [], \"name\": null}\n"
    + "Only extract information explicitly stated or strongly implied. Do not make assumptions.\n"

  /** The exchange as the extraction prompt quotes it. */
  function Exchange(userMessage: string, assistantMessage: string): string {
    "User: " + userMessage + "\nAssistant: " + assistantMessage + "\n\n"
  }

  /** The prompt knowledge extraction sends to the model. */
  function ExtractionPrompt(userMessage: string, assistantMessage: string): string {
    ExtractionIntro + Exchange(userMessage, assistantMessage) + ExtractionInstructions
  }

  /** The extraction prompt quotes the user's message and the assistant's
      reply verbatim, right after the fixed introduction and before the
      fixed instructions, so the two messages can be read back from it. */
  lemma ExtractionPromptQuotes(userMessage: string, assistantMessage: string)
    ensures Quotes(ExtractionPrompt(userMessage, assistantMessage), ExtractionIntro, ExtractionInstructions,
                   userMessage, assistantMessage)
  {
    QuotesBetween(ExtractionIntro, ExtractionInstructions, userMessage, assistantMessage);
  }

  /** `p` is `pre`, then "User: " and `u`, then "\nAssistant: " and `a`,
      then a blank line and `post`. */
  ghost predicate Quotes(p: string, pre: string, post: string, u: string, a: string) {
    var i := |pre| + 6;
    var j := i + |u| + 12;
    && |p| == j + |a| + 2 + |post|
    && p[..|pre|] == pre
    && p[|pre|..i] == "User: "
    && p[i..i + |u|] == u
    && p[i + |u|..j] == "\nAssistant: "
    && p[j..j + |a|] == a
    && p[j + |a|..j + |a| + 2] == "\n\n"
    && p[j + |a| + 2..] == post
  }

  lemma QuotesBetween(pre: string, post: string, u: string, a: string)
    ensures Quotes(pre + Exchange(u, a) + post, pre, post, u, a)
  {
    var p := pre + Exchange(u, a) + post;
    var i := |pre| + 6;
    var j := i + |u| + 12;
    assert p == pre + "User: " + u + "\nAssistant: " + a + "\n\n" + post;
    assert p[|pre|..i] == "User: ";
    assert p[i..i + |u|] == u;
    assert p[i + |u|..j] == "\nAssistant: ";
    assert p[j..j + |a|] == a;
    assert p[j + |a|..j + |a| + 2] == "\n\n";
  }

  /** The stored facts accept the extracted ones: either nothing truthy was
      extracted, or both sides are dictionaries. Otherwise the merge raises
      (`.items()` on a non-dictionary, a missing `facts` key, or item
      assignment on a non-dictionary). */
  predicate FactsMergeable(live: ProfileData, k: map<string, Json>) {
    !Truthy(Get(k, "facts")) || (k["facts"].JObj? && "facts" in live && live["facts"].JObj?)
  }

  /** The profile after the name step: overwritten only by a truthy name. */
  function Named(live: ProfileData, k: map<string, Json>): ProfileData {
    if Truthy(Get(k, "name")) then live["name" := k["name"]] else live
  }

  /** The profile after the facts step, when that step does not raise. */
  function WithFacts(named: ProfileData, k: map<string, Json>): ProfileData
    requires FactsMergeable(named, k)
  {
    if Truthy(Get(k, "facts")) then named["facts" := JObj(MergeFacts(named["facts"].fields, k["facts"].fields))]
    else named
  }

  /** The profile updates of a decoded extraction, in the order the source
      applies them: name, facts, interests, then save. An exception part way
      leaves the earlier updates in the live profile, unsaved, and reports
      the empty result. */
  function ApplyKnowledge(store: ProfileStore, k: map<string, Json>, merge: InterestMerge): (r: Extraction)
    ensures r.store.saved == store.saved || r.store.saved == r.store.live
    ensures r.knowledge == k || (r.knowledge == EmptyKnowledge && r.store.saved == store.saved)
    ensures !FactsMergeable(Named(store.live, k), k) ==>
              r == Extraction(store.(live := Named(store.live, k)), EmptyKnowledge)
    ensures FactsMergeable(Named(store.live, k), k) && Truthy(Get(k, "interests"))
            && merge(WithFacts(Named(store.live, k), k), k["interests"]).raised.Some? ==>
              && r.knowledge == EmptyKnowledge
              && r.store.saved == store.saved
              && r.store.live == merge(WithFacts(Named(store.live, k), k), k["interests"]).data
    ensures r.knowledge == k && k != EmptyKnowledge ==> r.store.saved == r.store.live
  {
    var named := Named(store.live, k);
    if !FactsMergeable(named, k) then
      Extraction(store.(live := named), EmptyKnowledge)
    else
      var merged := WithFacts(named, k);
      var applied := if Truthy(Get(k, "interests")) then merge(merged, k["interests"]) else Applied(merged, None);
      if applied.raised.Some? then Extraction(store.(live := applied.data), EmptyKnowledge)
      else Extraction(ProfileStore(applied.data, applied.data), k)
  }

  /** `extract_and_update_knowledge` once the model has answered the
      extraction prompt with `output` (or raised). A failed query, an answer
      without both braces, or a candidate the parser rejects leaves the
      profile alone and reports the empty result; the saved profile only
      ever changes to the live one. */
  function ExtractAndUpdate(store: ProfileStore, output: Outcome<string>, parse: Parser,
                            merge: InterestMerge): (r: Extraction)
    ensures output.Raised? ==> r == Extraction(store, EmptyKnowledge)
    ensures output.Ok? && BraceCandidate(output.value).None? ==> r == Extraction(store, EmptyKnowledge)
    ensures output.Ok? && BraceCandidate(output.value).Some? && parse(BraceCandidate(output.value).value).None? ==>
              r == Extraction(store, EmptyKnowledge)
    ensures r.store.saved == store.saved || r.store.saved == r.store.live
  {
    match output
    case Raised(_) => Extraction(store, EmptyKnowledge)
    case Ok(text) =>
      match BraceCandidate(text)
      case None => Extraction(store, EmptyKnowledge)
      case Some(candidate) =>
        match parse(candidate)
        case None => Extraction(store, EmptyKnowledge)
        case Some(k) => ApplyKnowledge(store, k, merge)
  }

  /** The model answered and its brace candidate decoded to `k`. */
  ghost predicate Decoded(output: Outcome<string>, parse: Parser, k: map<string, Json>) {
    output.Ok? && BraceCandidate(output.value).Some? && parse(BraceCandidate(output.value).value) == Some(k)
  }

  /** A merge that touches only `interests` keeps every other entry as it was. */
  lemma MergeKeeps(merge: InterestMerge, p: ProfileData, v: Json, key: string)
    requires InterestsOnly(merge) && key != "interests"
    ensures key in merge(p, v).data <==> key in p
    ensures key in p ==> merge(p, v).data[key] == p[key]
  {
    var d := merge(p, v).data;
    assert d - {"interests"} == p - {"interests"};
    assert key in d <==> key in d - {"interests"};
    assert key in p <==> key in p - {"interests"};
    if key in p {
      assert d[key] == (d - {"interests"})[key];
      assert p[key] == (p - {"interests"})[key];
    }
  }

  /** Whatever happens after decoding, the live name is the extracted one
      exactly when that is truthy, and is left alone otherwise. */
  lemma ExtractedNameIff(store: ProfileStore, output: Outcome<string>, parse: Parser,
                         merge: InterestMerge, k: map<string, Json>)
    requires Decoded(output, parse, k) && InterestsOnly(merge)
    ensures var live := ExtractAndUpdate(store, output, parse, merge).store.live;
      Get(live, "name") == if Truthy(Get(k, "name")) then k["name"] else Get(store.live, "name")
  {
    assert ExtractAndUpdate(store, output, parse, merge) == ApplyKnowledge(store, k, merge);
    var named := Named(store.live, k);
    if FactsMergeable(named, k) {
      var merged := WithFacts(named, k);
      assert Get(merged, "name") == Get(named, "name");
      if Truthy(Get(k, "interests")) {
        MergeKeeps(merge, merged, k["interests"], "name");
      }
    }
  }

  /** With mergeable facts, the live facts become the stored ones overwritten
      key by key by the extracted ones: extracted keys get the new value,
      every other stored key keeps its value. */
  lemma ExtractedFactsMerged(store: ProfileStore, output: Outcome<string>, parse: Parser,
                             merge: InterestMerge, k: map<string, Json>)
    requires Decoded(output, parse, k) && InterestsOnly(merge)
    requires Truthy(Get(k, "facts")) && FactsMergeable(store.live, k)
    ensures var live := ExtractAndUpdate(store, output, parse, merge).store.live;
      && "facts" in live
      && live["facts"] == JObj(MergeFacts(store.live["facts"].fields, k["facts"].fields))
  {
    assert ExtractAndUpdate(store, output, parse, merge) == ApplyKnowledge(store, k, merge);
    var named := Named(store.live, k);
    assert named["facts"] == store.live["facts"];
    var merged := WithFacts(named, k);
    if Truthy(Get(k, "interests")) {
      MergeKeeps(merge, merged, k["interests"], "facts");
    }
  }

  /** When nothing raises, the profile is saved: the saved profile is the
      live one and the decoded knowledge is returned as it is. */
  lemma ExtractionSaves(store: ProfileStore, output: Outcome<string>, parse: Parser,
                        merge: InterestMerge, k: map<string, Json>)
    requires Decoded(output, parse, k)
    requires FactsMergeable(Named(store.live, k), k)
    requires Truthy(Get(k, "interests")) ==> merge(WithFacts(Named(store.live, k), k), k["interests"]).raised.None?
    ensures var r := ExtractAndUpdate(store, output, parse, merge);
      r.store.saved == r.store.live && r.knowledge == k
  {
    assert ExtractAndUpdate(store, output, parse, merge) == ApplyKnowledge(store, k, merge);
  }

  /** An extraction that raises after decoding (facts that cannot be merged)
      reports the empty result and saves nothing, but the live profile keeps
      a name set before the failure. */
  lemma UnmergeableFactsNotSaved(store: ProfileStore, output: Outcome<string>, parse: Parser,
                                 merge: InterestMerge, k: map<string, Json>)
    requires Decoded(output, parse, k)
    requires !FactsMergeable(store.live, k)
    ensures var r := ExtractAndUpdate(store, output, parse, merge);
      && r.knowledge == EmptyKnowledge
      && r.store.saved == store.saved
      && r.store.live == Named(store.live, k)
  {
    assert ExtractAndUpdate(store, output, parse, merge) == ApplyKnowledge(store, k, merge);
    var named := Named(store.live, k);
    assert ("facts" in named <==> "facts" in store.live);
    if "facts" in named { assert named["facts"] == store.live["facts"]; }
  }

  /** An extraction whose interest merge raises (after the name and facts
      steps succeeded) reports the empty result and saves nothing; the live
      profile is the one the failed merge left behind. */
  lemma InterestMergeRaisedNotSaved(store: ProfileStore, output: Outcome<string>, parse: Parser,
                                    merge: InterestMerge, k: map<string, Json>)
    requires Decoded(output, parse, k)
    requires FactsMergeable(Named(store.live, k), k) && Truthy(Get(k, "interests"))
    requires merge(WithFacts(Named(store.live, k), k), k["interests"]).raised.Some?
    ensures var r := ExtractAndUpdate(store, output, parse, merge);
      && r.knowledge == EmptyKnowledge
      && r.store.saved == store.saved
      && r.store.live == merge(WithFacts(Named(store.live, k), k), k["interests"]).data
  {
    assert ExtractAndUpdate(store, output, parse, merge) == ApplyKnowledge(store, k, merge);
  }

  /** The "nothing new was learned" answer changes nothing in the profile:
      the live profile is unchanged and is what gets saved. */
  lemma EmptyKnowledgeChangesNothing(store: ProfileStore, output: Outcome<string>, parse: Parser,
                                     merge: InterestMerge)
    requires Decoded(output, parse, EmptyKnowledge)
    ensures var r := ExtractAndUpdate(store, output, parse, merge);
      r.store.live == store.live && r.store.saved == store.live && r.knowledge == EmptyKnowledge
  {
    assert ExtractAndUpdate(store, output, parse, merge) == ApplyKnowledge(store, EmptyKnowledge, merge);
    assert Get(EmptyKnowledge, "name") == JNull;
    assert Get(EmptyKnowledge, "facts") == JObj(map[]);
    assert Get(EmptyKnowledge, "interests") == JArr([]);
  }

  /** Extracting `{"city": "Paris"}` over stored facts `{"city": "Lyon",
      "age": "5"}` leaves the facts `{"city": "Paris", "age": "5"}`. */
  lemma ParisOverLyon(store: ProfileStore, output: Outcome<string>, parse: Parser, merge: InterestMerge)
    requires InterestsOnly(merge)
    requires store.live == map["facts" := JObj(map["city" := JStr("Lyon"), "age" := JStr("5")])]
    requires Decoded(output, parse, map["facts" := JObj(map["city" := JStr("Paris")])])
    ensures ExtractAndUpdate(store, output, parse, merge).store.live["facts"]
            == JObj(map["city" := JStr("Paris"), "age" := JStr("5")])
  {
    var k := map["facts" := JObj(map["city" := JStr("Paris")])];
    assert Truthy(Get(k, "facts"));
    ExtractedFactsMerged(store, output, parse, merge, k);
    var facts := MergeFacts(store.live["facts"].fields, k["facts"].fields);
    assert facts.Keys == {"city", "age"};
    assert facts == map["city" := JStr("Paris"), "age" := JStr("5")];
  }

  // ---------------------------------------------------------------------
  // Manual update (`update_knowledge`)
  // ---------------------------------------------------------------------

  /** The three profile entries `update_knowledge` may replace. */
  predicate Replaceable(key: string) {
    key == "name" || key == "interests" || key == "facts"
  }

  function Overwrite(p: ProfileData, updates: map<string, Json>, key: string): ProfileData {
    if key in updates then p[key := updates[key]] else p
  }

  /** The saved profile and the profile returned to the caller. */
  datatype ManualUpdate = ManualUpdate(store: ProfileStore, profile: ProfileData)

  /** `update_knowledge(updates)`: replace `name`, `interests` and `facts`
      wholesale for the keys present in `updates`, save, and return the
      profile. Every other key of `updates` is ignored and every other
      profile entry is kept. */
  function UpdateKnowledge(store: ProfileStore, updates: map<string, Json>): (r: ManualUpdate)
    ensures r.store.live == r.store.saved == r.profile
    ensures forall key :: key in updates && Replaceable(key) ==> key in r.profile && r.profile[key] == updates[key]
    ensures forall key :: key in r.profile ==> key in store.live || (key in updates && Replaceable(key))
    ensures forall key :: key in store.live ==> key in r.profile
    ensures forall key :: key in store.live && !(key in updates && Replaceable(key)) ==> r.profile[key] == store.live[key]
  {
    var p := Overwrite(Overwrite(Overwrite(store.live, updates, "name"), updates, "interests"), updates, "facts");
    ManualUpdate(ProfileStore(p, p), p)
  }

  /** Applying the same manual update twice is the same as applying it once. */
  lemma UpdateKnowledgeIdempotent(store: ProfileStore, updates: map<string, Json>)
    ensures UpdateKnowledge(UpdateKnowledge(store, updates).store, updates) == UpdateKnowledge(store, updates)
  {
    var p := UpdateKnowledge(store, updates).profile;
    var q := UpdateKnowledge(UpdateKnowledge(store, updates).store, updates).profile;
    assert p.Keys == q.Keys;
    assert forall key :: key in p ==> p[key] == q[key];
    assert p == q;
  }
}
