/** The text handling of backend/app/services/memory_extractor.py: the conversation text sent
    to the extraction model, the parsing of its reply into the four kinds of memory, and the
    metadata stamped on every extracted item. The model call and `json.loads` are parameters. */
module MemoryExtractor {
  import opened Wrappers
  import Py
  import Json
  import Seqs

  // ---------------------------------------------------------------------------
  // Conversation text
  // ---------------------------------------------------------------------------

  /** A message dict; a missing `role` reads as "unknown", a missing `content` as "". */
  datatype ChatMessage = ChatMessage(role: Option<string>, content: Option<string>)

  function RoleOf(m: ChatMessage): string {
    m.role.GetOr("unknown")
  }

  function ContentOf(m: ChatMessage): string {
    m.content.GetOr("")
  }

  /** System messages and messages without content are not shown to the extractor. */
  predicate Shown(m: ChatMessage) {
    RoleOf(m) != "system" && ContentOf(m) != ""
  }

  /** "User: ..." for the user, "Assistant: ..." for every other role. */
  function Entry(m: ChatMessage): string {
    (if RoleOf(m) == "user" then "User" else "Assistant") + ": " + ContentOf(m)
  }

  /** The shown messages, in order. */
  function ShownMessages(ms: seq<ChatMessage>): (r: seq<ChatMessage>)
    ensures |r| <= |ms|
    ensures forall m :: m in r <==> m in ms && Shown(m)
  {
    if ms == [] then []
    else
      var r := ShownMessages(ms[..|ms| - 1]);
      assert ms == ms[..|ms| - 1] + [ms[|ms| - 1]];
      if Shown(ms[|ms| - 1]) then r + [ms[|ms| - 1]] else r
  }

  /** One entry per shown message, in order. */
  function Entries(ms: seq<ChatMessage>): seq<string> {
    if ms == [] then []
    else Entries(ms[..|ms| - 1]) + (if Shown(ms[|ms| - 1]) then [Entry(ms[|ms| - 1])] else [])
  }

  /** The entries are exactly the shown messages, each labelled, in order. */
  lemma {:induction false} EntriesShown(ms: seq<ChatMessage>)
    ensures |Entries(ms)| == |ShownMessages(ms)|
    ensures forall i :: 0 <= i < |Entries(ms)| ==> Entries(ms)[i] == Entry(ShownMessages(ms)[i])
  {
    if ms != [] {
      EntriesShown(ms[..|ms| - 1]);
    }
  }

  /** Formatting distributes over concatenation: order is preserved. */
  lemma {:induction false} EntriesAppend(a: seq<ChatMessage>, b: seq<ChatMessage>)
    ensures Entries(a + b) == Entries(a) + Entries(b)
    decreases |b|
  {
    if b == [] {
      assert a + b == a;
    } else {
      var b' := b[..|b| - 1];
      EntriesAppend(a, b');
      assert (a + b)[..|a + b| - 1] == a + b';
      assert (a + b)[|a + b| - 1] == b[|b| - 1];
    }
  }

  /** `_format_conversation` */
  method FormatConversation(ms: seq<ChatMessage>) returns (text: string)
    ensures text == Py.Join("\n\n", Entries(ms))
  {
    var lines: seq<string> := [];
    for i := 0 to |ms|
      invariant lines == Entries(ms[..i])
    {
      assert ms[..i + 1][..i] == ms[..i];
      var role := if ms[i].role.Some? then ms[i].role.value else "unknown";
      var content := if ms[i].content.Some? then ms[i].content.value else "";
      if role == "system" || content == "" {
        continue;
      }
      var roleLabel := if role == "user" then "User" else "Assistant";
      lines := lines + [roleLabel + ": " + content];
    }
    assert ms[..|ms|] == ms;
    text := Py.Join("\n\n", lines);
  }

  /** The exchange `extract_from_single_message` builds is shown as two labelled entries when
      both sides have text. */
  lemma SingleExchangeText(userMessage: string, assistantResponse: string)
    requires userMessage != [] && assistantResponse != []
    ensures Py.Join("\n\n", Entries(SingleExchange(userMessage, assistantResponse))) ==
      "User: " + userMessage + "\n\n" + "Assistant: " + assistantResponse
  {
    var ms := SingleExchange(userMessage, assistantResponse);
    assert ms[..1] == [ms[0]];
    assert [ms[0]][..0] == [];
    assert RoleOf(ms[0]) == "user" && ContentOf(ms[0]) == userMessage;
    assert |"system"| != |"user"| && |"assistant"| != |"user"|;
    assert Shown(ms[0]) && Shown(ms[1]);
    assert Entry(ms[1]) == "Assistant: " + assistantResponse;
    assert Entry(ms[0]) == "User: " + userMessage;
    assert Entries([ms[0]]) == Entries([ms[0]][..0]) + [Entry(ms[0])];
    assert Entries([ms[0]]) == ["User: " + userMessage];
    assert Entries(ms) == ["User: " + userMessage, "Assistant: " + assistantResponse];
    assert ["User: " + userMessage, "Assistant: " + assistantResponse][1..] == ["Assistant: " + assistantResponse];
  }

  function SingleExchange(userMessage: string, assistantResponse: string): seq<ChatMessage> {
    [ChatMessage(Some("user"), Some(userMessage)), ChatMessage(Some("assistant"), Some(assistantResponse))]
  }

  // ---------------------------------------------------------------------------
  // Parsing the reply
  // ---------------------------------------------------------------------------

  /** The reply text with a leading code fence removed: a reply that opens with three
      backticks is cut from its first "```json" (or first "```") to its last "```", both
      markers are deleted and the rest stripped. */
  function Unfence(response: string): (r: string)
    ensures !Py.StartsWith(Py.Strip(response), "```") ==> r == Py.Strip(response)
    ensures Py.IsStripped(r)
  {
    var r := Py.Strip(response);
    if Py.StartsWith(r, "```") then
      var start0 := Py.Find(r, "```json");
      var start := if start0 == -1 then Py.Find(r, "```") else start0;
      var end := Py.RFind(r, "```");
      if start != -1 && end != -1 && end > start then
        Py.Strip(Py.Replace(Py.Replace(r[start..end], "```json", ""), "```", ""))
      else r
    else r
  }

  /** A text without backticks has no occurrence of a pattern that starts with one. */
  lemma NoBacktickNoFence(body: string, p: string)
    requires '`' !in body && p != [] && p[0] == '`'
    ensures Py.Find(body, p) == -1
  {
  }

  /** Where the markers sit in a fenced reply whose body has no backticks: the opening one at
      the start, the last "```" at the very end. */
  lemma FenceMarkers(r: string, body: string)
    requires r == "```json" + body + "```"
    requires '`' !in body
    ensures Py.StartsWith(r, "```")
    ensures Py.Find(r, "```json") == 0
    ensures Py.RFind(r, "```") == |r| - 3
    ensures r[0..|r| - 3] == "```json" + body
  {
    assert r[..3] == "```";
    assert r[..7] == "```json";
    assert Py.OccursAt(r, "```json", 0);
    var n := |r| - 3;
    assert r[n..n + 3] == "```";
    assert Py.OccursAt(r, "```", n);
  }

  /** A text without backticks is left alone by the removal of a marker. */
  lemma ReplaceNoFence(body: string, p: string)
    requires '`' !in body && p != [] && p[0] == '`'
    ensures Py.Replace(body, p, "") == body
  {
    NoBacktickNoFence(body, p);
  }

  /** Deleting the opening marker leaves the body. */
  lemma DropOpeningFence(body: string)
    requires '`' !in body
    ensures Py.Replace("```json" + body, "```json", "") == body
  {
    var cut := "```json" + body;
    assert cut[..7] == "```json";
    assert Py.OccursAt(cut, "```json", 0);
    assert Py.Find(cut, "```json") == 0;
    assert cut[7..] == body;
    ReplaceNoFence(body, "```json");
  }

  /** A reply fenced as "```json" + body + "```" yields the stripped body. */
  lemma UnfenceFenced(response: string, body: string)
    requires Py.Strip(response) == "```json" + body + "```"
    requires '`' !in body
    ensures Unfence(response) == Py.Strip(body)
  {
    var r := Py.Strip(response);
    FenceMarkers(r, body);
    var cut := r[0..|r| - 3];
    DropOpeningFence(body);
    var once := Py.Replace(cut, "```json", "");
    assert once == body;
    ReplaceNoFence(body, "```");
    assert Py.Replace(once, "```", "") == body;
  }

  /** The `preferences`, `facts`, `tasks` and `relations` entries of a parsed reply. */
  datatype Groups = Groups(preferences: Json.Value, facts: Json.Value, tasks: Json.Value, relations: Json.Value)

  const EmptyGroups: Groups := Groups(Json.List([]), Json.List([]), Json.List([]), Json.List([]))

  /** `data.get(key, [])` */
  function GroupOf(fields: seq<(string, Json.Value)>, key: string): Json.Value {
    Json.Get(fields, key).GetOr(Json.List([]))
  }

  /** `_parse_extraction_response`: text that is not JSON gives four empty lists; JSON that
      is not an object fails on `.get` (the error escapes to the caller). */
  function ParseExtractionResponse(response: string, parseJson: string -> Option<Json.Value>): (r: Result<Groups, string>)
    ensures parseJson(Unfence(response)).None? ==> r == Ok(EmptyGroups)
    ensures r.Ok? && parseJson(Unfence(response)).Some? ==>
      parseJson(Unfence(response)).value.Dict? &&
      var f := parseJson(Unfence(response)).value.fields;
      r.value == Groups(GroupOf(f, "preferences"), GroupOf(f, "facts"), GroupOf(f, "tasks"), GroupOf(f, "relations"))
    ensures r.Err? <==> parseJson(Unfence(response)).Some? && !parseJson(Unfence(response)).value.Dict?
  {
    match parseJson(Unfence(response))
    case None => Ok(EmptyGroups)
    case Some(data) =>
      if data.Dict? then
        Ok(Groups(GroupOf(data.fields, "preferences"), GroupOf(data.fields, "facts"),
                  GroupOf(data.fields, "tasks"), GroupOf(data.fields, "relations")))
      else Err("AttributeError")
  }

  /** Every kind is present: a kind missing from the object is an empty list. */
  lemma ParseDefaults(response: string, parseJson: string -> Option<Json.Value>, key: string)
    requires parseJson(Unfence(response)).Some? && parseJson(Unfence(response)).value.Dict?
    requires key !in Json.Keys(parseJson(Unfence(response)).value.fields)
    ensures ParseExtractionResponse(response, parseJson).Ok?
    ensures GroupOf(parseJson(Unfence(response)).value.fields, key) == Json.List([])
  {
  }

  // ---------------------------------------------------------------------------
  // Metadata
  // ---------------------------------------------------------------------------

  /** One item with `user_id`, `extracted_at` and, for a non-empty session, `session_id`. */
  function Tag(item: seq<(string, Json.Value)>, userId: string, sessionId: Option<string>, timestamp: string): seq<(string, Json.Value)> {
    var withUser := Json.Put(Json.Put(item, "user_id", Json.Str(userId)), "extracted_at", Json.Str(timestamp));
    if sessionId.Some? && sessionId.value != [] then Json.Put(withUser, "session_id", Json.Str(sessionId.value)) else withUser
  }

  /** A tagged item carries the caller's ids and time and keeps every other key's value. */
  lemma TagFacts(item: seq<(string, Json.Value)>, userId: string, sessionId: Option<string>, timestamp: string, other: string)
    ensures var t := Tag(item, userId, sessionId, timestamp);
      Json.Get(t, "user_id") == Some(Json.Str(userId)) &&
      Json.Get(t, "extracted_at") == Some(Json.Str(timestamp)) &&
      (sessionId.Some? && sessionId.value != [] ==> Json.Get(t, "session_id") == Some(Json.Str(sessionId.value))) &&
      ((sessionId.None? || sessionId.value == []) ==> Json.Get(t, "session_id") == Json.Get(item, "session_id")) &&
      (other != "user_id" && other != "extracted_at" && other != "session_id" ==> Json.Get(t, other) == Json.Get(item, other))
  {
    var u := Json.Put(item, "user_id", Json.Str(userId));
    Json.GetPut(item, "user_id", Json.Str(userId), other);
    Json.GetPut(item, "user_id", Json.Str(userId), "session_id");
    Json.GetPut(u, "extracted_at", Json.Str(timestamp), other);
    Json.GetPut(u, "extracted_at", Json.Str(timestamp), "user_id");
    Json.GetPut(u, "extracted_at", Json.Str(timestamp), "session_id");
    var w := Json.Put(u, "extracted_at", Json.Str(timestamp));
    if sessionId.Some? && sessionId.value != [] {
      Json.GetPut(w, "session_id", Json.Str(sessionId.value), other);
      Json.GetPut(w, "session_id", Json.Str(sessionId.value), "user_id");
      Json.GetPut(w, "session_id", Json.Str(sessionId.value), "extracted_at");
    }
  }

  predicate AllDicts(items: seq<Json.Value>) {
    forall i :: 0 <= i < |items| ==> items[i].Dict?
  }

  /** The tagging loop over one kind: a list of objects is tagged item by item; an empty
      string or object gives the loop nothing to do; anything else makes it raise. */
  function TagGroup(v: Json.Value, userId: string, sessionId: Option<string>, timestamp: string): (r: Result<Json.Value, string>)
    ensures r.Ok? && v.List? ==> r.value.List? && |r.value.items| == |v.items|
  {
    match v
    case List(items) =>
      if AllDicts(items) then Ok(Json.List(TagAll(items, userId, sessionId, timestamp))) else Err("TypeError")
    case Str(s) => if s == [] then Ok(v) else Err("TypeError")
    case Dict(f) => if f == [] then Ok(v) else Err("TypeError")
    case _ => Err("TypeError")
  }

  function TagAll(items: seq<Json.Value>, userId: string, sessionId: Option<string>, timestamp: string): (r: seq<Json.Value>)
    requires AllDicts(items)
    ensures |r| == |items|
    ensures forall i :: 0 <= i < |items| ==> r[i] == Json.Dict(Tag(items[i].fields, userId, sessionId, timestamp))
  {
    seq(|items|, i requires 0 <= i < |items| => Json.Dict(Tag(items[i].fields, userId, sessionId, timestamp)))
  }

  /** The body of the loop of `_add_metadata`: the two stamps, then the session when there
      is one. */
  method TagItem(fields: seq<(string, Json.Value)>, userId: string, sessionId: Option<string>, timestamp: string)
    returns (item: seq<(string, Json.Value)>)
    ensures item == Tag(fields, userId, sessionId, timestamp)
  {
    item := Json.Put(fields, "user_id", Json.Str(userId));
    item := Json.Put(item, "extracted_at", Json.Str(timestamp));
    if sessionId.Some? && sessionId.value != [] {
      item := Json.Put(item, "session_id", Json.Str(sessionId.value));
    }
  }

  /** The loop of `_add_metadata` over one list of objects. */
  method TagItems(items: seq<Json.Value>, userId: string, sessionId: Option<string>, timestamp: string) returns (tagged: seq<Json.Value>)
    requires AllDicts(items)
    ensures tagged == TagAll(items, userId, sessionId, timestamp)
  {
    tagged := [];
    ghost var all := TagAll(items, userId, sessionId, timestamp);
    for i := 0 to |items|
      invariant tagged == all[..i]
    {
      var item := TagItem(items[i].fields, userId, sessionId, timestamp);
      Seqs.TakeSnoc(all, i);
      tagged := tagged + [Json.Dict(item)];
    }
    assert all[..|items|] == all;
  }

  /** `_add_metadata` over the four kinds, in order; the first kind that cannot be iterated
      raises. */
  function AddMetadata(g: Groups, userId: string, sessionId: Option<string>, timestamp: string): (r: Result<Groups, string>)
    ensures r.Err? ==> r.error == "TypeError"
    ensures r.Ok? && g.preferences.List? ==> r.value.preferences.List? && |r.value.preferences.items| == |g.preferences.items|
    ensures r.Ok? && g.facts.List? ==> r.value.facts.List? && |r.value.facts.items| == |g.facts.items|
    ensures r.Ok? && g.tasks.List? ==> r.value.tasks.List? && |r.value.tasks.items| == |g.tasks.items|
    ensures r.Ok? && g.relations.List? ==> r.value.relations.List? && |r.value.relations.items| == |g.relations.items|
  {
    var p := TagGroup(g.preferences, userId, sessionId, timestamp);
    var f := TagGroup(g.facts, userId, sessionId, timestamp);
    var t := TagGroup(g.tasks, userId, sessionId, timestamp);
    var r := TagGroup(g.relations, userId, sessionId, timestamp);
    if p.Err? then Err(p.error)
    else if f.Err? then Err(f.error)
    else if t.Err? then Err(t.error)
    else if r.Err? then Err(r.error)
    else Ok(Groups(p.value, f.value, t.value, r.value))
  }

  // ---------------------------------------------------------------------------
  // Extraction
  // ---------------------------------------------------------------------------

  /** `response["choices"][0]["message"]["content"]`, the reply text of a chat completion. */
  function ReplyText(response: Json.Value): Option<string> {
    var choices := Json.Field(response, "choices");
    if choices.None? || !choices.value.List? || choices.value.items == [] then None
    else
      var message := Json.Field(choices.value.items[0], "message");
      if message.None? then None
      else
        var content := Json.Field(message.value, "content");
        if content.Some? && content.value.Str? then Some(content.value.s) else None
  }

  /** After the reply text is known: parse, tag, and fall back to four empty lists on any
      error. */
  function ExtractFromText(text: string, parseJson: string -> Option<Json.Value>, userId: string, sessionId: Option<string>, timestamp: string): Groups {
    match ParseExtractionResponse(text, parseJson)
    case Err(_) => EmptyGroups
    case Ok(g) =>
      match AddMetadata(g, userId, sessionId, timestamp)
      case Err(_) => EmptyGroups
      case Ok(tagged) => tagged
  }

  /** `extract_from_messages` as written: the completion, a dict, is handed to
      `_parse_extraction_response`, whose `.strip()` raises on it, and the handler answers
      with four empty lists. `llm` is the completion call (None when it raises). */
  function ExtractFromMessagesAsWritten(ms: seq<ChatMessage>, llm: string -> Option<Json.Value>,
                                        parseJson: string -> Option<Json.Value>, userId: string, sessionId: Option<string>, timestamp: string): (r: Groups)
    ensures var response := llm(Py.Join("\n\n", Entries(ms)));
      r != EmptyGroups ==> response.Some? && response.value.Str?
  {
    var conversation := Py.Join("\n\n", Entries(ms));
    var response := llm(conversation);
    if response.Some? && response.value.Str? then ExtractFromText(response.value.s, parseJson, userId, sessionId, timestamp)
    else EmptyGroups
  }

  /** Whatever the conversation and whatever the model answers, the as-written extraction of
      a chat completion (a JSON object) finds nothing. */
  lemma ExtractionAlwaysEmpty(ms: seq<ChatMessage>, llm: string -> Option<Json.Value>,
                              parseJson: string -> Option<Json.Value>, userId: string, sessionId: Option<string>, timestamp: string)
    requires forall text :: llm(text).Some? ==> llm(text).value.Dict?
    ensures ExtractFromMessagesAsWritten(ms, llm, parseJson, userId, sessionId, timestamp) == EmptyGroups
  {
  }

  /** `extract_from_messages` reading the reply text out of the completion first. */
  function ExtractFromMessages(ms: seq<ChatMessage>, llm: string -> Option<Json.Value>,
                               parseJson: string -> Option<Json.Value>, userId: string, sessionId: Option<string>, timestamp: string): (r: Groups)
    ensures var response := llm(Py.Join("\n\n", Entries(ms)));
      r != EmptyGroups ==> response.Some? && ReplyText(response.value).Some?
    ensures var response := llm(Py.Join("\n\n", Entries(ms)));
      response.Some? && ReplyText(response.value).Some? ==>
        r == ExtractFromText(ReplyText(response.value).value, parseJson, userId, sessionId, timestamp)
  {
    var conversation := Py.Join("\n\n", Entries(ms));
    match llm(conversation)
    case None => EmptyGroups
    case Some(response) =>
      match ReplyText(response)
      case None => EmptyGroups
      case Some(s) => ExtractFromText(s, parseJson, userId, sessionId, timestamp)
  }

  /** With the reply text read out, a reply whose JSON object lists the kinds as arrays of
      objects yields those items, each tagged. */
  lemma ExtractionRecoversItems(ms: seq<ChatMessage>, llm: string -> Option<Json.Value>,
                                parseJson: string -> Option<Json.Value>, userId: string, sessionId: Option<string>, timestamp: string,
                                prefs: seq<Json.Value>)
    requires llm(Py.Join("\n\n", Entries(ms))).Some?
    requires ReplyText(llm(Py.Join("\n\n", Entries(ms))).value).Some?
    requires parseJson(Unfence(ReplyText(llm(Py.Join("\n\n", Entries(ms))).value).value)) ==
      Some(Json.Dict([("preferences", Json.List(prefs))]))
    requires AllDicts(prefs)
    ensures ExtractFromMessages(ms, llm, parseJson, userId, sessionId, timestamp) ==
      Groups(Json.List(TagAll(prefs, userId, sessionId, timestamp)), Json.List([]), Json.List([]), Json.List([]))
  {
    var text := ReplyText(llm(Py.Join("\n\n", Entries(ms))).value).value;
    var g := Groups(Json.List(prefs), Json.List([]), Json.List([]), Json.List([]));
    ParsePreferencesOnly(text, parseJson, prefs);
    TagPreferencesOnly(prefs, userId, sessionId, timestamp);
    assert ExtractFromText(text, parseJson, userId, sessionId, timestamp) ==
      Groups(Json.List(TagAll(prefs, userId, sessionId, timestamp)), Json.List([]), Json.List([]), Json.List([]));
  }

  /** An object with only a `preferences` entry parses to that entry and three empty lists. */
  lemma ParsePreferencesOnly(text: string, parseJson: string -> Option<Json.Value>, prefs: seq<Json.Value>)
    requires parseJson(Unfence(text)) == Some(Json.Dict([("preferences", Json.List(prefs))]))
    ensures ParseExtractionResponse(text, parseJson) == Ok(Groups(Json.List(prefs), Json.List([]), Json.List([]), Json.List([])))
  {
    var fields := [("preferences", Json.List(prefs))];
    assert Json.Keys(fields) == ["preferences"];
    assert GroupOf(fields, "facts") == Json.List([]);
    assert GroupOf(fields, "tasks") == Json.List([]);
    assert GroupOf(fields, "relations") == Json.List([]);
    assert GroupOf(fields, "preferences") == Json.List(prefs);
  }

  /** Tagging such groups tags the preferences and leaves the empty lists empty. */
  lemma TagPreferencesOnly(prefs: seq<Json.Value>, userId: string, sessionId: Option<string>, timestamp: string)
    requires AllDicts(prefs)
    ensures AddMetadata(Groups(Json.List(prefs), Json.List([]), Json.List([]), Json.List([])), userId, sessionId, timestamp) ==
      Ok(Groups(Json.List(TagAll(prefs, userId, sessionId, timestamp)), Json.List([]), Json.List([]), Json.List([])))
  {
    assert TagGroup(Json.List([]), userId, sessionId, timestamp) == Ok(Json.List([]));
    assert TagGroup(Json.List(prefs), userId, sessionId, timestamp) == Ok(Json.List(TagAll(prefs, userId, sessionId, timestamp)));
  }

  /** `extract_from_single_message` */
  function ExtractFromSingleMessage(userMessage: string, assistantResponse: string, llm: string -> Option<Json.Value>,
                                    parseJson: string -> Option<Json.Value>, userId: string, sessionId: Option<string>, timestamp: string): Groups {
    ExtractFromMessages(SingleExchange(userMessage, assistantResponse), llm, parseJson, userId, sessionId, timestamp)
  }
}
