/** The streaming tool-calling loop shared by `Agent.run_stream` (backend/agent/core/agent.py),
    its older copy in src/agent/core/agent.py and the async `AgentOrchestrator.run_stream`:
    assemble the messages, stream one LLM turn, merge the tool-call fragments by index, run every
    call through the registry, and repeat until a turn asks for no tool or the turns run out.
    The LLM stream, `json.loads` and the registry are parameters of the model. */
module AgentLoop {
  import opened Wrappers
  import Json
  import Seqs

  /** The content event emitted when every turn asked for tools. */
  const ExceededNotice := "\n\n[System: Max tool turns exceeded]"

  /** Which of the three copies of the loop runs; they differ in two details (see `Executed`
      and `InvalidJson`). */
  datatype Variant = BackendAgent | SrcAgent | Orchestrator

  /** One element of `delta["tool_calls"]`. A missing or empty `id`, `name` or `arguments` is "". */
  datatype ToolDelta = ToolDelta(index: Option<int>, id: string, name: string, arguments: string)

  /** One streamed chunk: `NoChoices` when `choices` is empty, otherwise the first choice's delta
      (its `content`, "" when missing or empty, and its `tool_calls`, [] when missing or empty). */
  datatype Chunk = NoChoices | Choice(content: string, toolCalls: seq<ToolDelta>)

  /** The `{id, name, arguments}` entry kept per index in `current_tool_calls`. */
  datatype CallState = CallState(id: string, name: string, arguments: string)

  /** `current_tool_calls`: the entries by index, and its keys in insertion order. */
  datatype Pending = Pending(calls: map<int, CallState>, order: seq<int>)

  /** A reconstructed `{"id", "type": "function", "function": {name, arguments}}` call. */
  datatype ToolCall = ToolCall(id: string, name: string, arguments: string)

  /** The conversation sent to the LLM. A tool message keeps the result value that the source
      serialises with `json.dumps`. */
  datatype Message =
    | System(text: string)
    | Extra(value: Json.Value)
    | User(input: Json.Value)
    | Assistant(content: Option<string>, toolCalls: seq<ToolCall>)
    | Tool(toolCallId: string, result: Json.Value)

  datatype Event =
    | Content(text: string)
    | ToolStart(toolCallId: string, name: string, args: Json.Value)
    | ToolResult(toolCallId: string, result: Json.Value)

  /** The loop's collaborators: the LLM (the chunks it streams for a conversation), `json.loads`
      (an error carries `str(e)`) and `registry.execute` (an exception carries its type name
      and message). */
  datatype Env = Env(
    variant: Variant,
    llm: seq<Message> -> seq<Chunk>,
    parse: string -> Result<Json.Value, string>,
    execute: (string, Json.Value) -> Result<Json.Value, (string, string)>)

  // ---------------------------------------------------------------------------------------
  // Initial messages

  /** The system message's content: the prompt, followed by a blank line and the extra prompt
      when one is given. */
  function SystemContent(systemPrompt: string, extraPrompt: string): (c: string)
    ensures extraPrompt == "" ==> c == systemPrompt
    ensures extraPrompt != "" ==> c == systemPrompt + "\n\n" + extraPrompt
  {
    if extraPrompt == "" then systemPrompt else systemPrompt + "\n\n" + extraPrompt
  }

  function Extras(extras: seq<Json.Value>): (ms: seq<Message>)
  {
    seq(|extras|, i requires 0 <= i < |extras| => Extra(extras[i]))
  }

  /** `[system] + extra_messages + [user]`. */
  function InitialMessages(systemPrompt: string, extraPrompt: string, extras: seq<Json.Value>,
                           userInput: Json.Value): (ms: seq<Message>)
  {
    [System(SystemContent(systemPrompt, extraPrompt))] + Extras(extras) + [User(userInput)]
  }

  /** The system message comes first, then each extra message in order, then the user message;
      without extras the conversation is exactly `[system, user]`. */
  lemma InitialMessagesShape(systemPrompt: string, extraPrompt: string, extras: seq<Json.Value>,
                             userInput: Json.Value)
    ensures var ms := InitialMessages(systemPrompt, extraPrompt, extras, userInput);
      |ms| == |extras| + 2 && ms[0] == System(SystemContent(systemPrompt, extraPrompt)) &&
      (forall i :: 0 <= i < |extras| ==> ms[i + 1] == Extra(extras[i])) &&
      ms[|ms| - 1] == User(userInput)
    ensures InitialMessages(systemPrompt, "", [], userInput) == [System(systemPrompt), User(userInput)]
  {
    assert Extras([]) == [];
  }

  // ---------------------------------------------------------------------------------------
  // Merging tool-call fragments

  /** `tc.get("index", 0)` */
  function IndexOf(tc: ToolDelta): int {
    tc.index.GetOr(0)
  }

  const NoPending := Pending(map[], [])

  /** The insertion order lists every key of the dict once. */
  predicate Consistent(p: Pending) {
    Seqs.Distinct(p.order) && (forall k :: k in p.order ==> k in p.calls) &&
    (forall k :: k in p.calls ==> k in p.order)
  }

  /** One fragment: create the entry for a new index, overwrite `id` and `name` with non-empty
      values, and append the argument text. */
  function Merge(p: Pending, tc: ToolDelta): Pending {
    var k := IndexOf(tc);
    var base := if k in p.calls then p.calls[k] else CallState("", "", "");
    var entry := CallState(if tc.id != "" then tc.id else base.id,
                           if tc.name != "" then tc.name else base.name,
                           base.arguments + tc.arguments);
    Pending(p.calls[k := entry], if k in p.calls then p.order else p.order + [k])
  }

  /** The fragments merged in arrival order. */
  function MergeAll(p: Pending, ds: seq<ToolDelta>): Pending {
    if ds == [] then p else Merge(MergeAll(p, ds[..|ds| - 1]), ds[|ds| - 1])
  }

  /** The dict's key order stays a duplicate-free list of its keys. */
  lemma {:induction false} MergeAllConsistent(p: Pending, ds: seq<ToolDelta>)
    requires Consistent(p)
    ensures Consistent(MergeAll(p, ds))
  {
    if ds != [] {
      MergeAllConsistent(p, ds[..|ds| - 1]);
      var q := MergeAll(p, ds[..|ds| - 1]);
      var k := IndexOf(ds[|ds| - 1]);
      if k !in q.calls {
        assert k !in q.order;
      }
    }
  }

  lemma {:induction false} MergeAllAppend(p: Pending, a: seq<ToolDelta>, b: seq<ToolDelta>)
    ensures MergeAll(p, a + b) == MergeAll(MergeAll(p, a), b)
  {
    if b == [] {
      assert a + b == a;
    } else {
      assert (a + b)[..|a + b| - 1] == a + b[..|b| - 1];
      assert (a + b)[|a + b| - 1] == b[|b| - 1];
      MergeAllAppend(p, a, b[..|b| - 1]);
    }
  }

  /** The indices mentioned by the fragments. */
  function Indices(ds: seq<ToolDelta>): set<int> {
    if ds == [] then {} else Indices(ds[..|ds| - 1]) + {IndexOf(ds[|ds| - 1])}
  }

  /** The argument texts of the fragments at index `k`, concatenated in arrival order. */
  function ArgumentsAt(ds: seq<ToolDelta>, k: int): string {
    if ds == [] then ""
    else ArgumentsAt(ds[..|ds| - 1], k) + (if IndexOf(ds[|ds| - 1]) == k then ds[|ds| - 1].arguments else "")
  }

  /** The last non-empty id sent for index `k`, or "". */
  function LatestId(ds: seq<ToolDelta>, k: int): string {
    if ds == [] then ""
    else if IndexOf(ds[|ds| - 1]) == k && ds[|ds| - 1].id != "" then ds[|ds| - 1].id
    else LatestId(ds[..|ds| - 1], k)
  }

  /** The last non-empty name sent for index `k`, or "". */
  function LatestName(ds: seq<ToolDelta>, k: int): string {
    if ds == [] then ""
    else if IndexOf(ds[|ds| - 1]) == k && ds[|ds| - 1].name != "" then ds[|ds| - 1].name
    else LatestName(ds[..|ds| - 1], k)
  }

  /** The entry an index should end up with, read off the fragments directly. */
  function Expected(ds: seq<ToolDelta>, k: int): CallState {
    CallState(LatestId(ds, k), LatestName(ds, k), ArgumentsAt(ds, k))
  }

  lemma {:induction false} Unmentioned(ds: seq<ToolDelta>, k: int)
    requires k !in Indices(ds)
    ensures Expected(ds, k) == CallState("", "", "")
  {
    if ds != [] {
      Unmentioned(ds[..|ds| - 1], k);
    }
  }

  /** Merging the whole stream keeps one entry per mentioned index, whose id and name are the
      latest non-empty ones and whose arguments are all that index's fragments in order. */
  lemma {:induction false} MergeAllFacts(ds: seq<ToolDelta>)
    ensures MergeAll(NoPending, ds).calls.Keys == Indices(ds)
    ensures forall k :: k in MergeAll(NoPending, ds).calls ==> MergeAll(NoPending, ds).calls[k] == Expected(ds, k)
  {
    if ds != [] {
      var pre := ds[..|ds| - 1];
      var d := ds[|ds| - 1];
      MergeAllFacts(pre);
      if IndexOf(d) !in MergeAll(NoPending, pre).calls {
        Unmentioned(pre, IndexOf(d));
      }
    }
  }

  /** `current_tool_calls` is empty exactly when no fragment arrived. */
  lemma NoFragmentsNoCalls(ds: seq<ToolDelta>)
    ensures MergeAll(NoPending, ds).calls == map[] <==> ds == []
  {
    MergeAllFacts(ds);
    if ds != [] {
      assert IndexOf(ds[|ds| - 1]) in Indices(ds);
    }
  }

  // ---------------------------------------------------------------------------------------
  // Reading one streamed turn

  function ChunkText(c: Chunk): string {
    if c.Choice? then c.content else ""
  }

  function ChunkDeltas(c: Chunk): seq<ToolDelta> {
    if c.Choice? then c.toolCalls else []
  }

  /** `current_content` after the stream. */
  function StreamText(cs: seq<Chunk>): string {
    if cs == [] then "" else StreamText(cs[..|cs| - 1]) + ChunkText(cs[|cs| - 1])
  }

  /** Every tool-call fragment of the stream, in arrival order. */
  function StreamDeltas(cs: seq<Chunk>): seq<ToolDelta> {
    if cs == [] then [] else StreamDeltas(cs[..|cs| - 1]) + ChunkDeltas(cs[|cs| - 1])
  }

  /** One content event per chunk with non-empty content. */
  function ContentEvents(cs: seq<Chunk>): seq<Event> {
    if cs == [] then []
    else
      var last := ChunkText(cs[|cs| - 1]);
      ContentEvents(cs[..|cs| - 1]) + (if last != "" then [Content(last)] else [])
  }

  // ---------------------------------------------------------------------------------------
  // Rebuilding the calls in index order

  predicate Increasing(xs: seq<int>) {
    forall i, j :: 0 <= i < j < |xs| ==> xs[i] < xs[j]
  }

  function InsertInt(x: int, xs: seq<int>): seq<int> {
    if xs == [] || x <= xs[0] then [x] + xs else [xs[0]] + InsertInt(x, xs[1..])
  }

  /** `sorted(xs)` for integers. */
  function SortInts(xs: seq<int>): seq<int> {
    if xs == [] then [] else InsertInt(xs[0], SortInts(xs[1..]))
  }

  lemma {:induction false} InsertIntElements(x: int, xs: seq<int>)
    ensures multiset(InsertInt(x, xs)) == multiset(xs) + multiset{x}
  {
    if xs != [] && x > xs[0] {
      assert xs == [xs[0]] + xs[1..];
      InsertIntElements(x, xs[1..]);
    }
  }

  /** Sorting keeps the elements. */
  lemma {:induction false} SortIntsElements(xs: seq<int>)
    ensures multiset(SortInts(xs)) == multiset(xs)
  {
    if xs != [] {
      assert xs == [xs[0]] + xs[1..];
      SortIntsElements(xs[1..]);
      InsertIntElements(xs[0], SortInts(xs[1..]));
    }
  }

  lemma {:induction false} InsertIntIncreasing(x: int, xs: seq<int>)
    requires Increasing(xs) && x !in xs
    ensures Increasing(InsertInt(x, xs))
  {
    if xs != [] && x > xs[0] {
      var tail := xs[1..];
      assert Increasing(tail);
      assert x !in tail;
      InsertIntIncreasing(x, tail);
      InsertIntElements(x, tail);
      var t := InsertInt(x, tail);
      var r := [xs[0]] + t;
      forall i, j | 0 <= i < j < |r| ensures r[i] < r[j] {
        if i == 0 {
          assert r[j] in multiset(t);
          assert r[j] == x || r[j] in multiset(tail);
          if r[j] != x {
            var k :| 0 <= k < |tail| && tail[k] == r[j];
            assert xs[0] < xs[k + 1];
          }
        }
      }
    }
  }

  lemma {:induction false} SortIntsIncreasing(xs: seq<int>)
    requires Seqs.Distinct(xs)
    ensures Increasing(SortInts(xs))
  {
    if xs != [] {
      var tail := xs[1..];
      assert Seqs.Distinct(tail);
      SortIntsIncreasing(tail);
      SortIntsElements(tail);
      assert xs[0] !in multiset(SortInts(tail));
      InsertIntIncreasing(xs[0], SortInts(tail));
    }
  }

  /** `sorted(current_tool_calls.keys())`: every index once, in ascending order. */
  function SortedIndices(p: Pending): (ks: seq<int>)
    requires Consistent(p)
    ensures Increasing(ks)
    ensures forall k :: k in ks <==> k in p.calls
  {
    SortIntsIncreasing(p.order);
    SortIntsElements(p.order);
    var ks := SortInts(p.order);
    assert forall k :: k in ks <==> k in multiset(p.order);
    ks
  }

  function AsCall(s: CallState): ToolCall {
    ToolCall(s.id, s.name, s.arguments)
  }

  /** The entries at those of `ks` that are keys, in that order. */
  function CallsAt(p: Pending, ks: seq<int>): seq<ToolCall> {
    if ks == [] then []
    else if ks[|ks| - 1] in p.calls then CallsAt(p, ks[..|ks| - 1]) + [AsCall(p.calls[ks[|ks| - 1]])]
    else CallsAt(p, ks[..|ks| - 1])
  }

  /** The reconstructed `tool_calls` list: `[entry for index in sorted(keys)]`. */
  function Rebuild(p: Pending): seq<ToolCall> {
    CallsAt(p, SortInts(p.order))
  }

  lemma {:induction false} CallsAtFacts(p: Pending, ks: seq<int>)
    requires forall i :: 0 <= i < |ks| ==> ks[i] in p.calls
    ensures |CallsAt(p, ks)| == |ks|
    ensures forall i :: 0 <= i < |ks| ==> CallsAt(p, ks)[i] == AsCall(p.calls[ks[i]])
  {
    if ks != [] {
      var pre := ks[..|ks| - 1];
      assert forall i :: 0 <= i < |pre| ==> pre[i] == ks[i];
      CallsAtFacts(p, pre);
    }
  }

  /** The reconstructed calls are the merged entries, one per index, by ascending index. */
  lemma RebuildFacts(p: Pending)
    requires Consistent(p)
    ensures |Rebuild(p)| == |SortedIndices(p)|
    ensures forall i :: 0 <= i < |Rebuild(p)| ==> Rebuild(p)[i] == AsCall(p.calls[SortedIndices(p)[i]])
    ensures Rebuild(p) == [] <==> p.calls == map[]
  {
    var ks := SortedIndices(p);
    CallsAtFacts(p, ks);
    if p.calls != map[] {
      var k :| k in p.calls;
      assert k in ks;
    }
  }

  // ---------------------------------------------------------------------------------------
  // Running the calls

  /** The result for arguments `json.loads` rejects. Only the backend agent adds the parser's
      message. */
  function InvalidJson(v: Variant, e: string): Json.Value {
    Json.Dict([("ok", Json.Bool(false)),
               ("error", Json.Str(if v == BackendAgent then "Invalid JSON arguments: " + e
                                  else "Invalid JSON arguments"))])
  }

  /** `{"ok": False, "error": str(exc), "error_type": type(exc).__name__}` */
  function Failure(typeName: string, message: string): Json.Value {
    Json.Dict([("ok", Json.Bool(false)), ("error", Json.Str(message)), ("error_type", Json.Str(typeName))])
  }

  /** `type(v).__name__` */
  function TypeName(v: Json.Value): string {
    match v
    case Null => "NoneType"
    case Bool(_) => "bool"
    case Int(_) => "int"
    case Str(_) => "str"
    case List(_) => "list"
    case Dict(_) => "dict"
  }

  /** The arguments: `{}` for empty text, otherwise what `json.loads` makes of it. */
  function ArgsOf(env: Env, call: ToolCall): Result<Json.Value, string> {
    if call.arguments == "" then Ok(Json.Dict([])) else env.parse(call.arguments)
  }

  /** The registry's answer. The backend agent and the orchestrator call `result.get(...)` for a
      log line inside the same `try`, so there a result that is not a dict turns into an
      `AttributeError` failure. */
  function Executed(env: Env, call: ToolCall, args: Json.Value): Json.Value {
    match env.execute(call.name, args)
    case Err(e) => Failure(e.0, e.1)
    case Ok(v) =>
      if env.variant != SrcAgent && !v.Dict? then
        Failure("AttributeError", "'" + TypeName(v) + "' object has no attribute 'get'")
      else v
  }

  function CallResult(env: Env, call: ToolCall): Json.Value {
    match ArgsOf(env, call)
    case Err(e) => InvalidJson(env.variant, e)
    case Ok(args) => Executed(env, call, args)
  }

  /** The events of one call: `tool_start` only when the arguments parse, then `tool_result`. */
  function CallEvents(env: Env, call: ToolCall): seq<Event> {
    match ArgsOf(env, call)
    case Err(_) => [ToolResult(call.id, CallResult(env, call))]
    case Ok(args) => [ToolStart(call.id, call.name, args), ToolResult(call.id, CallResult(env, call))]
  }

  function ToolEvents(env: Env, calls: seq<ToolCall>): seq<Event> {
    if calls == [] then [] else ToolEvents(env, calls[..|calls| - 1]) + CallEvents(env, calls[|calls| - 1])
  }

  function ToolMessages(env: Env, calls: seq<ToolCall>): seq<Message> {
    if calls == [] then []
    else ToolMessages(env, calls[..|calls| - 1]) + [Tool(calls[|calls| - 1].id, CallResult(env, calls[|calls| - 1]))]
  }

  // ---------------------------------------------------------------------------------------
  // Turns

  datatype TurnOutcome = TurnOutcome(events: seq<Event>, messages: seq<Message>, finished: bool)

  /** One LLM turn on the conversation `msgs`. */
  function Turn(env: Env, msgs: seq<Message>): TurnOutcome {
    var chunks := env.llm(msgs);
    var text := StreamText(chunks);
    var p := MergeAll(NoPending, StreamDeltas(chunks));
    var content := if text == "" then None else Some(text);
    if p.calls == map[] then
      TurnOutcome(ContentEvents(chunks), msgs + [Assistant(content, [])], true)
    else
      var calls := Rebuild(p);
      TurnOutcome(ContentEvents(chunks) + ToolEvents(env, calls),
                  msgs + [Assistant(content, calls)] + ToolMessages(env, calls), false)
  }

  datatype RunOutcome = RunOutcome(events: seq<Event>, messages: seq<Message>, llmCalls: nat, finished: bool)

  /** The loop over at most `n` more turns, for a given turn. */
  function Turns(step: seq<Message> -> TurnOutcome, msgs: seq<Message>, n: nat): RunOutcome
    decreases n
  {
    if n == 0 then RunOutcome([Content(ExceededNotice)], msgs, 0, false)
    else
      var t := step(msgs);
      if t.finished then RunOutcome(t.events, t.messages, 1, true)
      else
        var r := Turns(step, t.messages, n - 1);
        RunOutcome(t.events + r.events, r.messages, r.llmCalls + 1, r.finished)
  }

  /** The agent's turn. */
  function Step(env: Env): seq<Message> -> TurnOutcome {
    msgs => Turn(env, msgs)
  }

  /** `len(range(n))` */
  function TurnCount(n: int): (c: nat)
    ensures c == if n > 0 then n else 0
  {
    if n > 0 then n else 0
  }

  /** The whole `run_stream`. */
  function RunStream(env: Env, systemPrompt: string, extraPrompt: string, extras: seq<Json.Value>,
                     userInput: Json.Value, maxTurns: int): RunOutcome {
    Turns(Step(env), InitialMessages(systemPrompt, extraPrompt, extras, userInput), TurnCount(maxTurns))
  }

  /** The concatenated text of the content events. */
  function ContentText(evs: seq<Event>): string {
    if evs == [] then ""
    else ContentText(evs[..|evs| - 1]) + (if evs[|evs| - 1].Content? then evs[|evs| - 1].text else "")
  }

  /** The events of the kind `keep` selects, in order. */
  function Only(evs: seq<Event>, keep: Event -> bool): seq<Event> {
    if evs == [] then [] else Only(evs[..|evs| - 1], keep) + (if keep(evs[|evs| - 1]) then [evs[|evs| - 1]] else [])
  }

  predicate IsStart(e: Event) {
    e.ToolStart?
  }

  predicate IsResult(e: Event) {
    e.ToolResult?
  }

  lemma {:induction false} ContentTextAppend(a: seq<Event>, b: seq<Event>)
    ensures ContentText(a + b) == ContentText(a) + ContentText(b)
  {
    if b == [] {
      assert a + b == a;
    } else {
      assert (a + b)[..|a + b| - 1] == a + b[..|b| - 1];
      assert (a + b)[|a + b| - 1] == b[|b| - 1];
      ContentTextAppend(a, b[..|b| - 1]);
    }
  }

  lemma {:induction false} OnlyAppend(a: seq<Event>, b: seq<Event>, keep: Event -> bool)
    ensures Only(a + b, keep) == Only(a, keep) + Only(b, keep)
  {
    if b == [] {
      assert a + b == a;
    } else {
      assert (a + b)[..|a + b| - 1] == a + b[..|b| - 1];
      assert (a + b)[|a + b| - 1] == b[|b| - 1];
      OnlyAppend(a, b[..|b| - 1], keep);
    }
  }

  /** One call emits no content, exactly one `tool_result` (carrying the call's id and result),
      and a `tool_start` exactly when its arguments parse. */
  lemma CallEventsFacts(env: Env, call: ToolCall)
    ensures Only(CallEvents(env, call), IsResult) == [ToolResult(call.id, CallResult(env, call))]
    ensures Only(CallEvents(env, call), IsStart) ==
      (if ArgsOf(env, call).Ok? then [ToolStart(call.id, call.name, ArgsOf(env, call).value)] else [])
    ensures ContentText(CallEvents(env, call)) == ""
  {
    var evs := CallEvents(env, call);
    if ArgsOf(env, call).Ok? {
      var first := [evs[0]];
      assert evs[..1] == first && first[..0] == [];
      assert Only(first, IsResult) == [];
      assert Only(first, IsStart) == first;
      assert ContentText(first) == "";
    } else {
      assert evs[..0] == [];
    }
  }

  /** Arguments `json.loads` rejects give an `ok: false` result and no `tool_start`; an exception
      from the registry gives an `ok: false` result naming the exception's type; otherwise the
      registry's dict comes back unchanged. */
  lemma CallFailures(env: Env, call: ToolCall)
    ensures ArgsOf(env, call).Err? ==>
      Json.IsFailure(CallResult(env, call)) && CallEvents(env, call) == [ToolResult(call.id, CallResult(env, call))]
    ensures ArgsOf(env, call).Ok? && env.execute(call.name, ArgsOf(env, call).value).Err? ==>
      Json.IsFailure(CallResult(env, call)) &&
      Json.Field(CallResult(env, call), "error_type") ==
        Some(Json.Str(env.execute(call.name, ArgsOf(env, call).value).error.0))
    ensures ArgsOf(env, call).Ok? ==>
      var answer := env.execute(call.name, ArgsOf(env, call).value);
      (answer.Ok? && (env.variant == SrcAgent || answer.value.Dict?) ==> CallResult(env, call) == answer.value)
  {
    if ArgsOf(env, call).Ok? && env.execute(call.name, ArgsOf(env, call).value).Err? {
      var e := env.execute(call.name, ArgsOf(env, call).value).error;
      var f := Failure(e.0, e.1).fields;
      assert f[1..][1..] == [("error_type", Json.Str(e.0))];
      assert Json.Get(f[1..], "error_type") == Some(Json.Str(e.0));
    }
  }

  /** One `tool_result` per call, in call order. */
  function ResultsFor(env: Env, calls: seq<ToolCall>): seq<Event> {
    if calls == [] then []
    else ResultsFor(env, calls[..|calls| - 1]) + [ToolResult(calls[|calls| - 1].id, CallResult(env, calls[|calls| - 1]))]
  }

  /** The i-th result and the i-th tool message both belong to the i-th call. */
  lemma {:induction false} ResultsMatchMessages(env: Env, calls: seq<ToolCall>)
    ensures |ResultsFor(env, calls)| == |calls| == |ToolMessages(env, calls)|
    ensures forall i :: 0 <= i < |calls| ==>
      ResultsFor(env, calls)[i] == ToolResult(calls[i].id, CallResult(env, calls[i])) &&
      ToolMessages(env, calls)[i] == Tool(calls[i].id, CallResult(env, calls[i]))
  {
    if calls != [] {
      var pre := calls[..|calls| - 1];
      assert forall i :: 0 <= i < |pre| ==> pre[i] == calls[i];
      ResultsMatchMessages(env, pre);
    }
  }

  /** The calls of a turn produce their results in call order, one each, and no content. */
  lemma {:induction false} ToolEventsFacts(env: Env, calls: seq<ToolCall>)
    ensures Only(ToolEvents(env, calls), IsResult) == ResultsFor(env, calls)
    ensures ContentText(ToolEvents(env, calls)) == ""
  {
    if calls != [] {
      var pre := calls[..|calls| - 1];
      var c := calls[|calls| - 1];
      ToolEventsFacts(env, pre);
      CallEventsFacts(env, c);
      OnlyAppend(ToolEvents(env, pre), CallEvents(env, c), IsResult);
      ContentTextAppend(ToolEvents(env, pre), CallEvents(env, c));
    }
  }

  lemma {:induction false} ContentEventsText(cs: seq<Chunk>)
    ensures ContentText(ContentEvents(cs)) == StreamText(cs)
    ensures Only(ContentEvents(cs), IsResult) == []
  {
    if cs != [] {
      var pre := cs[..|cs| - 1];
      var last := ChunkText(cs[|cs| - 1]);
      var tail: seq<Event> := if last != "" then [Content(last)] else [];
      ContentEventsText(pre);
      ContentTextAppend(ContentEvents(pre), tail);
      OnlyAppend(ContentEvents(pre), tail, IsResult);
      if last != "" {
        assert tail[..0] == [];
      }
    }
  }

  /** A turn's content events spell its streamed text, and the turn ends the run exactly when
      the stream carried no tool-call fragment. */
  lemma TurnText(env: Env, msgs: seq<Message>)
    ensures ContentText(Turn(env, msgs).events) == StreamText(env.llm(msgs))
    ensures Turn(env, msgs).finished <==> StreamDeltas(env.llm(msgs)) == []
  {
    var chunks := env.llm(msgs);
    var p := MergeAll(NoPending, StreamDeltas(chunks));
    NoFragmentsNoCalls(StreamDeltas(chunks));
    ContentEventsText(chunks);
    if p.calls != map[] {
      var calls := Rebuild(p);
      ToolEventsFacts(env, calls);
      ContentTextAppend(ContentEvents(chunks), ToolEvents(env, calls));
    }
  }

  /** A turn without tool-call fragments appends one assistant message without calls and runs
      no tool. */
  lemma TurnFinishes(env: Env, msgs: seq<Message>)
    requires Turn(env, msgs).finished
    ensures var text := StreamText(env.llm(msgs));
      Turn(env, msgs).messages == msgs + [Assistant(if text == "" then None else Some(text), [])]
    ensures Only(Turn(env, msgs).events, IsResult) == []
  {
    ContentEventsText(env.llm(msgs));
  }

  /** Any other turn appends the assistant message with its calls in index order, then one tool
      message per call, and emits one `tool_result` per call in the same order. */
  lemma TurnRunsCalls(env: Env, msgs: seq<Message>)
    requires !Turn(env, msgs).finished
    ensures var p := MergeAll(NoPending, StreamDeltas(env.llm(msgs)));
      var text := StreamText(env.llm(msgs));
      Consistent(p) && Rebuild(p) != [] &&
      Turn(env, msgs).messages ==
        msgs + [Assistant(if text == "" then None else Some(text), Rebuild(p))] + ToolMessages(env, Rebuild(p))
    ensures Only(Turn(env, msgs).events, IsResult) ==
      ResultsFor(env, Rebuild(MergeAll(NoPending, StreamDeltas(env.llm(msgs)))))
  {
    var chunks := env.llm(msgs);
    var p := MergeAll(NoPending, StreamDeltas(chunks));
    ContentEventsText(chunks);
    var calls := Rebuild(p);
    assert Consistent(NoPending);
    MergeAllConsistent(NoPending, StreamDeltas(chunks));
    RebuildFacts(p);
    ToolEventsFacts(env, calls);
    OnlyAppend(ContentEvents(chunks), ToolEvents(env, calls), IsResult);
  }

  /** Every turn extends the conversation; a finishing turn leaves an assistant message without
      tool calls last. */
  lemma TurnGrows(env: Env, msgs: seq<Message>)
    ensures |msgs| < |Turn(env, msgs).messages| && Turn(env, msgs).messages[..|msgs|] == msgs
    ensures Turn(env, msgs).finished ==>
      var ms := Turn(env, msgs).messages;
      ms[|ms| - 1].Assistant? && ms[|ms| - 1].toolCalls == []
  {
  }

  /** Every turn extends the conversation, and a finishing turn leaves an assistant message
      without tool calls last. */
  ghost predicate Extends(step: seq<Message> -> TurnOutcome) {
    forall msgs: seq<Message> {:trigger step(msgs)} ::
      |msgs| < |step(msgs).messages| && step(msgs).messages[..|msgs|] == msgs &&
      (step(msgs).finished ==>
        (step(msgs).messages[|step(msgs).messages| - 1].Assistant? &&
         step(msgs).messages[|step(msgs).messages| - 1].toolCalls == []))
  }

  lemma StepExtends(env: Env)
    ensures Extends(Step(env))
  {
    forall msgs: seq<Message>
      ensures |msgs| < |Step(env)(msgs).messages| && Step(env)(msgs).messages[..|msgs|] == msgs &&
        (Step(env)(msgs).finished ==>
          (Step(env)(msgs).messages[|Step(env)(msgs).messages| - 1].Assistant? &&
           Step(env)(msgs).messages[|Step(env)(msgs).messages| - 1].toolCalls == []))
    {
      StepGrows(env, msgs);
    }
  }

  lemma StepGrows(env: Env, msgs: seq<Message>)
    ensures var o := Step(env)(msgs);
      |msgs| < |o.messages| && o.messages[..|msgs|] == msgs &&
      (o.finished ==> (o.messages[|o.messages| - 1].Assistant? && o.messages[|o.messages| - 1].toolCalls == []))
  {
    assert Step(env)(msgs) == Turn(env, msgs);
    TurnGrows(env, msgs);
  }

  /** No more than `n` LLM calls are made, and a run that did not finish made exactly `n`. */
  lemma {:induction false} TurnsBound(step: seq<Message> -> TurnOutcome, msgs: seq<Message>, n: nat)
    ensures Turns(step, msgs, n).llmCalls <= n
    ensures !Turns(step, msgs, n).finished ==> Turns(step, msgs, n).llmCalls == n
    ensures Turns(step, msgs, n).finished ==> 1 <= Turns(step, msgs, n).llmCalls
    decreases n
  {
    if n > 0 && !step(msgs).finished {
      TurnsBound(step, step(msgs).messages, n - 1);
    }
  }

  /** The conversation only grows, and a finished run ends with an assistant message without
      tool calls. */
  lemma {:induction false} TurnsGrow(step: seq<Message> -> TurnOutcome, msgs: seq<Message>, n: nat)
    requires Extends(step)
    ensures |msgs| <= |Turns(step, msgs, n).messages| && Turns(step, msgs, n).messages[..|msgs|] == msgs
    ensures var ms := Turns(step, msgs, n).messages;
      Turns(step, msgs, n).finished ==> |msgs| < |ms| && ms[|ms| - 1].Assistant? && ms[|ms| - 1].toolCalls == []
    decreases n
  {
    if n > 0 {
      var t := step(msgs);
      if !t.finished {
        TurnsGrow(step, t.messages, n - 1);
        var r := Turns(step, t.messages, n - 1);
        assert r.messages[..|msgs|] == r.messages[..|t.messages|][..|msgs|];
      }
    }
  }

  /** A run that never reached a turn without tool calls ends with the exceeded notice, so its
      text ends with that notice. */
  lemma {:induction false} TurnsExhausted(step: seq<Message> -> TurnOutcome, msgs: seq<Message>, n: nat)
    requires !Turns(step, msgs, n).finished
    ensures var evs := Turns(step, msgs, n).events;
      evs != [] && evs[|evs| - 1] == Content(ExceededNotice) &&
      ContentText(evs) == ContentText(evs[..|evs| - 1]) + ExceededNotice
    decreases n
  {
    if n > 0 {
      var t := step(msgs);
      TurnsExhausted(step, t.messages, n - 1);
      var r := Turns(step, t.messages, n - 1);
      var evs := t.events + r.events;
      assert evs[|evs| - 1] == r.events[|r.events| - 1];
      var front := r.events[..|r.events| - 1];
      assert evs[..|evs| - 1] == t.events + front;
      ContentTextAppend(t.events, r.events);
      ContentTextAppend(t.events, front);
      Seqs.AppendAssoc(ContentText(t.events), ContentText(front), ExceededNotice);
    } else {
      assert [Content(ExceededNotice)][..0] == [];
    }
  }

  /** `run`'s text is the streamed text of every turn in order, followed by the exceeded notice
      when the turns ran out. */
  lemma {:induction false} RunText(env: Env, msgs: seq<Message>, n: nat)
    ensures ContentText(Turns(Step(env), msgs, n).events) ==
      if n == 0 then ExceededNotice
      else if Turn(env, msgs).finished then StreamText(env.llm(msgs))
      else StreamText(env.llm(msgs)) + ContentText(Turns(Step(env), Turn(env, msgs).messages, n - 1).events)
  {
    if n == 0 {
      assert [Content(ExceededNotice)][..0] == [];
    } else {
      TurnText(env, msgs);
      var t := Turn(env, msgs);
      if !t.finished {
        ContentTextAppend(t.events, Turns(Step(env), t.messages, n - 1).events);
      }
    }
  }

  /** What `run_stream` promises as a whole: at most the allowed number of LLM calls, a
      conversation that starts with the initial messages, and the exceeded notice exactly at the
      end of a run whose every turn asked for tools. */
  predicate WellShaped(r: RunOutcome, init: seq<Message>, n: nat) {
    r.llmCalls <= n &&
    |init| <= |r.messages| && r.messages[..|init|] == init &&
    (!r.finished ==> r.events != [] && r.events[|r.events| - 1] == Content(ExceededNotice)) &&
    (r.finished ==>
      (|init| < |r.messages| && r.messages[|r.messages| - 1].Assistant? &&
       r.messages[|r.messages| - 1].toolCalls == []))
  }

  lemma RunStreamFacts(env: Env, systemPrompt: string, extraPrompt: string, extras: seq<Json.Value>,
                       userInput: Json.Value, maxTurns: int)
    ensures WellShaped(RunStream(env, systemPrompt, extraPrompt, extras, userInput, maxTurns),
                       InitialMessages(systemPrompt, extraPrompt, extras, userInput), TurnCount(maxTurns))
  {
    StepExtends(env);
    TurnsFacts(Step(env), InitialMessages(systemPrompt, extraPrompt, extras, userInput), TurnCount(maxTurns));
  }

  /** The same for any step that extends the conversation. */
  lemma TurnsFacts(step: seq<Message> -> TurnOutcome, init: seq<Message>, n: nat)
    requires Extends(step)
    ensures WellShaped(Turns(step, init, n), init, n)
  {
    TurnsBound(step, init, n);
    TurnsGrow(step, init, n);
    if !Turns(step, init, n).finished {
      TurnsExhausted(step, init, n);
    }
  }

  // ---------------------------------------------------------------------------------------
  // The loop as the source runs it

  /** The `for tc in tool_calls_delta` loop, updating the entries in place. */
  method MergeDeltas(p: Pending, tcs: seq<ToolDelta>) returns (q: Pending)
    ensures q == MergeAll(p, tcs)
  {
    q := p;
    for j := 0 to |tcs|
      invariant q == MergeAll(p, tcs[..j])
    {
      var tc := tcs[j];
      var index := IndexOf(tc);
      var calls := q.calls;
      var order := q.order;
      if index !in calls {
        calls := calls[index := CallState("", "", "")];
        order := order + [index];
      }
      var entry := calls[index];
      if tc.id != "" {
        entry := entry.(id := tc.id);
      }
      if tc.name != "" {
        entry := entry.(name := tc.name);
      }
      if tc.arguments != "" {
        entry := entry.(arguments := entry.arguments + tc.arguments);
      }
      assert calls[index := entry] == q.calls[index := entry];
      assert entry.arguments == (if index in q.calls then q.calls[index] else CallState("", "", "")).arguments + tc.arguments;
      ghost var before := q;
      q := Pending(calls[index := entry], order);
      assert q == Merge(before, tc);
      assert tcs[..j + 1][..j] == tcs[..j] && tcs[..j + 1][j] == tc;
    }
    assert tcs[..|tcs|] == tcs;
  }

  /** The `for chunk in stream` loop: accumulate the content, emit one content event per
      non-empty piece, and merge the tool-call fragments. */
  method ReadStream(chunks: seq<Chunk>) returns (text: string, events: seq<Event>, p: Pending)
    ensures text == StreamText(chunks)
    ensures events == ContentEvents(chunks)
    ensures p == MergeAll(NoPending, StreamDeltas(chunks))
  {
    text, events, p := "", [], NoPending;
    for i := 0 to |chunks|
      invariant text == StreamText(chunks[..i])
      invariant events == ContentEvents(chunks[..i])
      invariant p == MergeAll(NoPending, StreamDeltas(chunks[..i]))
    {
      var chunk := chunks[i];
      assert chunks[..i + 1][..i] == chunks[..i] && chunks[..i + 1][i] == chunk;
      assert StreamDeltas(chunks[..i + 1]) == StreamDeltas(chunks[..i]) + ChunkDeltas(chunk);
      assert ChunkDeltas(chunk) == [] ==> StreamDeltas(chunks[..i + 1]) == StreamDeltas(chunks[..i]);
      if chunk.Choice? {
        if chunk.content != "" {
          text := text + chunk.content;
          events := events + [Content(chunk.content)];
        }
        if chunk.toolCalls != [] {
          MergeAllAppend(NoPending, StreamDeltas(chunks[..i]), chunk.toolCalls);
          p := MergeDeltas(p, chunk.toolCalls);
        }
      }
    }
    assert chunks[..|chunks|] == chunks;
  }

  /** The `for index in sorted(current_tool_calls.keys())` loop. */
  method RebuildCalls(p: Pending) returns (calls: seq<ToolCall>)
    requires Consistent(p)
    ensures calls == Rebuild(p)
  {
    var indices := SortedIndices(p);
    calls := [];
    for i := 0 to |indices|
      invariant calls == CallsAt(p, indices[..i])
    {
      var index := indices[i];
      assert indices[..i + 1][..i] == indices[..i];
      calls := calls + [AsCall(p.calls[index])];
    }
    assert indices[..|indices|] == indices;
  }

  /** The body of the `for call in tool_calls` loop for one call: parse, announce, execute
      and report. */
  method ExecuteCall(env: Env, call: ToolCall) returns (events: seq<Event>, result: Json.Value)
    ensures events == CallEvents(env, call)
    ensures result == CallResult(env, call)
  {
    var parsed := if call.arguments == "" then Ok(Json.Dict([])) else env.parse(call.arguments);
    events := [];
    if parsed.Err? {
      result := InvalidJson(env.variant, parsed.error);
    } else {
      events := [ToolStart(call.id, call.name, parsed.value)];
      var answer := env.execute(call.name, parsed.value);
      if answer.Err? {
        result := Failure(answer.error.0, answer.error.1);
      } else if env.variant != SrcAgent && !answer.value.Dict? {
        result := Failure("AttributeError", "'" + TypeName(answer.value) + "' object has no attribute 'get'");
      } else {
        result := answer.value;
      }
    }
    events := events + [ToolResult(call.id, result)];
  }

  /** The `for call in tool_calls` loop: every call's events, and one tool message per call. */
  method ExecuteCalls(env: Env, calls: seq<ToolCall>) returns (events: seq<Event>, msgs: seq<Message>)
    ensures events == ToolEvents(env, calls)
    ensures msgs == ToolMessages(env, calls)
  {
    events, msgs := [], [];
    for i := 0 to |calls|
      invariant events == ToolEvents(env, calls[..i])
      invariant msgs == ToolMessages(env, calls[..i])
    {
      var call := calls[i];
      assert calls[..i + 1][..i] == calls[..i];
      var callEvents, result := ExecuteCall(env, call);
      events := events + callEvents;
      msgs := msgs + [Tool(call.id, result)];
    }
    assert calls[..|calls|] == calls;
  }

  /** One iteration of the turn loop. */
  method RunTurn(env: Env, msgs: seq<Message>) returns (outcome: TurnOutcome)
    ensures outcome == Turn(env, msgs)
  {
    var chunks := env.llm(msgs);
    var text, events, pending := ReadStream(chunks);
    var content := if text == "" then None else Some(text);
    if pending.calls == map[] {
      return TurnOutcome(events, msgs + [Assistant(content, [])], true);
    }
    assert Consistent(NoPending);
    MergeAllConsistent(NoPending, StreamDeltas(chunks));
    var calls := RebuildCalls(pending);
    var toolEvents, toolMessages := ExecuteCalls(env, calls);
    outcome := TurnOutcome(events + toolEvents, msgs + [Assistant(content, calls)] + toolMessages, false);
  }

  /** The message list `run_stream` starts from. */
  method BuildMessages(systemPrompt: string, extraPrompt: string, extras: seq<Json.Value>,
                       userInput: Json.Value) returns (messages: seq<Message>)
    ensures messages == InitialMessages(systemPrompt, extraPrompt, extras, userInput)
  {
    var systemContent := systemPrompt;
    if extraPrompt != "" {
      systemContent := systemContent + "\n\n" + extraPrompt;
    }
    messages := [System(systemContent)];
    if extras != [] {
      messages := messages + Extras(extras);
    }
    messages := messages + [User(userInput)];
    assert Extras([]) == [];
  }

  /** The `for _ in range(max_tool_turns)` loop, returning early after a turn without tool calls
      and yielding the exceeded notice when the turns run out. */
  method TurnLoop(env: Env, initial: seq<Message>, n: nat) returns (events: seq<Event>, messages: seq<Message>)
    ensures events == Turns(Step(env), initial, n).events
    ensures messages == Turns(Step(env), initial, n).messages
  {
    messages := initial;
    events := [];
    for t := 0 to n
      invariant Turns(Step(env), initial, n).events == events + Turns(Step(env), messages, n - t).events
      invariant Turns(Step(env), initial, n).messages == Turns(Step(env), messages, n - t).messages
    {
      var outcome := RunTurn(env, messages);
      assert Step(env)(messages) == outcome;
      Seqs.AppendAssoc(events, outcome.events, Turns(Step(env), outcome.messages, n - t - 1).events);
      events := events + outcome.events;
      messages := outcome.messages;
      if outcome.finished {
        return;
      }
    }
    events := events + [Content(ExceededNotice)];
  }

  /** `run_stream`: the events it yields and the conversation it leaves behind. */
  method RunAgent(env: Env, systemPrompt: string, extraPrompt: string, extras: seq<Json.Value>,
                  userInput: Json.Value, maxTurns: int) returns (events: seq<Event>, messages: seq<Message>)
    ensures events == RunStream(env, systemPrompt, extraPrompt, extras, userInput, maxTurns).events
    ensures messages == RunStream(env, systemPrompt, extraPrompt, extras, userInput, maxTurns).messages
  {
    messages := BuildMessages(systemPrompt, extraPrompt, extras, userInput);
    events, messages := TurnLoop(env, messages, TurnCount(maxTurns));
  }

  /** `run`: the text of the content events, in order. */
  method Run(env: Env, systemPrompt: string, userInput: Json.Value, maxTurns: int) returns (fullContent: string)
    ensures fullContent == ContentText(RunStream(env, systemPrompt, "", [], userInput, maxTurns).events)
  {
    var events, _ := RunAgent(env, systemPrompt, "", [], userInput, maxTurns);
    fullContent := "";
    for i := 0 to |events|
      invariant fullContent == ContentText(events[..i])
    {
      assert events[..i + 1][..i] == events[..i];
      if events[i].Content? {
        fullContent := fullContent + events[i].text;
      }
    }
    assert events[..|events|] == events;
  }

  // ---------------------------------------------------------------------------------------
  // The orchestrator's settings

  const OrchestratorDefaultPrompt := "你是一个专业的 macOS 智能助手，可以帮助用户管理系统、排查问题、执行自动化任务。\n你可以使用提供的工具来获取信息或执行操作。\n在执行具有潜在风险的操作（如删除文件、修改系统设置）前，请务必仔细确认路径和参数。\n请用中文回复用户。"

  /** `system_prompt or self._default_system_prompt()` */
  function OrchestratorPrompt(systemPrompt: Option<string>): (p: string)
    ensures (systemPrompt.None? || systemPrompt.value == "") ==> p == OrchestratorDefaultPrompt
    ensures systemPrompt.Some? && systemPrompt.value != "" ==> p == systemPrompt.value
  {
    if systemPrompt.None? || systemPrompt.value == "" then OrchestratorDefaultPrompt else systemPrompt.value
  }

  /** `max_tool_turns or settings.OPENAI_MAX_TOOL_TURNS`: None and 0 both take the setting. */
  function OrchestratorTurns(maxToolTurns: Option<int>, configured: int): (n: int)
    ensures (maxToolTurns.None? || maxToolTurns.value == 0) ==> n == configured
    ensures maxToolTurns.Some? && maxToolTurns.value != 0 ==> n == maxToolTurns.value
  {
    if maxToolTurns.None? || maxToolTurns.value == 0 then configured else maxToolTurns.value
  }

  /** `AgentOrchestrator.run_stream`: the same loop after the orchestrator's defaults for the
      system prompt and the number of turns. */
  method OrchestratorRunStream(env: Env, systemPrompt: Option<string>, configuredTurns: int,
                               userInput: Json.Value, maxToolTurns: Option<int>, extraPrompt: string,
                               extras: seq<Json.Value>) returns (events: seq<Event>, messages: seq<Message>)
    requires env.variant == Orchestrator
    ensures var r := RunStream(env, OrchestratorPrompt(systemPrompt), extraPrompt, extras, userInput,
                               OrchestratorTurns(maxToolTurns, configuredTurns));
      events == r.events && messages == r.messages
  {
    var maxTurns := if maxToolTurns.None? || maxToolTurns.value == 0 then configuredTurns else maxToolTurns.value;
    var prompt := if systemPrompt.None? || systemPrompt.value == "" then OrchestratorDefaultPrompt else systemPrompt.value;
    events, messages := RunAgent(env, prompt, extraPrompt, extras, userInput, maxTurns);
  }
}
