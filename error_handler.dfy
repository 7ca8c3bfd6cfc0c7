/** The exception handlers of backend/app/middleware/error_handler.py: which endpoints get a
    server-sent-events error, the JSON error bodies, and the status-to-code table. `json.dumps`
    is a parameter. */
module ErrorHandler {
  import opened Wrappers
  import Py
  import Json

  const ChatPrefix := "/api/v1/chat"
  const StreamSuffix := "/stream"
  /** The `X-Request-ID` header of an SSE error when the request has no id. */
  const UnknownRequestId := "unknown"
  const UnknownError := "unknown_error"
  const SseEventPrefix := "event: error\ndata: "
  const SseEventEnd := "\n\n"

  /** `_is_sse_endpoint` */
  predicate IsSseEndpoint(path: string) {
    Py.StartsWith(path, ChatPrefix) || Py.EndsWith(path, StreamSuffix)
  }

  /** Everything under the chat prefix and everything ending in `/stream` streams its errors. */
  lemma SseEndpoints(rest: string, front: string)
    ensures IsSseEndpoint(ChatPrefix + rest)
    ensures IsSseEndpoint(front + StreamSuffix)
  {
    assert (ChatPrefix + rest)[..|ChatPrefix|] == ChatPrefix;
    Py.EndsWithAppend(front, StreamSuffix);
  }

  /** A path of neither form gets a JSON error: whatever follows a different first segment. */
  lemma SessionsNotSse(rest: string)
    ensures !IsSseEndpoint("/api/v1/sessions" + rest + "/")
  {
    var p := "/api/v1/sessions" + rest + "/";
    assert p[10] == 's';
    assert p[|p| - 1] == '/';
  }

  /** The table of `_get_error_code`. */
  const ErrorCodes: map<int, string> := map[
    400 := "bad_request",
    401 := "unauthorized",
    403 := "forbidden",
    404 := "not_found",
    405 := "method_not_allowed",
    409 := "conflict",
    422 := "validation_error",
    429 := "too_many_requests",
    500 := "internal_server_error",
    502 := "bad_gateway",
    503 := "service_unavailable",
    504 := "gateway_timeout"]

  /** `_get_error_code` */
  function ErrorCode(status: int): (code: string)
    ensures status !in ErrorCodes ==> code == UnknownError
  {
    if status in ErrorCodes then ErrorCodes[status] else UnknownError
  }

  /** The fallback code is given exactly to the statuses the table does not list. */
  lemma ErrorCodeKnown(status: int)
    ensures ErrorCode(status) == UnknownError <==> status !in ErrorCodes
  {
    if status in ErrorCodes {
      var c := ErrorCodes[status];
      assert c[0] != 'u' || c[2] != 'k';
    }
  }

  /** One part of a validation error's location: a field name or a list index. */
  datatype LocPart = Name(name: string) | Index(index: int)

  function LocText(p: LocPart): string {
    match p
    case Name(n) => n
    case Index(i) => Py.IntToString(i)
  }

  function LocTexts(loc: seq<LocPart>): (r: seq<string>)
    ensures |r| == |loc|
    ensures forall i :: 0 <= i < |loc| ==> r[i] == LocText(loc[i])
  {
    if loc == [] then [] else [LocText(loc[0])] + LocTexts(loc[1..])
  }

  /** One entry of `exc.errors()`. */
  datatype ValidationError = ValidationError(loc: seq<LocPart>, msg: string)

  /** `f"{loc}: {msg}"` with the location parts joined by " -> ". */
  function Describe(e: ValidationError): string {
    Py.Join(" -> ", LocTexts(e.loc)) + ": " + e.msg
  }

  function Descriptions(es: seq<ValidationError>): (r: seq<string>)
    ensures |r| == |es|
    ensures forall i :: 0 <= i < |es| ==> r[i] == Describe(es[i])
  {
    if es == [] then [] else [Describe(es[0])] + Descriptions(es[1..])
  }

  /** `_format_validation_errors` */
  function FormatValidationErrors(es: seq<ValidationError>): (r: string)
    ensures es == [] ==> r == ""
    ensures |es| == 1 ==> r == Describe(es[0])
  {
    Py.Join("; ", Descriptions(es))
  }

  /** The descriptions follow one another in order, separated by "; ". */
  lemma FormatValidationErrorsCons(e: ValidationError, es: seq<ValidationError>)
    requires es != []
    ensures FormatValidationErrors([e] + es) == Describe(e) + "; " + FormatValidationErrors(es)
  {
    assert Descriptions([e] + es) == [Describe(e)] + Descriptions(es);
    Py.JoinCons("; ", Describe(e), Descriptions(es));
  }

  /** Every error's description occurs in the message. */
  lemma {:induction false} FormatValidationErrorsMentions(es: seq<ValidationError>, i: nat)
    requires i < |es|
    ensures Py.Contains(FormatValidationErrors(es), Describe(es[i]))
    decreases i
  {
    var r := FormatValidationErrors(es);
    var d := Describe(es[i]);
    if |es| == 1 {
      assert r[0..|d|] == d;
      Py.ContainsAt(r, d, 0);
    } else {
      var rest := es[1..];
      assert es == [es[0]] + rest;
      FormatValidationErrorsCons(es[0], rest);
      var front := Describe(es[0]) + "; ";
      var tail := FormatValidationErrors(rest);
      assert r == front + tail;
      if i == 0 {
        assert r[0..|d|] == d;
        Py.ContainsAt(r, d, 0);
      } else {
        assert rest[i - 1] == es[i];
        FormatValidationErrorsMentions(rest, i - 1);
        assert r[|front|..|r|] == tail;
        Py.ContainsSlice(r, d, |front|, |r|);
      }
    }
  }

  /** The handlers' responses, without the logging. */
  datatype Response =
    | Sse(body: string, headers: seq<(string, string)>)
    | JsonError(status: int, content: Json.Value)

  /** `request_id` as it goes into a JSON body: `None` becomes `null`. */
  function RequestIdValue(requestId: Option<string>): Json.Value {
    if requestId.Some? then Json.Str(requestId.value) else Json.Null
  }

  /** `request_id or "unknown"`: an empty id is falsy too. */
  function HeaderRequestId(requestId: Option<string>): (h: string)
    ensures h != ""
    ensures requestId.Some? && requestId.value != "" ==> h == requestId.value
  {
    if requestId.Some? && requestId.value != "" then requestId.value else UnknownRequestId
  }

  function SseHeaders(requestId: Option<string>): seq<(string, string)> {
    [("Cache-Control", "no-cache"), ("Connection", "keep-alive"), ("X-Accel-Buffering", "no"),
     ("X-Request-ID", HeaderRequestId(requestId))]
  }

  /** The `error_data` of an SSE error. */
  function SseData(message: string, requestId: Option<string>): Json.Value {
    Json.Dict([("message", Json.Str(message)), ("request_id", RequestIdValue(requestId))])
  }

  /** `_create_sse_error_response`: one `error` event carrying the message and the request id. */
  function SseErrorResponse(message: string, requestId: Option<string>, dumps: Json.Value -> string): (r: Response)
    ensures r.Sse? && Py.StartsWith(r.body, SseEventPrefix) && Py.EndsWith(r.body, SseEventEnd)
    ensures |r.body| == |SseEventPrefix| + |dumps(SseData(message, requestId))| + |SseEventEnd|
    ensures |r.headers| == 4
    ensures r.body[|SseEventPrefix|..|r.body| - |SseEventEnd|] == dumps(SseData(message, requestId))
    ensures r.headers[3] == ("X-Request-ID", HeaderRequestId(requestId))
  {
    var body := SseEventPrefix + dumps(SseData(message, requestId)) + SseEventEnd;
    assert body[..|SseEventPrefix|] == SseEventPrefix;
    assert body[|body| - |SseEventEnd|..] == SseEventEnd;
    Sse(body, SseHeaders(requestId))
  }

  /** The three kinds of exception the handlers are registered for. */
  datatype Exception =
    | Unhandled(message: string)
    | Invalid(errors: seq<ValidationError>)
    | HttpError(status: int, detail: string)

  /** What `exc.errors()` looks like in a JSON body. */
  function LocValue(p: LocPart): Json.Value {
    match p
    case Name(n) => Json.Str(n)
    case Index(i) => Json.Int(i)
  }

  function ErrorValue(e: ValidationError): Json.Value {
    Json.Dict([("loc", Json.List(seq(|e.loc|, i requires 0 <= i < |e.loc| => LocValue(e.loc[i])))),
               ("msg", Json.Str(e.msg))])
  }

  /** The message of the SSE error each handler sends. */
  function SseMessage(exc: Exception): string {
    match exc
    case Unhandled(m) => m
    case Invalid(es) => "Invalid request: " + FormatValidationErrors(es)
    case HttpError(s, d) => "HTTP " + Py.IntToString(s) + ": " + d
  }

  /** The status of the JSON error each handler sends. */
  function JsonStatus(exc: Exception): int {
    match exc
    case Unhandled(_) => 500
    case Invalid(_) => 422
    case HttpError(s, _) => s
  }

  /** The `error` field of the JSON error each handler sends. */
  function ErrorName(exc: Exception): string {
    match exc
    case Unhandled(_) => "internal_server_error"
    case Invalid(_) => "validation_error"
    case HttpError(s, _) => ErrorCode(s)
  }

  function JsonContent(exc: Exception, requestId: Option<string>): Json.Value {
    match exc
    case Unhandled(m) =>
      Json.Dict([("error", Json.Str(ErrorName(exc))), ("message", Json.Str(m)),
                 ("request_id", RequestIdValue(requestId))])
    case Invalid(es) =>
      Json.Dict([("error", Json.Str(ErrorName(exc))), ("message", Json.Str("Request validation failed")),
                 ("details", Json.List(seq(|es|, i requires 0 <= i < |es| => ErrorValue(es[i])))),
                 ("request_id", RequestIdValue(requestId))])
    case HttpError(_, d) =>
      Json.Dict([("error", Json.Str(ErrorName(exc))), ("message", Json.Str(d)),
                 ("request_id", RequestIdValue(requestId))])
  }

  /** `global_exception_handler`, `validation_exception_handler` and `http_exception_handler`. */
  function Handle(path: string, exc: Exception, requestId: Option<string>, dumps: Json.Value -> string): (r: Response)
    ensures r.Sse? <==> IsSseEndpoint(path)
    ensures r.Sse? ==> r == SseErrorResponse(SseMessage(exc), requestId, dumps)
    ensures r.JsonError? ==> r.status == JsonStatus(exc) && r.content == JsonContent(exc, requestId)
  {
    if IsSseEndpoint(path) then SseErrorResponse(SseMessage(exc), requestId, dumps)
    else JsonError(JsonStatus(exc), JsonContent(exc, requestId))
  }

  /** Every JSON error names its kind and carries the request id, `null` when there is none; an
      HTTP error keeps its own status. */
  lemma JsonErrorFields(exc: Exception, requestId: Option<string>)
    ensures Json.Field(JsonContent(exc, requestId), "error") == Some(Json.Str(ErrorName(exc)))
    ensures Json.Field(JsonContent(exc, requestId), "request_id") == Some(RequestIdValue(requestId))
    ensures exc.HttpError? ==> JsonStatus(exc) == exc.status
  {
    var fs := JsonContent(exc, requestId).fields;
    assert fs[0].0 == "error";
    var last := |fs| - 1;
    assert fs[last].0 == "request_id";
    forall k | 0 <= k < last ensures fs[k].0 != "request_id" {
      assert fs[k].0[0] != 'r';
    }
    GetLast(fs, "request_id");
  }

  /** A key found only in the last field is read from there. */
  lemma {:induction false} GetLast(fs: seq<(string, Json.Value)>, key: string)
    requires fs != [] && fs[|fs| - 1].0 == key
    requires forall k :: 0 <= k < |fs| - 1 ==> fs[k].0 != key
    ensures Json.Get(fs, key) == Some(fs[|fs| - 1].1)
  {
    if |fs| > 1 {
      GetLast(fs[1..], key);
    }
  }
}
