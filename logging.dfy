/** The structured-logging helpers of backend/app/infrastructure/logging: the sensitive-data
    filter and event formatting (formatters.py) and the three custom handlers (handlers.py).
    Log records carry their level, the structured `event` and `duration_ms` attributes and the
    source position; writing to files and the clock are outside the model, so timestamps are
    parameters and a forwarded record is appended to a list. Durations are whole milliseconds. */
module Logging {
  import opened Wrappers
  import Py
  import Json
  import Security
  import Seqs

  // ---------------------------------------------------------------------------
  // SensitiveDataFilter
  // ---------------------------------------------------------------------------

  /** `SensitiveDataFilter.SENSITIVE_KEYS`: the fragments of the security helper except "key". */
  const FilterKeys: set<string> := {
    "password", "passwd", "pwd", "secret", "api_key", "apikey", "token", "access_token",
    "refresh_token", "authorization", "auth", "credit_card", "ssn", "private_key"
  }

  /** `SensitiveDataFilter.redact` */
  function Redact(v: Json.Value): Json.Value {
    Security.Redact(v, FilterKeys)
  }

  /** Every character of a contained fragment occurs in the text. */
  lemma FragmentChars(s: string, f: string, i: nat)
    requires Py.Contains(s, f) && i < |f|
    ensures f[i] in s
  {
    var j := Py.Find(s, f);
    assert s[j..j + |f|][i] == s[j + i];
  }

  /** A fragment with a character the text lacks is not contained in it. */
  lemma Absent(s: string, f: string, i: nat)
    requires i < |f| && f[i] !in s
    ensures !Py.Contains(s, f)
  {
    if Py.Contains(s, f) {
      FragmentChars(s, f, i);
    }
  }

  /** Without "key" among the fragments, "monkey" passes the filter untouched. */
  lemma FilterKeepsMonkey()
    ensures !Security.Sensitive("monkey", FilterKeys)
  {
    var key := "monkey";
    Py.LowerNoUpper(key);
    forall f | f in FilterKeys ensures !Py.Contains(key, f) {
      assert f[0] in "psatrc";
      Absent(key, f, 0);
    }
  }

  /** "api_key" itself is still caught. */
  lemma FilterCatchesApiKey()
    ensures Security.Sensitive("api_key", FilterKeys)
  {
    assert "api_key" in FilterKeys;
    Security.ContainsLowered("api_key", "api_key", 0);
  }

  /** The filter replaces a field's value exactly when its key is sensitive, keeps every key in
      place, and redacts lists item by item. */
  lemma FilterRule(fields: seq<(string, Json.Value)>, items: seq<Json.Value>, i: nat)
    ensures i < |fields| ==>
      var r := Redact(Json.Dict(fields)).fields;
      Json.Keys(r) == Json.Keys(fields) &&
      r[i].1 == (if Security.Sensitive(fields[i].0, FilterKeys) then Json.Str(Security.Redacted)
                 else Redact(fields[i].1))
    ensures i < |items| ==>
      var r := Redact(Json.List(items)).items;
      |r| == |items| && r[i] == Redact(items[i])
  {
    if i < |fields| {
      Security.RedactField(fields, FilterKeys, i);
    }
  }

  // ---------------------------------------------------------------------------
  // format_log_event and format_exception
  // ---------------------------------------------------------------------------

  const SourceMarker: string := "mac_agent_backend"

  /** The event dictionary a structlog processor receives; `format_log_event` adds the timestamp
      to it in place. */
  class EventDict {
    var fields: seq<(string, Json.Value)>

    constructor(fields: seq<(string, Json.Value)>)
      ensures this.fields == fields
    {
      this.fields := fields;
    }
  }

  /** The caller's dictionary after the timestamp step: `now` is added only when absent. */
  function Stamped(fields: seq<(string, Json.Value)>, now: string): (r: seq<(string, Json.Value)>) {
    if "timestamp" in Json.Keys(fields) then fields else Json.Put(fields, "timestamp", Json.Str(now))
  }

  /** The returned dictionary: the stamped one redacted, with `_source` set. */
  function Formatted(stamped: seq<(string, Json.Value)>): seq<(string, Json.Value)> {
    Json.Put(Redact(Json.Dict(stamped)).fields, "_source", Json.Str(SourceMarker))
  }

  /** `format_log_event(event_dict)` at time `now`. */
  method FormatLogEvent(event: EventDict, now: string) returns (r: seq<(string, Json.Value)>)
    modifies event
    ensures event.fields == Stamped(old(event.fields), now)
    ensures r == Formatted(event.fields)
  {
    if "timestamp" !in Json.Keys(event.fields) {
      event.fields := Json.Put(event.fields, "timestamp", Json.Str(now));
    }
    r := Json.Put(Redact(Json.Dict(event.fields)).fields, "_source", Json.Str(SourceMarker));
  }

  /** A letter of each filter fragment that "timestamp" lacks. */
  function TimestampMiss(f: string): nat {
    if f == "password" || f == "passwd" then 4
    else if f == "pwd" then 1
    else if f == "secret" then 2
    else if f == "api_key" then 4
    else if f == "apikey" then 3
    else if f == "token" then 2
    else if f == "access_token" then 1
    else if f == "refresh_token" then 0
    else if f == "authorization" || f == "auth" then 1
    else if f == "credit_card" then 1
    else if f == "ssn" then 2
    else if f == "private_key" then 1
    else 0
  }

  /** "timestamp" is not a sensitive key, so the timestamp survives redaction. */
  lemma TimestampNotSensitive()
    ensures !Security.Sensitive("timestamp", FilterKeys)
  {
    var key := "timestamp";
    Py.LowerNoUpper(key);
    forall f | f in FilterKeys ensures !Py.Contains(key, f) {
      var i := TimestampMiss(f);
      assert i < |f| && f[i] in "wckrun";
      Absent(key, f, i);
    }
  }

  /** The formatted event always carries the source marker; it carries the given timestamp when
      the event had none, and the event's own otherwise; and it keeps the event's keys in order,
      with the timestamp and the marker appended when they were missing. */
  lemma FormattedFacts(fields: seq<(string, Json.Value)>, now: string)
    ensures var r := Formatted(Stamped(fields, now));
      Json.Get(r, "_source") == Some(Json.Str(SourceMarker)) &&
      ("timestamp" !in Json.Keys(fields) ==> Json.Get(r, "timestamp") == Some(Json.Str(now))) &&
      (Json.Get(fields, "timestamp").Some? ==>
         Json.Get(r, "timestamp") == Some(Redact(Json.Get(fields, "timestamp").value)))
    ensures var k := Json.Keys(Stamped(fields, now));
      Json.Keys(Formatted(Stamped(fields, now))) == if "_source" in k then k else k + ["_source"]
  {
    var s := Stamped(fields, now);
    var red := Redact(Json.Dict(s)).fields;
    Json.GetPut(red, "_source", Json.Str(SourceMarker), "timestamp");
    TimestampNotSensitive();
    assert Json.Get(s, "timestamp") == Json.Get(fields, "timestamp") || Json.Get(fields, "timestamp").None? by {
      Json.GetPut(fields, "timestamp", Json.Str(now), "timestamp");
    }
    assert Json.Get(s, "timestamp").Some?;
    var i := GetIndex(s, "timestamp");
    Security.RedactField(s, FilterKeys, i);
    GetAt(red, "timestamp", i);
    if "timestamp" !in Json.Keys(fields) {
      Json.GetPut(fields, "timestamp", Json.Str(now), "timestamp");
    }
  }

  /** The position of the first field with `key`. */
  lemma {:induction false} GetIndex(fields: seq<(string, Json.Value)>, key: string) returns (i: nat)
    requires Json.Get(fields, key).Some?
    ensures i < |fields| && fields[i] == (key, Json.Get(fields, key).value)
    ensures forall j :: 0 <= j < i ==> fields[j].0 != key
  {
    if fields[0].0 == key {
      i := 0;
    } else {
      var k := GetIndex(fields[1..], key);
      i := k + 1;
    }
  }

  /** `Get` finds the first field with the key. */
  lemma {:induction false} GetAt(fields: seq<(string, Json.Value)>, key: string, i: nat)
    requires i < |fields| && fields[i].0 == key
    requires forall j :: 0 <= j < i ==> fields[j].0 != key
    ensures Json.Get(fields, key) == Some(fields[i].1)
  {
    if i > 0 {
      GetAt(fields[1..], key, i - 1);
    }
  }

  /** A frame of `traceback.extract_tb`. */
  datatype Frame = Frame(filename: string, line: int, name: string, code: Option<string>)

  /** `exc_info`: nothing (an empty tuple), or the type's name, the exception's text and the
      extracted frames, each possibly missing. */
  datatype ExcInfo = ExcInfo(typeName: Option<string>, message: Option<string>, frames: Option<seq<Frame>>)

  function OrNull(s: Option<string>): Json.Value {
    if s.Some? then Json.Str(s.value) else Json.Null
  }

  function FrameValue(f: Frame): Json.Value {
    Json.Dict([("filename", Json.Str(f.filename)), ("line", Json.Int(f.line)),
               ("function", Json.Str(f.name)), ("code", OrNull(f.code))])
  }

  /** `format_exception(exc_info)` */
  function FormatException(info: Option<ExcInfo>): (r: seq<(string, Json.Value)>)
    ensures r == [] <==> info.None? || info.value == ExcInfo(None, None, None)
    ensures r != [] ==> Json.Keys(r) == ["exception_type", "exception_message", "exception_traceback"]
  {
    if info.None? || info.value == ExcInfo(None, None, None) then []
    else
      var e := info.value;
      [("exception_type", OrNull(e.typeName)),
       ("exception_message", OrNull(e.message)),
       ("exception_traceback",
          if e.frames.Some? then Json.List(seq(|e.frames.value|, i requires 0 <= i < |e.frames.value| =>
                                                FrameValue(e.frames.value[i])))
          else Json.Null)]
  }

  /** The traceback entry lists one dictionary per frame, in order. */
  lemma FormatExceptionFrames(e: ExcInfo)
    requires e.frames.Some?
    ensures var r := FormatException(Some(e));
      r[2].1.List? && |r[2].1.items| == |e.frames.value| &&
      forall i :: 0 <= i < |e.frames.value| ==>
        Json.Get(r[2].1.items[i].fields, "line") == Some(Json.Int(e.frames.value[i].line))
  {
  }

  // ---------------------------------------------------------------------------
  // Handlers
  // ---------------------------------------------------------------------------

  /** `logging.ERROR` */
  const ErrorLevel: int := 40

  /** The parts of a `LogRecord` the handlers read. */
  datatype Record = Record(level: int, event: Option<string>, durationMs: Option<int>,
                           pathname: string, lineno: int, msg: string)

  /** `PerformanceLogHandler.emit` forwards a record that carries a duration of at least the
      threshold. */
  predicate IsSlow(r: Record, thresholdMs: int) {
    r.durationMs.Some? && r.durationMs.value >= thresholdMs
  }

  class PerformanceLogHandler {
    const thresholdMs: int
    /** The records handed to the file handler, oldest first. */
    var written: seq<Record>

    constructor(thresholdMs: int)
      ensures this.thresholdMs == thresholdMs && written == []
    {
      this.thresholdMs := thresholdMs;
      written := [];
    }

    method Emit(r: Record)
      modifies this
      ensures written == old(written) + (if IsSlow(r, thresholdMs) then [r] else [])
    {
      if r.durationMs.Some? && r.durationMs.value >= thresholdMs {
        written := written + [r];
      }
    }
  }

  /** The file handler sees exactly the slow records, in order. */
  function SlowRecords(rs: seq<Record>, thresholdMs: int): (out: seq<Record>)
    ensures forall x :: x in out <==> x in rs && IsSlow(x, thresholdMs)
    ensures |out| <= |rs|
  {
    if rs == [] then []
    else
      var rest := SlowRecords(rs[1..], thresholdMs);
      assert forall x :: x in rs <==> x == rs[0] || x in rs[1..];
      (if IsSlow(rs[0], thresholdMs) then [rs[0]] else []) + rest
  }

  /** Emitting a run of records one by one writes `SlowRecords` of the run. */
  method EmitAll(h: PerformanceLogHandler, rs: seq<Record>)
    modifies h
    ensures h.written == old(h.written) + SlowRecords(rs, h.thresholdMs)
  {
    ghost var w0 := h.written;
    for i := 0 to |rs|
      invariant h.written == w0 + SlowRecords(rs[..i], h.thresholdMs)
    {
      ghost var done := SlowRecords(rs[..i], h.thresholdMs);
      SlowSnoc(rs, i, h.thresholdMs);
      h.Emit(rs[i]);
      Seqs.AppendAssoc(w0, done, if IsSlow(rs[i], h.thresholdMs) then [rs[i]] else []);
    }
    assert rs[..|rs|] == rs;
  }

  lemma {:induction false} SlowAppend(a: seq<Record>, b: seq<Record>, t: int)
    ensures SlowRecords(a + b, t) == SlowRecords(a, t) + SlowRecords(b, t)
    decreases |a|
  {
    if a != [] {
      assert (a + b)[1..] == a[1..] + b;
      SlowAppend(a[1..], b, t);
    } else {
      assert a + b == b;
    }
  }

  lemma SlowSnoc(rs: seq<Record>, i: nat, t: int)
    requires i < |rs|
    ensures SlowRecords(rs[..i + 1], t) == SlowRecords(rs[..i], t) + (if IsSlow(rs[i], t) then [rs[i]] else [])
  {
    assert rs[..i + 1] == rs[..i] + [rs[i]];
    SlowAppend(rs[..i], [rs[i]], t);
  }

  /** The counters of `MetricsHandler`. */
  const MetricKeys: set<string> := {"http_requests", "errors", "llm_calls", "tool_executions"}

  /** The event counter a record bumps, if any. */
  function EventCounter(event: Option<string>): (k: Option<string>)
    ensures k.Some? ==> k.value in MetricKeys && k.value != "errors"
  {
    if event == Some("http_request") then Some("http_requests")
    else if event == Some("llm_call_success") || event == Some("llm_call_failed") then Some("llm_calls")
    else if event == Some("tool_start") then Some("tool_executions")
    else None
  }

  /** The counters after one record. */
  function Tally(m: map<string, int>, r: Record): map<string, int>
    requires MetricKeys <= m.Keys
  {
    var k := EventCounter(r.event);
    var m1 := if k.Some? then m[k.value := m[k.value] + 1] else m;
    if r.level >= ErrorLevel then m1["errors" := m1["errors"] + 1] else m1
  }

  /** One record raises each counter by at most one: `errors` exactly when the level is ERROR or
      above, at most one event counter, and nothing else; the keys stay the same. */
  lemma TallyFacts(m: map<string, int>, r: Record)
    requires MetricKeys <= m.Keys
    ensures Tally(m, r).Keys == m.Keys
    ensures Tally(m, r)["errors"] == m["errors"] + (if r.level >= ErrorLevel then 1 else 0)
    ensures forall k :: k in m && k != "errors" ==>
              Tally(m, r)[k] == m[k] + (if EventCounter(r.event) == Some(k) then 1 else 0)
  {
  }

  class MetricsHandler {
    var metrics: map<string, int>

    ghost predicate Valid()
      reads this
    {
      metrics.Keys == MetricKeys
    }

    constructor()
      ensures Valid()
      ensures forall k :: k in metrics ==> metrics[k] == 0
    {
      metrics := map["http_requests" := 0, "errors" := 0, "llm_calls" := 0, "tool_executions" := 0];
    }

    method Emit(r: Record)
      requires Valid()
      modifies this
      ensures Valid()
      ensures metrics == Tally(old(metrics), r)
    {
      var k := EventCounter(r.event);
      if k.Some? {
        metrics := metrics[k.value := metrics[k.value] + 1];
      }
      if r.level >= ErrorLevel {
        metrics := metrics["errors" := metrics["errors"] + 1];
      }
    }

    /** `get_metrics` returns a copy; a map is a value, so later changes do not reach it. */
    method GetMetrics() returns (m: map<string, int>)
      ensures m == metrics
    {
      m := metrics;
    }

    /** `reset_metrics` zeroes every counter and keeps the keys. */
    method ResetMetrics()
      requires Valid()
      modifies this
      ensures Valid()
      ensures metrics.Keys == old(metrics).Keys
      ensures forall k :: k in metrics ==> metrics[k] == 0
    {
      metrics := map k | k in metrics :: 0;
    }
  }

  /** `f"{record.pathname}:{record.lineno}:{record.msg}"` */
  function Signature(r: Record): string {
    r.pathname + ":" + Py.IntToString(r.lineno) + ":" + r.msg
  }

  function CountOf(counts: map<string, int>, s: string): int {
    if s in counts then counts[s] else 0
  }

  /** The message that replaces a record's when it reaches the threshold. */
  function AggregatedMsg(maxSimilar: int, msg: string): string {
    "[AGGREGATED] Similar error occurred " + Py.IntToString(maxSimilar) + "+ times: " + msg
  }

  /** One `ErrorAggregationHandler.emit`: an error record bumps its signature's count and is
      rewritten when that count has just passed the threshold; other records change nothing. */
  function Aggregate(counts: map<string, int>, maxSimilar: int, r: Record): (map<string, int>, Record) {
    if r.level < ErrorLevel then (counts, r)
    else
      var n := CountOf(counts, Signature(r)) + 1;
      (counts[Signature(r) := n], if n == maxSimilar + 1 then r.(msg := AggregatedMsg(maxSimilar, r.msg)) else r)
  }

  class ErrorAggregationHandler {
    const maxSimilar: int
    var errorCounts: map<string, int>

    constructor(maxSimilar: int)
      ensures this.maxSimilar == maxSimilar && errorCounts == map[]
    {
      this.maxSimilar := maxSimilar;
      errorCounts := map[];
    }

    /** Returns the record as the handlers after this one see it. */
    method Emit(r: Record) returns (out: Record)
      modifies this
      ensures (errorCounts, out) == Aggregate(old(errorCounts), maxSimilar, r)
    {
      out := r;
      if r.level < ErrorLevel {
        return;
      }
      var sig := Signature(r);
      errorCounts := errorCounts[sig := CountOf(errorCounts, sig) + 1];
      if errorCounts[sig] == maxSimilar + 1 {
        out := r.(msg := AggregatedMsg(maxSimilar, r.msg));
      }
    }
  }

  /** Error records among `rs` with signature `s`. */
  function Occurrences(rs: seq<Record>, s: string): (n: nat)
    ensures n <= |rs|
  {
    if rs == [] then 0
    else (if rs[0].level >= ErrorLevel && Signature(rs[0]) == s then 1 else 0) + Occurrences(rs[1..], s)
  }

  /** The counts and the records as seen downstream after emitting `rs` in turn. */
  function AggregateAll(counts: map<string, int>, maxSimilar: int, rs: seq<Record>): (r: (map<string, int>, seq<Record>))
    ensures |r.1| == |rs|
    decreases |rs|
  {
    if rs == [] then (counts, [])
    else
      var step := Aggregate(counts, maxSimilar, rs[0]);
      var rest := AggregateAll(step.0, maxSimilar, rs[1..]);
      (rest.0, [step.1] + rest.1)
  }

  /** One step changes only the count of the record's own signature, by one for an error. */
  lemma AggregateCount(counts: map<string, int>, maxSimilar: int, r: Record, s: string)
    ensures CountOf(Aggregate(counts, maxSimilar, r).0, s) ==
              CountOf(counts, s) + (if r.level >= ErrorLevel && Signature(r) == s then 1 else 0)
  {
  }

  /** Each signature's count grows by the number of its error records. */
  lemma {:induction false} AggregateAllCount(counts: map<string, int>, maxSimilar: int, rs: seq<Record>, s: string)
    ensures CountOf(AggregateAll(counts, maxSimilar, rs).0, s) == CountOf(counts, s) + Occurrences(rs, s)
    decreases |rs|
  {
    if rs != [] {
      var step := Aggregate(counts, maxSimilar, rs[0]);
      AggregateCount(counts, maxSimilar, rs[0], s);
      AggregateAllCount(step.0, maxSimilar, rs[1..], s);
    }
  }

  /** The record at position `i` is rewritten exactly when it is an error whose signature reaches
      `max_similar_errors + 1` with it. */
  lemma {:induction false} AggregateAllAt(counts: map<string, int>, maxSimilar: int, rs: seq<Record>, i: nat)
    requires i < |rs|
    ensures AggregateAll(counts, maxSimilar, rs).1[i] != rs[i] <==>
              rs[i].level >= ErrorLevel &&
              CountOf(counts, Signature(rs[i])) + Occurrences(rs[..i + 1], Signature(rs[i])) == maxSimilar + 1
    decreases i
  {
    var step := Aggregate(counts, maxSimilar, rs[0]);
    var t := Signature(rs[i]);
    assert rs[..i + 1][0] == rs[0];
    assert rs[..i + 1][1..] == rs[1..][..i];
    if i == 0 {
      assert rs[..1][1..] == [];
      RewriteChanges(rs[0], maxSimilar);
    } else {
      assert rs[1..][i - 1] == rs[i];
      AggregateAllAt(step.0, maxSimilar, rs[1..], i - 1);
      AggregateCount(counts, maxSimilar, rs[0], t);
    }
  }

  /** The rewritten message differs from the original one. */
  lemma RewriteChanges(r: Record, maxSimilar: int)
    ensures r.(msg := AggregatedMsg(maxSimilar, r.msg)) != r
  {
    assert |AggregatedMsg(maxSimilar, r.msg)| > |r.msg|;
  }

  /** Occurrences only grow along a run. */
  lemma {:induction false} OccurrencesPrefix(rs: seq<Record>, i: nat, j: nat, s: string)
    requires i <= j <= |rs|
    ensures Occurrences(rs[..i], s) <= Occurrences(rs[..j], s)
    decreases |rs|
  {
    if i > 0 {
      assert rs[..i][1..] == rs[1..][..i - 1];
      assert rs[..j][1..] == rs[1..][..j - 1];
      OccurrencesPrefix(rs[1..], i - 1, j - 1, s);
    }
  }

  /** So among records with one signature, at most one is ever rewritten. */
  lemma RewrittenOnce(counts: map<string, int>, maxSimilar: int, rs: seq<Record>, i: nat, j: nat)
    requires i < j < |rs| && Signature(rs[i]) == Signature(rs[j])
    requires rs[j].level >= ErrorLevel
    ensures AggregateAll(counts, maxSimilar, rs).1[i] == rs[i] || AggregateAll(counts, maxSimilar, rs).1[j] == rs[j]
  {
    var s := Signature(rs[i]);
    AggregateAllAt(counts, maxSimilar, rs, i);
    AggregateAllAt(counts, maxSimilar, rs, j);
    OccurrencesPrefix(rs, i + 1, j, s);
    OccurrencesSnoc(rs, j, s);
  }

  lemma OccurrencesSnoc(rs: seq<Record>, j: nat, s: string)
    requires j < |rs| && rs[j].level >= ErrorLevel && Signature(rs[j]) == s
    ensures Occurrences(rs[..j + 1], s) == Occurrences(rs[..j], s) + 1
  {
    assert rs[..j + 1] == rs[..j] + [rs[j]];
    OccurrencesAppend(rs[..j], [rs[j]], s);
  }

  lemma {:induction false} OccurrencesAppend(a: seq<Record>, b: seq<Record>, s: string)
    ensures Occurrences(a + b, s) == Occurrences(a, s) + Occurrences(b, s)
    decreases |a|
  {
    if a != [] {
      assert (a + b)[1..] == a[1..] + b;
      OccurrencesAppend(a[1..], b, s);
    } else {
      assert a + b == b;
    }
  }
}
