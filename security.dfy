/** `InputValidator` and `RateLimiter` of backend/app/utils/security.py: string and file-name
    sanitising, the id validators (regular expressions modelled by what they match), the
    model whitelist, recursive redaction of sensitive fields, and a sliding-window rate
    limiter whose clock is a parameter. */
module Security {
  import opened Wrappers
  import Py
  import Json
  import FileService
  import Paths

  // ---------------------------------------------------------------------------
  // sanitize_string
  // ---------------------------------------------------------------------------

  const DefaultMaxLength: int := 1000

  /** `sanitize_string`: "" for "", else `value[:max_length]` without NUL characters, stripped.
      The result is at most `max_length` long (for a non-negative limit; a negative one only
      shortens), holds no NUL, and has already been stripped. */
  function SanitizeString(value: string, maxLength: int): (r: string)
    ensures value == "" ==> r == ""
    ensures maxLength >= 0 ==> |r| <= maxLength
    ensures |r| <= |value|
    ensures '\0' !in r
    ensures Py.IsStripped(r)
  {
    if value == "" then "" else
      var t := Py.Take(value, maxLength);
      var d := Py.Replace(t, "\0", "");
      DeleteCharShrinks(t, '\0');
      Py.ReplaceRemovesChar(t, '\0', "");
      StripKeepsAbsent(d, '\0');
      Py.StripEnds(d);
      Py.Strip(d)
  }

  /** Replacing a character by nothing never lengthens the text. */
  lemma {:induction false} DeleteCharShrinks(s: string, c: char)
    ensures |Py.Replace(s, [c], "")| <= |s|
    decreases |s|
  {
    var i := Py.Find(s, [c]);
    if i >= 0 {
      DeleteCharShrinks(s[i + 1..], c);
    }
  }

  /** Replacing a character that does not occur changes nothing. */
  lemma {:induction false} ReplaceAbsentChar(s: string, c: char, rep: string)
    requires c !in s
    ensures Py.Replace(s, [c], rep) == s
  {
    Py.ContainsChar(s, c);
  }

  /** A character absent from a text is absent from its stripped form, which is a slice of it. */
  lemma {:induction false} StripKeepsAbsent(s: string, c: char)
    requires c !in s
    ensures c !in Py.Strip(s) && |Py.Strip(s)| <= |s|
  {
    var i := Py.StripSlice(s);
    forall k | 0 <= k < |Py.Strip(s)| ensures Py.Strip(s)[k] != c {
      assert Py.Strip(s)[k] == s[i + k];
    }
  }

  /** Sanitising twice with the same non-negative limit is sanitising once. */
  lemma {:induction false} SanitizeStringIdempotent(value: string, maxLength: int)
    requires maxLength >= 0
    ensures SanitizeString(SanitizeString(value, maxLength), maxLength) == SanitizeString(value, maxLength)
  {
    var r := SanitizeString(value, maxLength);
    if r != "" {
      SanitizeClean(r, maxLength);
    }
  }

  /** A non-empty text within the limit, without NUL and already stripped, is left as it is. */
  lemma {:induction false} SanitizeClean(r: string, maxLength: int)
    requires r != "" && |r| <= maxLength && '\0' !in r && Py.IsStripped(r)
    ensures SanitizeString(r, maxLength) == r
  {
    assert Py.Take(r, maxLength) == r;
    ReplaceAbsentChar(r, '\0', "");
    assert Py.Replace(r, "\0", "") == r;
    Py.StripStripped(r);
  }

  // ---------------------------------------------------------------------------
  // The id validators
  // ---------------------------------------------------------------------------

  /** `re.match("^" + P + "$", s)` for a pattern `P` whose language is `whole`: in Python's
      regular expressions `$` matches at the end of the text and also just before a newline
      that ends it. */
  predicate MatchDollar(s: string, whole: string -> bool) {
    whole(s) || (|s| > 0 && s[|s| - 1] == '\n' && whole(s[..|s| - 1]))
  }

  /** The class `[a-zA-Z0-9_-]`. */
  predicate IdChar(c: char) {
    'a' <= c <= 'z' || 'A' <= c <= 'Z' || '0' <= c <= '9' || c == '_' || c == '-'
  }

  /** `[...]+`: one character of the class, then optionally more. */
  function OneOrMore(s: string, cls: char -> bool): (ok: bool)
    ensures ok <==> s != [] && forall i :: 0 <= i < |s| ==> cls(s[i])
    decreases |s|
  {
    if s == [] then false
    else if |s| == 1 then cls(s[0])
    else
      var rest := OneOrMore(s[1..], cls);
      assert rest ==> forall i :: 1 <= i < |s| ==> cls(s[i]) by {
        if rest {
          forall i | 1 <= i < |s| ensures cls(s[i]) {
            assert s[1..][i - 1] == s[i];
          }
        }
      }
      cls(s[0]) && rest
  }

  predicate IdText(s: string) {
    OneOrMore(s, IdChar)
  }

  /** `validate_user_id` as written: at most 100 characters matching `^[a-zA-Z0-9_-]+$`. */
  function ValidateUserIdAsWritten(userId: string): (ok: bool)
    ensures ValidateUserId(userId) ==> ok
    ensures ok ==> 1 <= |userId| <= 100 && forall i :: 0 <= i < |userId| - 1 ==> IdChar(userId[i])
  {
    userId != "" && |userId| <= 100 && MatchDollar(userId, IdText)
  }

  /** `validate_user_id` with the whole text matched (`re.fullmatch`): 1 to 100 characters,
      every one of them a letter, a digit, `_` or `-`. */
  function ValidateUserId(userId: string): (ok: bool)
    ensures ok <==> 1 <= |userId| <= 100 && forall i :: 0 <= i < |userId| ==> IdChar(userId[i])
  {
    userId != "" && |userId| <= 100 && IdText(userId)
  }

  /** The written check accepts exactly the valid ids and the valid ids with one newline after
      them, as long as the whole stays within 100 characters. */
  lemma UserIdAsWrittenIff(userId: string)
    ensures ValidateUserIdAsWritten(userId) <==>
              ValidateUserId(userId) ||
              (2 <= |userId| <= 100 && userId[|userId| - 1] == '\n' && ValidateUserId(userId[..|userId| - 1]))
  {
    if userId != [] {
      var prefix := userId[..|userId| - 1];
      assert MatchDollar(userId, IdText) <==> IdText(userId) || (userId[|userId| - 1] == '\n' && IdText(prefix));
      assert IdText(prefix) ==> prefix != [];
    }
  }

  /** "alice\n" passes the written check but is not an id. */
  lemma UserIdTrailingNewline()
    ensures ValidateUserIdAsWritten("alice\n") && !ValidateUserId("alice\n")
  {
    var u := "alice\n";
    assert u[..5] == "alice";
    assert ValidateUserId(u[..5]);
    assert !IdChar(u[5]);
  }

  /** `[0-9a-f]` under `re.IGNORECASE`. */
  predicate HexChar(c: char) {
    '0' <= c <= '9' || 'a' <= c <= 'f' || 'A' <= c <= 'F'
  }

  predicate AllHex(s: string) {
    forall i :: 0 <= i < |s| ==> HexChar(s[i])
  }

  /** Runs of exactly `runs[0]`, `runs[1]`, … hex digits separated by single dashes:
      `[0-9a-f]{n0}-[0-9a-f]{n1}-…`. */
  predicate Groups(s: string, runs: seq<nat>)
    requires runs != []
    decreases |runs|
  {
    var n := runs[0];
    if |runs| == 1 then |s| == n && AllHex(s)
    else n < |s| && AllHex(s[..n]) && s[n] == '-' && Groups(s[n + 1..], runs[1..])
  }

  const UuidRuns: seq<nat> := [8, 4, 4, 4, 12]

  predicate UuidText(s: string) {
    Groups(s, UuidRuns)
  }

  /** The dash positions of the 8-4-4-4-12 layout. */
  predicate UuidDash(i: int) {
    i == 8 || i == 13 || i == 18 || i == 23
  }

  /** Hex digits in a slice are hex digits of the whole. */
  lemma AllHexSlice(s: string, a: nat, b: nat)
    requires a <= b <= |s|
    ensures AllHex(s[a..b]) <==> forall i :: a <= i < b ==> HexChar(s[i])
  {
    if AllHex(s[a..b]) {
      forall i | a <= i < b ensures HexChar(s[i]) {
        assert s[a..b][i - a] == s[i];
      }
    }
  }

  /** Four groups made of `a` hex digits, a dash and `b` more: the shape behind each step of
      the layout. */
  lemma GroupsTwo(s: string, a: nat, rest: seq<nat>)
    requires rest != []
    ensures Groups(s, [a] + rest) <==>
              a < |s| && AllHex(s[..a]) && s[a] == '-' && Groups(s[a + 1..], rest)
  {
    assert ([a] + rest)[1..] == rest;
  }

  /** `validate_session_id` accepts 36 characters with dashes at 8, 13, 18 and 23 and hex
      digits, in either case, everywhere else. */
  lemma UuidShape(s: string)
    ensures UuidText(s) <==>
              |s| == 36 && forall i :: 0 <= i < 36 ==> (if UuidDash(i) then s[i] == '-' else HexChar(s[i]))
  {
    GroupsTwo(s, 8, [4, 4, 4, 12]);
    if |s| >= 9 {
      var s1 := s[9..];
      GroupsTwo(s1, 4, [4, 4, 12]);
      if |s1| >= 5 {
        var s2 := s1[5..];
        GroupsTwo(s2, 4, [4, 12]);
        if |s2| >= 5 {
          var s3 := s2[5..];
          GroupsTwo(s3, 4, [12]);
          if |s3| >= 5 {
            var s4 := s3[5..];
            assert s4 == s[24..];
            assert s3 == s[19..];
            assert s2 == s[14..];
            assert s3[..4] == s[19..23] && s2[..4] == s[14..18] && s1[..4] == s[9..13];
            AllHexSlice(s, 0, 8);
            AllHexSlice(s, 9, 13);
            AllHexSlice(s, 14, 18);
            AllHexSlice(s, 19, 23);
            if |s| == 36 {
              AllHexSlice(s, 24, 36);
              assert s[24..36] == s4;
            }
          }
        }
      }
    }
  }

  /** `validate_session_id` as written: `^[0-9a-f]{8}-…-[0-9a-f]{12}$`, ignoring case. */
  function ValidateSessionIdAsWritten(sessionId: string): (ok: bool)
    ensures ValidateSessionId(sessionId) ==> ok
    ensures ok ==> |sessionId| == 36 || (|sessionId| == 37 && sessionId[36] == '\n')
  {
    UuidShape(sessionId);
    if sessionId == [] then MatchDollar(sessionId, UuidText)
    else UuidShape(sessionId[..|sessionId| - 1]); MatchDollar(sessionId, UuidText)
  }

  /** `validate_session_id` with the whole text matched. */
  function ValidateSessionId(sessionId: string): (ok: bool)
    ensures ok ==> |sessionId| == 36 && '\n' !in sessionId
  {
    UuidShape(sessionId);
    UuidText(sessionId)
  }

  /** Any valid session id followed by a newline passes the written check and is not an id. */
  lemma SessionIdTrailingNewline(sessionId: string)
    requires ValidateSessionId(sessionId)
    ensures ValidateSessionIdAsWritten(sessionId + "\n")
    ensures !ValidateSessionId(sessionId + "\n")
  {
    assert (sessionId + "\n")[..|sessionId|] == sessionId;
  }

  // ---------------------------------------------------------------------------
  // sanitize_filename and validate_model_name
  // ---------------------------------------------------------------------------

  /** The tokens `sanitize_filename` replaces by "_", in order. */
  const Dangerous: seq<string> := ["/", "\\", "..", "\0", "|", "<", ">", ":", "\"", "?", "*"]

  /** `sanitize_filename`: the last path component, each dangerous token replaced in turn. */
  method SanitizeFilename(filename: string) returns (r: string)
    ensures r == FileService.SafeName(filename, Dangerous)
  {
    r := FileService.SanitizeFilename(filename, Dangerous);
  }

  /** The result is never empty and holds no slash, backslash or NUL, so it names a file inside
      whatever directory it is joined to. */
  lemma SanitizeFilenameSafe(filename: string)
    ensures var r := FileService.SafeName(filename, Dangerous);
      r != "" && '/' !in r && '\\' !in r && '\0' !in r
  {
    var r := FileService.SafeName(filename, Dangerous);
    DangerousAt();
    assert r != "" by {
      NoEmptyToken();
      FileService.SafeNameFacts(filename, Dangerous);
    }
    assert '/' !in r by { TokenAbsent(filename, '/', 0); }
    assert '\\' !in r by { TokenAbsent(filename, '\\', 1); }
    assert '\0' !in r by { TokenAbsent(filename, '\0', 3); }
  }

  /** None of the shell and Windows-reserved characters | < > : " ? * survives either. */
  lemma SanitizeFilenameNoReserved(filename: string)
    ensures var r := FileService.SafeName(filename, Dangerous);
      '|' !in r && '<' !in r && '>' !in r && ':' !in r && '"' !in r && '?' !in r && '*' !in r
  {
    NoShellReserved(filename);
    NoWindowsReserved(filename);
  }

  /** | < > do not survive. */
  lemma NoShellReserved(filename: string)
    ensures var r := FileService.SafeName(filename, Dangerous); '|' !in r && '<' !in r && '>' !in r
  {
    DangerousAt();
    assert '|' !in FileService.SafeName(filename, Dangerous) by { TokenAbsent(filename, '|', 4); }
    assert '<' !in FileService.SafeName(filename, Dangerous) by { TokenAbsent(filename, '<', 5); }
    assert '>' !in FileService.SafeName(filename, Dangerous) by { TokenAbsent(filename, '>', 6); }
  }

  /** : " ? * do not survive. */
  lemma NoWindowsReserved(filename: string)
    ensures var r := FileService.SafeName(filename, Dangerous); ':' !in r && '"' !in r && '?' !in r && '*' !in r
  {
    DangerousAt();
    assert ':' !in FileService.SafeName(filename, Dangerous) by { TokenAbsent(filename, ':', 7); }
    assert '"' !in FileService.SafeName(filename, Dangerous) by { TokenAbsent(filename, '"', 8); }
    assert '?' !in FileService.SafeName(filename, Dangerous) by { TokenAbsent(filename, '?', 9); }
    assert '*' !in FileService.SafeName(filename, Dangerous) by { TokenAbsent(filename, '*', 10); }
  }

  /** An empty name becomes "unnamed_file". */
  lemma SanitizeFilenameEmpty()
    ensures FileService.SafeName("", Dangerous) == FileService.Unnamed
  {
    NoEmptyToken();
    FileService.SafeNameFacts("", Dangerous);
    assert Paths.Name("") == "";
  }

  /** The one-character tokens of the list, by position. */
  lemma DangerousAt()
    ensures |Dangerous| == 11
    ensures Dangerous[0] == ['/'] && Dangerous[1] == ['\\'] && Dangerous[3] == ['\0']
    ensures Dangerous[4] == ['|'] && Dangerous[5] == ['<'] && Dangerous[6] == ['>'] && Dangerous[7] == [':']
    ensures Dangerous[8] == ['"'] && Dangerous[9] == ['?'] && Dangerous[10] == ['*']
  {
  }

  /** A one-character token that is neither a lower-case letter nor "_" is absent. */
  lemma TokenAbsent(filename: string, c: char, k: nat)
    requires k < |Dangerous| && Dangerous[k] == [c] && c != '_' && !('a' <= c <= 'z')
    ensures c !in FileService.SafeName(filename, Dangerous)
  {
    NoEmptyToken();
    UnnamedLetters();
    FileService.Avoids(filename, Dangerous, c, k);
  }

  /** The fallback name is made of lower-case letters and "_". */
  lemma UnnamedLetters()
    ensures forall c :: c in FileService.Unnamed ==> 'a' <= c <= 'z' || c == '_'
  {
    var u := FileService.Unnamed;
    forall c | c in u ensures 'a' <= c <= 'z' || c == '_' {
      var i :| 0 <= i < |u| && u[i] == c;
    }
  }

  lemma NoEmptyToken()
    ensures forall i :: 0 <= i < |Dangerous| ==> Dangerous[i] != ""
  {
  }

  /** A cleaned name over 255 characters keeps its first 200 and its suffix. */
  lemma SanitizeFilenameLong(filename: string)
    ensures var cleaned := FileService.ReplaceAll(Paths.Name(filename), Dangerous);
      |cleaned| > 255 ==> FileService.SafeName(filename, Dangerous) == cleaned[..200] + Paths.Suffix(cleaned)
  {
    FileService.SafeNameFacts(filename, Dangerous);
  }

  /** `validate_model_name`: membership in the whitelist. */
  function ValidateModelName(model: string, allowed: seq<string>): (ok: bool)
    ensures ok <==> exists i :: 0 <= i < |allowed| && allowed[i] == model
  {
    model in allowed
  }

  // ---------------------------------------------------------------------------
  // Redaction
  // ---------------------------------------------------------------------------

  const Redacted: string := "***REDACTED***"

  /** The sensitive key fragments of `redact_sensitive_data`; unlike the logging filter's this
      set holds "key" itself. */
  const SensitiveKeys: set<string> := {
    "password", "passwd", "pwd", "secret", "api_key", "apikey", "token", "access_token",
    "refresh_token", "authorization", "auth", "credit_card", "ssn", "private_key", "key"
  }

  /** A key is sensitive when its lower-case form contains one of the fragments. */
  predicate Sensitive(key: string, fragments: set<string>) {
    exists f :: f in fragments && Py.Contains(Py.Lower(key), f)
  }

  /** Dicts have the values of sensitive keys replaced and the rest redacted in turn, lists
      have every item redacted, and anything else is returned as it is. */
  function Redact(v: Json.Value, fragments: set<string>): (r: Json.Value)
    ensures v.Dict? <==> r.Dict?
    ensures v.List? <==> r.List?
    ensures !v.Dict? && !v.List? ==> r == v
    ensures v.Dict? ==> Json.Keys(r.fields) == Json.Keys(v.fields)
    ensures v.List? ==> |r.items| == |v.items|
    decreases v
  {
    match v
    case Dict(fields) =>
      var fs := seq(|fields|, i requires 0 <= i < |fields| =>
                      (fields[i].0, if Sensitive(fields[i].0, fragments) then Json.Str(Redacted)
                                    else Redact(fields[i].1, fragments)));
      assert Json.Keys(fs) == Json.Keys(fields);
      Json.Dict(fs)
    case List(items) =>
      Json.List(seq(|items|, i requires 0 <= i < |items| => Redact(items[i], fragments)))
    case _ => v
  }

  /** `redact_sensitive_data` */
  function RedactSensitiveData(v: Json.Value): (r: Json.Value)
    ensures Clean(r, SensitiveKeys)
    ensures Clean(v, SensitiveKeys) ==> r == v
  {
    RedactIsClean(v, SensitiveKeys);
    if Clean(v, SensitiveKeys) then RedactClean(v, SensitiveKeys); Redact(v, SensitiveKeys)
    else Redact(v, SensitiveKeys)
  }

  /** A value with nothing left to redact: every sensitive key holds the redaction marker and
      every other value, and every list item, is clean in turn. */
  predicate Clean(v: Json.Value, fragments: set<string>)
    decreases v
  {
    match v
    case Dict(fields) =>
      forall i :: 0 <= i < |fields| ==>
        if Sensitive(fields[i].0, fragments) then fields[i].1 == Json.Str(Redacted)
        else Clean(fields[i].1, fragments)
    case List(items) => forall i :: 0 <= i < |items| ==> Clean(items[i], fragments)
    case _ => true
  }

  /** Redaction leaves nothing sensitive behind. */
  lemma {:induction false} RedactIsClean(v: Json.Value, fragments: set<string>)
    ensures Clean(Redact(v, fragments), fragments)
    decreases v
  {
    match v
    case Dict(fields) =>
      var r := Redact(v, fragments);
      forall i | 0 <= i < |fields| && !Sensitive(fields[i].0, fragments)
        ensures Clean(r.fields[i].1, fragments)
      {
        RedactIsClean(fields[i].1, fragments);
      }
    case List(items) =>
      forall i | 0 <= i < |items| ensures Clean(Redact(v, fragments).items[i], fragments) {
        RedactIsClean(items[i], fragments);
      }
    case _ =>
  }

  /** A clean value is left as it is. */
  lemma {:induction false} RedactClean(v: Json.Value, fragments: set<string>)
    requires Clean(v, fragments)
    ensures Redact(v, fragments) == v
    decreases v
  {
    match v
    case Dict(fields) =>
      var r := Redact(v, fragments);
      forall i | 0 <= i < |fields| ensures r.fields[i] == fields[i] {
        if !Sensitive(fields[i].0, fragments) {
          RedactClean(fields[i].1, fragments);
        }
      }
      assert r.fields == fields;
    case List(items) =>
      var r := Redact(v, fragments);
      forall i | 0 <= i < |items| ensures r.items[i] == items[i] {
        RedactClean(items[i], fragments);
      }
      assert r.items == items;
    case _ =>
  }

  /** Redacting twice is redacting once. */
  lemma RedactIdempotent(v: Json.Value, fragments: set<string>)
    ensures Redact(Redact(v, fragments), fragments) == Redact(v, fragments)
  {
    RedactIsClean(v, fragments);
    RedactClean(Redact(v, fragments), fragments);
  }

  /** A dict field keeps its key and is replaced exactly when the key is sensitive. */
  lemma RedactField(fields: seq<(string, Json.Value)>, fragments: set<string>, i: nat)
    requires i < |fields|
    ensures var r := Redact(Json.Dict(fields), fragments).fields;
      r[i].0 == fields[i].0 &&
      (Sensitive(fields[i].0, fragments) ==> r[i].1 == Json.Str(Redacted)) &&
      (!Sensitive(fields[i].0, fragments) ==> r[i].1 == Redact(fields[i].1, fragments))
  {
  }

  /** Because "key" is one of the fragments, "monkey" is redacted here as much as "api_key". */
  lemma KeyFragmentCatchesAll()
    ensures Sensitive("monkey", SensitiveKeys) && Sensitive("api_key", SensitiveKeys)
  {
    assert "key" in SensitiveKeys;
    ContainsLowered("monkey", "key", 3);
    ContainsLowered("api_key", "key", 4);
  }

  /** A fragment spelled out inside a key without capitals is contained in its lower-case form. */
  lemma ContainsLowered(key: string, f: string, i: nat)
    requires forall j :: 0 <= j < |key| ==> !('A' <= key[j] <= 'Z')
    requires i + |f| <= |key| && key[i..i + |f|] == f
    ensures Py.Contains(Py.Lower(key), f)
  {
    Py.LowerNoUpper(key);
    assert Py.OccursAt(key, f, i);
    Py.ContainsIff(key, f);
  }

  /** Sensitivity ignores case: a key is sensitive exactly when its lower-case form is. */
  lemma SensitiveIgnoresCase(key: string, fragments: set<string>)
    ensures Sensitive(key, fragments) <==> Sensitive(Py.Lower(key), fragments)
  {
    var l := Py.Lower(key);
    assert Py.Lower(l) == l by {
      forall i | 0 <= i < |l| ensures Py.Lower(l)[i] == l[i] {
        assert Py.LowerChar(Py.LowerChar(key[i])) == Py.LowerChar(key[i]);
      }
    }
  }

  // ---------------------------------------------------------------------------
  // RateLimiter
  // ---------------------------------------------------------------------------

  const DefaultMaxRequests: int := 100
  const DefaultWindowSeconds: int := 60

  /** A recorded request: its time and its weight. */
  type Entry = (int, int)

  /** The entries still inside the window at `now`: those less than `window` seconds old. */
  function Live(entries: seq<Entry>, now: int, window: int): (r: seq<Entry>)
    ensures |r| <= |entries|
    ensures forall e :: e in r <==> e in entries && now - e.0 < window
    decreases |entries|
  {
    if entries == [] then []
    else
      var rest := Live(entries[1..], now, window);
      assert forall e :: e in entries <==> e == entries[0] || e in entries[1..];
      if now - entries[0].0 < window then [entries[0]] + rest else rest
  }

  /** The summed weights of the entries. */
  function Total(entries: seq<Entry>): int
    decreases |entries|
  {
    if entries == [] then 0 else entries[0].1 + Total(entries[1..])
  }

  /** Every entry has weight 1, as the limiter only ever records `(now, 1)`. */
  predicate UnitWeights(entries: seq<Entry>) {
    forall i :: 0 <= i < |entries| ==> entries[i].1 == 1
  }

  /** With unit weights the total is the number of entries. */
  lemma {:induction false} TotalUnit(entries: seq<Entry>)
    requires UnitWeights(entries)
    ensures Total(entries) == |entries|
    decreases |entries|
  {
    if entries != [] {
      assert UnitWeights(entries[1..]) by {
        forall i | 0 <= i < |entries| - 1 ensures entries[1..][i].1 == 1 {
          assert entries[1..][i] == entries[i + 1];
        }
      }
      TotalUnit(entries[1..]);
    }
  }

  /** Filtering keeps unit weights. */
  lemma {:induction false} LiveUnit(entries: seq<Entry>, now: int, window: int)
    requires UnitWeights(entries)
    ensures UnitWeights(Live(entries, now, window))
  {
    var r := Live(entries, now, window);
    forall i | 0 <= i < |r| ensures r[i].1 == 1 {
      assert r[i] in entries;
    }
  }

  class RateLimiter {
    const maxRequests: int
    const windowSeconds: int
    /** `key -> [(timestamp, count)]` */
    var requests: map<string, seq<Entry>>

    /** Each key's history holds unit-weight entries, never more of them than the limit allows. */
    ghost predicate Valid()
      reads this
    {
      forall k :: k in requests ==>
        UnitWeights(requests[k]) && |requests[k]| <= (if maxRequests < 0 then 0 else maxRequests)
    }

    constructor(maxRequests: int, windowSeconds: int)
      ensures Valid()
      ensures this.maxRequests == maxRequests && this.windowSeconds == windowSeconds
      ensures requests == map[]
    {
      this.maxRequests := maxRequests;
      this.windowSeconds := windowSeconds;
      requests := map[];
    }

    /** `is_allowed(key)` at time `now`: the key's history is cut to the live window; the request
        is refused when the live total has reached the limit, and otherwise recorded and allowed.
        Other keys are untouched. */
    method IsAllowed(key: string, now: int) returns (allowed: bool)
      requires Valid()
      modifies this
      ensures Valid()
      ensures var live := if key in old(requests) then Live(old(requests)[key], now, windowSeconds) else [];
        (allowed <==> Total(live) < maxRequests) &&
        requests == old(requests)[key := if allowed then live + [(now, 1)] else live]
    {
      var live: seq<Entry>;
      if key in requests {
        live := Live(requests[key], now, windowSeconds);
        LiveUnit(requests[key], now, windowSeconds);
      } else {
        live := [];
      }
      TotalUnit(live);
      var total := Total(live);
      if total >= maxRequests {
        requests := requests[key := live];
        return false;
      }
      var recorded := live + [(now, 1)];
      assert UnitWeights(recorded) by {
        forall i | 0 <= i < |recorded| ensures recorded[i].1 == 1 {
          if i < |live| {
            assert recorded[i] == live[i];
          }
        }
      }
      requests := requests[key := recorded];
      allowed := true;
    }

    /** `reset(key)`: that key's history is forgotten and no other. */
    method Reset(key: string)
      requires Valid()
      modifies this
      ensures Valid()
      ensures requests == old(requests) - {key}
    {
      if key in requests {
        requests := requests - {key};
      }
    }
  }

  /** The limiter's promise across a request: whatever the history, the key holds at most
      `max_requests` entries inside any window afterwards, and a request is refused exactly when
      that many were already live. */
  lemma LimitHolds(entries: seq<Entry>, now: int, window: int, maxRequests: int)
    requires UnitWeights(entries)
    ensures var live := Live(entries, now, window);
      Total(live) == |live| <= |entries| &&
      (|live| < maxRequests ==> |live + [(now, 1)]| <= maxRequests)
  {
    LiveUnit(entries, now, window);
    TotalUnit(Live(entries, now, window));
  }

  /** The response headers every reply carries. */
  const SecurityHeaders: seq<(string, string)> := [
    ("X-Content-Type-Options", "nosniff"),
    ("X-Frame-Options", "DENY"),
    ("X-XSS-Protection", "1; mode=block"),
    ("Strict-Transport-Security", "max-age=31536000; includeSubDomains"),
    ("Content-Security-Policy", "default-src 'self'")
  ]
}
