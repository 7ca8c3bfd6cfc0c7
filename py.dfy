/** The parts of Python's built-in `str`, `int` and slicing semantics that the repository relies on.
    Strings are sequences of Unicode scalar values, as Python strings are (lone surrogates aside). */
module Py {
  import opened Wrappers

  // ---------------------------------------------------------------------------
  // Slicing with Python's index rules
  // ---------------------------------------------------------------------------

  /** The position Python uses for a slice bound `n` on a sequence of length `len`:
      negative bounds count from the end, and every bound is clamped to `0..len`. */
  function SliceIndex(len: nat, n: int): (k: nat)
    ensures k <= len
    ensures 0 <= n <= len ==> k == n
    ensures n > len ==> k == len
    ensures n < 0 ==> k == (if len + n < 0 then 0 else len + n)
  {
    if n < 0 then (if len + n < 0 then 0 else len + n) else if n > len then len else n
  }

  /** `s[:n]` */
  function Take<T>(s: seq<T>, n: int): seq<T> {
    s[..SliceIndex(|s|, n)]
  }

  /** `s[n:]` */
  function Drop<T>(s: seq<T>, n: int): seq<T> {
    s[SliceIndex(|s|, n)..]
  }

  /** `s[-n:]` keeps the last `n` elements when `1 <= n`, and the whole sequence when `n == 0`
      (because `-0 == 0`). */
  lemma {:induction false} DropNegative<T>(s: seq<T>, n: nat)
    ensures |Drop(s, -(n as int))| == (if n == 0 || n > |s| then |s| else n)
    ensures Drop(s, -(n as int)) == s[|s| - |Drop(s, -(n as int))|..]
  {
  }

  // ---------------------------------------------------------------------------
  // Whitespace and stripping
  // ---------------------------------------------------------------------------

  /** `c.isspace()`: the characters Python treats as whitespace. */
  predicate IsSpace(c: char) {
    c == ' ' || ('\t' <= c <= '\r') || ('\U{1C}' <= c <= '\U{1F}') || c == '\U{85}' || c == '\U{A0}'
    || c == '\U{1680}' || ('\U{2000}' <= c <= '\U{200A}') || c == '\U{2028}' || c == '\U{2029}'
    || c == '\U{202F}' || c == '\U{205F}' || c == '\U{3000}'
  }

  predicate AllSpace(s: string) {
    forall i :: 0 <= i < |s| ==> IsSpace(s[i])
  }

  predicate NoSpace(s: string) {
    forall i :: 0 <= i < |s| ==> !IsSpace(s[i])
  }

  /** Neither end of `s` is whitespace. */
  predicate IsStripped(s: string) {
    s == [] || (!IsSpace(s[0]) && !IsSpace(s[|s| - 1]))
  }

  /** `s.lstrip()` */
  function LStrip(s: string): (r: string)
    ensures |r| <= |s| && r == s[|s| - |r|..]
    ensures forall i :: 0 <= i < |s| - |r| ==> IsSpace(s[i])
    ensures r == [] || !IsSpace(r[0])
  {
    if |s| > 0 && IsSpace(s[0]) then
      var r := LStrip(s[1..]);
      assert forall i :: 1 <= i < |s| - |r| ==> s[i] == s[1..][i - 1];
      r
    else s
  }

  /** `s.rstrip()` */
  function RStrip(s: string): (r: string)
    ensures |r| <= |s| && r == s[..|r|]
    ensures forall i :: |r| <= i < |s| ==> IsSpace(s[i])
    ensures r == [] || !IsSpace(r[|r| - 1])
  {
    if |s| > 0 && IsSpace(s[|s| - 1]) then
      var r := RStrip(s[..|s| - 1]);
      assert forall i :: |r| <= i < |s| - 1 ==> s[i] == s[..|s| - 1][i];
      r
    else s
  }

  /** `s.strip()`: `s` without its leading and trailing whitespace. */
  function Strip(s: string): (r: string)
    ensures IsStripped(r)
    ensures |r| <= |s|
    ensures r == [] <==> AllSpace(s)
  {
    StripEnds(s);
    RStrip(LStrip(s))
  }

  lemma {:induction false} StripEnds(s: string)
    ensures var r := RStrip(LStrip(s)); IsStripped(r) && (r == [] <==> AllSpace(s))
  {
    var l := LStrip(s);
    var r := RStrip(l);
    var k := |s| - |l|;
    if r == [] {
      assert l == [];
      assert AllSpace(s);
    } else {
      assert r[0] == l[0] == s[k];
      assert !IsSpace(s[k]);
    }
  }

  /** `Strip(s)` is a slice `s[i..i + |Strip(s)|]` with only whitespace around it. */
  lemma {:induction false} StripSlice(s: string) returns (i: nat)
    ensures i + |Strip(s)| <= |s|
    ensures Strip(s) == s[i..i + |Strip(s)|]
    ensures AllSpace(s[..i]) && AllSpace(s[i + |Strip(s)|..])
  {
    var l := LStrip(s);
    var r := RStrip(l);
    assert Strip(s) == r;
    i := |s| - |l|;
    assert AllSpace(s[..i]) by { LStripPrefix(s); }
    assert AllSpace(l[|r|..]) by { RStripSuffix(l); }
    SliceAround(s, l, r, i);
  }

  /** A prefix `r` of the suffix `l == s[i..]` is the slice of `s` at `i`, with what follows it
      in `l` also following it in `s`. */
  lemma {:induction false} SliceAround(s: string, l: string, r: string, i: nat)
    requires i <= |s| && l == s[i..] && |r| <= |l| && r == l[..|r|]
    requires AllSpace(l[|r|..])
    ensures i + |r| <= |s| && r == s[i..i + |r|] && AllSpace(s[i + |r|..])
  {
    SliceOfSlice(s, i, |r|);
  }

  lemma SliceOfSlice<T>(s: seq<T>, i: nat, k: nat)
    requires i + k <= |s|
    ensures s[i..][..k] == s[i..i + k]
    ensures s[i..][k..] == s[i + k..]
  {
  }

  lemma LStripPrefix(s: string)
    ensures AllSpace(s[..|s| - |LStrip(s)|])
  {
    var p := s[..|s| - |LStrip(s)|];
    forall k | 0 <= k < |p| ensures IsSpace(p[k]) {
      assert p[k] == s[k];
    }
  }

  lemma RStripSuffix(s: string)
    ensures AllSpace(s[|RStrip(s)|..])
  {
    var n := |RStrip(s)|;
    var q := s[n..];
    forall k | 0 <= k < |q| ensures IsSpace(q[k]) {
      assert q[k] == s[n + k];
    }
  }

  /** The non-whitespace characters of `s`, in order. */
  function NonSpace(s: string): (r: string)
    ensures |r| <= |s|
    ensures NoSpace(r)
  {
    if s == [] then [] else (if IsSpace(s[0]) then [] else [s[0]]) + NonSpace(s[1..])
  }

  lemma {:induction false} NonSpaceAppend(a: string, b: string)
    ensures NonSpace(a + b) == NonSpace(a) + NonSpace(b)
  {
    if a != [] {
      var head := if IsSpace(a[0]) then [] else [a[0]];
      assert (a + b)[0] == a[0];
      assert (a + b)[1..] == a[1..] + b;
      NonSpaceAppend(a[1..], b);
      calc {
        NonSpace(a + b);
        head + NonSpace(a[1..] + b);
        head + (NonSpace(a[1..]) + NonSpace(b));
        (head + NonSpace(a[1..])) + NonSpace(b);
        NonSpace(a) + NonSpace(b);
      }
    } else {
      assert a + b == b;
    }
  }

  lemma {:induction false} NonSpaceOfSpaces(s: string)
    requires AllSpace(s)
    ensures NonSpace(s) == []
  {
    if s != [] {
      NonSpaceOfSpaces(s[1..]);
    }
  }

  /** Stripping loses only whitespace. */
  lemma {:induction false} StripKeepsNonSpace(s: string)
    ensures NonSpace(Strip(s)) == NonSpace(s)
  {
    var i := StripSlice(s);
    var j := i + |Strip(s)|;
    Split3(s, i, j);
    NonSpaceAround(s[..i], s[i..j], s[j..]);
  }

  /** A sequence is the concatenation of its three slices. */
  lemma Split3<T>(s: seq<T>, i: nat, j: nat)
    requires i <= j <= |s|
    ensures s == s[..i] + s[i..j] + s[j..]
  {
  }

  /** Whitespace around a text adds no visible characters. */
  lemma {:induction false} NonSpaceAround(pre: string, r: string, post: string)
    requires AllSpace(pre) && AllSpace(post)
    ensures NonSpace(pre + r + post) == NonSpace(r)
  {
    NonSpaceAppend(pre + r, post);
    NonSpaceAppend(pre, r);
    NonSpaceOfSpaces(pre);
    NonSpaceOfSpaces(post);
    calc {
      NonSpace(pre + r + post);
      NonSpace(pre + r) + NonSpace(post);
      NonSpace(pre) + NonSpace(r) + NonSpace(post);
      NonSpace(r);
    }
  }

  /** Stripping a string without whitespace at its ends changes nothing. */
  lemma {:induction false} StripStripped(s: string)
    requires IsStripped(s)
    ensures Strip(s) == s
  {
    if s != [] {
      assert !IsSpace(s[0]) && !IsSpace(s[|s| - 1]);
      assert LStrip(s) == s;
      assert RStrip(s) == s;
    }
  }

  // ---------------------------------------------------------------------------
  // Case, prefixes and substrings
  // ---------------------------------------------------------------------------

  /** Stripping keeps a prefix that starts and ends with visible characters. */
  lemma {:induction false} StripKeepsPrefix(s: string, p: string)
    requires StartsWith(s, p) && p != [] && !IsSpace(p[0]) && !IsSpace(p[|p| - 1])
    ensures StartsWith(Strip(s), p)
  {
    var i := StripSlice(s);
    var r := Strip(s);
    assert s[0] == s[..|p|][0] == p[0];
    assert s[|p| - 1] == s[..|p|][|p| - 1] == p[|p| - 1];
    assert i == 0;
    assert |r| >= |p|;
    assert r[..|p|] == s[..|p|];
  }

  /** Lower-casing of one character (ASCII letters only). */
  function LowerChar(c: char): char {
    if 'A' <= c <= 'Z' then (c as int + 32) as char else c
  }

  /** `s.lower()` restricted to ASCII letters. */
  function Lower(s: string): (r: string)
    ensures |r| == |s|
    ensures forall i :: 0 <= i < |s| ==> r[i] == LowerChar(s[i])
  {
    seq(|s|, i requires 0 <= i < |s| => LowerChar(s[i]))
  }

  /** Lower-casing leaves a text without capitals alone. */
  lemma LowerNoUpper(s: string)
    requires forall i :: 0 <= i < |s| ==> !('A' <= s[i] <= 'Z')
    ensures Lower(s) == s
  {
  }

  /** `s.upper()` restricted to ASCII letters. */
  function Upper(s: string): (r: string)
    ensures |r| == |s|
  {
    seq(|s|, i requires 0 <= i < |s| => if 'a' <= s[i] <= 'z' then (s[i] as int - 32) as char else s[i])
  }

  /** `s.startswith(p)` */
  predicate StartsWith(s: string, p: string) {
    |p| <= |s| && s[..|p|] == p
  }

  /** Appending keeps a prefix. */
  lemma StartsWithAppend(s: string, t: string, p: string)
    requires StartsWith(s, p)
    ensures StartsWith(s + t, p)
  {
    assert (s + t)[..|p|] == s[..|p|];
  }

  /** `s.endswith(p)` */
  predicate EndsWith(s: string, p: string) {
    |p| <= |s| && s[|s| - |p|..] == p
  }

  /** A text ends with what was appended last. */
  lemma EndsWithAppend(s: string, p: string)
    ensures EndsWith(s + p, p)
  {
    assert (s + p)[|s|..] == p;
  }

  /** `p` occurs in `s` at index `i`. */
  predicate OccursAt(s: string, p: string, i: int) {
    0 <= i && i + |p| <= |s| && s[i..i + |p|] == p
  }

  function FindFrom(s: string, p: string, i: nat): (r: int)
    requires i <= |s|
    decreases |s| - i
    ensures r == -1 || (i <= r && OccursAt(s, p, r))
    ensures r >= 0 ==> forall j :: i <= j < r ==> !OccursAt(s, p, j)
    ensures r == -1 ==> forall j :: i <= j ==> !OccursAt(s, p, j)
  {
    if i + |p| > |s| then -1
    else if s[i..i + |p|] == p then i
    else if i == |s| then -1
    else FindFrom(s, p, i + 1)
  }

  /** `s.find(p)`: the lowest index at which `p` occurs, or -1. */
  function Find(s: string, p: string): (r: int)
    ensures r == -1 || OccursAt(s, p, r)
    ensures r >= 0 ==> forall j :: 0 <= j < r ==> !OccursAt(s, p, j)
    ensures r == -1 ==> forall j :: !OccursAt(s, p, j)
  {
    FindFrom(s, p, 0)
  }

  function RFindBelow(s: string, p: string, i: int): (r: int)
    requires i + |p| <= |s|
    decreases i + 1
    ensures r == -1 || (r <= i && OccursAt(s, p, r))
    ensures r >= 0 ==> forall j :: r < j <= i ==> !OccursAt(s, p, j)
    ensures r == -1 ==> forall j :: j <= i ==> !OccursAt(s, p, j)
  {
    if i < 0 then -1
    else if s[i..i + |p|] == p then i
    else RFindBelow(s, p, i - 1)
  }

  /** `s.rfind(p)`: the highest index at which `p` occurs, or -1. */
  function RFind(s: string, p: string): (r: int)
    ensures r == -1 || OccursAt(s, p, r)
    ensures r >= 0 ==> forall j :: r < j ==> !OccursAt(s, p, j)
    ensures r == -1 ==> forall j :: !OccursAt(s, p, j)
  {
    if |p| > |s| then -1 else RFindBelow(s, p, |s| - |p|)
  }

  /** `p in s` */
  predicate Contains(s: string, p: string) {
    Find(s, p) >= 0
  }

  lemma {:induction false} ContainsIff(s: string, p: string)
    ensures Contains(s, p) <==> exists j :: OccursAt(s, p, j)
  {
  }

  /** A one-character needle occurs exactly where that character sits. */
  lemma {:induction false} ContainsChar(s: string, c: char)
    ensures Contains(s, [c]) <==> c in s
  {
    if c in s {
      var j :| 0 <= j < |s| && s[j] == c;
      assert s[j..j + 1] == [c];
      assert OccursAt(s, [c], j);
    }
    if Contains(s, [c]) {
      var j := Find(s, [c]);
      assert s[j..j + 1][0] == s[j];
    }
  }

  /** A substring of `s[a..b]` is a substring of `s`. */
  lemma {:induction false} ContainsSlice(s: string, p: string, a: nat, b: nat)
    requires a <= b <= |s|
    requires Contains(s[a..b], p)
    ensures Contains(s, p)
  {
    var t := s[a..b];
    var j := Find(t, p);
    assert OccursAt(t, p, j);
    assert j + |p| <= |t|;
    var u := t[j..j + |p|];
    var v := s[a + j..a + j + |p|];
    assert forall k :: 0 <= k < |p| ==> u[k] == v[k];
    assert u == v;
    assert OccursAt(s, p, a + j);
  }

  /** A substring of a substring is a substring. */
  lemma {:induction false} ContainsTrans(s: string, p: string, q: string)
    requires Contains(s, p) && Contains(p, q)
    ensures Contains(s, q)
  {
    var j := Find(s, p);
    assert s[j..j + |p|] == p;
    ContainsSlice(s, q, j, j + |p|);
  }

  /** `p` occurs at `i`, so `p in s`. */
  lemma {:induction false} ContainsAt(s: string, p: string, i: nat)
    requires OccursAt(s, p, i)
    ensures Contains(s, p)
  {
  }

  /** `s.count(p)`: non-overlapping occurrences, scanning left to right. */
  function Count(s: string, p: string): (r: nat)
    decreases |s|
  {
    if p == [] then |s| + 1
    else
      var i := Find(s, p);
      if i < 0 then 0 else 1 + Count(s[i + |p|..], p)
  }

  lemma {:induction false} CountZero(s: string, p: string)
    requires p != []
    ensures Count(s, p) == 0 <==> !Contains(s, p)
  {
  }

  /** `s.replace(pat, rep)` with a non-empty `pat`, or the insertion Python performs for an empty one. */
  function Replace(s: string, pat: string, rep: string): (r: string)
    decreases |s|
  {
    if pat == [] then
      (if s == [] then rep else rep + [s[0]] + Replace(s[1..], pat, rep))
    else
      var i := Find(s, pat);
      if i < 0 then s else s[..i] + rep + Replace(s[i + |pat|..], pat, rep)
  }

  /** After replacing a character with text that does not contain it, the character is gone. */
  lemma {:induction false} ReplaceRemovesChar(s: string, c: char, rep: string)
    requires c !in rep
    ensures c !in Replace(s, [c], rep)
    decreases |s|
  {
    var i := Find(s, [c]);
    if i < 0 {
      NoCharReplace(s, c, rep);
    } else {
      ReplaceRemovesChar(s[i + 1..], c, rep);
      RemovesCharStep(s, c, rep, i);
    }
  }

  /** Without an occurrence, the text comes back as it was, and it never held the character. */
  lemma {:induction false} NoCharReplace(s: string, c: char, rep: string)
    requires Find(s, [c]) < 0
    ensures c !in Replace(s, [c], rep)
  {
    assert c !in s by { ContainsChar(s, c); }
    assert Replace(s, [c], rep) == s;
  }

  /** The first occurrence replaced, the character is gone as long as it is gone from the rest. */
  lemma {:induction false} RemovesCharStep(s: string, c: char, rep: string, i: int)
    requires i == Find(s, [c]) && i >= 0 && c !in rep
    requires c !in Replace(s[i + 1..], [c], rep)
    ensures c !in Replace(s, [c], rep)
  {
    var rest := s[i + 1..];
    assert c !in s[..i] by { BeforeFirstChar(s, c, i); }
    assert Replace(s, [c], rep) == s[..i] + rep + Replace(rest, [c], rep) by { ReplaceStep(s, [c], rep); }
    NotInAppend(s[..i], rep, c);
    NotInAppend(s[..i] + rep, Replace(rest, [c], rep), c);
  }

  /** The text before the first occurrence of a character does not hold it. */
  lemma {:induction false} BeforeFirstChar(s: string, c: char, i: int)
    requires i == Find(s, [c]) && i >= 0
    ensures c !in s[..i]
  {
    forall j | 0 <= j < i ensures s[..i][j] != c {
      assert !OccursAt(s, [c], j);
      assert s[j..j + 1] == [s[j]];
    }
  }

  /** One step of a replacement: the text before the first occurrence, the replacement, and the
      rest replaced in turn. */
  lemma ReplaceStep(s: string, pat: string, rep: string)
    requires pat != [] && Find(s, pat) >= 0
    ensures Replace(s, pat, rep) == s[..Find(s, pat)] + rep + Replace(s[Find(s, pat) + |pat|..], pat, rep)
  {
  }

  /** Replacing text that does not contain `c` by text that does not contain `c` adds no `c`. */
  lemma {:induction false} ReplaceKeepsAbsent(s: string, pat: string, rep: string, c: char)
    requires pat != [] && c !in s && c !in rep
    ensures c !in Replace(s, pat, rep)
    decreases |s|
  {
    var i := Find(s, pat);
    if i >= 0 {
      NotInSlice(s, c, i + |pat|);
      ReplaceKeepsAbsent(s[i + |pat|..], pat, rep, c);
      KeepsAbsentStep(s, pat, rep, c, i);
    }
  }

  /** The first occurrence replaced, no `c` appears as long as none appears in the rest. */
  lemma {:induction false} KeepsAbsentStep(s: string, pat: string, rep: string, c: char, i: int)
    requires pat != [] && c !in s && c !in rep && i == Find(s, pat) && i >= 0
    requires c !in Replace(s[i + |pat|..], pat, rep)
    ensures c !in Replace(s, pat, rep)
  {
    var rest := s[i + |pat|..];
    NotInPrefix(s, c, i);
    assert Replace(s, pat, rep) == s[..i] + rep + Replace(rest, pat, rep) by { ReplaceStep(s, pat, rep); }
    NotInAppend(s[..i], rep, c);
    NotInAppend(s[..i] + rep, Replace(rest, pat, rep), c);
  }

  lemma NotInSlice(s: string, c: char, a: nat)
    requires c !in s && a <= |s|
    ensures c !in s[a..]
  {
    forall k | 0 <= k < |s[a..]| ensures s[a..][k] != c {
      assert s[a..][k] == s[a + k];
    }
  }

  lemma NotInPrefix(s: string, c: char, a: nat)
    requires c !in s && a <= |s|
    ensures c !in s[..a]
  {
    forall k | 0 <= k < a ensures s[..a][k] != c {
      assert s[..a][k] == s[k];
    }
  }

  lemma NotInAppend(a: string, b: string, c: char)
    requires c !in a && c !in b
    ensures c !in a + b
  {
  }

  // ---------------------------------------------------------------------------
  // Splitting and joining
  // ---------------------------------------------------------------------------

  /** `s.split(sep)`; Python refuses an empty separator. */
  function Split(s: string, sep: string): (r: seq<string>)
    requires sep != []
    ensures |r| >= 1
    decreases |s|
  {
    var i := Find(s, sep);
    if i < 0 then [s] else [s[..i]] + Split(s[i + |sep|..], sep)
  }

  /** `sep.join(parts)` */
  function Join(sep: string, parts: seq<string>): string {
    if parts == [] then "" else if |parts| == 1 then parts[0] else parts[0] + sep + Join(sep, parts[1..])
  }

  lemma {:induction false} JoinCons(sep: string, x: string, parts: seq<string>)
    requires |parts| >= 1
    ensures Join(sep, [x] + parts) == x + sep + Join(sep, parts)
  {
    assert ([x] + parts)[1..] == parts;
  }

  /** A join starts with its first part. */
  lemma {:induction false} JoinStarts(sep: string, parts: seq<string>)
    requires parts != []
    ensures StartsWith(Join(sep, parts), parts[0])
  {
    if |parts| > 1 {
      var j := Join(sep, parts);
      assert j == parts[0] + (sep + Join(sep, parts[1..]));
      assert j[..|parts[0]|] == parts[0];
    }
  }

  lemma {:induction false} JoinSplit(s: string, sep: string)
    requires sep != []
    ensures Join(sep, Split(s, sep)) == s
    decreases |s|
  {
    var i := Find(s, sep);
    if i >= 0 {
      var rest := s[i + |sep|..];
      var parts := Split(rest, sep);
      JoinSplit(rest, sep);
      assert Split(s, sep) == [s[..i]] + parts;
      JoinCons(sep, s[..i], parts);
      assert s[i..i + |sep|] == sep;
      assert s == s[..i] + s[i..i + |sep|] + rest;
    }
  }

  /** No element of `Split(s, sep)` contains the separator. */
  lemma {:induction false} SplitPartsAvoidSep(s: string, sep: string)
    requires sep != []
    ensures forall k :: 0 <= k < |Split(s, sep)| ==> !Contains(Split(s, sep)[k], sep)
    decreases |s|
  {
    var i := Find(s, sep);
    if i >= 0 {
      SplitPartsAvoidSep(s[i + |sep|..], sep);
      if Contains(s[..i], sep) {
        ContainsSlice(s, sep, 0, i);
        var j := Find(s[..i], sep);
        assert s[..i][j..j + |sep|] == s[j..j + |sep|];
        assert OccursAt(s, sep, j);
        assert false;
      }
    }
  }

  /** Joining parts that avoid a one-character separator and splitting again gives the parts back. */
  lemma {:induction false} SplitJoin(parts: seq<string>, c: char)
    requires |parts| >= 1
    requires forall k :: 0 <= k < |parts| ==> c !in parts[k]
    ensures Split(Join([c], parts), [c]) == parts
  {
    var p0 := parts[0];
    ContainsChar(p0, c);
    if |parts| == 1 {
      assert Join([c], parts) == p0;
    } else {
      var rest := parts[1..];
      var s := Join([c], parts);
      assert s == p0 + [c] + Join([c], rest);
      assert OccursAt(s, [c], |p0|) by {
        assert s[|p0|..|p0| + 1] == [c];
      }
      var i := Find(s, [c]);
      assert i == |p0|;
      assert s[..i] == p0;
      assert s[i + 1..] == Join([c], rest);
      SplitJoin(rest, c);
      assert parts == [p0] + rest;
    }
  }

  /** The length of the leading run of non-whitespace characters. */
  function TokenLen(t: string): (n: nat)
    ensures n <= |t|
    ensures NoSpace(t[..n])
    ensures n < |t| ==> IsSpace(t[n])
  {
    if t == [] || IsSpace(t[0]) then 0
    else
      var n := TokenLen(t[1..]);
      assert t[..n + 1] == [t[0]] + t[1..][..n];
      n + 1
  }

  lemma {:induction false} LStripEmpty(s: string)
    ensures LStrip(s) == [] <==> AllSpace(s)
  {
    var t := LStrip(s);
    if t == [] {
      assert s[..|s|] == s;
    } else {
      assert s[|s| - |t|] == t[0];
    }
  }

  /** `s.split()` with no argument: the maximal runs of non-whitespace characters. */
  function SplitWs(s: string): (r: seq<string>)
    ensures forall k :: 0 <= k < |r| ==> r[k] != [] && NoSpace(r[k])
    decreases |s|
  {
    if s == [] then []
    else if IsSpace(s[0]) then SplitWs(s[1..])
    else
      var n := TokenLen(s);
      [s[..n]] + SplitWs(s[n..])
  }

  /** `s.split()` is empty exactly when `s` is all whitespace. */
  lemma {:induction false} SplitWsEmpty(s: string)
    ensures SplitWs(s) == [] <==> AllSpace(s)
    decreases |s|
  {
    if s != [] && IsSpace(s[0]) {
      SplitWsEmpty(s[1..]);
      if AllSpace(s[1..]) {
        forall i | 0 <= i < |s| ensures IsSpace(s[i]) {
          if i > 0 {
            assert s[i] == s[1..][i - 1];
          }
        }
      }
    }
  }

  /** A line boundary for `str.splitlines()` ("\r\n" counts as one). */
  predicate IsLineBreak(c: char) {
    c == '\n' || c == '\r' || c == '\U{0B}' || c == '\U{0C}' || ('\U{1C}' <= c <= '\U{1E}')
    || c == '\U{85}' || c == '\U{2028}' || c == '\U{2029}'
  }

  function LineLen(s: string): (n: nat)
    ensures n <= |s|
    ensures forall i :: 0 <= i < n ==> !IsLineBreak(s[i])
    ensures n < |s| ==> IsLineBreak(s[n])
  {
    if s == [] || IsLineBreak(s[0]) then 0 else 1 + LineLen(s[1..])
  }

  /** `s.splitlines()`: lines without their terminators, and no final empty line for a trailing break. */
  function SplitLines(s: string): (r: seq<string>)
    ensures forall k :: 0 <= k < |r| ==> forall i :: 0 <= i < |r[k]| ==> !IsLineBreak(r[k][i])
    ensures s == [] <==> r == []
    decreases |s|
  {
    if s == [] then []
    else
      var n := LineLen(s);
      var skip := if n == |s| then 0 else if s[n] == '\r' && n + 1 < |s| && s[n + 1] == '\n' then 2 else 1;
      [s[..n]] + SplitLines(s[n + skip..])
  }

  /** Without any line-break character, `splitlines` returns the text as its only line. */
  lemma {:induction false} SplitLinesSingle(s: string)
    requires s != [] && forall i :: 0 <= i < |s| ==> !IsLineBreak(s[i])
    ensures SplitLines(s) == [s]
  {
    var n := LineLen(s);
    assert n == |s|;
    assert s[..n] == s && s[n..] == [];
  }

  // ---------------------------------------------------------------------------
  // Integers as text
  // ---------------------------------------------------------------------------

  /** An ASCII decimal digit. Python's `int()` also reads other Unicode decimal digits; the model
      does not. */
  predicate IsDigit(c: char) {
    '0' <= c <= '9'
  }

  predicate AllDigits(s: string) {
    forall i :: 0 <= i < |s| ==> IsDigit(s[i])
  }

  function DigitChar(d: nat): (c: char)
    requires d < 10
    ensures IsDigit(c) && c as int - '0' as int == d
  {
    ('0' as int + d) as char
  }

  /** The decimal digits of `n` without leading zeros. */
  function NatToString(n: nat): (r: string)
    ensures |r| >= 1 && AllDigits(r)
    ensures r[0] != '0' || n == 0
    decreases n
  {
    if n < 10 then [DigitChar(n)] else NatToString(n / 10) + [DigitChar(n % 10)]
  }

  /** `str(i)` for an int. */
  function IntToString(i: int): (r: string)
    ensures r != [] && !IsSpace(r[0]) && IsDigit(r[|r| - 1])
  {
    if i < 0 then "-" + NatToString(-i) else NatToString(i)
  }

  /** The value of a digit literal: each digit shifts the value one decimal place, and
      underscores are skipped. */
  function LiteralValue(b: string): int {
    if b == [] then 0
    else if b[|b| - 1] == '_' then LiteralValue(b[..|b| - 1])
    else LiteralValue(b[..|b| - 1]) * 10 + (b[|b| - 1] as int - '0' as int)
  }

  lemma {:induction false} NatToStringValue(n: nat)
    ensures LiteralValue(NatToString(n)) == n
    decreases n
  {
    if n >= 10 {
      var s := NatToString(n);
      assert s[..|s| - 1] == NatToString(n / 10);
      NatToStringValue(n / 10);
    }
  }

  /** The digits of a literal such as `1_000`: digits, with single underscores between digits. */
  predicate WellFormedDigits(b: string) {
    |b| > 0 && IsDigit(b[0]) && IsDigit(b[|b| - 1])
    && forall i :: 0 <= i < |b| ==> DigitOrJoiner(b, i)
  }

  /** Position `i` holds a digit, or an underscore followed by a digit. */
  predicate DigitOrJoiner(b: string, i: nat)
    requires i < |b|
  {
    IsDigit(b[i]) || (b[i] == '_' && i + 1 < |b| && IsDigit(b[i + 1]))
  }

  /** `int(s)` for a string: surrounding whitespace is skipped one character at a time, then
      the rest must be a literal of ASCII digits; None stands for the ValueError Python raises
      on anything else, and also for a literal of non-ASCII decimal digits, which Python reads. */
  function ParseInt(s: string): Option<int>
    decreases |s|
  {
    if |s| > 0 && IsSpace(s[0]) then ParseInt(s[1..])
    else if |s| > 0 && IsSpace(s[|s| - 1]) then ParseInt(s[..|s| - 1])
    else ParseLiteral(s)
  }

  /** A stripped integer literal: an optional sign, then decimal digits. */
  function ParseLiteral(t: string): Option<int> {
    var signed := |t| > 0 && (t[0] == '-' || t[0] == '+');
    var body := if signed then t[1..] else t;
    if WellFormedDigits(body) then
      var v := LiteralValue(body);
      Some(if signed && t[0] == '-' then -v else v)
    else None
  }

  /** `int(s)` reads the literal that `s.strip()` leaves. */
  lemma {:induction false} ParseIntStrip(s: string)
    ensures ParseInt(s) == ParseLiteral(Strip(s))
    decreases |s|
  {
    if |s| > 0 && IsSpace(s[0]) {
      ParseIntStrip(s[1..]);
      StripDropFront(s);
    } else if |s| > 0 && IsSpace(s[|s| - 1]) {
      ParseIntStrip(s[..|s| - 1]);
      StripDropBack(s);
    } else if s != [] {
      assert LStrip(s) == s && RStrip(s) == s;
    }
  }

  /** Leading whitespace does not reach the stripped text. */
  lemma {:induction false} StripDropFront(s: string)
    requires |s| > 0 && IsSpace(s[0])
    ensures Strip(s) == Strip(s[1..])
  {
    assert LStrip(s) == LStrip(s[1..]);
  }

  /** Nor does trailing whitespace, once the text starts with a visible character. */
  lemma {:induction false} StripDropBack(s: string)
    requires |s| > 0 && !IsSpace(s[0]) && IsSpace(s[|s| - 1])
    ensures Strip(s) == Strip(s[..|s| - 1])
  {
    var u := s[..|s| - 1];
    assert |s| >= 2;
    assert u[0] == s[0];
    assert LStrip(s) == s && LStrip(u) == u;
    assert RStrip(s) == RStrip(u);
  }

  lemma {:induction false} NatToStringWellFormed(n: nat)
    ensures WellFormedDigits(NatToString(n))
  {
  }

  /** `int(str(i)) == i` */
  lemma {:induction false} ParseIntToString(i: int)
    ensures ParseInt(IntToString(i)) == Some(i)
  {
    var s := IntToString(i);
    assert ParseInt(s) == ParseLiteral(s);
    var m: nat := if i < 0 then -i else i;
    var d := NatToString(m);
    NatToStringWellFormed(m);
    NatToStringValue(m);
    if i < 0 {
      assert s == "-" + d;
      assert s[0] == '-' && s[1..] == d;
    } else {
      assert s == d && !(s[0] == '-' || s[0] == '+');
    }
  }

  /** A string holding no digit at all is not an integer. */
  lemma {:induction false} ParseIntNeedsDigit(s: string)
    requires forall i :: 0 <= i < |s| ==> !IsDigit(s[i])
    ensures ParseInt(s) == None
    decreases |s|
  {
    if |s| > 0 && IsSpace(s[0]) {
      ParseIntNeedsDigit(s[1..]);
    } else if |s| > 0 && IsSpace(s[|s| - 1]) {
      ParseIntNeedsDigit(s[..|s| - 1]);
    } else if |s| > 1 {
      assert !IsDigit(s[0]) && !IsDigit(s[1]);
      assert s[1..][0] == s[1];
    } else if |s| == 1 {
      assert !IsDigit(s[0]);
    }
  }

  // ---------------------------------------------------------------------------
  // Encoded length
  // ---------------------------------------------------------------------------

  /** The number of bytes of `c` in UTF-8. */
  function Utf8Width(c: char): (n: nat)
    ensures 1 <= n <= 4
  {
    if c as int < 0x80 then 1 else if c as int < 0x800 then 2 else if c as int < 0x10000 then 3 else 4
  }

  /** `len(s.encode("utf-8"))` */
  function Utf8Len(s: string): (n: nat)
    ensures |s| <= n <= 4 * |s|
  {
    if s == [] then 0 else Utf8Width(s[0]) + Utf8Len(s[1..])
  }
}
