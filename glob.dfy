/** Shell-style key patterns as `fnmatch.fnmatch` reads them, restricted to the two
    wildcards the repository builds patterns from: `*` (any run) and `?` (one character). */
module Glob {
  import Py

  /** `fnmatch(s, p)` for patterns without character classes. */
  predicate Match(p: string, s: string)
    decreases |p| + |s|
  {
    if p == [] then s == []
    else if p[0] == '*' then Match(p[1..], s) || (s != [] && Match(p, s[1..]))
    else s != [] && (p[0] == '?' || p[0] == s[0]) && Match(p[1..], s[1..])
  }

  predicate NoWildcards(p: string) {
    '*' !in p && '?' !in p
  }

  /** A trailing `*` matches any remainder. */
  lemma {:induction false} MatchStar(s: string)
    ensures Match("*", s)
    decreases |s|
  {
    if s != [] {
      MatchStar(s[1..]);
    }
  }

  /** `prefix*` matches exactly the strings that start with `prefix`. */
  lemma {:induction false} MatchPrefixStar(prefix: string, s: string)
    requires NoWildcards(prefix)
    ensures Match(prefix + "*", s) <==> Py.StartsWith(s, prefix)
    decreases |prefix|
  {
    if prefix == [] {
      MatchStar(s);
      assert prefix + "*" == "*";
    } else {
      var p := prefix + "*";
      assert p[0] == prefix[0] && p[1..] == prefix[1..] + "*";
      assert NoWildcards(prefix[1..]);
      if s != [] {
        MatchPrefixStar(prefix[1..], s[1..]);
        if Py.StartsWith(s, prefix) {
          assert s[1..][..|prefix| - 1] == s[..|prefix|][1..];
        }
        if Py.StartsWith(s[1..], prefix[1..]) && s[0] == prefix[0] {
          assert s[..|prefix|] == [s[0]] + s[1..][..|prefix| - 1];
        }
      }
    }
  }
}
