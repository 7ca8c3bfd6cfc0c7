/** The file tools of backend/agent/tools/file/basic.py, whose write, append and find-in-file tools
    are repeated word for word in backend/agent/tools/mac_tools.py and
    backend/app/core/tools/mac_tools.py. The path has already been through `normalize_path`; the
    file system is a map from paths to contents plus a set of directories, and `os.walk` and
    `Path.iterdir` are parameters. */
module FileTools {
  import opened Wrappers
  import Py
  import Paths
  import Validators
  import Glob

  /** What `execute` gives back: `{"ok": True, "data": …}`, `{"ok": False, "error": …}`, or the
      exception it lets through (`ensure_path_allowed` and `open` are called outside any `try`). */
  datatype ToolResult<T> = Success(data: T) | Failure(error: string) | Raised(message: string)

  /** The files with their text and the directories. */
  datatype FileSystem = FileSystem(files: map<Paths.Path, string>, dirs: set<Paths.Path>)

  predicate Exists(fs: FileSystem, p: Paths.Path) {
    p in fs.files || p in fs.dirs
  }

  /** `path.parent`: the path without its last component; "/" is its own parent. */
  function Parent(p: Paths.Path): Paths.Path {
    if p.parts == [] then p else Paths.Path(p.absolute, p.parts[..|p.parts| - 1])
  }

  const DefaultMaxBytes := 50000
  const TooLarge := "Content exceeds max_bytes limit"
  const AlreadyExists := "File already exists"
  const NoParent := "Parent directory does not exist"
  const NotAFile := "Path exists but is not a file"
  const Missing := "File does not exist"
  /** The `OSError` of `path.open` on a directory or under a file. Its message, `str(e)`, comes
      from the operating system; the model carries the exception's class name in its place. */
  const OpenFailed := "OSError"

  // ---------------------------------------------------------------------------
  // Writing and appending
  // ---------------------------------------------------------------------------

  /** `WriteFileTool.execute`: the result, and the file system afterwards. */
  function WriteFile(fs: FileSystem, roots: seq<Paths.Path>, path: Paths.Path, content: string,
                     overwrite: bool, maxBytes: int): (r: (ToolResult<nat>, FileSystem))
    ensures !Validators.IsPathAllowed(roots, path) ==> r == (Raised(Validators.NotAllowed), fs)
    ensures !r.0.Success? ==> r.1 == fs
    ensures r.0.Success? ==>
      Validators.IsPathAllowed(roots, path) && r.0.data == Py.Utf8Len(content) <= maxBytes
      && (overwrite || !Exists(fs, path))
      && r.1.files == fs.files[path := content] && r.1.dirs == fs.dirs
  {
    if !Validators.IsPathAllowed(roots, path) then (Raised(Validators.NotAllowed), fs)
    else if Py.Utf8Len(content) > maxBytes then (Failure(TooLarge), fs)
    else if Exists(fs, path) && !overwrite then (Failure(AlreadyExists), fs)
    else if !Exists(fs, Parent(path)) then (Failure(NoParent), fs)
    else if path in fs.dirs || Parent(path) in fs.files then (Raised(OpenFailed), fs)
    else (Success(Py.Utf8Len(content)), fs.(files := fs.files[path := content]))
  }

  /** The size is checked before anything about the file: too much content is refused whatever the
      file system holds, and nothing changes. */
  lemma WriteSizeFirst(fs: FileSystem, roots: seq<Paths.Path>, path: Paths.Path, content: string,
                       overwrite: bool, maxBytes: int)
    requires Validators.IsPathAllowed(roots, path) && Py.Utf8Len(content) > maxBytes
    ensures WriteFile(fs, roots, path, content, overwrite, maxBytes) == (Failure(TooLarge), fs)
  {
  }

  /** An existing path without `overwrite` is refused before the parent is looked at. */
  lemma WriteExistingBeforeParent(fs: FileSystem, roots: seq<Paths.Path>, path: Paths.Path, content: string,
                                  maxBytes: int)
    requires Validators.IsPathAllowed(roots, path) && Py.Utf8Len(content) <= maxBytes && Exists(fs, path)
    ensures WriteFile(fs, roots, path, content, false, maxBytes) == (Failure(AlreadyExists), fs)
  {
  }

  /** A write succeeds exactly when every check passes; it then reports the encoded length, stores
      the content at the path and changes nothing else. Any other outcome changes nothing. */
  lemma WriteSuccess(fs: FileSystem, roots: seq<Paths.Path>, path: Paths.Path, content: string,
                     overwrite: bool, maxBytes: int)
    ensures var (r, fs') := WriteFile(fs, roots, path, content, overwrite, maxBytes);
      && (r.Success? <==> Validators.IsPathAllowed(roots, path) && Py.Utf8Len(content) <= maxBytes
                          && (!Exists(fs, path) || overwrite) && path !in fs.dirs
                          && Parent(path) in fs.dirs && Parent(path) !in fs.files)
      && (r.Success? ==> r.data == Py.Utf8Len(content) <= maxBytes && fs'.files[path] == content
                         && fs'.dirs == fs.dirs
                         && (forall q :: q != path ==> (q in fs'.files <==> q in fs.files))
                         && (forall q :: q != path && q in fs.files ==> fs'.files[q] == fs.files[q]))
      && (!r.Success? ==> fs' == fs)
  {
  }

  /** `AppendFileTool.execute`: the result, and the file system afterwards. */
  function AppendFile(fs: FileSystem, roots: seq<Paths.Path>, path: Paths.Path, content: string,
                      createIfMissing: bool, maxBytes: int): (r: (ToolResult<nat>, FileSystem))
    ensures !Validators.IsPathAllowed(roots, path) ==> r == (Raised(Validators.NotAllowed), fs)
    ensures !r.0.Success? ==> r.1 == fs
    ensures r.0.Success? ==>
      Validators.IsPathAllowed(roots, path) && r.0.data == Py.Utf8Len(content) <= maxBytes
      && (createIfMissing || path in fs.files)
      && r.1.files == fs.files[path := (if path in fs.files then fs.files[path] else "") + content]
      && r.1.dirs == fs.dirs
  {
    if !Validators.IsPathAllowed(roots, path) then (Raised(Validators.NotAllowed), fs)
    else if Py.Utf8Len(content) > maxBytes then (Failure(TooLarge), fs)
    else if Exists(fs, path) && path !in fs.files then (Failure(NotAFile), fs)
    else if !Exists(fs, path) && !createIfMissing then (Failure(Missing), fs)
    else if !Exists(fs, Parent(path)) then (Failure(NoParent), fs)
    else if Parent(path) in fs.files then (Raised(OpenFailed), fs)
    else
      var before := if path in fs.files then fs.files[path] else "";
      (Success(Py.Utf8Len(content)), fs.(files := fs.files[path := before + content]))
  }

  /** Appending checks the size first, then that an existing path is a file, then that a missing
      file may be created. */
  lemma AppendChecks(fs: FileSystem, roots: seq<Paths.Path>, path: Paths.Path, content: string,
                     createIfMissing: bool, maxBytes: int)
    requires Validators.IsPathAllowed(roots, path)
    ensures var (r, fs') := AppendFile(fs, roots, path, content, createIfMissing, maxBytes);
      && (Py.Utf8Len(content) > maxBytes ==> r == Failure(TooLarge))
      && (Py.Utf8Len(content) <= maxBytes && path in fs.dirs && path !in fs.files ==> r == Failure(NotAFile))
      && (Py.Utf8Len(content) <= maxBytes && !Exists(fs, path) && !createIfMissing ==> r == Failure(Missing))
      && (!r.Success? ==> fs' == fs)
  {
  }

  /** A successful append leaves the old text followed by the new; a missing file starts empty. */
  lemma AppendSuccess(fs: FileSystem, roots: seq<Paths.Path>, path: Paths.Path, content: string,
                      createIfMissing: bool, maxBytes: int)
    requires AppendFile(fs, roots, path, content, createIfMissing, maxBytes).0.Success?
    ensures var (r, fs') := AppendFile(fs, roots, path, content, createIfMissing, maxBytes);
      && r.data == Py.Utf8Len(content) <= maxBytes
      && fs'.files[path] == (if path in fs.files then fs.files[path] else "") + content
      && fs'.dirs == fs.dirs
      && (path !in fs.files ==> createIfMissing)
  {
  }

  /** Writing a new file and then appending to it leaves the two texts one after the other. */
  lemma WriteThenAppend(fs: FileSystem, roots: seq<Paths.Path>, path: Paths.Path, a: string, b: string,
                        maxBytes: int)
    requires WriteFile(fs, roots, path, a, false, maxBytes).0.Success?
    requires Py.Utf8Len(b) <= maxBytes
    ensures var fs1 := WriteFile(fs, roots, path, a, false, maxBytes).1;
      var (r, fs2) := AppendFile(fs1, roots, path, b, false, maxBytes);
      r == Success(Py.Utf8Len(b)) && fs2.files[path] == a + b
  {
    WriteSuccess(fs, roots, path, a, false, maxBytes);
  }

  // ---------------------------------------------------------------------------
  // Keeping the elements a test accepts, and stopping at a cap
  // ---------------------------------------------------------------------------

  /** The elements `keep` accepts, in order. */
  function Keep<T>(xs: seq<T>, keep: T -> bool): (r: seq<T>)
    ensures |r| <= |xs|
  {
    if xs == [] then [] else Keep(xs[..|xs| - 1], keep) + (if keep(xs[|xs| - 1]) then [xs[|xs| - 1]] else [])
  }

  lemma KeepSnoc<T>(xs: seq<T>, i: nat, keep: T -> bool)
    requires i < |xs|
    ensures Keep(xs[..i + 1], keep) == Keep(xs[..i], keep) + (if keep(xs[i]) then [xs[i]] else [])
  {
    assert xs[..i + 1][..i] == xs[..i];
  }

  /** One more element scanned: it joins what was kept so far exactly when `keep` holds for it. */
  lemma KeepStep<T>(xs: seq<T>, i: nat, keep: T -> bool, kept: seq<T>)
    requires i < |xs| && kept == Keep(xs[..i], keep)
    ensures keep(xs[i]) ==> kept + [xs[i]] == Keep(xs[..i + 1], keep)
    ensures !keep(xs[i]) ==> kept == Keep(xs[..i + 1], keep)
  {
    KeepSnoc(xs, i, keep);
  }

  /** What is kept from a prefix is a prefix of what is kept from the whole. */
  lemma {:induction false} KeepPrefix<T>(xs: seq<T>, j: nat, keep: T -> bool)
    requires j <= |xs|
    ensures |Keep(xs[..j], keep)| <= |Keep(xs, keep)|
    ensures Keep(xs, keep)[..|Keep(xs[..j], keep)|] == Keep(xs[..j], keep)
    decreases |xs|
  {
    if j < |xs| {
      var init := xs[..|xs| - 1];
      assert init[..j] == xs[..j];
      KeepPrefix(init, j, keep);
      assert Keep(xs, keep)[..|Keep(init, keep)|] == Keep(init, keep);
    } else {
      assert xs[..j] == xs;
    }
  }

  /** Exactly the accepted elements are kept. */
  lemma {:induction false} KeepMembers<T>(xs: seq<T>, keep: T -> bool, x: T)
    ensures x in Keep(xs, keep) <==> x in xs && keep(x)
  {
    if xs != [] {
      var init := xs[..|xs| - 1];
      KeepMembers(init, keep, x);
      assert xs == init + [xs[|xs| - 1]];
    }
  }

  /** Keeping preserves a strictly increasing key. */
  lemma {:induction false} KeepIncreasing<T>(xs: seq<T>, keep: T -> bool, key: T -> int)
    requires forall a, b :: 0 <= a < b < |xs| ==> key(xs[a]) < key(xs[b])
    ensures var r := Keep(xs, keep); forall a, b :: 0 <= a < b < |r| ==> key(r[a]) < key(r[b])
  {
    if xs != [] {
      var init := xs[..|xs| - 1];
      var last := xs[|xs| - 1];
      KeepIncreasing(init, keep, key);
      var k := Keep(init, keep);
      var r := Keep(xs, keep);
      forall a | 0 <= a < |k| ensures key(k[a]) < key(last) {
        KeepMembers(init, keep, k[a]);
        var c :| 0 <= c < |init| && init[c] == k[a];
        assert xs[c] == k[a];
      }
      forall a, b | 0 <= a < b < |r| ensures key(r[a]) < key(r[b]) {
        if b < |k| {
          assert r[a] == k[a] && r[b] == k[b];
        } else {
          assert r[a] == k[a] && r[b] == last;
        }
      }
    }
  }

  /** The first `cap` elements, or all of them when there are fewer. */
  function Capped<T>(xs: seq<T>, cap: nat): (r: seq<T>)
    ensures |r| <= cap && |r| <= |xs|
    ensures |xs| <= cap ==> r == xs
    ensures r == xs[..|r|]
  {
    if |xs| <= cap then xs else xs[..cap]
  }

  /** The cap a loop that tests `len(found) >= limit` after each append works to: `limit`, but at
      least one, since the first element is appended before the first test. */
  function Cap(limit: int): (c: nat)
    ensures c >= 1 && (limit >= 1 ==> c == limit)
  {
    if limit >= 1 then limit else 1
  }

  /** Once a prefix has yielded `cap` elements, the capped result is what it yielded. */
  lemma CappedAtPrefix<T>(xs: seq<T>, j: nat, keep: T -> bool, cap: nat)
    requires j <= |xs| && |Keep(xs[..j], keep)| == cap
    ensures Capped(Keep(xs, keep), cap) == Keep(xs[..j], keep)
  {
    KeepPrefix(xs, j, keep);
  }

  /** A scan that has just reached the cap holds exactly the capped result of the whole scan. */
  lemma StopsAtCap<T>(xs: seq<T>, j: nat, keep: T -> bool, maxResults: int, found: seq<T>)
    requires j <= |xs| && found == Keep(xs[..j], keep)
    requires 1 <= |found| && maxResults <= |found| <= Cap(maxResults)
    ensures found == Capped(Keep(xs, keep), Cap(maxResults))
  {
    CappedAtPrefix(xs, j, keep, Cap(maxResults));
  }

  // ---------------------------------------------------------------------------
  // Finding a text in a file
  // ---------------------------------------------------------------------------

  datatype Match = Match(line: nat, text: string)

  /** The lines numbered from 1, as `enumerate(…, start=1)` pairs them. */
  function Numbered(lines: seq<string>): (r: seq<Match>)
    ensures |r| == |lines|
    ensures forall i :: 0 <= i < |lines| ==> r[i] == Match(i + 1, lines[i])
  {
    seq(|lines|, i requires 0 <= i < |lines| => Match(i + 1, lines[i]))
  }

  /** `needle in hay`, with both sides lower-cased when the search ignores case. */
  predicate Hit(line: string, query: string, caseSensitive: bool) {
    if caseSensitive then Py.Contains(line, query) else Py.Contains(Py.Lower(line), Py.Lower(query))
  }

  function Hits(query: string, caseSensitive: bool): Match -> bool {
    (m: Match) => Hit(m.text, query, caseSensitive)
  }

  /** The matching loop: the matching lines in order, stopping once `max_matches` are found. */
  method CollectMatches(lines: seq<string>, query: string, caseSensitive: bool, maxMatches: int)
    returns (matches: seq<Match>)
    ensures matches == Capped(Keep(Numbered(lines), Hits(query, caseSensitive)), Cap(maxMatches))
  {
    var numbered := Numbered(lines);
    var keep := Hits(query, caseSensitive);
    matches := [];
    var queryLower := Py.Lower(query);
    var i := 0;
    while i < |lines|
      invariant 0 <= i <= |lines|
      invariant matches == Keep(numbered[..i], keep)
      invariant |matches| < Cap(maxMatches)
    {
      var line := lines[i];
      var hit := LineHit(line, query, queryLower, caseSensitive);
      assert Keep(numbered[..i + 1], keep) == matches + (if hit then [Match(i + 1, line)] else []) by {
        KeepSnoc(numbered, i, keep);
        assert numbered[i] == Match(i + 1, line) && keep(numbered[i]) == hit;
      }
      if hit {
        matches := matches + [Match(i + 1, line)];
        if |matches| >= maxMatches {
          assert matches == Capped(Keep(numbered, keep), Cap(maxMatches)) by {
            CappedAtPrefix(numbered, i + 1, keep, Cap(maxMatches));
          }
          return;
        }
      }
      assert matches == Keep(numbered[..i + 1], keep);
      i := i + 1;
    }
    assert numbered[..i] == numbered;
  }

  /** One line of the loop: `needle in hay`, both lowered unless the search is case-sensitive. */
  method LineHit(line: string, query: string, queryLower: string, caseSensitive: bool) returns (hit: bool)
    requires queryLower == Py.Lower(query)
    ensures hit == Hit(line, query, caseSensitive)
  {
    var hay := if caseSensitive then line else Py.Lower(line);
    var needle := if caseSensitive then query else queryLower;
    hit := Py.Contains(hay, needle);
  }

  /** Every element of a capped selection is an accepted element of the input. */
  lemma CappedKept<T>(xs: seq<T>, keep: T -> bool, cap: nat, k: nat)
    requires k < |Capped(Keep(xs, keep), cap)|
    ensures Capped(Keep(xs, keep), cap)[k] in xs && keep(Capped(Keep(xs, keep), cap)[k])
  {
    KeepMembers(xs, keep, Keep(xs, keep)[k]);
  }

  /** Every match names a line by its 1-based number and carries that line, which contains the
      query, and there are at most `max_matches` of them (at most one when the limit is below 1). */
  lemma MatchesAreHits(lines: seq<string>, query: string, caseSensitive: bool, maxMatches: int, k: nat)
    requires k < |Capped(Keep(Numbered(lines), Hits(query, caseSensitive)), Cap(maxMatches))|
    ensures var m := Capped(Keep(Numbered(lines), Hits(query, caseSensitive)), Cap(maxMatches))[k];
      1 <= m.line <= |lines| && m.text == lines[m.line - 1] && Hit(m.text, query, caseSensitive)
    ensures k < Cap(maxMatches)
  {
    CappedKept(Numbered(lines), Hits(query, caseSensitive), Cap(maxMatches), k);
  }

  /** Matches come in the order of the file: line numbers strictly increase. */
  lemma MatchesInOrder(lines: seq<string>, query: string, caseSensitive: bool, maxMatches: int)
    ensures var r := Capped(Keep(Numbered(lines), Hits(query, caseSensitive)), Cap(maxMatches));
      forall a, b :: 0 <= a < b < |r| ==> r[a].line < r[b].line
  {
    KeepIncreasing(Numbered(lines), Hits(query, caseSensitive), (m: Match) => m.line);
  }

  /** When fewer than `max_matches` were found, no matching line was missed. */
  lemma MatchesComplete(lines: seq<string>, query: string, caseSensitive: bool, maxMatches: int, i: nat)
    requires i < |lines| && Hit(lines[i], query, caseSensitive)
    requires |Capped(Keep(Numbered(lines), Hits(query, caseSensitive)), Cap(maxMatches))| < Cap(maxMatches)
    ensures Match(i + 1, lines[i]) in Capped(Keep(Numbered(lines), Hits(query, caseSensitive)), Cap(maxMatches))
  {
    var numbered := Numbered(lines);
    assert numbered[i] == Match(i + 1, lines[i]);
    KeepMembers(numbered, Hits(query, caseSensitive), numbered[i]);
  }

  /** What `f.read(max_bytes)` and `decode("utf-8", errors="replace")` give: the characters that fit
      whole in the first `maxBytes` bytes, then one replacement character for a character cut
      short; a negative size reads everything. */
  function ReadText(content: string, maxBytes: int): string {
    if maxBytes < 0 then content else Utf8Prefix(content, maxBytes)
  }

  function Utf8Prefix(s: string, n: nat): string {
    if s == [] then []
    else if Py.Utf8Width(s[0]) <= n then [s[0]] + Utf8Prefix(s[1..], n - Py.Utf8Width(s[0]))
    else if n > 0 then "�"
    else []
  }

  /** A file no longer than the byte limit is read whole. */
  lemma {:induction false} ReadWhole(s: string, n: nat)
    requires Py.Utf8Len(s) <= n
    ensures Utf8Prefix(s, n) == s
  {
    if s != [] {
      ReadWhole(s[1..], n - Py.Utf8Width(s[0]));
    }
  }

  const QueryRequired := "query is required"
  const NotFile := "Path does not exist or is not a file"

  /** `FindInFileTool.execute`, as a specification. */
  function FindInFileSpec(fs: FileSystem, roots: seq<Paths.Path>, path: Paths.Path, query: string,
                          caseSensitive: bool, maxMatches: int, maxBytes: int): ToolResult<seq<Match>> {
    if !Validators.IsPathAllowed(roots, path) then Raised(Validators.NotAllowed)
    else if query == "" then Failure(QueryRequired)
    else if path !in fs.files then Failure(NotFile)
    else
      var lines := Py.SplitLines(ReadText(fs.files[path], maxBytes));
      Success(Capped(Keep(Numbered(lines), Hits(query, caseSensitive)), Cap(maxMatches)))
  }

  /** `FindInFileTool.execute` with its matching loop. */
  method FindInFile(fs: FileSystem, roots: seq<Paths.Path>, path: Paths.Path, query: string,
                    caseSensitive: bool, maxMatches: int, maxBytes: int)
    returns (r: ToolResult<seq<Match>>)
    ensures r == FindInFileSpec(fs, roots, path, query, caseSensitive, maxMatches, maxBytes)
    ensures query == "" && Validators.IsPathAllowed(roots, path) ==> r == Failure(QueryRequired)
  {
    if !Validators.IsPathAllowed(roots, path) {
      return Raised(Validators.NotAllowed);
    }
    if query == "" {
      return Failure(QueryRequired);
    }
    if path !in fs.files {
      return Failure(NotFile);
    }
    var content := ReadText(fs.files[path], maxBytes);
    var matches := CollectMatches(Py.SplitLines(content), query, caseSensitive, maxMatches);
    return Success(matches);
  }

  // ---------------------------------------------------------------------------
  // Searching a tree
  // ---------------------------------------------------------------------------

  /** One `(root, files)` step of `os.walk`, and every file of a walk paired with its root. */
  type WalkStep = (Paths.Path, seq<string>)

  function Pairs(root: Paths.Path, files: seq<string>): (r: seq<(Paths.Path, string)>)
    ensures |r| == |files|
    ensures forall i :: 0 <= i < |files| ==> r[i] == (root, files[i])
  {
    seq(|files|, i requires 0 <= i < |files| => (root, files[i]))
  }

  function Flatten(walk: seq<WalkStep>): seq<(Paths.Path, string)> {
    if walk == [] then [] else Flatten(walk[..|walk| - 1]) + Pairs(walk[|walk| - 1].0, walk[|walk| - 1].1)
  }

  function Named(pattern: string): ((Paths.Path, string)) -> bool {
    (e: (Paths.Path, string)) => Glob.Match(pattern, e.1)
  }

  /** `str(Path(root) / filename)` for every kept pair. */
  function Texts(found: seq<(Paths.Path, string)>): (r: seq<string>)
    ensures |r| == |found|
    ensures forall i :: 0 <= i < |found| ==> r[i] == Paths.Text(Paths.Child(found[i].0, found[i].1))
  {
    seq(|found|, i requires 0 <= i < |found| => Paths.Text(Paths.Child(found[i].0, found[i].1)))
  }

  const NotDirectory := "Path does not exist or is not a directory"

  /** `SearchFilesTool.execute`, as a specification. */
  function SearchFilesSpec(fs: FileSystem, roots: seq<Paths.Path>, path: Paths.Path, pattern: string,
                           maxResults: int, walk: Paths.Path -> seq<WalkStep>): ToolResult<seq<string>> {
    if !Validators.IsPathAllowed(roots, path) then Raised(Validators.NotAllowed)
    else if path !in fs.dirs then Failure(NotDirectory)
    else Success(Texts(Capped(Keep(Flatten(walk(path)), Named(pattern)), Cap(maxResults))))
  }

  /** The nested walk loop, returning as soon as `max_results` matches are found. */
  method SearchWalk(steps: seq<WalkStep>, pattern: string, maxResults: int)
    returns (found: seq<(Paths.Path, string)>)
    ensures found == Capped(Keep(Flatten(steps), Named(pattern)), Cap(maxResults))
  {
    var keep := Named(pattern);
    found := [];
    for i := 0 to |steps|
      invariant |Flatten(steps[..i])| <= |Flatten(steps)|
      invariant found == Keep(Flatten(steps)[..|Flatten(steps[..i])|], keep) && |found| < Cap(maxResults)
    {
      var stopped;
      found, stopped := ScanStep(steps, i, keep, maxResults, found);
      if stopped {
        return;
      }
    }
    FlattenPrefix(steps, |steps|);
    assert steps[..|steps|] == steps;
  }

  /** One turn of the walk loop: the files of step `i`, scanned after the pairs of the steps before it. */
  method ScanStep(steps: seq<WalkStep>, i: nat, keep: ((Paths.Path, string)) -> bool, maxResults: int,
                  found: seq<(Paths.Path, string)>)
    returns (found': seq<(Paths.Path, string)>, stopped: bool)
    requires i < |steps| && |Flatten(steps[..i])| <= |Flatten(steps)|
    requires found == Keep(Flatten(steps)[..|Flatten(steps[..i])|], keep) && |found| < Cap(maxResults)
    ensures |Flatten(steps[..i + 1])| <= |Flatten(steps)|
    ensures stopped ==> found' == Capped(Keep(Flatten(steps), keep), Cap(maxResults))
    ensures !stopped ==> found' == Keep(Flatten(steps)[..|Flatten(steps[..i + 1])|], keep) && |found'| < Cap(maxResults)
  {
    ghost var all := Flatten(steps);
    ghost var start := |Flatten(steps[..i])|;
    ghost var next := |Flatten(steps[..i + 1])|;
    var items := Pairs(steps[i].0, steps[i].1);
    WalkStepAt(steps, i);
    assert start + |items| == next <= |all| && all[start..next] == items;
    found', stopped := ScanFiles(all, start, next, items, keep, maxResults, found);
  }

  /** The inner loop over one directory's files, given as the pairs `(root, filename)` that stand
      at `start` in the pairs `all` of the whole walk; `keep` is the `fnmatch` test on the name. */
  method ScanFiles<T>(ghost all: seq<T>, ghost start: nat, ghost end: nat, items: seq<T>, keep: T -> bool,
                      maxResults: int, found: seq<T>)
    returns (found': seq<T>, stopped: bool)
    requires end == start + |items| <= |all| && all[start..end] == items
    requires found == Keep(all[..start], keep) && |found| < Cap(maxResults)
    ensures stopped ==> found' == Capped(Keep(all, keep), Cap(maxResults))
    ensures !stopped ==> found' == Keep(all[..end], keep) && |found'| < Cap(maxResults)
  {
    found' := found;
    for j := 0 to |items|
      invariant found' == Keep(all[..start + j], keep)
      invariant |found'| < Cap(maxResults)
    {
      assert all[start + j] == all[start..end][j] == items[j];
      KeepStep(all, start + j, keep, found');
      if keep(items[j]) {
        found' := found' + [items[j]];
        if |found'| >= maxResults {
          StopsAtCap(all, start + j + 1, keep, maxResults, found');
          return found', true;
        }
      }
    }
    assert start + |items| == end;
    stopped := false;
  }

  /** The pairs of step `i` follow those of the steps before it in the pairs of the whole walk. */
  lemma WalkStepAt(steps: seq<WalkStep>, i: nat)
    requires i < |steps|
    ensures var start := |Flatten(steps[..i])|; var items := Pairs(steps[i].0, steps[i].1);
      && start + |items| <= |Flatten(steps)|
      && Flatten(steps)[start..start + |items|] == items
      && |Flatten(steps[..i + 1])| == start + |items|
  {
    assert steps[..i + 1][..i] == steps[..i];
    FlattenPrefix(steps, i + 1);
    var start := |Flatten(steps[..i])|;
    var next := Flatten(steps[..i + 1]);
    assert next == Flatten(steps[..i]) + Pairs(steps[i].0, steps[i].1);
    assert Flatten(steps)[start..|next|] == next[start..];
  }

  /** The pairs of the first steps are a prefix of the pairs of the whole walk. */
  lemma {:induction false} FlattenPrefix(steps: seq<WalkStep>, i: nat)
    requires i <= |steps|
    ensures |Flatten(steps[..i])| <= |Flatten(steps)| && Flatten(steps)[..|Flatten(steps[..i])|] == Flatten(steps[..i])
    decreases |steps|
  {
    if i < |steps| {
      var init := steps[..|steps| - 1];
      assert init[..i] == steps[..i];
      FlattenPrefix(init, i);
    } else {
      assert steps[..i] == steps;
    }
  }

  lemma PrefixOfPrefix(steps: seq<WalkStep>, i: nat, n: nat)
    requires i <= |steps| && n <= |Flatten(steps[..i])|
    ensures n <= |Flatten(steps)| && Flatten(steps[..i])[..n] == Flatten(steps)[..n]
  {
    FlattenPrefix(steps, i);
  }

  /** `SearchFilesTool.execute` with its walk loop. */
  method SearchFiles(fs: FileSystem, roots: seq<Paths.Path>, path: Paths.Path, pattern: string,
                     maxResults: int, walk: Paths.Path -> seq<WalkStep>)
    returns (r: ToolResult<seq<string>>)
    ensures r == SearchFilesSpec(fs, roots, path, pattern, maxResults, walk)
  {
    if !Validators.IsPathAllowed(roots, path) {
      return Raised(Validators.NotAllowed);
    }
    if path !in fs.dirs {
      return Failure(NotDirectory);
    }
    var found := SearchWalk(walk(path), pattern, maxResults);
    return Success(Texts(found));
  }

  /** The search stops at exactly `max_results` names when the walk has that many matches, each
      found name matches the pattern, and with fewer matches every one of them is returned. */
  lemma SearchFacts(steps: seq<WalkStep>, pattern: string, maxResults: int)
    ensures var all := Keep(Flatten(steps), Named(pattern)); var r := Capped(all, Cap(maxResults));
      && (|all| >= Cap(maxResults) ==> |r| == Cap(maxResults))
      && (|all| < Cap(maxResults) ==> r == all)
      && forall k :: 0 <= k < |r| ==> Glob.Match(pattern, r[k].1) && r[k] in Flatten(steps)
  {
    var all := Keep(Flatten(steps), Named(pattern));
    var r := Capped(all, Cap(maxResults));
    forall k | 0 <= k < |r| ensures Glob.Match(pattern, r[k].1) && r[k] in Flatten(steps) {
      assert r[k] == all[k];
      KeepMembers(Flatten(steps), Named(pattern), r[k]);
    }
  }

  // ---------------------------------------------------------------------------
  // Listing a directory
  // ---------------------------------------------------------------------------

  /** The order of `sorted` on strings: by code point, a prefix first. */
  predicate LexLe(a: string, b: string)
    decreases |a|
  {
    a == [] || (b != [] && (a[0] < b[0] || (a[0] == b[0] && LexLe(a[1..], b[1..]))))
  }

  lemma {:induction false} LexTotal(a: string, b: string)
    ensures LexLe(a, b) || LexLe(b, a)
    decreases |a|
  {
    if a != [] && b != [] && a[0] == b[0] {
      LexTotal(a[1..], b[1..]);
    }
  }

  lemma {:induction false} LexTrans(a: string, b: string, c: string)
    requires LexLe(a, b) && LexLe(b, c)
    ensures LexLe(a, c)
    decreases |a|
  {
    if a != [] && b != [] && c != [] && a[0] == b[0] && b[0] == c[0] {
      LexTrans(a[1..], b[1..], c[1..]);
    }
  }

  predicate SortedNames(xs: seq<string>) {
    forall i, j :: 0 <= i < j < |xs| ==> LexLe(xs[i], xs[j])
  }

  function InsertName(x: string, xs: seq<string>): (r: seq<string>)
    ensures multiset(r) == multiset(xs) + multiset{x}
  {
    if xs == [] then [x]
    else if LexLe(x, xs[0]) then [x] + xs
    else
      assert xs == [xs[0]] + xs[1..];
      [xs[0]] + InsertName(x, xs[1..])
  }

  /** A lower bound of the element and of the list bounds every element of the insertion. */
  lemma {:induction false} InsertNameBound(lo: string, x: string, xs: seq<string>)
    requires LexLe(lo, x) && forall k :: 0 <= k < |xs| ==> LexLe(lo, xs[k])
    ensures forall k :: 0 <= k < |InsertName(x, xs)| ==> LexLe(lo, InsertName(x, xs)[k])
  {
    if xs != [] && !LexLe(x, xs[0]) {
      InsertNameBound(lo, x, xs[1..]);
    }
  }

  lemma {:induction false} InsertNameSorted(x: string, xs: seq<string>)
    requires SortedNames(xs)
    ensures SortedNames(InsertName(x, xs))
  {
    if xs == [] {
    } else if LexLe(x, xs[0]) {
      InsertFrontSorted(x, xs);
    } else {
      LexTotal(x, xs[0]);
      var rest := InsertName(x, xs[1..]);
      assert SortedNames(xs[1..]) by {
        forall i, j | 0 <= i < j < |xs[1..]| ensures LexLe(xs[1..][i], xs[1..][j]) {
          assert xs[1..][i] == xs[i + 1] && xs[1..][j] == xs[j + 1];
        }
      }
      InsertNameSorted(x, xs[1..]);
      assert forall k :: 0 <= k < |xs[1..]| ==> LexLe(xs[0], xs[1..][k]) by {
        forall k | 0 <= k < |xs[1..]| ensures LexLe(xs[0], xs[1..][k]) {
          assert xs[1..][k] == xs[k + 1];
        }
      }
      InsertNameBound(xs[0], x, xs[1..]);
      ConsSorted(xs[0], rest);
    }
  }

  /** A name at most the first of a sorted list goes in front. */
  lemma InsertFrontSorted(x: string, xs: seq<string>)
    requires xs != [] && SortedNames(xs) && LexLe(x, xs[0])
    ensures SortedNames([x] + xs)
  {
    var r := [x] + xs;
    forall i, j | 0 <= i < j < |r| ensures LexLe(r[i], r[j]) {
      if i == 0 {
        if j > 1 {
          LexTrans(x, xs[0], xs[j - 1]);
        }
      } else {
        assert r[i] == xs[i - 1] && r[j] == xs[j - 1];
      }
    }
  }

  /** A lower bound of a sorted list may precede it. */
  lemma ConsSorted(lo: string, rest: seq<string>)
    requires SortedNames(rest) && forall k :: 0 <= k < |rest| ==> LexLe(lo, rest[k])
    ensures SortedNames([lo] + rest)
  {
    var r := [lo] + rest;
    forall i, j | 0 <= i < j < |r| ensures LexLe(r[i], r[j]) {
      if i == 0 {
        assert r[j] == rest[j - 1];
      } else {
        assert r[i] == rest[i - 1] && r[j] == rest[j - 1];
      }
    }
  }

  /** `sorted(names)` */
  function SortNames(xs: seq<string>): (r: seq<string>)
    ensures multiset(r) == multiset(xs)
  {
    if xs == [] then [] else
      assert xs == xs[..|xs| - 1] + [xs[|xs| - 1]];
      InsertName(xs[|xs| - 1], SortNames(xs[..|xs| - 1]))
  }

  lemma {:induction false} SortNamesSorted(xs: seq<string>)
    ensures SortedNames(SortNames(xs))
  {
    if xs != [] {
      SortNamesSorted(xs[..|xs| - 1]);
      InsertNameSorted(xs[|xs| - 1], SortNames(xs[..|xs| - 1]));
    }
  }

  /** `ListDirectoryTool.execute`, with `iterdir` giving the names in a directory. A listing holds
      the directory's names, each as often as `iterdir` gives it, in sorted order. */
  function ListDirectory(fs: FileSystem, roots: seq<Paths.Path>, path: Paths.Path,
                         iterdir: Paths.Path -> seq<string>): (r: ToolResult<seq<string>>)
    ensures !Validators.IsPathAllowed(roots, path) ==> r == Raised(Validators.NotAllowed)
    ensures r.Success? <==> Validators.IsPathAllowed(roots, path) && path in fs.dirs
    ensures r.Success? ==> SortedNames(r.data) && multiset(r.data) == multiset(iterdir(path))
  {
    if !Validators.IsPathAllowed(roots, path) then Raised(Validators.NotAllowed)
    else if path !in fs.dirs then Failure(NotDirectory)
    else
      SortNamesSorted(iterdir(path));
      Success(SortNames(iterdir(path)))
  }
}
