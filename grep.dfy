/** `GrepSearchTool` and `GrepRecursiveTool` of backend/agent/tools/text/search.py, repeated in
    backend/agent/tools/mac_tools.py: how the `grep` command line is assembled, how the exit code
    is read, and how recursive output is grouped by file. Starting the process is a parameter. */
module TextSearch {
  import opened Wrappers
  import Py
  import Seqs
  import Paths
  import Validators
  import FileTools
  import CommandRunner

  const Grep := "/usr/bin/grep"

  // ---------------------------------------------------------------------------
  // The command lines
  // ---------------------------------------------------------------------------

  /** `xs` when `b` holds, else nothing: one conditional `cmd.append` or `cmd.extend`. */
  function Opt(b: bool, xs: seq<string>): seq<string> {
    if b then xs else []
  }

  /** The optional flags of `grep_search`, in the order they are appended. */
  function SearchFlags(caseInsensitive: bool, lineNumbers: bool, context: int, invert: bool): seq<string> {
    Opt(caseInsensitive, ["-i"]) + Opt(lineNumbers, ["-n"])
    + Opt(context > 0, ["-C", Py.IntToString(context)]) + Opt(invert, ["-v"])
  }

  function SearchCommand(caseInsensitive: bool, lineNumbers: bool, context: int, invert: bool,
                         maxMatches: int, pattern: string, file: string): seq<string> {
    [Grep] + Opt(caseInsensitive, ["-i"]) + Opt(lineNumbers, ["-n"])
    + Opt(context > 0, ["-C", Py.IntToString(context)]) + Opt(invert, ["-v"])
    + ["-m", Py.IntToString(maxMatches)] + ["-E", pattern, file]
  }

  /** The `cmd` list of `GrepSearchTool.execute`, appended to step by step. */
  method BuildSearchCommand(caseInsensitive: bool, lineNumbers: bool, context: int, invert: bool,
                            maxMatches: int, pattern: string, file: string)
    returns (cmd: seq<string>)
    ensures cmd == SearchCommand(caseInsensitive, lineNumbers, context, invert, maxMatches, pattern, file)
  {
    cmd := [Grep];
    if caseInsensitive {
      cmd := cmd + ["-i"];
    }
    assert cmd == [Grep] + Opt(caseInsensitive, ["-i"]);
    ghost var c1 := cmd;
    if lineNumbers {
      cmd := cmd + ["-n"];
    }
    assert cmd == c1 + Opt(lineNumbers, ["-n"]);
    ghost var c2 := cmd;
    if context > 0 {
      cmd := cmd + ["-C", Py.IntToString(context)];
    }
    assert cmd == c2 + Opt(context > 0, ["-C", Py.IntToString(context)]);
    ghost var c3 := cmd;
    if invert {
      cmd := cmd + ["-v"];
    }
    assert cmd == c3 + Opt(invert, ["-v"]);
    cmd := cmd + ["-m", Py.IntToString(maxMatches)];
    cmd := cmd + ["-E", pattern, file];
  }

  lemma DigitsNotFlag(n: int)
    requires n >= 0
    ensures Py.IsDigit(Py.IntToString(n)[0])
  {
  }

  /** Each flag is present exactly when its option asks for it, `-C` with the context size right
      after it, and they come in the order -i, -n, -C, -v. */
  lemma SearchFlagsFacts(caseInsensitive: bool, lineNumbers: bool, context: int, invert: bool)
    ensures var f := SearchFlags(caseInsensitive, lineNumbers, context, invert);
      && ("-i" in f <==> caseInsensitive)
      && ("-n" in f <==> lineNumbers)
      && ("-v" in f <==> invert)
      && ("-C" in f <==> context > 0)
      && (caseInsensitive ==> f[0] == "-i")
      && (invert ==> f[|f| - 1] == "-v")
      && (context > 0 ==> exists k :: 0 <= k < |f| - 1 && f[k] == "-C" && f[k + 1] == Py.IntToString(context))
  {
    SearchFlagsMembers(caseInsensitive, lineNumbers, context, invert);
    SearchFlagsPositions(caseInsensitive, lineNumbers, context, invert);
  }

  lemma SearchFlagsMembers(caseInsensitive: bool, lineNumbers: bool, context: int, invert: bool)
    ensures var f := SearchFlags(caseInsensitive, lineNumbers, context, invert);
      && ("-i" in f <==> caseInsensitive)
      && ("-n" in f <==> lineNumbers)
      && ("-v" in f <==> invert)
      && ("-C" in f <==> context > 0)
  {
    var f := SearchFlags(caseInsensitive, lineNumbers, context, invert);
    var a := Opt(caseInsensitive, ["-i"]);
    var b := Opt(lineNumbers, ["-n"]);
    var c := Opt(context > 0, ["-C", Py.IntToString(context)]);
    var d := Opt(invert, ["-v"]);
    if context > 0 {
      DigitsNotFlag(context);
    }
    assert forall x :: x in f <==> x in a || x in b || x in c || x in d;
  }

  lemma SearchFlagsPositions(caseInsensitive: bool, lineNumbers: bool, context: int, invert: bool)
    ensures var f := SearchFlags(caseInsensitive, lineNumbers, context, invert);
      && (caseInsensitive ==> f[0] == "-i")
      && (invert ==> f[|f| - 1] == "-v")
      && (context > 0 ==> exists k :: 0 <= k < |f| - 1 && f[k] == "-C" && f[k + 1] == Py.IntToString(context))
  {
    var f := SearchFlags(caseInsensitive, lineNumbers, context, invert);
    var a := Opt(caseInsensitive, ["-i"]);
    var b := Opt(lineNumbers, ["-n"]);
    var c := Opt(context > 0, ["-C", Py.IntToString(context)]);
    var d := Opt(invert, ["-v"]);
    assert f == a + b + c + d;
    if context > 0 {
      assert f[|a| + |b|] == "-C" && f[|a| + |b| + 1] == Py.IntToString(context);
    }
  }

  /** The command starts with grep and its flags and ends with the match limit, the pattern as an
      extended expression, and the file. */
  lemma SearchCommandLayout(caseInsensitive: bool, lineNumbers: bool, context: int, invert: bool,
                            maxMatches: int, pattern: string, file: string)
    ensures var cmd := SearchCommand(caseInsensitive, lineNumbers, context, invert, maxMatches, pattern, file);
      var n := |cmd|;
      && n == |SearchFlags(caseInsensitive, lineNumbers, context, invert)| + 6
      && cmd[0] == Grep
      && cmd[1..n - 5] == SearchFlags(caseInsensitive, lineNumbers, context, invert)
      && cmd[n - 5..] == ["-m", Py.IntToString(maxMatches), "-E", pattern, file]
  {
    var a, b := Opt(caseInsensitive, ["-i"]), Opt(lineNumbers, ["-n"]);
    var c, d := Opt(context > 0, ["-C", Py.IntToString(context)]), Opt(invert, ["-v"]);
    var m, e := ["-m", Py.IntToString(maxMatches)], ["-E", pattern, file];
    Seqs.AppendAssoc([Grep], a, b);
    Seqs.AppendAssoc([Grep], a + b, c);
    Seqs.AppendAssoc([Grep], a + b + c, d);
    Seqs.AppendAssoc([Grep] + (a + b + c + d), m, e);
    assert m + e == ["-m", Py.IntToString(maxMatches), "-E", pattern, file];
    Framed(Grep, a + b + c + d, m + e);
  }

  /** The parts of `[head] + middle + tail` sit where they were put. */
  lemma Framed(head: string, middle: seq<string>, tail: seq<string>)
    ensures var c := [head] + middle + tail;
      && |c| == |middle| + 1 + |tail| && c[0] == head
      && c[1..|middle| + 1] == middle && c[|middle| + 1..] == tail
  {
  }

  /** `--exclude-dir d` for every excluded directory, in order. */
  function ExcludeArgs(dirs: seq<string>): (args: seq<string>)
    ensures |args| == 2 * |dirs|
  {
    if dirs == [] then [] else ExcludeArgs(dirs[..|dirs| - 1]) + ["--exclude-dir", dirs[|dirs| - 1]]
  }

  /** Every excluded directory follows its own `--exclude-dir`, in the given order. */
  lemma {:induction false} ExcludeArgsAt(dirs: seq<string>, k: nat)
    requires k < |dirs|
    ensures ExcludeArgs(dirs)[2 * k] == "--exclude-dir" && ExcludeArgs(dirs)[2 * k + 1] == dirs[k]
  {
    var init := dirs[..|dirs| - 1];
    if k < |init| {
      ExcludeArgsAt(init, k);
    }
  }

  /** `--include` is passed only for a pattern that is neither empty nor "*". */
  function IncludeArgs(filePattern: string): seq<string> {
    if filePattern != "" && filePattern != "*" then ["--include", filePattern] else []
  }

  function RecursiveCommand(caseInsensitive: bool, lineNumbers: bool, maxResults: int, pattern: string,
                            filePattern: string, excludeDirs: seq<string>, directory: string): seq<string> {
    [Grep, "-r"] + (if caseInsensitive then ["-i"] else []) + (if lineNumbers then ["-n"] else [])
    + ["-m", Py.IntToString(maxResults), "-E", pattern] + IncludeArgs(filePattern)
    + ExcludeArgs(excludeDirs) + [directory]
  }

  /** The `cmd` list of `GrepRecursiveTool.execute`, with its loop over the excluded directories. */
  method BuildRecursiveCommand(caseInsensitive: bool, lineNumbers: bool, maxResults: int, pattern: string,
                               filePattern: string, excludeDirs: seq<string>, directory: string)
    returns (cmd: seq<string>)
    ensures cmd == RecursiveCommand(caseInsensitive, lineNumbers, maxResults, pattern, filePattern, excludeDirs, directory)
  {
    cmd := [Grep, "-r"];
    ghost var c0 := cmd;
    if caseInsensitive {
      cmd := cmd + ["-i"];
    }
    assert cmd == c0 + (if caseInsensitive then ["-i"] else []);
    ghost var c1 := cmd;
    if lineNumbers {
      cmd := cmd + ["-n"];
    }
    assert cmd == c1 + (if lineNumbers then ["-n"] else []);
    var m := Py.IntToString(maxResults);
    ghost var c2 := cmd;
    cmd := cmd + ["-m", m];
    cmd := cmd + ["-E", pattern];
    Seqs.AppendAssoc(c2, ["-m", m], ["-E", pattern]);
    assert ["-m", m] + ["-E", pattern] == ["-m", m, "-E", pattern];
    ghost var c3 := cmd;
    if filePattern != "" && filePattern != "*" {
      cmd := cmd + ["--include", filePattern];
    }
    assert cmd == c3 + IncludeArgs(filePattern);
    cmd := ExcludeLoop(cmd, excludeDirs);
    cmd := cmd + [directory];
  }

  /** `for exclude_dir in exclude_dirs: cmd.extend(["--exclude-dir", exclude_dir])` */
  method ExcludeLoop(front: seq<string>, excludeDirs: seq<string>) returns (cmd: seq<string>)
    ensures cmd == front + ExcludeArgs(excludeDirs)
  {
    cmd := front;
    for i := 0 to |excludeDirs|
      invariant cmd == front + ExcludeArgs(excludeDirs[..i])
    {
      assert excludeDirs[..i + 1][..i] == excludeDirs[..i];
      Seqs.AppendAssoc(front, ExcludeArgs(excludeDirs[..i]), ["--exclude-dir", excludeDirs[i]]);
      cmd := cmd + ["--exclude-dir", excludeDirs[i]];
    }
    assert excludeDirs[..|excludeDirs|] == excludeDirs;
  }

  /** The recursive command ends with the excluded directories and then the directory searched. */
  lemma RecursiveCommandTail(caseInsensitive: bool, lineNumbers: bool, maxResults: int, pattern: string,
                             filePattern: string, excludeDirs: seq<string>, directory: string)
    ensures var cmd := RecursiveCommand(caseInsensitive, lineNumbers, maxResults, pattern, filePattern, excludeDirs, directory);
      var n := |cmd|;
      && cmd[..2] == [Grep, "-r"]
      && cmd[n - 1] == directory
      && n >= 2 * |excludeDirs| + 1
      && cmd[n - 1 - 2 * |excludeDirs|..n - 1] == ExcludeArgs(excludeDirs)
      && (filePattern == "" || filePattern == "*" ==> |cmd| == 7 + (if caseInsensitive then 1 else 0)
                                                          + (if lineNumbers then 1 else 0) + 2 * |excludeDirs|)
  {
    var cmd := RecursiveCommand(caseInsensitive, lineNumbers, maxResults, pattern, filePattern, excludeDirs, directory);
    var head := [Grep, "-r"] + (if caseInsensitive then ["-i"] else []) + (if lineNumbers then ["-n"] else [])
      + ["-m", Py.IntToString(maxResults), "-E", pattern] + IncludeArgs(filePattern);
    var excluded := ExcludeArgs(excludeDirs);
    assert cmd == head + excluded + [directory];
    Seqs.AppendAssoc(head, excluded, [directory]);
    assert |head| >= 2 && head[..2] == [Grep, "-r"];
    assert cmd[|head|..] == excluded + [directory];
  }

  // ---------------------------------------------------------------------------
  // Reading the output
  // ---------------------------------------------------------------------------

  /** grep exits 0 when it found lines and 1 when it found none; anything else is an error. */
  predicate GrepSucceeded(out: CommandRunner.RunResult) {
    out.ExitCode() == 0 || out.ExitCode() == 1
  }

  /** `f"Grep执行失败: {result.get('stderr', 'Unknown error')}"` */
  function GrepFailure(out: CommandRunner.RunResult): string {
    "Grep执行失败: " + (if out.Stderr().Some? then out.Stderr().value else "Unknown error")
  }

  datatype SearchData = SearchData(matches: string, matchCount: nat, pattern: string, file: string)

  const PatternRequired := "pattern is required"
  const NotAFile := "文件不存在或不是文件"
  const SearchFailedPrefix := "Grep搜索失败: "

  /** `GrepSearchTool.execute`. */
  function GrepSearch(pattern: string, fileText: string, caseInsensitive: bool, lineNumbers: bool,
                      context: int, invert: bool, maxMatches: int, normalize: string -> Paths.Path,
                      roots: seq<Paths.Path>, fs: FileTools.FileSystem, exec: CommandRunner.Invocation -> CommandRunner.Process)
    : (r: Result<SearchData, string>)
    ensures pattern == "" ==> r == Err(PatternRequired)
    ensures pattern != "" && !Validators.IsPathAllowed(roots, normalize(fileText)) ==>
      r == Err(SearchFailedPrefix + Validators.NotAllowed)
    ensures r.Ok? ==> r.value.pattern == pattern && r.value.file == Paths.Text(normalize(fileText))
  {
    if pattern == "" then Err(PatternRequired)
    else
      var file := normalize(fileText);
      if !Validators.IsPathAllowed(roots, file) then Err(SearchFailedPrefix + Validators.NotAllowed)
      else if file !in fs.files then Err(NotAFile)
      else
        var out := CommandRunner.Call(exec, SearchCommand(caseInsensitive, lineNumbers, context, invert, maxMatches, pattern, Paths.Text(file)), 30);
        if GrepSucceeded(out) then
          Ok(SearchData(out.Stdout(), if out.Stdout() != "" then |Py.SplitLines(out.Stdout())| else 0, pattern, Paths.Text(file)))
        else Err(GrepFailure(out))
  }

  /** The search succeeds exactly when the file is an allowed existing file and grep exits with 0
      or 1; the match count is the number of output lines, and 0 exactly for empty output. */
  lemma GrepSearchOutcome(pattern: string, fileText: string, caseInsensitive: bool, lineNumbers: bool,
                          context: int, invert: bool, maxMatches: int, normalize: string -> Paths.Path,
                          roots: seq<Paths.Path>, fs: FileTools.FileSystem, exec: CommandRunner.Invocation -> CommandRunner.Process)
    requires pattern != "" && Validators.IsPathAllowed(roots, normalize(fileText)) && normalize(fileText) in fs.files
    ensures var file := Paths.Text(normalize(fileText));
      var out := CommandRunner.Call(exec, SearchCommand(caseInsensitive, lineNumbers, context, invert, maxMatches, pattern, file), 30);
      var r := GrepSearch(pattern, fileText, caseInsensitive, lineNumbers, context, invert, maxMatches,
                          normalize, roots, fs, exec);
      && (r.Ok? <==> GrepSucceeded(out))
      && (r.Ok? ==> r.value.matches == out.Stdout() && r.value.matchCount == |Py.SplitLines(out.Stdout())|
                    && (r.value.matchCount == 0 <==> out.Stdout() == ""))
      && (r.Err? ==> r.error == GrepFailure(out))
  {
  }

  // ---------------------------------------------------------------------------
  // Grouping recursive output by file
  // ---------------------------------------------------------------------------

  /** `file_part, content = line.split(":", 1)`, for a line holding a ':'. */
  function FilePart(line: string): string
    requires Py.Contains(line, ":")
  {
    Py.ContainsIff(line, ":");
    line[..Py.Find(line, ":")]
  }

  function ContentPart(line: string): string
    requires Py.Contains(line, ":")
  {
    Py.ContainsIff(line, ":");
    line[Py.Find(line, ":") + 1..]
  }

  /** `files_matched` after the loop over `lines`: each file part with its contents in order. */
  function Grouped(lines: seq<string>): map<string, seq<string>> {
    if lines == [] then map[]
    else
      var m := Grouped(lines[..|lines| - 1]);
      var line := lines[|lines| - 1];
      if !Py.Contains(line, ":") then m
      else
        var f := FilePart(line);
        m[f := (if f in m then m[f] else []) + [ContentPart(line)]]
  }

  /** The loop that fills `files_matched`. */
  method GroupByFile(lines: seq<string>) returns (filesMatched: map<string, seq<string>>)
    ensures filesMatched == Grouped(lines)
  {
    filesMatched := map[];
    for i := 0 to |lines|
      invariant filesMatched == Grouped(lines[..i])
    {
      assert lines[..i + 1][..i] == lines[..i];
      var line := lines[i];
      if Py.Contains(line, ":") {
        var filePart, content := FilePart(line), ContentPart(line);
        if filePart !in filesMatched {
          filesMatched := filesMatched[filePart := []];
        }
        filesMatched := filesMatched[filePart := filesMatched[filePart] + [content]];
      }
    }
    assert lines[..|lines|] == lines;
  }

  /** The file parts of the lines that hold a ':'. */
  function FileParts(lines: seq<string>): set<string> {
    set i | 0 <= i < |lines| && Py.Contains(lines[i], ":") :: FilePart(lines[i])
  }

  /** The groups are exactly the distinct file parts, so `files_matched` counts them; and every group
      holds as many contents as there are lines of that file. */
  lemma {:induction false} GroupedKeys(lines: seq<string>)
    ensures Grouped(lines).Keys == FileParts(lines)
  {
    if lines != [] {
      var init := lines[..|lines| - 1];
      GroupedKeys(init);
      var line := lines[|lines| - 1];
      forall f ensures f in FileParts(lines) <==> f in FileParts(init) || (Py.Contains(line, ":") && f == FilePart(line)) {
        if f in FileParts(lines) {
          var i :| 0 <= i < |lines| && Py.Contains(lines[i], ":") && FilePart(lines[i]) == f;
          if i < |init| {
            assert init[i] == lines[i];
          }
        }
        if f in FileParts(init) {
          var i :| 0 <= i < |init| && Py.Contains(init[i], ":") && FilePart(init[i]) == f;
          assert lines[i] == init[i];
        }
      }
    }
  }

  /** A group holds the contents of its file's lines, in output order. */
  function ContentsOf(lines: seq<string>, f: string): seq<string> {
    if lines == [] then []
    else
      var line := lines[|lines| - 1];
      ContentsOf(lines[..|lines| - 1], f)
      + (if Py.Contains(line, ":") && FilePart(line) == f then [ContentPart(line)] else [])
  }

  lemma {:induction false} GroupedContents(lines: seq<string>, f: string)
    requires f in Grouped(lines)
    ensures Grouped(lines)[f] == ContentsOf(lines, f)
  {
    var init := lines[..|lines| - 1];
    var line := lines[|lines| - 1];
    if f in Grouped(init) {
      GroupedContents(init, f);
    } else {
      GroupedAbsent(init, f);
    }
  }

  lemma {:induction false} GroupedAbsent(lines: seq<string>, f: string)
    requires f !in Grouped(lines)
    ensures ContentsOf(lines, f) == []
  {
    if lines != [] {
      GroupedAbsent(lines[..|lines| - 1], f);
    }
  }

  datatype RecursiveData = RecursiveData(matches: string, matchCount: nat, filesMatched: nat,
                                         pattern: string, directory: string)

  const Required := "pattern and directory are required"
  const NotADirectory := "目录不存在或不是目录"
  const RecursiveFailedPrefix := "递归搜索失败: "

  /** `GrepRecursiveTool.execute`. */
  method GrepRecursive(pattern: string, directoryText: string, filePattern: string, excludeDirs: seq<string>,
                       caseInsensitive: bool, lineNumbers: bool, maxResults: int,
                       normalize: string -> Paths.Path, roots: seq<Paths.Path>, fs: FileTools.FileSystem,
                       exec: CommandRunner.Invocation -> CommandRunner.Process)
    returns (r: Result<RecursiveData, string>)
    ensures pattern == "" || directoryText == "" ==> r == Err(Required)
    ensures pattern != "" && directoryText != "" && !Validators.IsPathAllowed(roots, normalize(directoryText)) ==>
      r == Err(RecursiveFailedPrefix + Validators.NotAllowed)
    ensures pattern != "" && directoryText != "" && Validators.IsPathAllowed(roots, normalize(directoryText)) ==>
      var dir := normalize(directoryText);
      var out := CommandRunner.Call(exec, RecursiveCommand(caseInsensitive, lineNumbers, maxResults, pattern, filePattern, excludeDirs, Paths.Text(dir)), 60);
      && (dir !in fs.dirs ==> r == Err(NotADirectory))
      && (dir in fs.dirs ==> (r.Ok? <==> GrepSucceeded(out)))
      && (dir in fs.dirs && !GrepSucceeded(out) ==> r == Err(GrepFailure(out)))
    ensures r.Ok? ==>
      var dir := normalize(directoryText);
      var out := CommandRunner.Call(exec, RecursiveCommand(caseInsensitive, lineNumbers, maxResults, pattern, filePattern, excludeDirs, Paths.Text(dir)), 60);
      && dir in fs.dirs && GrepSucceeded(out)
      && r.value.pattern == pattern
      && r.value.matches == out.Stdout()
      && r.value.matchCount == |Py.SplitLines(out.Stdout())|
      && r.value.filesMatched == |FileParts(Py.SplitLines(out.Stdout()))|
      && r.value.directory == Paths.Text(dir)
  {
    if pattern == "" || directoryText == "" {
      return Err(Required);
    }
    var directory := normalize(directoryText);
    if !Validators.IsPathAllowed(roots, directory) {
      return Err(RecursiveFailedPrefix + Validators.NotAllowed);
    }
    if directory !in fs.dirs {
      return Err(NotADirectory);
    }
    var cmd := BuildRecursiveCommand(caseInsensitive, lineNumbers, maxResults, pattern, filePattern,
                                     excludeDirs, Paths.Text(directory));
    var out := CommandRunner.Call(exec, cmd, 60);
    if !GrepSucceeded(out) {
      return Err(GrepFailure(out));
    }
    var matches := out.Stdout();
    var matchLines := if matches != "" then Py.SplitLines(matches) else [];
    var filesMatched := GroupByFile(matchLines);
    GroupedKeys(matchLines);
    r := Ok(RecursiveData(matches, |matchLines|, |filesMatched|, pattern, Paths.Text(directory)));
  }

  /** There are never more files than output lines. */
  lemma {:induction false} FilePartsBound(lines: seq<string>)
    ensures |FileParts(lines)| <= |lines|
  {
    if lines != [] {
      var init := lines[..|lines| - 1];
      var line := lines[|lines| - 1];
      FilePartsBound(init);
      var extra: set<string> := if Py.Contains(line, ":") then {FilePart(line)} else {};
      assert FileParts(lines) <= FileParts(init) + extra by {
        forall f | f in FileParts(lines) ensures f in FileParts(init) + extra {
          var i :| 0 <= i < |lines| && Py.Contains(lines[i], ":") && FilePart(lines[i]) == f;
          if i < |init| {
            assert init[i] == lines[i];
          }
        }
      }
      SubsetCard(FileParts(lines), FileParts(init) + extra);
    }
  }

  lemma SubsetCard<T>(a: set<T>, b: set<T>)
    requires a <= b
    ensures |a| <= |b|
  {
    assert b == a + (b - a);
  }
}
