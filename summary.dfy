/** `_generate_summary`, `_process_single_file` and the batch `execute` of the document summary
    tool. The three copies (backend/agent/tools/document/processor.py,
    backend/agent/tools/mac_tools.py and backend/app/core/tools/mac_tools.py) have the same code.
    Text extraction, `normalize_path` and the clock are parameters. */
module DocumentSummary {
  import opened Wrappers
  import Py
  import Seqs
  import Comprehension
  import Paths
  import Validators
  import FileTools

  // ---------------------------------------------------------------------------
  // The summary of one text
  // ---------------------------------------------------------------------------

  /** `[line.strip() for line in parts if line.strip()]` */
  function NonBlankLines(parts: seq<string>): seq<string> {
    Comprehension.NonEmptyImages(parts, Py.Strip)
  }

  /** Every kept line is non-empty, stripped, and the stripped form of one of the parts; every part
      with something besides whitespace is kept. */
  lemma NonBlankLinesFacts(parts: seq<string>, k: nat, j: nat)
    requires k < |NonBlankLines(parts)| && j < |parts|
    ensures var l := NonBlankLines(parts)[k];
      && l != "" && Py.IsStripped(l)
      && (exists i :: 0 <= i < |parts| && l == Py.Strip(parts[i]))
    ensures !Py.AllSpace(parts[j]) ==> Py.Strip(parts[j]) in NonBlankLines(parts)
  {
    var i := Comprehension.NonEmptyImagesFrom(parts, Py.Strip, k);
    if !Py.AllSpace(parts[j]) {
      Comprehension.NonEmptyImagesKeep(parts, Py.Strip, j);
    }
  }

  /** `length_map.get(length, 15)` */
  function MaxLines(length: string): nat {
    if length == "short" then 5 else if length == "medium" then 15 else if length == "long" then 30 else 15
  }

  /** The running character total after which the loop stops: only for "short" and "medium". */
  function CharLimit(length: string): Option<nat> {
    if length == "short" then Some(1000) else if length == "medium" then Some(3000) else None
  }

  function TotalLength(lines: seq<string>): nat {
    if lines == [] then 0 else TotalLength(lines[..|lines| - 1]) + |lines[|lines| - 1]|
  }

  /** The lines the loop keeps from `lines`, the running total standing at `count`: every line is
      taken, and the loop stops right after a line that takes the total past the limit. */
  function TakeLines(lines: seq<string>, limit: Option<nat>, count: nat): seq<string> {
    if lines == [] then []
    else
      var c := count + |lines[0]|;
      [lines[0]] + (if limit.Some? && c > limit.value then [] else TakeLines(lines[1..], limit, c))
  }

  /** `lines[:max_lines]` */
  function Head(lines: seq<string>, n: nat): (r: seq<string>)
    ensures |r| <= n && |r| <= |lines| && r == lines[..|r|]
    ensures |r| == n || r == lines
  {
    if |lines| <= n then lines else lines[..n]
  }

  /** The lines the summary shows. */
  function SummaryLines(lines: seq<string>, length: string): seq<string> {
    TakeLines(Head(lines, MaxLines(length)), CharLimit(length), 0)
  }

  /** The statistics line: the length of the whole text and the number of non-blank lines. */
  function Stats(text: string, lineCount: nat): string {
    "\n\n**统计**: 总字符数=" + Py.IntToString(|text|) + ", 总行数=" + Py.IntToString(lineCount)
  }

  function TextLines(text: string): seq<string> {
    NonBlankLines(Py.Split(text, "\n"))
  }

  /** `_generate_summary(text, length)`, as a specification. */
  function Summary(text: string, length: string): (r: string)
    ensures text == "" || Py.StartsWith(text, "[") ==> r == text
    ensures text != "" && !Py.StartsWith(text, "[") ==>
      var lines := TextLines(text);
      Py.StartsWith(r, Py.Join("\n", SummaryLines(lines, length))) && Py.EndsWith(r, Stats(text, |lines|))
  {
    if text == "" || Py.StartsWith(text, "[") then text
    else
      var lines := TextLines(text);
      var joined := Py.Join("\n", SummaryLines(lines, length));
      Py.EndsWithAppend(joined, Stats(text, |lines|));
      assert (joined + Stats(text, |lines|))[..|joined|] == joined;
      joined + Stats(text, |lines|)
  }

  /** `_generate_summary`. */
  method GenerateSummary(text: string, length: string) returns (summary: string)
    ensures summary == Summary(text, length)
    ensures text == "" || Py.StartsWith(text, "[") ==> summary == text
  {
    if text == "" || Py.StartsWith(text, "[") {
      return text;
    }
    var lines := TextLines(text);
    var summaryLines := ShownLines(Head(lines, MaxLines(length)), length);
    summary := Py.Join("\n", summaryLines) + Stats(text, |lines|);
  }

  /** The loop over `lines[:max_lines]` with its running character count. */
  method ShownLines(head: seq<string>, length: string) returns (summaryLines: seq<string>)
    ensures summaryLines == TakeLines(head, CharLimit(length), 0)
  {
    ghost var limit := CharLimit(length);
    summaryLines := [];
    var wordCount: nat := 0;
    var i := 0;
    while i < |head|
      invariant 0 <= i <= |head|
      invariant summaryLines + TakeLines(head[i..], limit, wordCount) == TakeLines(head, limit, 0)
      decreases |head| - i
    {
      var line := head[i];
      assert head[i..][1..] == head[i + 1..];
      summaryLines := summaryLines + [line];
      wordCount := wordCount + |line|;
      if wordCount > 1000 && length == "short" {
        break;
      }
      if wordCount > 3000 && length == "medium" {
        break;
      }
      i := i + 1;
    }
    assert i == |head| ==> head[i..] == [];
  }

  /** What the loop keeps: a non-empty prefix of the input when there is input; when it stops
      before the end, the total has just gone past the limit, and it had not before the last
      line; without a limit it keeps everything. */
  lemma {:induction false} TakeLinesFacts(lines: seq<string>, limit: Option<nat>, count: nat)
    requires limit.Some? ==> count <= limit.value
    ensures TakeShape(lines, limit, count, TakeLines(lines, limit, count))
  {
    if lines != [] {
      var c := count + |lines[0]|;
      var r := TakeLines(lines, limit, count);
      if limit.Some? && c > limit.value {
        assert r == [lines[0]];
        assert r[..0] == [];
        TotalCons(lines[0], []);
      } else {
        var rest := TakeLines(lines[1..], limit, c);
        TakeLinesFacts(lines[1..], limit, c);
        assert r == [lines[0]] + rest;
        ConsShape(lines, limit, count, rest);
      }
    }
  }

  /** The facts `TakeLinesFacts` states about what the loop keeps, `r`. */
  predicate TakeShape(lines: seq<string>, limit: Option<nat>, count: nat, r: seq<string>) {
    && |r| <= |lines| && r == lines[..|r|]
    && (lines != [] ==> |r| >= 1)
    && (|r| < |lines| ==> limit.Some? && count + TotalLength(r) > limit.value)
    && (|r| >= 1 && limit.Some? ==> count + TotalLength(r[..|r| - 1]) <= limit.value)
    && (limit.None? ==> r == lines)
  }

  /** A line taken without passing the limit, in front of what the loop keeps from the rest. */
  lemma {:induction false} ConsShape(lines: seq<string>, limit: Option<nat>, count: nat, rest: seq<string>)
    requires lines != [] && (limit.Some? ==> count + |lines[0]| <= limit.value)
    requires TakeShape(lines[1..], limit, count + |lines[0]|, rest)
    ensures TakeShape(lines, limit, count, [lines[0]] + rest)
  {
    var r := [lines[0]] + rest;
    TotalCons(lines[0], rest);
    if |rest| >= 1 {
      assert r[..|r| - 1] == [lines[0]] + rest[..|rest| - 1];
      TotalCons(lines[0], rest[..|rest| - 1]);
    } else {
      assert r[..|r| - 1] == [];
    }
    assert lines == [lines[0]] + lines[1..];
  }

  lemma {:induction false} TotalCons(x: string, xs: seq<string>)
    ensures TotalLength([x] + xs) == |x| + TotalLength(xs)
    decreases |xs|
  {
    if xs != [] {
      var init := xs[..|xs| - 1];
      assert ([x] + xs)[..|xs|] == [x] + init;
      TotalCons(x, init);
    }
  }

  /** The summary shows at most 5, 15 or 30 lines by length (15 for an unknown length), always
      the first ones; when there are lines, at least one; it stops short of the cap only for
      "short" and "medium", and only once the shown lines add up to more than 1000 or 3000
      characters, a total the lines before the last had not passed. */
  lemma SummaryLinesFacts(lines: seq<string>, length: string)
    ensures var s := SummaryLines(lines, length); var n := |Head(lines, MaxLines(length))|;
      && |s| <= MaxLines(length) && |s| <= |lines| && s == lines[..|s|]
      && (lines != [] ==> |s| >= 1)
      && (|s| < n ==> (length == "short" && TotalLength(s) > 1000) || (length == "medium" && TotalLength(s) > 3000))
      && (length == "short" && |s| >= 1 ==> TotalLength(s[..|s| - 1]) <= 1000)
      && (length == "medium" && |s| >= 1 ==> TotalLength(s[..|s| - 1]) <= 3000)
      && (length != "short" && length != "medium" ==> s == Head(lines, MaxLines(length)))
  {
    var head := Head(lines, MaxLines(length));
    TakeLinesFacts(head, CharLimit(length), 0);
    var s := SummaryLines(lines, length);
    assert s == head[..|s|];
    assert head[..|s|] == lines[..|s|];
  }

  /** Text that is empty or starts with "[" (an extraction error) is returned as it is. */
  lemma SummaryPassThrough(rest: string, length: string)
    ensures Summary("", length) == ""
    ensures Summary("[" + rest, length) == "[" + rest
  {
    assert ("[" + rest)[..1] == "[";
  }

  // ---------------------------------------------------------------------------
  // One file of a batch
  // ---------------------------------------------------------------------------

  /** `(file_path_str, summary, success)` */
  datatype FileOutcome = FileOutcome(path: string, summary: string, success: bool)

  const NotAFile := "[文件不存在或不是文件]"
  const FailedPrefix := "[处理失败: "

  /** `_process_single_file`: `extract` is `_extract_text_from_file`, which reports its own
      failures as bracketed text. */
  function ProcessSingleFile(pathText: string, length: string, normalize: string -> Paths.Path,
                             roots: seq<Paths.Path>, fs: FileTools.FileSystem,
                             extract: Paths.Path -> string): (r: FileOutcome)
    ensures r.path == pathText
    ensures r.success <==> Validators.IsPathAllowed(roots, normalize(pathText)) && normalize(pathText) in fs.files
    ensures !Validators.IsPathAllowed(roots, normalize(pathText)) ==> r.summary == FailedPrefix + Validators.NotAllowed + "]"
    ensures r.success ==> r.summary == Summary(extract(normalize(pathText)), length)
  {
    var p := normalize(pathText);
    if !Validators.IsPathAllowed(roots, p) then FileOutcome(pathText, FailedPrefix + Validators.NotAllowed + "]", false)
    else if p !in fs.files then FileOutcome(pathText, NotAFile, false)
    else FileOutcome(pathText, Summary(extract(p), length), true)
  }

  // ---------------------------------------------------------------------------
  // The batch
  // ---------------------------------------------------------------------------

  const FilePathsRequired := "file_paths is required"
  const OutputPathRequired := "output_path is required"
  const BatchFailedPrefix := "批量总结失败: "

  datatype BatchData = BatchData(outputFile: string, totalFiles: nat, successCount: nat, failedCount: int)

  function SuccessCount(results: seq<FileOutcome>): (n: nat)
    ensures n <= |results|
  {
    if results == [] then 0
    else SuccessCount(results[..|results| - 1]) + (if results[|results| - 1].success then 1 else 0)
  }

  /** The report's lines for one file. */
  function Section(r: FileOutcome): seq<string> {
    ["## 📄 " + Paths.Name(r.path) + "\n",
     "**路径**: `" + r.path + "`\n",
     "**状态**: " + (if r.success then "✅ 成功" else "❌ 失败") + "\n",
     "**摘要**:\n",
     "```\n" + r.summary + "\n```\n",
     "\n---\n"]
  }

  function Sections(results: seq<FileOutcome>): (lines: seq<string>)
    ensures |lines| == 6 * |results|
  {
    if results == [] then [] else Sections(results[..|results| - 1]) + Section(results[|results| - 1])
  }

  function ReportHeader(total: nat, length: string, timestamp: string): seq<string> {
    ["# 文档批量摘要报告", "\n生成时间: " + timestamp, "处理文件数: " + Py.IntToString(total),
     "摘要长度: " + length, "\n---\n"]
  }

  function ReportFooter(total: nat, success: nat): string {
    "\n## 📊 总结\n\n- 总文件数: " + Py.IntToString(total) + "\n- 成功: " + Py.IntToString(success)
    + "\n- 失败: " + Py.IntToString(total - success)
  }

  function ReportLines(results: seq<FileOutcome>, total: nat, length: string, timestamp: string): seq<string> {
    ReportHeader(total, length, timestamp) + Sections(results) + [ReportFooter(total, SuccessCount(results))]
  }

  /** The outcome of each file, in the order the files were given. */
  function Outcomes(filePaths: seq<string>, length: string, normalize: string -> Paths.Path,
                    roots: seq<Paths.Path>, fs: FileTools.FileSystem, extract: Paths.Path -> string)
    : (rs: seq<FileOutcome>)
    ensures |rs| == |filePaths|
    ensures forall i :: 0 <= i < |filePaths| ==> rs[i] == ProcessSingleFile(filePaths[i], length, normalize, roots, fs, extract)
  {
    seq(|filePaths|, i requires 0 <= i < |filePaths| => ProcessSingleFile(filePaths[i], length, normalize, roots, fs, extract))
  }

  /** The batch `execute`, as a specification: the result and the file system afterwards.
      Opening the report path fails with `OSError` when it is a directory or its parent is
      missing; `str(e)` comes from the operating system, and `FileTools.OpenFailed` carries the
      exception's class name in its place. */
  function BatchSpec(filePaths: seq<string>, outputPath: string, length: string, timestamp: string,
                     normalize: string -> Paths.Path, roots: seq<Paths.Path>, fs: FileTools.FileSystem,
                     extract: Paths.Path -> string): (FileTools.ToolResult<BatchData>, FileTools.FileSystem) {
    if filePaths == [] then (FileTools.Failure(FilePathsRequired), fs)
    else if outputPath == "" then (FileTools.Failure(OutputPathRequired), fs)
    else
      var out := normalize(outputPath);
      if !Validators.IsPathAllowed(roots, out) then (FileTools.Failure(BatchFailedPrefix + Validators.NotAllowed), fs)
      else
        var results := Outcomes(filePaths, length, normalize, roots, fs, extract);
        var success := SuccessCount(results);
        var report := Py.Join("\n", ReportLines(results, |filePaths|, length, timestamp));
        if out in fs.dirs || FileTools.Parent(out) !in fs.dirs || FileTools.Parent(out) in fs.files then
          (FileTools.Failure(BatchFailedPrefix + FileTools.OpenFailed), fs)
        else
          (FileTools.Success(BatchData(Paths.Text(out), |filePaths|, success, |filePaths| - success)),
           fs.(files := fs.files[out := report]))
  }

  /** The loop over the results: counting the successes and adding each file's section. */
  method Tally(results: seq<FileOutcome>, header: seq<string>)
    returns (successCount: nat, reportLines: seq<string>)
    ensures successCount == SuccessCount(results)
    ensures reportLines == header + Sections(results)
  {
    successCount := 0;
    reportLines := header;
    for i := 0 to |results|
      invariant successCount == SuccessCount(results[..i])
      invariant reportLines == header + Sections(results[..i])
    {
      assert results[..i + 1][..i] == results[..i];
      var r := results[i];
      if r.success {
        successCount := successCount + 1;
      }
      Seqs.AppendAssoc(header, Sections(results[..i]), Section(r));
      reportLines := reportLines + Section(r);
    }
    assert results[..|results|] == results;
  }

  /** The batch `execute`. */
  method BatchExecute(filePaths: seq<string>, outputPath: string, length: string, timestamp: string,
                      normalize: string -> Paths.Path, roots: seq<Paths.Path>, fs: FileTools.FileSystem,
                      extract: Paths.Path -> string)
    returns (r: FileTools.ToolResult<BatchData>, fs': FileTools.FileSystem)
    ensures (r, fs') == BatchSpec(filePaths, outputPath, length, timestamp, normalize, roots, fs, extract)
  {
    if filePaths == [] {
      return FileTools.Failure(FilePathsRequired), fs;
    }
    if outputPath == "" {
      return FileTools.Failure(OutputPathRequired), fs;
    }
    var out := normalize(outputPath);
    if !Validators.IsPathAllowed(roots, out) {
      return FileTools.Failure(BatchFailedPrefix + Validators.NotAllowed), fs;
    }
    var results := Outcomes(filePaths, length, normalize, roots, fs, extract);
    var successCount, lines := Tally(results, ReportHeader(|filePaths|, length, timestamp));
    lines := lines + [ReportFooter(|filePaths|, successCount)];
    var report := Py.Join("\n", lines);
    if out in fs.dirs || FileTools.Parent(out) !in fs.dirs || FileTools.Parent(out) in fs.files {
      return FileTools.Failure(BatchFailedPrefix + FileTools.OpenFailed), fs;
    }
    r := FileTools.Success(BatchData(Paths.Text(out), |filePaths|, successCount, |filePaths| - successCount));
    fs' := fs.(files := fs.files[out := report]);
  }

  /** An empty file list is refused before the output path is looked at, and an empty output path
      next; neither touches the file system. */
  lemma BatchGuards(filePaths: seq<string>, outputPath: string, length: string, timestamp: string,
                    normalize: string -> Paths.Path, roots: seq<Paths.Path>, fs: FileTools.FileSystem,
                    extract: Paths.Path -> string)
    ensures filePaths == [] ==>
      BatchSpec(filePaths, outputPath, length, timestamp, normalize, roots, fs, extract) == (FileTools.Failure(FilePathsRequired), fs)
    ensures filePaths != [] && outputPath == "" ==>
      BatchSpec(filePaths, outputPath, length, timestamp, normalize, roots, fs, extract) == (FileTools.Failure(OutputPathRequired), fs)
  {
  }

  /** A finished batch counts every file once: the successes are the files that were allowed and
      present, and the failures are the rest, so the two add up to the number of files. The report
      is written to the output path. */
  lemma BatchCounts(filePaths: seq<string>, outputPath: string, length: string, timestamp: string,
                    normalize: string -> Paths.Path, roots: seq<Paths.Path>, fs: FileTools.FileSystem,
                    extract: Paths.Path -> string)
    requires BatchSpec(filePaths, outputPath, length, timestamp, normalize, roots, fs, extract).0.Success?
    ensures var (r, fs') := BatchSpec(filePaths, outputPath, length, timestamp, normalize, roots, fs, extract);
      var results := Outcomes(filePaths, length, normalize, roots, fs, extract);
      && r.data.totalFiles == |filePaths|
      && r.data.successCount == SuccessCount(results) <= r.data.totalFiles
      && r.data.failedCount == SuccessCount(Flip(results))
      && r.data.successCount + r.data.failedCount == r.data.totalFiles
      && normalize(outputPath) in fs'.files
  {
    var results := Outcomes(filePaths, length, normalize, roots, fs, extract);
    FlipCount(results);
  }

  /** Each outcome with success and failure swapped. */
  function Flip(results: seq<FileOutcome>): (f: seq<FileOutcome>)
    ensures |f| == |results|
  {
    if results == [] then [] else Flip(results[..|results| - 1]) + [results[|results| - 1].(success := !results[|results| - 1].success)]
  }

  /** The failures are what the successes leave over. */
  lemma {:induction false} FlipCount(results: seq<FileOutcome>)
    ensures SuccessCount(Flip(results)) == |results| - SuccessCount(results)
  {
    if results != [] {
      var init := results[..|results| - 1];
      FlipCount(init);
      assert Flip(results)[..|results| - 1] == Flip(init);
    }
  }

  /** The counts do not depend on the order in which the files finish: any reordering of the
      outcomes has the same number of successes. */
  lemma {:induction false} SuccessCountPermutation(a: seq<FileOutcome>, b: seq<FileOutcome>)
    requires multiset(a) == multiset(b)
    ensures SuccessCount(a) == SuccessCount(b)
    decreases |a|
  {
    if a != [] {
      var i := RemoveLast(a, b);
      SuccessCountPermutation(a[..|a| - 1], b[..i] + b[i + 1..]);
      SuccessCountRemove(b, i);
    } else {
      assert |b| == |multiset(b)| == 0;
    }
  }

  /** The last element of `a` occurs in any reordering `b`, and removing it from both leaves
      reorderings of each other. */
  lemma RemoveLast<T>(a: seq<T>, b: seq<T>) returns (i: nat)
    requires a != [] && multiset(a) == multiset(b)
    ensures i < |b| && b[i] == a[|a| - 1]
    ensures multiset(a[..|a| - 1]) == multiset(b[..i] + b[i + 1..])
  {
    var x := a[|a| - 1];
    var init := a[..|a| - 1];
    assert a == init + [x];
    assert x in multiset(b);
    i :| 0 <= i < |b| && b[i] == x;
    var rest := b[..i] + b[i + 1..];
    assert b == b[..i] + [x] + b[i + 1..];
    assert multiset(b) == multiset(rest) + multiset{x};
    assert multiset(a) == multiset(init) + multiset{x};
    assert multiset(init) == multiset(a) - multiset{x};
    assert multiset(rest) == multiset(b) - multiset{x};
  }

  lemma {:induction false} SuccessCountRemove(b: seq<FileOutcome>, i: nat)
    requires i < |b|
    ensures SuccessCount(b) == SuccessCount(b[..i] + b[i + 1..]) + (if b[i].success then 1 else 0)
    decreases |b|
  {
    var last := |b| - 1;
    if i < last {
      var init := b[..last];
      SuccessCountRemove(init, i);
      assert init[..i] + init[i + 1..] == (b[..i] + b[i + 1..])[..last - 1];
      assert (b[..i] + b[i + 1..])[last - 1] == b[last];
      assert init[i] == b[i];
    } else {
      assert b[..i] + b[i + 1..] == b[..last];
    }
  }

  /** The report has a five-line header, six lines per file and one closing summary line. */
  lemma ReportLineCount(results: seq<FileOutcome>, total: nat, length: string, timestamp: string)
    ensures |ReportLines(results, total, length, timestamp)| == 6 * |results| + 6
    ensures ReportLines(results, total, length, timestamp)[0] == "# 文档批量摘要报告"
  {
  }
}
