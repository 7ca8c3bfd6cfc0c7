/** The CSV analyzer and the text statistics tools (backend/agent/tools/data/processor.py). Reading
    and decoding the file, `csv.DictReader` and `normalize_path` are parameters. */
module DataStats {
  import opened Wrappers
  import Py
  import Paths
  import Validators
  import FileTools

  // ---------------------------------------------------------------------------
  // Per-column statistics of a CSV table
  // ---------------------------------------------------------------------------

  /** One row of `csv.DictReader`: its keys in order and its fields. A row shorter than the header
      holds `None` for the missing fields. */
  datatype Row = Row(keys: seq<string>, fields: map<string, Option<string>>)

  /** `row.get(header, "")` */
  function Get(row: Row, header: string): Option<string> {
    if header in row.fields then row.fields[header] else Some("")
  }

  /** A field is kept by `[v for v in values if v]` when it is a non-empty string. */
  predicate Truthy(v: Option<string>) {
    v.Some? && v.value != ""
  }

  /** `[row.get(header, "") for row in rows]` */
  function Values(rows: seq<Row>, header: string): (r: seq<Option<string>>)
    ensures |r| == |rows|
    ensures forall i :: 0 <= i < |rows| ==> r[i] == Get(rows[i], header)
  {
    seq(|rows|, i requires 0 <= i < |rows| => Get(rows[i], header))
  }

  /** `[v for v in values if v]` */
  function NonEmpty(values: seq<Option<string>>): (r: seq<string>)
    ensures |r| <= |values|
  {
    if values == [] then []
    else (if Truthy(values[0]) then [values[0].value] else []) + NonEmpty(values[1..])
  }

  /** The number of fields `[v for v in values if v]` drops. */
  function EmptyCount(values: seq<Option<string>>): nat {
    if values == [] then 0 else (if Truthy(values[0]) then 0 else 1) + EmptyCount(values[1..])
  }

  datatype ColumnStats = ColumnStats(totalValues: nat, nonEmptyValues: nat, emptyValues: int,
                                     sampleValues: seq<string>)

  /** The statistics of one column. */
  function Column(rows: seq<Row>, header: string): ColumnStats {
    var values := Values(rows, header);
    var nonEmpty := NonEmpty(values);
    ColumnStats(|values|, |nonEmpty|, |values| - |nonEmpty|,
                if |nonEmpty| <= 5 then nonEmpty else nonEmpty[..5])
  }

  /** Every kept field is non-empty, and the kept fields and the dropped ones add up to all. */
  lemma {:induction false} NonEmptyCounts(values: seq<Option<string>>)
    ensures |NonEmpty(values)| + EmptyCount(values) == |values|
    ensures forall k :: 0 <= k < |NonEmpty(values)| ==> NonEmpty(values)[k] != ""
  {
    if values != [] {
      NonEmptyCounts(values[1..]);
    }
  }

  /** The `k`-th kept field is the `k`-th truthy field: there is a position `i` holding it with
      exactly `k` truthy fields before it. */
  lemma {:induction false} NonEmptyAt(values: seq<Option<string>>, k: nat) returns (i: nat)
    requires k < |NonEmpty(values)|
    ensures i < |values| && values[i] == Some(NonEmpty(values)[k])
    ensures |NonEmpty(values[..i])| == k
  {
    if Truthy(values[0]) && k == 0 {
      i := 0;
      assert values[..0] == [];
    } else {
      var j := NonEmptyAt(values[1..], if Truthy(values[0]) then k - 1 else k);
      i := j + 1;
      assert values[..i][1..] == values[1..][..j];
    }
  }

  /** What `column_stats[header]` holds: every row counted, the empty fields counted apart from
      the others, and as samples the first five non-empty fields in row order. */
  lemma ColumnFacts(rows: seq<Row>, header: string)
    ensures var c := Column(rows, header);
      && c.totalValues == |rows|
      && c.nonEmptyValues + c.emptyValues == c.totalValues
      && c.emptyValues == EmptyCount(Values(rows, header))
      && |c.sampleValues| == (if c.nonEmptyValues <= 5 then c.nonEmptyValues else 5)
      && c.sampleValues == NonEmpty(Values(rows, header))[..|c.sampleValues|]
      && (forall k :: 0 <= k < |c.sampleValues| ==> c.sampleValues[k] != "")
  {
    NonEmptyCounts(Values(rows, header));
  }

  /** The table `column_stats` after the loop has visited `headers`. */
  function StatsMap(rows: seq<Row>, headers: seq<string>): map<string, ColumnStats> {
    if headers == [] then map[]
    else StatsMap(rows, headers[..|headers| - 1])[headers[|headers| - 1] := Column(rows, headers[|headers| - 1])]
  }

  /** Visiting one more header enters that header's statistics. */
  lemma {:induction false} StatsMapSnoc(rows: seq<Row>, headers: seq<string>, i: nat)
    requires i < |headers|
    ensures StatsMap(rows, headers[..i + 1]) == StatsMap(rows, headers[..i])[headers[i] := Column(rows, headers[i])]
  {
    assert headers[..i + 1][..i] == headers[..i];
  }

  /** The table has exactly one entry per header. */
  lemma {:induction false} StatsMapKeys(rows: seq<Row>, headers: seq<string>)
    ensures StatsMap(rows, headers).Keys == set h | h in headers
  {
    if headers != [] {
      var init := headers[..|headers| - 1];
      StatsMapKeys(rows, init);
      assert headers == init + [headers[|headers| - 1]];
    }
  }

  /** The entry of each header holds that column's statistics. */
  lemma {:induction false} StatsMapAt(rows: seq<Row>, headers: seq<string>, h: string)
    requires h in headers
    ensures h in StatsMap(rows, headers) && StatsMap(rows, headers)[h] == Column(rows, h)
  {
    var last := headers[|headers| - 1];
    if h != last {
      var init := headers[..|headers| - 1];
      assert headers == init + [last];
      StatsMapAt(rows, init, h);
    }
  }

  /** The `for header in headers` loop that fills `column_stats`. */
  method ColumnStatistics(rows: seq<Row>, headers: seq<string>) returns (stats: map<string, ColumnStats>)
    ensures stats == StatsMap(rows, headers)
  {
    stats := map[];
    for i := 0 to |headers|
      invariant stats == StatsMap(rows, headers[..i])
    {
      var header := headers[i];
      var values := Values(rows, header);
      var nonEmpty := NonEmpty(values);
      var column := ColumnStats(|values|, |nonEmpty|, |values| - |nonEmpty|,
                                if |nonEmpty| <= 5 then nonEmpty else nonEmpty[..5]);
      assert column == Column(rows, header);
      StatsMapSnoc(rows, headers, i);
      stats := stats[header := column];
    }
    assert headers[..|headers|] == headers;
  }

  const CsvPathRequired := "csv_path is required"
  const CsvMissing := "CSV文件不存在"
  const CsvEmpty := "CSV文件为空"
  const CsvFailedPrefix := "CSV分析失败: "

  datatype CsvData = CsvData(file: string, rowCount: nat, columnCount: nat, headers: seq<string>,
                             columnStatistics: map<string, ColumnStats>)

  /** The CSV analyzer's `execute`, as a specification. `read` is `list(csv.DictReader(f))`.
      Opening a path that exists but is not a file raises `OSError`; its `str(e)` comes from the
      operating system, and `FileTools.OpenFailed` carries the exception's class name in its place. */
  function CsvSpec(csvPath: string, normalize: string -> Paths.Path, roots: seq<Paths.Path>,
                   fs: FileTools.FileSystem, read: string -> seq<Row>): Result<CsvData, string> {
    if csvPath == "" then Err(CsvPathRequired)
    else
      var p := normalize(csvPath);
      if !Validators.IsPathAllowed(roots, p) then Err(CsvFailedPrefix + Validators.NotAllowed)
      else if !FileTools.Exists(fs, p) then Err(CsvMissing)
      else if p !in fs.files then Err(CsvFailedPrefix + FileTools.OpenFailed)
      else
        var rows := read(fs.files[p]);
        if rows == [] then Err(CsvEmpty)
        else
          var headers := rows[0].keys;
          Ok(CsvData(Paths.Text(p), |rows|, |headers|, headers, StatsMap(rows, headers)))
  }

  method AnalyzeCsv(csvPath: string, normalize: string -> Paths.Path, roots: seq<Paths.Path>,
                    fs: FileTools.FileSystem, read: string -> seq<Row>) returns (r: Result<CsvData, string>)
    ensures r == CsvSpec(csvPath, normalize, roots, fs, read)
  {
    if csvPath == "" {
      return Err(CsvPathRequired);
    }
    var p := normalize(csvPath);
    if !Validators.IsPathAllowed(roots, p) {
      return Err(CsvFailedPrefix + Validators.NotAllowed);
    }
    if !FileTools.Exists(fs, p) {
      return Err(CsvMissing);
    }
    if p !in fs.files {
      return Err(CsvFailedPrefix + FileTools.OpenFailed);
    }
    var rows := read(fs.files[p]);
    if rows == [] {
      return Err(CsvEmpty);
    }
    var headers := rows[0].keys;
    var stats := ColumnStatistics(rows, headers);
    r := Ok(CsvData(Paths.Text(p), |rows|, |headers|, headers, stats));
  }

  /** A successful analysis counts the rows, takes the headers from the first row and has
      statistics for exactly those headers; it succeeds only for a readable, allowed, non-empty
      file. */
  lemma CsvOutcome(csvPath: string, normalize: string -> Paths.Path, roots: seq<Paths.Path>,
                   fs: FileTools.FileSystem, read: string -> seq<Row>)
    ensures var r := CsvSpec(csvPath, normalize, roots, fs, read);
      var p := normalize(csvPath);
      && (r.Ok? <==> csvPath != "" && Validators.IsPathAllowed(roots, p) && p in fs.files && read(fs.files[p]) != [])
      && (r.Ok? ==> var rows := read(fs.files[p]);
            && r.value.rowCount == |rows|
            && r.value.headers == rows[0].keys
            && r.value.columnCount == |rows[0].keys|
            && r.value.columnStatistics.Keys == set h | h in rows[0].keys
            && (forall h :: h in rows[0].keys ==>
                  h in r.value.columnStatistics && r.value.columnStatistics[h] == Column(rows, h)))
  {
    var r := CsvSpec(csvPath, normalize, roots, fs, read);
    if r.Ok? {
      var p := normalize(csvPath);
      var rows := read(fs.files[p]);
      StatsMapKeys(rows, rows[0].keys);
      forall h | h in rows[0].keys
        ensures h in r.value.columnStatistics && r.value.columnStatistics[h] == Column(rows, h)
      {
        StatsMapAt(rows, rows[0].keys, h);
      }
    }
  }

  // ---------------------------------------------------------------------------
  // Text statistics
  // ---------------------------------------------------------------------------

  /** A character the pattern `[一-鿿]` matches. */
  predicate IsCjk(c: char) {
    0x4E00 <= c as int <= 0x9FFF
  }

  /** `len(re.findall(r"[一-鿿]", s))` */
  function CjkCount(s: string): (n: nat)
    ensures n <= |s|
  {
    if s == [] then 0 else (if IsCjk(s[0]) then 1 else 0) + CjkCount(s[1..])
  }

  /** The characters of `s` other than `c`. */
  function Drop(s: string, c: char): (r: string)
    ensures c !in r
  {
    if s == [] then [] else (if s[0] == c then [] else [s[0]]) + Drop(s[1..], c)
  }

  /** Removing a character shortens the text by its number of occurrences. */
  lemma {:induction false} DropLength(s: string, c: char)
    ensures |Drop(s, c)| == |s| - multiset(s)[c]
  {
    if s != [] {
      DropLength(s[1..], c);
      assert s == [s[0]] + s[1..];
      assert multiset(s) == multiset([s[0]]) + multiset(s[1..]);
    }
  }

  lemma {:induction false} DropAppend(a: string, b: string, c: char)
    ensures Drop(a + b, c) == Drop(a, c) + Drop(b, c)
  {
    if a != [] {
      var head := if a[0] == c then [] else [a[0]];
      assert (a + b)[0] == a[0];
      assert (a + b)[1..] == a[1..] + b;
      DropAppend(a[1..], b, c);
      assert Drop(a + b, c) == head + Drop(a[1..] + b, c);
      assert Drop(a, c) == head + Drop(a[1..], c);
      assert head + (Drop(a[1..], c) + Drop(b, c)) == (head + Drop(a[1..], c)) + Drop(b, c);
    } else {
      assert a + b == b;
    }
  }

  lemma {:induction false} DropAbsent(s: string, c: char)
    requires c !in s
    ensures Drop(s, c) == s
  {
    if s != [] {
      DropAbsent(s[1..], c);
    }
  }

  /** `s.replace(c, "")` for one character `c` removes exactly the occurrences of `c`. */
  lemma {:induction false} ReplaceDrops(s: string, c: char)
    ensures Py.Replace(s, [c], "") == Drop(s, c)
    decreases |s|
  {
    var i := Py.Find(s, [c]);
    if i < 0 {
      Py.ContainsChar(s, c);
      DropAbsent(s, c);
    } else {
      var rest := s[i + 1..];
      assert c !in s[..i] by { Py.BeforeFirstChar(s, c, i); }
      assert s[i..i + 1] == [c];
      assert s == s[..i] + [c] + rest;
      ReplaceDrops(rest, c);
      DropAppend(s[..i] + [c], rest, c);
      DropAppend(s[..i], [c], c);
      DropAbsent(s[..i], c);
      assert Drop([c], c) == [];
    }
  }

  /** `str.split` on a separator yields one more part than there are separators. */
  lemma {:induction false} SplitCount(s: string, sep: string)
    requires sep != []
    ensures |Py.Split(s, sep)| == Py.Count(s, sep) + 1
    decreases |s|
  {
    var i := Py.Find(s, sep);
    if i >= 0 {
      SplitCount(s[i + |sep|..], sep);
    }
  }

  function IsAsciiLetter(c: char): bool {
    'a' <= c <= 'z' || 'A' <= c <= 'Z'
  }

  function IsAsciiDigit(c: char): bool {
    '0' <= c <= '9'
  }

  /** What Python's `\w` must contain whatever Unicode table it follows. */
  predicate WordClass(isWord: char -> bool) {
    && (forall c: char :: IsAsciiLetter(c) ==> isWord(c))
    && (forall c: char :: IsAsciiDigit(c) ==> isWord(c))
    && isWord('_')
    && (forall c: char :: Py.IsSpace(c) ==> !isWord(c))
  }

  /** The length of the leading run of ASCII letters. */
  function LetterRun(s: string): (n: nat)
    ensures 0 < |s| && IsAsciiLetter(s[0]) ==> 0 < n
    ensures n <= |s|
    ensures forall k :: 0 <= k < n ==> IsAsciiLetter(s[k])
    ensures n < |s| ==> !IsAsciiLetter(s[n])
  {
    if s == [] || !IsAsciiLetter(s[0]) then 0 else 1 + LetterRun(s[1..])
  }

  /** `len(re.findall(r"\b[a-zA-Z]+\b", s))`, scanning from a position whose preceding character
      is a word character when `afterWord` holds. A match is a run of ASCII letters with no word
      character just before it and none just after it; a run followed by a word character (a
      digit, say) is no match, and nothing inside it can start one. */
  function EnglishWords(s: string, isWord: char -> bool, afterWord: bool): nat
    decreases |s|
  {
    if s == [] then 0
    else if IsAsciiLetter(s[0]) && !afterWord then
      var n := LetterRun(s);
      (if n == |s| || !isWord(s[n]) then 1 else 0) + EnglishWords(s[n..], isWord, true)
    else EnglishWords(s[1..], isWord, isWord(s[0]))
  }

  const FilePathRequired := "file_path is required"
  const FileMissing := "文件不存在"
  const TextFailedPrefix := "文本统计失败: "

  datatype TextData = TextData(file: string, lineCount: nat, wordCount: nat, charCount: nat,
                               charCountNoSpaces: nat, chineseCharCount: nat, englishWordCount: nat)

  /** The statistics of one decoded text. */
  function Statistics(file: string, content: string, isWord: char -> bool): TextData {
    TextData(file, |Py.Split(content, "\n")|, |Py.SplitWs(content)|, |content|,
             |Py.Replace(Py.Replace(content, " ", ""), "\n", "")|, CjkCount(content),
             EnglishWords(content, isWord, false))
  }

  /** The text statistics tool's `execute`. `content` is the file's text decoded with
      replacement characters; `isWord` is the `\w` class of Python's `re`. */
  function TextStatistics(filePath: string, normalize: string -> Paths.Path, roots: seq<Paths.Path>,
                          fs: FileTools.FileSystem, isWord: char -> bool): (r: Result<TextData, string>)
    ensures filePath == "" ==> r == Err(FilePathRequired)
    ensures filePath != "" && !Validators.IsPathAllowed(roots, normalize(filePath)) ==>
              r == Err(TextFailedPrefix + Validators.NotAllowed)
    ensures r.Ok? <==> filePath != "" && Validators.IsPathAllowed(roots, normalize(filePath))
                       && normalize(filePath) in fs.files
    ensures r.Ok? ==> r.value.file == Paths.Text(normalize(filePath))
                      && r.value.charCount == |fs.files[normalize(filePath)]|
  {
    if filePath == "" then Err(FilePathRequired)
    else
      var p := normalize(filePath);
      if !Validators.IsPathAllowed(roots, p) then Err(TextFailedPrefix + Validators.NotAllowed)
      else if p !in fs.files then Err(FileMissing)
      else Ok(Statistics(Paths.Text(p), fs.files[p], isWord))
  }

  /** The line count is one more than the number of newlines; the count without spaces leaves out
      exactly the spaces and the newlines; neither it nor the Chinese count exceeds the length. */
  lemma StatisticsFacts(file: string, content: string, isWord: char -> bool)
    ensures var d := Statistics(file, content, isWord);
      && d.lineCount == multiset(content)['\n'] + 1
      && d.charCountNoSpaces == |content| - multiset(content)[' '] - multiset(content)['\n']
      && d.chineseCharCount <= d.charCount
      && d.charCountNoSpaces <= d.charCount
  {
    SplitCount(content, "\n");
    CountChar(content, '\n');
    ReplaceDrops(content, ' ');
    var once := Drop(content, ' ');
    ReplaceDrops(once, '\n');
    DropCountOther(content, ' ', '\n');
    DropLength(content, ' ');
    DropLength(once, '\n');
  }

  /** For one character, `s.count(c)` is the number of occurrences of `c`. */
  lemma {:induction false} CountChar(s: string, c: char)
    ensures Py.Count(s, [c]) == multiset(s)[c]
    decreases |s|
  {
    var i := Py.Find(s, [c]);
    if i < 0 {
      Py.ContainsChar(s, c);
      assert c !in multiset(s);
    } else {
      var rest := s[i + 1..];
      assert c !in s[..i] by { Py.BeforeFirstChar(s, c, i); }
      assert s[i..i + 1] == [c];
      assert s == s[..i] + [c] + rest;
      assert multiset(s) == multiset(s[..i]) + multiset{c} + multiset(rest);
      CountChar(rest, c);
    }
  }

  /** Dropping one character leaves the occurrences of another as they were. */
  lemma {:induction false} DropCountOther(s: string, c: char, d: char)
    requires c != d
    ensures multiset(Drop(s, c))[d] == multiset(s)[d]
  {
    if s != [] {
      var head := if s[0] == c then [] else [s[0]];
      DropCountOther(s[1..], c, d);
      assert Drop(s, c) == head + Drop(s[1..], c);
      assert multiset(Drop(s, c)) == multiset(head) + multiset(Drop(s[1..], c));
      assert s == [s[0]] + s[1..];
      assert multiset(s) == multiset([s[0]]) + multiset(s[1..]);
    }
  }

  lemma {:induction false} CjkCountAppend(a: string, b: string)
    ensures CjkCount(a + b) == CjkCount(a) + CjkCount(b)
  {
    if a != [] {
      assert (a + b)[0] == a[0];
      assert (a + b)[1..] == a[1..] + b;
      CjkCountAppend(a[1..], b);
    } else {
      assert a + b == b;
    }
  }

  /** A text with no character of the range counts zero. */
  lemma {:induction false} CjkCountNone(s: string)
    requires forall k :: 0 <= k < |s| ==> (s[k] as int) < 0x4E00
    ensures CjkCount(s) == 0
  {
    if s != [] {
      CjkCountNone(s[1..]);
    }
  }

  /** Three lines without newlines joined by two newlines hold two newlines. */
  lemma TwoNewlines(l1: string, l2: string, l3: string)
    requires '\n' !in l1 && '\n' !in l2 && '\n' !in l3
    ensures multiset(l1 + "\n" + l2 + "\n" + l3)['\n'] == 2
  {
    assert multiset(l1 + "\n" + l2 + "\n" + l3) == multiset(l1) + multiset{'\n'} + multiset(l2) + multiset{'\n'} + multiset(l3);
  }

  lemma TestLines(l1: string, l2: string, l3: string)
    requires l1 == "Hello world" && l2 == "This is a test" && l3 == "中文测试"
    ensures '\n' !in l1 && '\n' !in l2 && '\n' !in l3
    ensures CjkCount(l1 + "\n" + l2 + "\n") == 0 && CjkCount(l3) == 4
  {
    CjkCountNone(l1 + "\n" + l2 + "\n");
    assert IsCjk(l3[0]) && IsCjk(l3[1]) && IsCjk(l3[2]) && IsCjk(l3[3]);
    assert CjkCount(l3[3..]) == 1 + CjkCount([]);
    assert CjkCount(l3[2..]) == 1 + CjkCount(l3[3..]);
    assert CjkCount(l3[1..]) == 1 + CjkCount(l3[2..]);
  }

  /** The text of the tool's own test, "Hello world\nThis is a test\n中文测试", has three lines
      and four Chinese characters. */
  lemma TestFile(l1: string, l2: string, l3: string, isWord: char -> bool)
    requires l1 == "Hello world" && l2 == "This is a test" && l3 == "中文测试"
    ensures var d := Statistics("t", l1 + "\n" + l2 + "\n" + l3, isWord);
      d.lineCount == 3 && d.chineseCharCount == 4
  {
    TestLines(l1, l2, l3);
    var ascii := l1 + "\n" + l2 + "\n";
    var content := ascii + l3;
    TwoNewlines(l1, l2, l3);
    StatisticsFacts("t", content, isWord);
    CjkCountAppend(ascii, l3);
  }

  /** `\b[a-zA-Z]+\b` finds no word in "abc123" (a digit follows the letters) and one in "def". */
  lemma EnglishWordsBoundary(w1: string, w2: string, isWord: char -> bool)
    requires w1 == "abc123" && w2 == "def"
    requires WordClass(isWord)
    ensures EnglishWords(w1 + " " + w2, isWord, false) == 1
  {
    var s := w1 + " " + w2;
    assert LetterRun(s) == 3 by {
      assert IsAsciiLetter(s[0]) && IsAsciiLetter(s[1]) && IsAsciiLetter(s[2]) && !IsAsciiLetter(s[3]);
      assert LetterRun(s[3..]) == 0;
      assert LetterRun(s[2..]) == 1 + LetterRun(s[3..]);
      assert LetterRun(s[1..]) == 1 + LetterRun(s[2..]);
    }
    assert IsAsciiDigit(s[3]) && IsAsciiDigit(s[4]) && IsAsciiDigit(s[5]) && Py.IsSpace(s[6]);
    assert EnglishWords(s, isWord, false) == EnglishWords(s[3..], isWord, true);
    assert EnglishWords(s[3..], isWord, true) == EnglishWords(s[4..], isWord, true);
    assert EnglishWords(s[4..], isWord, true) == EnglishWords(s[5..], isWord, true);
    assert EnglishWords(s[5..], isWord, true) == EnglishWords(s[6..], isWord, true);
    assert EnglishWords(s[6..], isWord, true) == EnglishWords(s[7..], isWord, false);
    var t := s[7..];
    assert t == w2;
    assert LetterRun(t) == 3 by {
      assert IsAsciiLetter(t[0]) && IsAsciiLetter(t[1]) && IsAsciiLetter(t[2]);
      assert LetterRun(t[3..]) == 0;
      assert LetterRun(t[2..]) == 1 + LetterRun(t[3..]);
      assert LetterRun(t[1..]) == 1 + LetterRun(t[2..]);
    }
    assert EnglishWords(t, isWord, false) == 1 + EnglishWords(t[3..], isWord, true);
  }
}
