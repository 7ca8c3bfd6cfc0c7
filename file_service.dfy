/** The upload service: file-name sanitising, text truncation, image detection, text extraction
    by file type, the upload size guard and the containment check before a deletion.
    File contents, extraction libraries and the file system are inputs. */
module FileService {
  import opened Wrappers
  import Py
  import Paths

  /** The tokens the upload service replaces in file names. */
  const UploadDangerous: seq<string> := ["/", "\\", "..", "\0"]
  const Unnamed: string := "unnamed_file"
  const TruncationNotice: string := "\n\n[文本已截断...]"
  const ImageExtensions: set<string> := {".png", ".jpg", ".jpeg", ".webp", ".gif", ".bmp"}

  // ---------------------------------------------------------------------------
  // File names
  // ---------------------------------------------------------------------------

  /** Every token of `tokens`, in order, replaced by "_". */
  function ReplaceAll(s: string, tokens: seq<string>): string
    decreases |tokens|
  {
    if tokens == [] then s else ReplaceAll(Py.Replace(s, tokens[0], "_"), tokens[1..])
  }

  /** A name over 255 characters keeps its first 200 and its suffix. */
  function Shorten(s: string): string {
    if |s| > 255 then s[..200] + Paths.Suffix(s) else s
  }

  /** The sanitised form of `filename` for the dangerous `tokens`. */
  function SafeName(filename: string, tokens: seq<string>): string {
    var s := Shorten(ReplaceAll(Paths.Name(filename), tokens));
    if s == "" then Unnamed else s
  }

  /** The replacement loop with its running name. */
  method SanitizeFilename(filename: string, tokens: seq<string>) returns (r: string)
    ensures r == SafeName(filename, tokens)
  {
    r := Paths.Name(filename);
    ghost var start := r;
    for i := 0 to |tokens|
      invariant ReplaceAll(r, tokens[i..]) == ReplaceAll(start, tokens)
    {
      assert tokens[i..][1..] == tokens[i + 1..];
      r := Py.Replace(r, tokens[i], "_");
    }
    assert tokens[|tokens|..] == [];
    if |r| > 255 {
      r := r[..200] + Paths.Suffix(r);
    }
    if r == "" {
      r := Unnamed;
    }
  }

  /** A character that is absent stays absent through later replacements. */
  lemma {:induction false} ReplaceAllKeepsAbsent(s: string, tokens: seq<string>, c: char)
    requires forall i :: 0 <= i < |tokens| ==> tokens[i] != ""
    requires c !in s && c != '_'
    ensures c !in ReplaceAll(s, tokens)
    decreases |tokens|
  {
    if tokens != [] {
      Py.ReplaceKeepsAbsent(s, tokens[0], "_", c);
      ReplaceAllKeepsAbsent(Py.Replace(s, tokens[0], "_"), tokens[1..], c);
    }
  }

  /** A one-character token other than "_" does not survive the replacements. */
  lemma {:induction false} ReplaceAllRemoves(s: string, tokens: seq<string>, k: nat)
    requires forall i :: 0 <= i < |tokens| ==> tokens[i] != ""
    requires k < |tokens| && |tokens[k]| == 1 && tokens[k][0] != '_'
    ensures tokens[k][0] !in ReplaceAll(s, tokens)
    decreases |tokens|
  {
    var c := tokens[k][0];
    var s' := Py.Replace(s, tokens[0], "_");
    if k == 0 {
      assert tokens[0] == [c];
      Py.ReplaceRemovesChar(s, c, "_");
      ReplaceAllKeepsAbsent(s', tokens[1..], c);
    } else {
      assert tokens[1..][k - 1] == tokens[k];
      ReplaceAllRemoves(s', tokens[1..], k - 1);
    }
  }

  /** Replacing in the empty name leaves it empty. */
  lemma {:induction false} ReplaceAllEmpty(tokens: seq<string>)
    requires forall i :: 0 <= i < |tokens| ==> tokens[i] != ""
    ensures ReplaceAll("", tokens) == ""
    decreases |tokens|
  {
    if tokens != [] {
      assert Py.Replace("", tokens[0], "_") == "";
      ReplaceAllEmpty(tokens[1..]);
    }
  }

  /** A one-character token other than "_" is absent from the sanitised name, unless the fallback
      name was chosen. */
  lemma {:induction false} SafeNameAvoids(filename: string, tokens: seq<string>, k: nat)
    requires forall i :: 0 <= i < |tokens| ==> tokens[i] != ""
    requires k < |tokens| && |tokens[k]| == 1 && tokens[k][0] != '_'
    ensures tokens[k][0] !in SafeName(filename, tokens) || SafeName(filename, tokens) == Unnamed
  {
    var cleaned := ReplaceAll(Paths.Name(filename), tokens);
    var c := tokens[k][0];
    ReplaceAllRemoves(Paths.Name(filename), tokens, k);
    if |cleaned| > 255 {
      var x := Paths.Suffix(cleaned);
      assert x == cleaned[|cleaned| - |x|..] by {
        if x == "" {
        }
      }
      assert c !in cleaned[..200];
      assert c !in x;
    }
  }

  /** What sanitising guarantees: a non-empty result, none of the one-character tokens (unless the
      fallback name was chosen), the untouched cleaned name when it is short, and the 200-character
      head plus suffix when it is long. A name without components becomes the fallback. */
  lemma {:induction false} SafeNameFacts(filename: string, tokens: seq<string>)
    requires forall i :: 0 <= i < |tokens| ==> tokens[i] != ""
    ensures SafeName(filename, tokens) != ""
    ensures forall k :: 0 <= k < |tokens| && |tokens[k]| == 1 && tokens[k][0] != '_' ==>
              tokens[k][0] !in SafeName(filename, tokens) || SafeName(filename, tokens) == Unnamed
    ensures |ReplaceAll(Paths.Name(filename), tokens)| <= 255 ==>
              SafeName(filename, tokens) ==
                (if ReplaceAll(Paths.Name(filename), tokens) == "" then Unnamed else ReplaceAll(Paths.Name(filename), tokens))
    ensures |ReplaceAll(Paths.Name(filename), tokens)| > 255 ==>
              var cleaned := ReplaceAll(Paths.Name(filename), tokens);
              SafeName(filename, tokens) == cleaned[..200] + Paths.Suffix(cleaned)
    ensures Paths.Name(filename) == "" ==> SafeName(filename, tokens) == Unnamed
  {
    forall k | 0 <= k < |tokens| && |tokens[k]| == 1 && tokens[k][0] != '_' {
      SafeNameAvoids(filename, tokens, k);
    }
    if Paths.Name(filename) == "" {
      ReplaceAllEmpty(tokens);
    }
  }

  /** The character `c`, listed at position `k`, is absent from the sanitised name. */
  lemma Avoids(filename: string, tokens: seq<string>, c: char, k: nat)
    requires forall i :: 0 <= i < |tokens| ==> tokens[i] != ""
    requires k < |tokens| && tokens[k] == [c] && c != '_' && c !in Unnamed
    ensures c !in SafeName(filename, tokens)
  {
    SafeNameAvoids(filename, tokens, k);
  }

  /** A token list that starts with "/", "\\" and a third token, then "\0", keeps all three
      characters out. */
  lemma KeepsSeparatorsOut(filename: string, tokens: seq<string>)
    requires forall i :: 0 <= i < |tokens| ==> tokens[i] != ""
    requires |tokens| >= 4 && tokens[0] == ['/'] && tokens[1] == ['\\'] && tokens[3] == ['\0']
    ensures var r := SafeName(filename, tokens);
            r != "" && '/' !in r && '\\' !in r && '\0' !in r
  {
    UnnamedPlain();
    Avoids(filename, tokens, '/', 0);
    Avoids(filename, tokens, '\\', 1);
    Avoids(filename, tokens, '\0', 3);
  }

  /** The fallback name holds no slash, backslash or NUL. */
  lemma UnnamedPlain()
    ensures '/' !in Unnamed && '\\' !in Unnamed && '\0' !in Unnamed
  {
  }

  /** The upload service's own sanitiser keeps no slash, backslash or NUL. */
  lemma UploadNameSafe(filename: string)
    ensures var r := SafeName(filename, UploadDangerous);
            r != "" && '/' !in r && '\\' !in r && '\0' !in r
  {
    KeepsSeparatorsOut(filename, UploadDangerous);
  }

  // ---------------------------------------------------------------------------
  // Text
  // ---------------------------------------------------------------------------

  /** `_truncate_text`: text within the limit is returned as it is; longer text keeps `text[:limit]`
      and gains the truncation notice. */
  function TruncateText(text: string, limit: int): (r: string)
    ensures |text| <= limit ==> r == text
    ensures |text| > limit ==> r == Py.Take(text, limit) + TruncationNotice
  {
    if |text| > limit then Py.Take(text, limit) + TruncationNotice else text
  }

  /** A truncated text never exceeds the limit by more than the notice, and it keeps the start of
      the original. */
  lemma {:induction false} TruncateBounds(text: string, limit: nat)
    ensures |TruncateText(text, limit)| <= limit + |TruncationNotice|
    ensures Py.StartsWith(TruncateText(text, limit), Py.Take(text, limit))
    ensures |TruncateText(text, limit)| >= (if |text| < limit then |text| else limit)
  {
    var r := TruncateText(text, limit);
    if |text| > limit {
      assert r[..limit] == text[..limit];
    } else {
      assert Py.Take(text, limit) == text;
    }
  }

  /** `is_image_file`: an image content type, or one of the image extensions in any letter case. */
  function IsImageFile(path: string, contentType: Option<string>): (ok: bool)
    ensures (contentType.None? || !Py.StartsWith(contentType.value, "image/")) && Paths.Suffix(Paths.Name(path)) == "" ==> !ok
  {
    (contentType.Some? && contentType.value != "" && Py.StartsWith(contentType.value, "image/"))
    || Py.Lower(Paths.Suffix(Paths.Name(path))) in ImageExtensions
  }

  /** An upper-case image extension counts even without a content type. */
  lemma UpperCaseExtension()
    ensures IsImageFile("photo.PNG", None)
  {
    Paths.NameOfComponent("photo.PNG");
    Paths.SuffixAt("photo.PNG", 5);
    assert "photo.PNG"[5..] == ".PNG";
    LowerPng();
  }

  lemma LowerPng()
    ensures Py.Lower(".PNG") == ".png"
  {
    var l := Py.Lower(".PNG");
    assert forall i :: 0 <= i < 4 ==> l[i] == ".png"[i];
  }

  /** A text file with a text content type is no image. */
  lemma TextFileNotImage()
    ensures !IsImageFile("notes.txt", Some("text/plain"))
  {
    Paths.NameOfComponent("notes.txt");
    Paths.SuffixAt("notes.txt", 5);
    assert "notes.txt"[5..] == ".txt";
    LowerTxt();
    NotImageType();
  }

  lemma LowerTxt()
    ensures Py.Lower(".txt") == ".txt" && ".txt" !in ImageExtensions
  {
    var t := Py.Lower(".txt");
    assert forall i :: 0 <= i < 4 ==> t[i] == ".txt"[i];
  }

  lemma NotImageType()
    ensures !Py.StartsWith("text/plain", "image/")
  {
    assert "text/plain"[..6][0] == 't';
  }

  /** The extractor chosen by the lowercased extension. */
  datatype Kind = Pdf | Word | Excel | PlainText | Unsupported

  function KindOf(path: string): (k: Kind) {
    var ext := Py.Lower(Paths.Suffix(Paths.Name(path)));
    if ext == ".pdf" then Pdf
    else if ext == ".docx" || ext == ".doc" then Word
    else if ext == ".xlsx" || ext == ".xls" then Excel
    else if ext == ".txt" then PlainText
    else Unsupported
  }

  /** Pieces of a document (PDF pages, Word paragraphs) joined by blank lines, empty ones skipped. */
  function JoinPieces(pieces: seq<string>): string {
    Py.Join("\n\n", NonEmpty(pieces))
  }

  function NonEmpty(pieces: seq<string>): (r: seq<string>)
    ensures forall i :: 0 <= i < |r| ==> r[i] != ""
  {
    if pieces == [] then [] else if pieces[0] == "" then NonEmpty(pieces[1..]) else [pieces[0]] + NonEmpty(pieces[1..])
  }

  /** `extract_text`. `pieces` reads the pages or paragraphs of a PDF or Word file and `whole` the
      text of a spreadsheet or plain-text file; an `Err` stands for a missing library or any raised
      error. Unsupported types and failed extractions give ""; a successful one gives the truncated
      text. */
  function ExtractText(path: string, limit: int,
                       pieces: Kind -> Result<seq<string>, string>,
                       whole: Kind -> Result<string, string>): (r: string)
    ensures KindOf(path) == Unsupported ==> r == ""
    ensures KindOf(path) in {Pdf, Word} && pieces(KindOf(path)).Err? ==> r == ""
    ensures KindOf(path) in {Pdf, Word} && pieces(KindOf(path)).Ok? ==>
              r == TruncateText(JoinPieces(pieces(KindOf(path)).value), limit)
    ensures KindOf(path) in {Excel, PlainText} && whole(KindOf(path)).Err? ==> r == ""
    ensures KindOf(path) in {Excel, PlainText} && whole(KindOf(path)).Ok? ==>
              r == TruncateText(whole(KindOf(path)).value, limit)
    ensures limit >= 0 ==> |r| <= limit + |TruncationNotice|
  {
    var k := KindOf(path);
    if k == Unsupported then ""
    else if k == Pdf || k == Word then
      (match pieces(k) case Err(_) => "" case Ok(ps) => TruncateAtMost(JoinPieces(ps), limit); TruncateText(JoinPieces(ps), limit))
    else
      (match whole(k) case Err(_) => "" case Ok(t) => TruncateAtMost(t, limit); TruncateText(t, limit))
  }

  /** The bound of `TruncateBounds` for any limit. */
  lemma TruncateAtMost(text: string, limit: int)
    ensures limit >= 0 ==> |TruncateText(text, limit)| <= limit + |TruncationNotice|
  {
    if limit >= 0 {
      TruncateBounds(text, limit);
    }
  }

  // ---------------------------------------------------------------------------
  // Upload and deletion
  // ---------------------------------------------------------------------------

  datatype Upload = Upload(id: string, filename: string, contentType: Option<string>,
                           path: string, size: nat, createdAt: int)

  /** `save_upload` with the generated id and the clock as inputs: too large content is refused
      before anything is written; otherwise the file is stored as `<id>_<safe name>` in the upload
      directory. */
  function SaveUpload(uploadDir: string, maxSize: int, filename: string, content: seq<bv8>,
                      contentType: Option<string>, fileId: string, nowMs: int): (r: Result<Upload, string>)
    ensures r.Err? <==> |content| > maxSize
    ensures r.Err? ==> r.error == "File too large: " + Py.IntToString(|content|) + " bytes (max: " + Py.IntToString(maxSize) + ")"
    ensures r.Ok? ==> r.value.filename == SafeName(filename, UploadDangerous) && r.value.size == |content|
                      && r.value.id == fileId && r.value.contentType == contentType
                      && r.value.path == Paths.Text(Paths.Child(Paths.Parse(uploadDir), fileId + "_" + r.value.filename))
  {
    if |content| > maxSize then
      Err("File too large: " + Py.IntToString(|content|) + " bytes (max: " + Py.IntToString(maxSize) + ")")
    else
      var safe := SafeName(filename, UploadDangerous);
      Ok(Upload(fileId, safe, contentType,
                Paths.Text(Paths.Child(Paths.Parse(uploadDir), fileId + "_" + safe)), |content|, nowMs))
  }

  /** The file system as `delete_file` sees it. `resolve` returns the absolute, normalised text of a
      path; `unlink` fails on directories and whenever the removal raises. */
  datatype Disk = Disk(resolve: string -> string, present: string -> bool, unlink: string -> bool)

  /** `delete_file` as written: its containment test compares the resolved texts by prefix. */
  function DeleteFileAsWritten(disk: Disk, uploadDir: string, path: string): (deleted: bool)
    ensures deleted ==> Py.StartsWith(disk.resolve(path), disk.resolve(uploadDir))
    ensures deleted ==> disk.present(path) && disk.unlink(path)
    ensures disk.resolve(path) == disk.resolve(uploadDir) ==> (deleted <==> disk.present(path) && disk.unlink(path))
  {
    if !Py.StartsWith(disk.resolve(path), disk.resolve(uploadDir)) then false
    else disk.present(path) && disk.unlink(path)
  }

  /** A sibling directory whose name extends the upload directory's passes the prefix test. */
  lemma DeleteOutsideUploadDir()
    ensures var disk := Disk(p => p, p => true, p => true);
            DeleteFileAsWritten(disk, "/srv/up", "/srv/up2/x") &&
            !Paths.Within(Paths.Parse("/srv/up"), Paths.Parse("/srv/up2/x"))
  {
    SiblingPrefix();
    var up := Paths.Path(true, ["srv", "up"]);
    var x := Paths.Path(true, ["srv", "up2", "x"]);
    TextUp();
    TextUp2X();
    ParsedLiteral(up, "/srv/up");
    ParsedLiteral(x, "/srv/up2/x");
    Paths.WithinIff(up, x);
    assert x.parts[..2] != up.parts by { assert x.parts[1] != up.parts[1]; }
  }

  lemma SiblingPrefix()
    ensures Py.StartsWith("/srv/up2/x", "/srv/up")
  {
    assert "/srv/up2/x"[..|"/srv/up"|] == "/srv/up";
  }

  lemma TextUp()
    ensures Paths.Text(Paths.Path(true, ["srv", "up"])) == "/srv/up"
  {
    assert Py.Join("/", ["up"]) == "up";
    Py.JoinCons("/", "srv", ["up"]);
  }

  lemma TextUp2X()
    ensures Paths.Text(Paths.Path(true, ["srv", "up2", "x"])) == "/srv/up2/x"
  {
    assert Py.Join("/", ["x"]) == "x";
    Py.JoinCons("/", "up2", ["x"]);
    Py.JoinCons("/", "srv", ["up2", "x"]);
    assert ["srv"] + ["up2", "x"] == ["srv", "up2", "x"];
  }

  lemma ParsedLiteral(p: Paths.Path, s: string)
    requires forall i :: 0 <= i < |p.parts| ==> Paths.IsComponent(p.parts[i])
    requires Paths.Text(p) == s
    ensures Paths.Parse(s) == p
  {
    Paths.ParseText(p);
  }

  /** `delete_file` with containment decided on path components: only a path strictly inside the
      upload directory may be removed. */
  function DeleteFile(disk: Disk, uploadDir: string, path: string): (deleted: bool)
    ensures deleted ==> Paths.IsAncestor(Paths.Parse(disk.resolve(uploadDir)), Paths.Parse(disk.resolve(path)))
    ensures deleted ==> disk.present(path) && disk.unlink(path)
  {
    var root := Paths.Parse(disk.resolve(uploadDir));
    var target := Paths.Parse(disk.resolve(path));
    if !Paths.IsAncestor(root, target) then false
    else disk.present(path) && disk.unlink(path)
  }

  /** Inside the upload directory, the corrected test agrees with the written one. */
  lemma {:induction false} DeleteFileAgrees(disk: Disk, uploadDir: string, path: string)
    requires Paths.IsAncestor(Paths.Parse(disk.resolve(uploadDir)), Paths.Parse(disk.resolve(path)))
    requires disk.resolve(path) == Paths.Text(Paths.Parse(disk.resolve(path)))
    requires disk.resolve(uploadDir) == Paths.Text(Paths.Parse(disk.resolve(uploadDir)))
    requires Paths.Parse(disk.resolve(uploadDir)).absolute
    ensures DeleteFile(disk, uploadDir, path) == DeleteFileAsWritten(disk, uploadDir, path)
  {
    var root := Paths.Parse(disk.resolve(uploadDir));
    var target := Paths.Parse(disk.resolve(path));
    TextPrefix(root, target);
  }

  /** The text of a path starts with the text of each of its anchored or non-empty ancestors. */
  lemma {:induction false} TextPrefix(root: Paths.Path, p: Paths.Path)
    requires Paths.IsAncestor(root, p)
    requires root.absolute || root.parts != []
    ensures Py.StartsWith(Paths.Text(p), Paths.Text(root))
  {
    var n := |root.parts|;
    assert p.parts == root.parts + p.parts[n..];
    if n == 0 {
      assert Paths.Text(p)[..1] == "/";
    } else {
      JoinPrefix(root.parts, p.parts[n..]);
      var j := Py.Join("/", p.parts);
      assert Py.StartsWith(j, Py.Join("/", root.parts));
      if p.absolute {
        assert Paths.Text(p) == "/" + j;
        assert Paths.Text(p)[..|Paths.Text(root)|] == "/" + j[..|Py.Join("/", root.parts)|];
      }
    }
  }

  /** Joining a longer list starts with the join of its head part. */
  lemma {:induction false} JoinPrefix(a: seq<string>, b: seq<string>)
    requires a != []
    ensures Py.StartsWith(Py.Join("/", a + b), Py.Join("/", a))
    decreases |a|
  {
    if b == [] {
      assert a + b == a;
    } else if |a| == 1 {
      Py.JoinCons("/", a[0], b);
      assert a + b == [a[0]] + b;
      assert Py.Join("/", a + b)[..|a[0]|] == a[0];
    } else {
      JoinPrefix(a[1..], b);
      assert a + b == [a[0]] + (a[1..] + b);
      Py.JoinCons("/", a[0], a[1..] + b);
      Py.JoinCons("/", a[0], a[1..]);
      var tail := Py.Join("/", a[1..] + b);
      var head := Py.Join("/", a[1..]);
      assert tail[..|head|] == head;
      assert Py.Join("/", a + b)[..|a[0] + "/" + head|] == a[0] + "/" + tail[..|head|];
    }
  }
}
