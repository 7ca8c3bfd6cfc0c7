/** The per-user path whitelist of src/server/app.py and the system prompt that announces it.
    Path resolution (`normalize_path`: `expanduser().resolve()`, which may raise `OSError`)
    and the file-system test `exists() and is_dir()` are parameters. */
module ServerPaths {
  import opened Wrappers
  import Py
  import Seqs

  /** What one raw entry contributes: its normalized path, or nothing when it is blank, fails
      to resolve, resolves to "/", or is not an existing directory. */
  function Accept(raw: string, normalize: string -> Option<string>, isDir: string -> bool): (r: seq<string>)
    ensures |r| <= 1
    ensures r != [] ==>
      r[0] != "/" && isDir(r[0]) && Py.Strip(raw) != [] && normalize(Py.Strip(raw)) == Some(r[0])
  {
    var trimmed := Py.Strip(raw);
    if trimmed == [] then []
    else match normalize(trimmed)
      case None => []
      case Some(p) => if p == "/" || !isDir(p) then [] else [p]
  }

  /** The accepted paths of `raws`, in input order, duplicates included. */
  function Candidates(raws: seq<string>, normalize: string -> Option<string>, isDir: string -> bool): seq<string> {
    if raws == [] then []
    else Candidates(raws[..|raws| - 1], normalize, isDir) + Accept(raws[|raws| - 1], normalize, isDir)
  }

  /** A path is a candidate exactly when some raw entry is accepted as that path. */
  lemma {:induction false} CandidatesMembers(raws: seq<string>, normalize: string -> Option<string>, isDir: string -> bool, p: string)
    ensures p in Candidates(raws, normalize, isDir) <==>
      exists i :: 0 <= i < |raws| && Accept(raws[i], normalize, isDir) == [p]
  {
    if raws != [] {
      var init := raws[..|raws| - 1];
      CandidatesMembers(init, normalize, isDir, p);
      if p in Candidates(raws, normalize, isDir) && p !in Candidates(init, normalize, isDir) {
        assert Accept(raws[|raws| - 1], normalize, isDir) == [p];
      }
      if exists i :: 0 <= i < |raws| && Accept(raws[i], normalize, isDir) == [p] {
        var i :| 0 <= i < |raws| && Accept(raws[i], normalize, isDir) == [p];
        if i < |raws| - 1 {
          assert init[i] == raws[i];
        }
      }
    }
  }

  /** The three tests `normalize_user_paths` applies to one raw entry: blank, unresolvable,
      the root, or not an existing directory means the entry is skipped. */
  method AcceptEntry(raw: string, normalize: string -> Option<string>, isDir: string -> bool)
    returns (path: Option<string>)
    ensures Accept(raw, normalize, isDir) == if path.Some? then [path.value] else []
  {
    var trimmed := Py.Strip(raw);
    if trimmed == [] {
      return None;
    }
    var resolved := normalize(trimmed);
    if resolved.None? {
      return None;
    }
    var p := resolved.value;
    if p == "/" || !isDir(p) {
      return None;
    }
    return Some(p);
  }

  /** `normalize_user_paths`: the accepted paths, each kept at its first occurrence. */
  method NormalizeUserPaths(raws: seq<string>, normalize: string -> Option<string>, isDir: string -> bool)
    returns (normalized: seq<string>)
    ensures normalized == Seqs.Dedup(Candidates(raws, normalize, isDir))
  {
    normalized := [];
    var seen: set<string> := {};
    for i := 0 to |raws|
      invariant normalized == Seqs.Dedup(Candidates(raws[..i], normalize, isDir))
      invariant forall p :: p in seen <==> p in normalized
    {
      ghost var before := Candidates(raws[..i], normalize, isDir);
      ghost var after := Candidates(raws[..i + 1], normalize, isDir);
      assert after == before + Accept(raws[i], normalize, isDir) by {
        CandidatesSnoc(raws, i, normalize, isDir);
      }
      var accepted := AcceptEntry(raws[i], normalize, isDir);
      if accepted.None? {
        assert Seqs.Dedup(after) == Seqs.Dedup(before) by { SkipStep(before, after, Accept(raws[i], normalize, isDir)); }
        continue;
      }
      var path := accepted.value;
      assert Seqs.Dedup(after) == if path in normalized then normalized else normalized + [path] by {
        Seqs.DedupSnoc(before, path);
      }
      if path in seen {
        continue;
      }
      normalized := normalized + [path];
      seen := seen + {path};
    }
    assert raws[..|raws|] == raws;
  }

  /** An entry that contributes nothing leaves the de-duplicated list as it was. */
  lemma {:induction false} SkipStep(before: seq<string>, after: seq<string>, acc: seq<string>)
    requires acc == [] && after == before + acc
    ensures Seqs.Dedup(after) == Seqs.Dedup(before)
  {
    assert after == before;
  }

  /** Reading one more raw entry appends what it contributes. */
  lemma CandidatesSnoc(raws: seq<string>, i: nat, normalize: string -> Option<string>, isDir: string -> bool)
    requires i < |raws|
    ensures Candidates(raws[..i + 1], normalize, isDir) == Candidates(raws[..i], normalize, isDir) + Accept(raws[i], normalize, isDir)
    ensures Accept(raws[i], normalize, isDir) == [] ==> Candidates(raws[..i + 1], normalize, isDir) == Candidates(raws[..i], normalize, isDir)
  {
    assert raws[..i + 1][..i] == raws[..i];
    var c := Candidates(raws[..i], normalize, isDir);
    assert c + [] == c;
  }

  /** The stored whitelist has no duplicates and only accepted paths, and every accepted path
      is in it. */
  lemma NormalizedPaths(raws: seq<string>, normalize: string -> Option<string>, isDir: string -> bool, p: string)
    ensures Seqs.Distinct(Seqs.Dedup(Candidates(raws, normalize, isDir)))
    ensures p in Seqs.Dedup(Candidates(raws, normalize, isDir)) <==>
      exists i :: 0 <= i < |raws| && Accept(raws[i], normalize, isDir) == [p]
    ensures p in Seqs.Dedup(Candidates(raws, normalize, isDir)) ==> p != "/" && isDir(p)
  {
    CandidatesMembers(raws, normalize, isDir, p);
    if p in Seqs.Dedup(Candidates(raws, normalize, isDir)) {
      var i :| 0 <= i < |raws| && Accept(raws[i], normalize, isDir) == [p];
    }
  }

  // ---------------------------------------------------------------------------
  // System prompt
  // ---------------------------------------------------------------------------

  const NoPathsText: string := "未配置用户白名单。仅允许默认安全路径。"
  const PathsHeading: string := "用户已配置可访问路径："

  /** One "- path" line per path. */
  function PathLines(paths: seq<string>): (lines: seq<string>)
    ensures |lines| == |paths|
    ensures forall i :: 0 <= i < |paths| ==> lines[i] == "- " + paths[i]
  {
    if paths == [] then [] else ["- " + paths[0]] + PathLines(paths[1..])
  }

  /** The whitelist paragraph of the prompt. */
  function PathsText(paths: seq<string>): string {
    if paths == [] then NoPathsText
    else PathsHeading + "\n" + Py.Join("\n", PathLines(paths))
  }

  /** `build_system_prompt`: the base prompt, a blank line and the whitelist paragraph,
      with surrounding whitespace stripped. */
  function BuildSystemPrompt(base: string, paths: seq<string>): (prompt: string)
    ensures Py.IsStripped(prompt)
  {
    Py.Strip(base + "\n\n" + PathsText(paths))
  }

  /** The paragraph splits on line breaks into the heading and one line per path, in order,
      as long as no path holds a line break. */
  lemma {:induction false} PathsTextLines(paths: seq<string>)
    requires paths != []
    requires forall i :: 0 <= i < |paths| ==> '\n' !in paths[i]
    ensures Py.Split(PathsText(paths), "\n") == [PathsHeading] + PathLines(paths)
  {
    var lines := PathLines(paths);
    var all := [PathsHeading] + lines;
    assert all[1..] == lines;
    Py.JoinCons("\n", PathsHeading, lines);
    forall k | 0 <= k < |all| ensures '\n' !in all[k] {
      if k > 0 {
        assert all[k] == "- " + paths[k - 1];
      }
    }
    Py.SplitJoin(all, '\n');
  }

  /** With a stripped base and paths that end in a visible character, the prompt is exactly
      the base, a blank line and the paragraph. */
  lemma {:induction false} PromptShape(base: string, paths: seq<string>)
    requires base != [] && Py.IsStripped(base)
    requires paths != [] ==> paths[|paths| - 1] != [] && !Py.IsSpace(paths[|paths| - 1][|paths[|paths| - 1]| - 1])
    ensures BuildSystemPrompt(base, paths) == base + "\n\n" + PathsText(paths)
  {
    var t := PathsText(paths);
    ParagraphEnd(paths);
    var s := base + "\n\n" + t;
    assert s[0] == base[0];
    assert s[|s| - 1] == t[|t| - 1];
    Py.StripStripped(s);
  }

  /** The paragraph ends in a visible character: the last path's, or the full stop of the
      no-paths notice. */
  lemma {:induction false} ParagraphEnd(paths: seq<string>)
    requires paths != [] ==> paths[|paths| - 1] != [] && !Py.IsSpace(paths[|paths| - 1][|paths[|paths| - 1]| - 1])
    ensures PathsText(paths) != [] && !Py.IsSpace(PathsText(paths)[|PathsText(paths)| - 1])
  {
    var t := PathsText(paths);
    if paths != [] {
      var last := paths[|paths| - 1];
      var lines := PathLines(paths);
      JoinLast(lines);
      var j := Py.Join("\n", lines);
      assert lines[|lines| - 1] == "- " + last;
      assert j[|j| - 1] == last[|last| - 1];
      assert t == PathsHeading + "\n" + j;
      assert t[|t| - 1] == j[|j| - 1];
    } else {
      NoPathsEnd();
    }
  }

  lemma NoPathsEnd()
    ensures NoPathsText != [] && !Py.IsSpace(NoPathsText[|NoPathsText| - 1])
  {
    assert NoPathsText[|NoPathsText| - 1] == '。';
  }

  /** A join ends with its last part. */
  lemma {:induction false} JoinLast(parts: seq<string>)
    requires parts != []
    ensures Py.EndsWith(Py.Join("\n", parts), parts[|parts| - 1])
  {
    if |parts| > 1 {
      JoinLast(parts[1..]);
      Py.JoinCons("\n", parts[0], parts[1..]);
      assert [parts[0]] + parts[1..] == parts;
    }
  }
}
