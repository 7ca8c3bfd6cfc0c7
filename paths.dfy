/** POSIX paths as `pathlib.PurePosixPath` sees them: an absolute flag and the components between
    the slashes. Resolving symbolic links and `..` is the file system's business and stays outside. */
module Paths {
  import Py

  /** A component `PurePosixPath` keeps: not empty, not ".", and free of slashes. */
  predicate IsComponent(c: string) {
    c != "" && c != "." && '/' !in c
  }

  /** The pieces of a slash-separated text that are components. */
  function Keep(pieces: seq<string>): (cs: seq<string>)
    requires forall i :: 0 <= i < |pieces| ==> '/' !in pieces[i]
    ensures forall i :: 0 <= i < |cs| ==> IsComponent(cs[i])
    ensures |cs| <= |pieces|
  {
    if pieces == [] then []
    else if pieces[0] == "" || pieces[0] == "." then Keep(pieces[1..])
    else [pieces[0]] + Keep(pieces[1..])
  }

  /** The components of the text `s`: empty and "." pieces collapse, as in `PurePosixPath(s).parts`. */
  function Components(s: string): (cs: seq<string>)
    ensures forall i :: 0 <= i < |cs| ==> IsComponent(cs[i])
  {
    var pieces := Py.Split(s, "/");
    Py.SplitPartsAvoidSep(s, "/");
    assert forall i :: 0 <= i < |pieces| ==> '/' !in pieces[i] by {
      forall i | 0 <= i < |pieces| ensures '/' !in pieces[i] {
        Py.ContainsChar(pieces[i], '/');
      }
    }
    Keep(pieces)
  }

  /** `PurePosixPath(s).name`: the last component, or "" for "/", "" and ".". */
  function Name(s: string): (n: string)
    ensures n == "" || IsComponent(n)
  {
    var cs := Components(s);
    if cs == [] then "" else cs[|cs| - 1]
  }

  /** `PurePosixPath(name).suffix`: from the last dot on, unless that dot is first or last. */
  function Suffix(name: string): (x: string)
    ensures x != "" ==> 2 <= |x| < |name| && x[0] == '.' && name[|name| - |x|..] == x
    ensures x != "" ==> forall j :: |name| - |x| < j < |name| ==> name[j] != '.'
  {
    var i := Py.RFind(name, ".");
    if 0 < i < |name| - 1 then
      assert forall j :: i < j < |name| ==> name[j] != '.' by {
        forall j | i < j < |name| ensures name[j] != '.' {
          assert !Py.OccursAt(name, ".", j);
          assert name[j..j + 1] == [name[j]];
        }
      }
      name[i..]
    else ""
  }

  /** A dot-free name has no suffix. */
  lemma {:induction false} NoDotNoSuffix(name: string)
    requires '.' !in name
    ensures Suffix(name) == ""
  {
    var i := Py.RFind(name, ".");
    if i >= 0 {
      assert Py.OccursAt(name, ".", i);
      assert name[i..i + 1] == ".";
      assert name[i] in name;
    }
  }

  /** A slash-free name is its own last component. */
  lemma {:induction false} NameOfComponent(s: string)
    requires IsComponent(s)
    ensures Components(s) == [s]
    ensures Name(s) == s
  {
    Py.ContainsChar(s, '/');
    assert Py.Split(s, "/") == [s];
  }

  /** The suffix starts at the last dot when that dot is neither first nor last. */
  lemma {:induction false} SuffixAt(name: string, i: nat)
    requires 0 < i < |name| - 1 && name[i] == '.'
    requires forall j :: i < j < |name| ==> name[j] != '.'
    ensures Suffix(name) == name[i..]
  {
    assert name[i..i + 1] == ".";
    assert Py.OccursAt(name, ".", i);
    forall j | i < j < |name| ensures !Py.OccursAt(name, ".", j) {
      assert name[j..j + 1] == [name[j]];
    }
  }

  // ---------------------------------------------------------------------------
  // Paths as component sequences
  // ---------------------------------------------------------------------------

  datatype Path = Path(absolute: bool, parts: seq<string>)

  /** `PurePosixPath(s)`, except that exactly two leading slashes, which `PurePosixPath` keeps as
      the root "//", collapse to "/" here. Every containment test of the model works on resolved
      paths, and resolving already turns "//" into "/", so no test depends on the difference. */
  function Parse(s: string): Path {
    Path(|s| > 0 && s[0] == '/', Components(s))
  }

  /** `p / name` for a single component. */
  function Child(p: Path, name: string): Path {
    Path(p.absolute, p.parts + [name])
  }

  /** `p.parents`, nearest first: every proper prefix, down to "/" or ".". */
  function Parents(p: Path): (ps: seq<Path>)
    ensures |ps| == |p.parts|
    ensures forall i :: 0 <= i < |ps| ==> ps[i] == Path(p.absolute, p.parts[..|p.parts| - 1 - i])
    decreases |p.parts|
  {
    if p.parts == [] then []
    else
      var up := Path(p.absolute, p.parts[..|p.parts| - 1]);
      [up] + Parents(up)
  }

  /** `root` is a proper ancestor of `p`. */
  predicate IsAncestor(root: Path, p: Path) {
    root.absolute == p.absolute && |root.parts| < |p.parts| && root.parts == p.parts[..|root.parts|]
  }

  /** `root in p.parents` holds exactly for the proper ancestors of `p`. */
  lemma {:induction false} InParents(root: Path, p: Path)
    ensures root in Parents(p) <==> IsAncestor(root, p)
  {
    var ps := Parents(p);
    if root in ps {
      var i :| 0 <= i < |ps| && ps[i] == root;
      assert root.parts == p.parts[..|p.parts| - 1 - i];
    }
    if IsAncestor(root, p) {
      var i := |p.parts| - 1 - |root.parts|;
      assert ps[i] == root;
    }
  }

  /** `root in p.parents or p == root`: the test the path validators apply. */
  predicate Within(root: Path, p: Path) {
    root in Parents(p) || p == root
  }

  /** Inside `root` means: `root`'s components, then any more, with the same anchoring. */
  lemma {:induction false} WithinIff(root: Path, p: Path)
    ensures Within(root, p) <==> (root.absolute == p.absolute && |root.parts| <= |p.parts|
                                   && p.parts[..|root.parts|] == root.parts)
  {
    InParents(root, p);
    if root.absolute == p.absolute && |root.parts| == |p.parts| && p.parts[..|root.parts|] == root.parts {
      assert p.parts == p.parts[..|root.parts|];
    }
  }

  /** Everything absolute lies within "/". */
  lemma {:induction false} WithinRoot(p: Path)
    requires p.absolute
    ensures Within(Path(true, []), p)
  {
    WithinIff(Path(true, []), p);
  }

  /** Containment is transitive. */
  lemma {:induction false} WithinTrans(a: Path, b: Path, c: Path)
    requires Within(a, b) && Within(b, c)
    ensures Within(a, c)
  {
    WithinIff(a, b);
    WithinIff(b, c);
    WithinIff(a, c);
    assert c.parts[..|a.parts|] == c.parts[..|b.parts|][..|a.parts|];
  }

  /** `str(p)`: "/" or "." for no components, the components joined by slashes otherwise. */
  function Text(p: Path): string {
    if p.absolute then "/" + Py.Join("/", p.parts)
    else if p.parts == [] then "."
    else Py.Join("/", p.parts)
  }

  /** Components are kept as they are. */
  lemma {:induction false} KeepComponents(cs: seq<string>)
    requires forall i :: 0 <= i < |cs| ==> IsComponent(cs[i]) && '/' !in cs[i]
    ensures Keep(cs) == cs
  {
    if cs != [] {
      KeepComponents(cs[1..]);
    }
  }

  /** Reading back the text of a path gives the path again. */
  lemma {:induction false} ParseText(p: Path)
    requires forall i :: 0 <= i < |p.parts| ==> IsComponent(p.parts[i])
    ensures Parse(Text(p)) == p
  {
    var t := Text(p);
    if p.absolute {
      if p.parts == [] {
        assert t == "/";
        assert Py.Split(t, "/") == ["", ""] by {
          assert Py.OccursAt(t, "/", 0);
          assert Py.Find("", "/") == -1;
        }
      } else {
        ParseAbsoluteText(p);
      }
    } else if p.parts == [] {
      assert t == ".";
      Py.ContainsChar(t, '/');
      assert Py.Split(t, "/") == ["."];
    } else {
      ParseRelativeText(p);
    }
  }

  lemma ParseAbsoluteText(p: Path)
    requires forall i :: 0 <= i < |p.parts| ==> IsComponent(p.parts[i])
    requires p.absolute && p.parts != []
    ensures Parse(Text(p)) == p
  {
    var t := Text(p);
    Py.JoinCons("/", "", p.parts);
    assert t == Py.Join("/", [""] + p.parts);
    Py.SplitJoin([""] + p.parts, '/');
    assert ([""] + p.parts)[1..] == p.parts;
    KeepComponents(p.parts);
  }

  lemma ParseRelativeText(p: Path)
    requires forall i :: 0 <= i < |p.parts| ==> IsComponent(p.parts[i])
    requires !p.absolute && p.parts != []
    ensures Parse(Text(p)) == p
  {
    var t := Text(p);
    Py.SplitJoin(p.parts, '/');
    KeepComponents(p.parts);
    assert t[0] == p.parts[0][0] by {
      Py.JoinStarts("/", p.parts);
    }
  }
}
