/** The path checks the tools run before touching the file system: backend/app/core/tools/validators.py
    (the module the agent tools import as `agent.tools.validators`) and src/agent/tools/validators.py.
    Paths are component paths. The working directory, `Path(raw).expanduser().resolve()` and the
    runtime context variable are parameters. */
module Validators {
  import opened Wrappers
  import Py
  import Seqs
  import Paths

  const RootPath := Paths.Path(true, [])
  /** `BASE_ALLOWED_ROOTS`: the whole disk. */
  const BaseAllowedRoots := [RootPath]
  const NotAllowed := "Path is not allowed"

  /** The pieces of `AGENT_ALLOWED_ROOTS`: nothing for an empty variable, else its ":"-separated
      entries. */
  function EnvEntries(extra: string): seq<string> {
    if extra == "" then [] else Py.Split(extra, ":")
  }

  /** What one environment entry adds: nothing when it is blank after stripping or does not
      resolve (the `OSError` branch), else its resolved path. */
  function EnvRoot(raw: string, resolve: string -> Option<Paths.Path>): seq<Paths.Path> {
    var t := Py.Strip(raw);
    if t == "" || resolve(t).None? then [] else [resolve(t).value]
  }

  function EnvRoots(raws: seq<string>, resolve: string -> Option<Paths.Path>): seq<Paths.Path> {
    if raws == [] then [] else EnvRoots(raws[..|raws| - 1], resolve) + EnvRoot(raws[|raws| - 1], resolve)
  }

  /** The roots in the order `get_allowed_roots` collects them, before de-duplication: "/", the
      working directory unless resolving it failed, the environment's roots, the runtime roots. */
  function RootCandidates(cwd: Option<Paths.Path>, extra: string, resolve: string -> Option<Paths.Path>,
                          runtime: seq<Paths.Path>): seq<Paths.Path> {
    BaseAllowedRoots + (if cwd.Some? then [cwd.value] else []) + EnvRoots(EnvEntries(extra), resolve) + runtime
  }

  /** `get_allowed_roots`: the candidates, each kept at its first occurrence. */
  method GetAllowedRoots(cwd: Option<Paths.Path>, extra: string, resolve: string -> Option<Paths.Path>,
                         runtime: seq<Paths.Path>)
    returns (uniqueRoots: seq<Paths.Path>)
    ensures uniqueRoots == Seqs.Dedup(RootCandidates(cwd, extra, resolve, runtime))
  {
    var roots := BaseAllowedRoots;
    if cwd.Some? {
      roots := roots + [cwd.value];
    }
    assert roots == BaseAllowedRoots + (if cwd.Some? then [cwd.value] else []);
    var fromEnv := CollectEnvRoots(EnvEntries(extra), resolve);
    roots := roots + fromEnv;
    ghost var middle := roots;
    for j := 0 to |runtime|
      invariant roots == middle + runtime[..j]
    {
      assert runtime[..j + 1] == runtime[..j] + [runtime[j]];
      roots := roots + [runtime[j]];
    }
    assert runtime[..|runtime|] == runtime;
    assert roots == RootCandidates(cwd, extra, resolve, runtime);
    uniqueRoots := Unique(roots);
  }

  /** The loop over the environment's entries. */
  method CollectEnvRoots(entries: seq<string>, resolve: string -> Option<Paths.Path>)
    returns (roots: seq<Paths.Path>)
    ensures roots == EnvRoots(entries, resolve)
  {
    roots := [];
    for i := 0 to |entries|
      invariant roots == EnvRoots(entries[..i], resolve)
    {
      assert EnvRoots(entries[..i + 1], resolve) == EnvRoots(entries[..i], resolve) + EnvRoot(entries[i], resolve) by {
        assert entries[..i + 1][..i] == entries[..i];
      }
      var root := ReadEntry(entries[i], resolve);
      if root.None? {
        continue;
      }
      roots := roots + [root.value];
    }
    assert entries[..|entries|] == entries;
  }

  /** The body of the loop for one entry: strip it, skip it when blank, resolve it, skip it
      when resolving fails. */
  method ReadEntry(entry: string, resolve: string -> Option<Paths.Path>) returns (root: Option<Paths.Path>)
    ensures EnvRoot(entry, resolve) == if root.Some? then [root.value] else []
  {
    var raw := Py.Strip(entry);
    if raw == "" {
      return None;
    }
    root := resolve(raw);
  }

  /** The de-duplicating loop with its `seen` set. */
  method Unique(roots: seq<Paths.Path>) returns (uniqueRoots: seq<Paths.Path>)
    ensures uniqueRoots == Seqs.Dedup(roots)
  {
    var seen: set<Paths.Path> := {};
    uniqueRoots := [];
    for k := 0 to |roots|
      invariant uniqueRoots == Seqs.Dedup(roots[..k])
      invariant forall p :: p in seen <==> p in uniqueRoots
    {
      assert roots[..k + 1] == roots[..k] + [roots[k]];
      Seqs.DedupSnoc(roots[..k], roots[k]);
      if roots[k] in seen {
        continue;
      }
      uniqueRoots := uniqueRoots + [roots[k]];
      seen := seen + {roots[k]};
    }
    assert roots[..|roots|] == roots;
  }

  /** The allowed roots are distinct, start with "/", and are exactly the candidates. */
  lemma AllowedRoots(cwd: Option<Paths.Path>, extra: string, resolve: string -> Option<Paths.Path>,
                     runtime: seq<Paths.Path>, p: Paths.Path)
    ensures var roots := Seqs.Dedup(RootCandidates(cwd, extra, resolve, runtime));
      Seqs.Distinct(roots) && roots != [] && roots[0] == RootPath
      && (p in roots <==> p in RootCandidates(cwd, extra, resolve, runtime))
  {
    Seqs.DedupHead(RootCandidates(cwd, extra, resolve, runtime));
  }

  /** Every runtime root and every resolved environment entry is among the allowed roots. */
  lemma EnvAndRuntimeAllowed(cwd: Option<Paths.Path>, extra: string, resolve: string -> Option<Paths.Path>,
                             runtime: seq<Paths.Path>, p: Paths.Path)
    requires p in runtime || p in EnvRoots(EnvEntries(extra), resolve)
    ensures p in Seqs.Dedup(RootCandidates(cwd, extra, resolve, runtime))
  {
    var c := RootCandidates(cwd, extra, resolve, runtime);
    assert p in c;
  }

  /** `is_path_allowed`: the first root that is the path or one of its parents answers yes. A
      path is allowed exactly when some root equals it or is a proper ancestor of it. */
  function IsPathAllowed(roots: seq<Paths.Path>, p: Paths.Path): (ok: bool)
    ensures ok <==> exists i :: 0 <= i < |roots| && (roots[i] == p || Paths.IsAncestor(roots[i], p))
  {
    if roots == [] then false
    else
      var rest := IsPathAllowed(roots[1..], p);
      Paths.InParents(roots[0], p);
      Shifted(roots, p);
      Paths.Within(roots[0], p) || rest
  }

  predicate Contains(root: Paths.Path, p: Paths.Path) {
    root == p || Paths.IsAncestor(root, p)
  }

  /** A root of the list contains the path exactly when the first does or one of the rest does. */
  lemma Shifted(roots: seq<Paths.Path>, p: Paths.Path)
    requires roots != []
    ensures (exists i :: 0 <= i < |roots| && Contains(roots[i], p)) <==>
      Contains(roots[0], p) || exists i :: 0 <= i < |roots| - 1 && Contains(roots[1..][i], p)
  {
    if exists i :: 0 <= i < |roots| && Contains(roots[i], p) {
      var i :| 0 <= i < |roots| && Contains(roots[i], p);
      if i > 0 {
        assert roots[1..][i - 1] == roots[i];
      }
    }
    if exists i :: 0 <= i < |roots| - 1 && Contains(roots[1..][i], p) {
      var i :| 0 <= i < |roots| - 1 && Contains(roots[1..][i], p);
      assert roots[i + 1] == roots[1..][i];
    }
  }

  /** A root that contains the path anywhere in the list allows it. */
  lemma {:induction false} AllowedByMember(roots: seq<Paths.Path>, r: Paths.Path, p: Paths.Path)
    requires r in roots && Paths.Within(r, p)
    ensures IsPathAllowed(roots, p)
  {
    if roots[0] != r {
      AllowedByMember(roots[1..], r, p);
    }
  }

  /** Since "/" is always an allowed root, every absolute path passes the check. */
  lemma EveryAbsolutePathAllowed(cwd: Option<Paths.Path>, extra: string, resolve: string -> Option<Paths.Path>,
                                 runtime: seq<Paths.Path>, p: Paths.Path)
    requires p.absolute
    ensures IsPathAllowed(Seqs.Dedup(RootCandidates(cwd, extra, resolve, runtime)), p)
  {
    var roots := Seqs.Dedup(RootCandidates(cwd, extra, resolve, runtime));
    AllowedRoots(cwd, extra, resolve, runtime, p);
    Paths.WithinRoot(p);
    AllowedByMember(roots, RootPath, p);
  }

  /** `ensure_path_allowed`: `None` when the path passes, the message of the `ValueError` otherwise. */
  function EnsurePathAllowed(roots: seq<Paths.Path>, p: Paths.Path): (raised: Option<string>)
    ensures raised.None? <==> IsPathAllowed(roots, p)
    ensures raised.Some? ==> raised.value == NotAllowed
  {
    if IsPathAllowed(roots, p) then None else Some(NotAllowed)
  }

  /** The fixed roots of src/agent/tools/validators.py: the home directory and three folders in it. */
  function HomeRoots(home: Paths.Path): seq<Paths.Path> {
    [home, Paths.Child(home, "Desktop"), Paths.Child(home, "Documents"), Paths.Child(home, "Downloads")]
  }

  /** The three folders lie within the home directory, so they allow nothing the home root does not:
      a path is allowed exactly when it is the home directory or lies under it. */
  lemma HomeRootsAllowIffHome(home: Paths.Path, p: Paths.Path)
    ensures IsPathAllowed(HomeRoots(home), p) <==> Paths.Within(home, p)
  {
    var roots := HomeRoots(home);
    var r1 := roots[1..];
    var r2 := r1[1..];
    var r3 := r2[1..];
    assert r1[0] == roots[1] && r2[0] == roots[2] && r3[0] == roots[3] && r3[1..] == [];
    assert IsPathAllowed(r3, p) == Paths.Within(roots[3], p);
    assert IsPathAllowed(r2, p) == (Paths.Within(roots[2], p) || IsPathAllowed(r3, p));
    assert IsPathAllowed(r1, p) == (Paths.Within(roots[1], p) || IsPathAllowed(r2, p));
    forall i | 1 <= i < 4 && Paths.Within(roots[i], p) ensures Paths.Within(home, p) {
      Paths.WithinIff(home, roots[i]);
      assert roots[i].parts[..|home.parts|] == home.parts;
      Paths.WithinTrans(home, roots[i], p);
    }
  }

  /** A path outside the home directory is rejected with the `ValueError`'s message. */
  lemma OutsideHomeRejected(home: Paths.Path, p: Paths.Path)
    requires !Paths.Within(home, p)
    ensures EnsurePathAllowed(HomeRoots(home), p) == Some(NotAllowed)
  {
    HomeRootsAllowIffHome(home, p);
  }
}
