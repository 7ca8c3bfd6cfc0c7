/** The path whitelist part of `UserService` (backend/app/services/user_service.py): normalizing
    user paths, the cache-first read, adding one path, and the effective allowed roots. Path
    resolution and the file-system tests are parameters; the database table and the cache are
    fields of the service. */
module UserService {
  import opened Wrappers
  import Py
  import Seqs

  /** The file system as the service sees it: `str(Path(s).resolve())` (`None` when it raises),
      `exists()` and `is_dir()`. */
  datatype Disk = Disk(resolve: string -> Option<string>, present: string -> bool, isDir: string -> bool)

  // ---------------------------------------------------------------------------
  // Normalizing the paths a user submits
  // ---------------------------------------------------------------------------

  /** `_normalize_single_path`: a resolved existing directory other than "/", or "" for anything
      else. */
  function NormalizeSinglePath(raw: string, disk: Disk): (r: string)
    ensures r != "" ==> Py.Strip(raw) != "" && disk.resolve(Py.Strip(raw)) == Some(r)
    ensures r != "" ==> r != "/" && disk.present(r) && disk.isDir(r)
    ensures r == "" && Py.Strip(raw) != "" && disk.resolve(Py.Strip(raw)).Some? ==>
      var p := disk.resolve(Py.Strip(raw)).value; p == "" || p == "/" || !disk.present(p) || !disk.isDir(p)
  {
    // `not raw or not raw.strip()`: an empty string strips to the empty string.
    var trimmed := Py.Strip(raw);
    if trimmed == "" then ""
    else match disk.resolve(trimmed)
      case None => ""
      case Some(p) =>
        if p == "/" then ""
        else if !disk.present(p) then ""
        else if !disk.isDir(p) then ""
        else p
  }

  /** What one raw entry contributes to the normalized list: its normalized form, or nothing. */
  function Kept(raw: string, disk: Disk): (r: seq<string>)
    ensures |r| <= 1
    ensures r == [] <==> NormalizeSinglePath(raw, disk) == ""
    ensures r != [] ==> r[0] == NormalizeSinglePath(raw, disk)
  {
    var p := NormalizeSinglePath(raw, disk);
    if p == "" then [] else [p]
  }

  /** The non-empty normalized forms of `raws`, in input order, duplicates included. */
  function Candidates(raws: seq<string>, disk: Disk): (r: seq<string>)
    ensures |r| <= |raws|
  {
    if raws == [] then []
    else Candidates(raws[..|raws| - 1], disk) + Kept(raws[|raws| - 1], disk)
  }

  /** Reading one more raw entry appends what it contributes. */
  lemma CandidatesSnoc(raws: seq<string>, i: nat, disk: Disk)
    requires i < |raws|
    ensures Candidates(raws[..i + 1], disk) == Candidates(raws[..i], disk) + Kept(raws[i], disk)
    ensures Kept(raws[i], disk) == [] ==> Candidates(raws[..i + 1], disk) == Candidates(raws[..i], disk)
  {
    assert raws[..i + 1][..i] == raws[..i];
    var c := Candidates(raws[..i], disk);
    assert c + [] == c;
  }

  /** A path is a candidate exactly when some raw entry normalizes to it. */
  lemma CandidatesMembers(raws: seq<string>, disk: Disk, p: string)
    ensures p in Candidates(raws, disk) <==> exists i :: 0 <= i < |raws| && Kept(raws[i], disk) == [p]
  {
    if p in Candidates(raws, disk) {
      var i := CandidateSource(raws, disk, p);
    }
    forall i | 0 <= i < |raws| && Kept(raws[i], disk) == [p] ensures p in Candidates(raws, disk) {
      CandidateFrom(raws, disk, p, i);
    }
  }

  /** The raw entry a candidate comes from. */
  lemma {:induction false} CandidateSource(raws: seq<string>, disk: Disk, p: string) returns (i: nat)
    requires p in Candidates(raws, disk)
    ensures i < |raws| && Kept(raws[i], disk) == [p]
  {
    assert raws != [];
    var init := raws[..|raws| - 1];
    var last := Kept(raws[|raws| - 1], disk);
    var before := Candidates(init, disk);
    assert Candidates(raws, disk) == before + last;
    InAppend(before, last, p);
    if p in last {
      i := |raws| - 1;
      assert last == [last[0]];
    } else {
      i := CandidateSource(init, disk, p);
      assert init[i] == raws[i];
    }
  }

  lemma InAppend(a: seq<string>, b: seq<string>, p: string)
    requires p in a + b
    ensures p in a || p in b
  {
  }

  /** Every raw entry's normalized form is a candidate. */
  lemma {:induction false} CandidateFrom(raws: seq<string>, disk: Disk, p: string, i: nat)
    requires i < |raws| && Kept(raws[i], disk) == [p]
    ensures p in Candidates(raws, disk)
  {
    var init := raws[..|raws| - 1];
    var last := Kept(raws[|raws| - 1], disk);
    assert Candidates(raws, disk) == Candidates(init, disk) + last;
    if i == |raws| - 1 {
      assert p in last;
    } else {
      assert init[i] == raws[i];
      CandidateFrom(init, disk, p, i);
    }
  }

  /** `_normalize_paths`: the loop that keeps the first occurrence of each non-empty normalized
      path. */
  method NormalizePaths(raws: seq<string>, disk: Disk) returns (normalized: seq<string>)
    ensures normalized == Seqs.Dedup(Candidates(raws, disk))
  {
    normalized := [];
    var seen: set<string> := {};
    for i := 0 to |raws|
      invariant normalized == Seqs.Dedup(Candidates(raws[..i], disk))
      invariant forall p :: p in seen <==> p in normalized
    {
      CandidatesSnoc(raws, i, disk);
      ghost var before := Candidates(raws[..i], disk);
      var pathStr := NormalizeSinglePath(raws[i], disk);
      if pathStr == "" {
        continue;
      }
      assert Kept(raws[i], disk) == [pathStr];
      Seqs.DedupSnoc(before, pathStr);
      if pathStr in seen {
        continue;
      }
      normalized := normalized + [pathStr];
      seen := seen + {pathStr};
    }
    assert raws[..|raws|] == raws;
  }

  /** The normalized list has no duplicates, and holds exactly the resolved existing directories
      other than "/" that some entry names. */
  lemma NormalizedPaths(raws: seq<string>, disk: Disk, p: string)
    ensures Seqs.Distinct(Seqs.Dedup(Candidates(raws, disk)))
    ensures p in Seqs.Dedup(Candidates(raws, disk)) <==>
      p != "" && exists i :: 0 <= i < |raws| && NormalizeSinglePath(raws[i], disk) == p
    ensures p in Seqs.Dedup(Candidates(raws, disk)) ==> p != "/" && disk.present(p) && disk.isDir(p)
  {
    CandidatesMembers(raws, disk, p);
    if p in Seqs.Dedup(Candidates(raws, disk)) {
      var i :| 0 <= i < |raws| && Kept(raws[i], disk) == [p];
      assert NormalizeSinglePath(raws[i], disk) == p;
    }
    if p != "" && exists i :: 0 <= i < |raws| && NormalizeSinglePath(raws[i], disk) == p {
      var i :| 0 <= i < |raws| && NormalizeSinglePath(raws[i], disk) == p;
      assert Kept(raws[i], disk) == [p];
    }
  }

  // ---------------------------------------------------------------------------
  // Effective allowed roots
  // ---------------------------------------------------------------------------

  /** A root entry the loop of `get_effective_allowed_roots` accepts: non-empty, resolvable, and
      an existing directory. */
  predicate Accepted(s: string, disk: Disk) {
    s != "" && disk.resolve(s).Some? && disk.present(disk.resolve(s).value) && disk.isDir(disk.resolve(s).value)
  }

  /** The roots the loop produces from `xs` when the raw strings in `seen` were already taken. */
  function Roots(xs: seq<string>, seen: set<string>, disk: Disk): (r: seq<string>)
    ensures |r| <= |xs|
  {
    if xs == [] then []
    else if xs[0] !in seen && Accepted(xs[0], disk) then [disk.resolve(xs[0]).value] + Roots(xs[1..], seen + {xs[0]}, disk)
    else Roots(xs[1..], seen, disk)
  }

  /** The raw strings of `xs` the loop marks as seen. */
  function Taken(xs: seq<string>, disk: Disk): set<string> {
    set s | s in xs && Accepted(s, disk)
  }

  /** Taking `a` and then `b` is taking `a + b`: the roots of the first part come first. */
  lemma {:induction false} RootsAppend(a: seq<string>, b: seq<string>, seen: set<string>, disk: Disk)
    ensures Roots(a + b, seen, disk) == Roots(a, seen, disk) + Roots(b, seen + Taken(a, disk), disk)
  {
    if a == [] {
      assert a + b == b;
      assert Taken(a, disk) == {};
      assert seen + {} == seen;
    } else {
      assert (a + b)[0] == a[0];
      assert (a + b)[1..] == a[1..] + b;
      var rest := a[1..];
      if a[0] !in seen && Accepted(a[0], disk) {
        RootsAppend(rest, b, seen + {a[0]}, disk);
        assert seen + {a[0]} + Taken(rest, disk) == seen + Taken(a, disk) by {
          assert forall s :: s in Taken(a, disk) <==> s == a[0] || s in Taken(rest, disk);
        }
      } else {
        RootsAppend(rest, b, seen, disk);
        assert seen + Taken(rest, disk) == seen + Taken(a, disk) by {
          forall s | s in Taken(a, disk) && s !in Taken(rest, disk) ensures s in seen {
            assert s == a[0];
          }
        }
      }
    }
  }

  /** The loop body over `all_paths`. */
  method EffectiveRoots(userPaths: seq<string>, systemRoots: seq<string>, disk: Disk)
    returns (unique: seq<string>)
    ensures unique == Roots(userPaths + systemRoots, {}, disk)
  {
    var all := userPaths + systemRoots;
    unique := [];
    var seen: set<string> := {};
    var i := 0;
    while i < |all|
      invariant 0 <= i <= |all|
      invariant unique + Roots(all[i..], seen, disk) == Roots(all, {}, disk)
    {
      var pathStr := all[i];
      assert all[i..][0] == pathStr && all[i..][1..] == all[i + 1..];
      if pathStr != "" && pathStr !in seen {
        var resolved := disk.resolve(pathStr);
        if resolved.Some? {
          var path := resolved.value;
          if disk.present(path) && disk.isDir(path) {
            unique := unique + [path];
            seen := seen + {pathStr};
          }
        }
      }
      i := i + 1;
    }
  }

  /** Every effective root is the resolved form of an accepted raw entry, and every accepted raw
      entry contributes its resolved form; the user's paths come before the system roots. */
  lemma {:induction false} RootsMembers(xs: seq<string>, seen: set<string>, disk: Disk, p: string)
    ensures p in Roots(xs, seen, disk) ==>
      exists s :: s in xs && s !in seen && Accepted(s, disk) && disk.resolve(s) == Some(p)
    ensures (exists s :: s in xs && s !in seen && Accepted(s, disk) && disk.resolve(s) == Some(p)) ==>
      p in Roots(xs, seen, disk)
  {
    if xs != [] {
      var rest := xs[1..];
      if xs[0] !in seen && Accepted(xs[0], disk) {
        RootsMembers(rest, seen + {xs[0]}, disk, p);
        if exists s :: s in xs && s !in seen && Accepted(s, disk) && disk.resolve(s) == Some(p) {
          var s :| s in xs && s !in seen && Accepted(s, disk) && disk.resolve(s) == Some(p);
          if s != xs[0] {
            assert s in rest;
          }
        }
      } else {
        RootsMembers(rest, seen, disk, p);
        if exists s :: s in xs && s !in seen && Accepted(s, disk) && disk.resolve(s) == Some(p) {
          var s :| s in xs && s !in seen && Accepted(s, disk) && disk.resolve(s) == Some(p);
          assert s != xs[0];
          assert s in rest;
        }
      }
    }
  }

  /** The effective roots: the user's accepted paths first, then the system roots whose raw
      strings the user's paths did not already take; each root an existing directory. */
  lemma EffectiveRootsFacts(userPaths: seq<string>, systemRoots: seq<string>, disk: Disk, p: string)
    ensures Roots(userPaths + systemRoots, {}, disk)
              == Roots(userPaths, {}, disk) + Roots(systemRoots, Taken(userPaths, disk), disk)
    ensures p in Roots(userPaths + systemRoots, {}, disk) <==>
      exists s :: s in userPaths + systemRoots && Accepted(s, disk) && disk.resolve(s) == Some(p)
    ensures p in Roots(userPaths + systemRoots, {}, disk) ==> disk.present(p) && disk.isDir(p)
  {
    RootsAppend(userPaths, systemRoots, {}, disk);
    assert {} + Taken(userPaths, disk) == Taken(userPaths, disk);
    RootsMembers(userPaths + systemRoots, {}, disk, p);
  }

  /** The loop keys `seen` on the raw string, not on the resolved path, so two spellings of one
      directory both get through: "/a" and "/a/" resolve to the same "/a". */
  lemma RootsRepeatResolved()
    ensures var disk := Disk((s: string) => if s == "/a" || s == "/a/" then Some("/a") else None,
                             (s: string) => true, (s: string) => true);
      Roots(["/a"] + ["/a/"], {}, disk) == ["/a", "/a"]
  {
    var disk := Disk((s: string) => if s == "/a" || s == "/a/" then Some("/a") else None,
                     (s: string) => true, (s: string) => true);
    assert (["/a"] + ["/a/"])[1..] == ["/a/"];
    assert ["/a/"][1..] == [];
    assert "/a/" !in {"/a"};
  }

  /** The resolved forms of the accepted entries of `xs`, in order, repeats included. */
  function AcceptedResolved(xs: seq<string>, disk: Disk): (r: seq<string>)
    ensures |r| <= |xs|
  {
    if xs == [] then []
    else (if Accepted(xs[0], disk) then [disk.resolve(xs[0]).value] else []) + AcceptedResolved(xs[1..], disk)
  }

  lemma {:induction false} AcceptedResolvedMembers(xs: seq<string>, disk: Disk, p: string)
    ensures p in AcceptedResolved(xs, disk) <==>
      exists s :: s in xs && Accepted(s, disk) && disk.resolve(s) == Some(p)
  {
    if xs != [] {
      var rest := xs[1..];
      AcceptedResolvedMembers(rest, disk, p);
      if exists s :: s in xs && Accepted(s, disk) && disk.resolve(s) == Some(p) {
        var s :| s in xs && Accepted(s, disk) && disk.resolve(s) == Some(p);
        if s != xs[0] {
          assert s in rest;
        }
      }
      if p in AcceptedResolved(rest, disk) {
        var s :| s in rest && Accepted(s, disk) && disk.resolve(s) == Some(p);
        assert s in xs;
      }
    }
  }

  /** A reference definition: deduplicating on the resolved path instead of the raw string. */
  function DistinctRoots(userPaths: seq<string>, systemRoots: seq<string>, disk: Disk): seq<string> {
    Seqs.Dedup(AcceptedResolved(userPaths + systemRoots, disk))
  }

  /** The reference has the same roots as the loop, each of them once. */
  lemma DistinctRootsFacts(userPaths: seq<string>, systemRoots: seq<string>, disk: Disk, p: string)
    ensures Seqs.Distinct(DistinctRoots(userPaths, systemRoots, disk))
    ensures p in DistinctRoots(userPaths, systemRoots, disk) <==> p in Roots(userPaths + systemRoots, {}, disk)
    ensures p in DistinctRoots(userPaths, systemRoots, disk) ==> disk.present(p) && disk.isDir(p)
  {
    AcceptedResolvedMembers(userPaths + systemRoots, disk, p);
    RootsMembers(userPaths + systemRoots, {}, disk, p);
  }

  // ---------------------------------------------------------------------------
  // The service
  // ---------------------------------------------------------------------------

  /** The cache holds, for a user, exactly what the table holds; every stored list is free of
      duplicates. */
  ghost predicate Coherent(stored: map<string, seq<string>>, cached: map<string, seq<string>>) {
    && (forall u :: u in cached ==> cached[u] == StoredPaths(stored, u))
    && (forall u :: u in stored ==> Seqs.Distinct(stored[u]))
  }

  /** `list_by_user`: the user's rows, none for an unknown user. */
  function StoredPaths(stored: map<string, seq<string>>, userId: string): seq<string> {
    if userId in stored then stored[userId] else []
  }

  class PathService {
    /** `user_paths` rows per user, in insertion order. */
    var stored: map<string, seq<string>>
    /** The cached path lists, keyed by user. */
    var cached: map<string, seq<string>>
    /** The users `get_or_create` has created. */
    var users: set<string>

    ghost predicate Valid()
      reads this
    {
      Coherent(stored, cached)
    }

    constructor()
      ensures Valid() && stored == map[] && cached == map[] && users == {}
    {
      stored := map[];
      cached := map[];
      users := {};
    }

    /** `get_user_paths`: a cached list is returned as it is and the table is not read;
        otherwise the table is read and the result cached. */
    method GetUserPaths(userId: string) returns (paths: seq<string>)
      requires Valid()
      modifies this
      ensures Valid()
      ensures old(userId in cached) ==> paths == old(cached[userId]) && cached == old(cached)
      ensures old(userId !in cached) ==> paths == StoredPaths(stored, userId) && cached == old(cached)[userId := paths]
      ensures paths == StoredPaths(stored, userId)
      ensures stored == old(stored) && users == old(users)
    {
      if userId in cached {
        paths := cached[userId];
        return;
      }
      paths := StoredPaths(stored, userId);
      cached := cached[userId := paths];
    }

    /** `set_user_paths`: the normalized list replaces the user's rows and is cached. */
    method SetUserPaths(userId: string, raws: seq<string>, disk: Disk) returns (saved: seq<string>)
      requires Valid()
      modifies this
      ensures Valid()
      ensures saved == Seqs.Dedup(Candidates(raws, disk))
      ensures stored == old(stored)[userId := saved] && cached == old(cached)[userId := saved]
      ensures users == old(users) + {userId}
    {
      users := users + {userId};
      var normalized := NormalizePaths(raws, disk);
      ReplaceKeepsCoherent(stored, cached, userId, normalized);
      stored := stored[userId := normalized];
      cached := cached[userId := normalized];
      saved := normalized;
    }

    /** `add_user_path`: an invalid path is refused without touching anything; a path already
        stored is not added again; a new one is appended and the user's cache entry dropped. */
    method AddUserPath(userId: string, raw: string, disk: Disk) returns (added: bool)
      requires Valid()
      modifies this
      ensures Valid()
      ensures NormalizeSinglePath(raw, disk) == "" ==> !added && stored == old(stored) && cached == old(cached)
      ensures var p := NormalizeSinglePath(raw, disk);
        added <==> p != "" && p !in StoredPaths(old(stored), userId)
      ensures added ==>
        stored == old(stored)[userId := StoredPaths(old(stored), userId) + [NormalizeSinglePath(raw, disk)]]
        && cached == old(cached) - {userId}
      ensures !added ==> stored == old(stored) && cached == old(cached)
      ensures users == old(users)
    {
      var normalized := NormalizeSinglePath(raw, disk);
      if normalized == "" {
        return false;
      }
      var current := StoredPaths(stored, userId);
      if normalized in current {
        return false;
      }
      var extended := current + [normalized];
      AppendKeepsCoherent(stored, cached, userId, normalized);
      stored := stored[userId := extended];
      cached := cached - {userId};
      added := true;
    }

    /** `get_effective_allowed_roots` */
    method GetEffectiveAllowedRoots(userId: string, systemRoots: seq<string>, disk: Disk)
      returns (roots: seq<string>)
      requires Valid()
      modifies this
      ensures Valid()
      ensures roots == Roots(StoredPaths(stored, userId) + systemRoots, {}, disk)
      ensures stored == old(stored) && users == old(users)
      ensures old(userId in cached) ==> cached == old(cached)
      ensures old(userId !in cached) ==> cached == old(cached)[userId := StoredPaths(stored, userId)]
    {
      var userPaths := GetUserPaths(userId);
      roots := EffectiveRoots(userPaths, systemRoots, disk);
    }
  }

  /** Replacing a user's rows by a duplicate-free list, and caching that list, keeps the cache
      and the table coherent. */
  lemma ReplaceKeepsCoherent(stored: map<string, seq<string>>, cached: map<string, seq<string>>, userId: string, xs: seq<string>)
    requires Coherent(stored, cached) && Seqs.Distinct(xs)
    ensures Coherent(stored[userId := xs], cached[userId := xs])
  {
    var s2 := stored[userId := xs];
    forall u | u in cached[userId := xs] ensures cached[userId := xs][u] == StoredPaths(s2, u) {
      if u != userId {
        assert StoredPaths(s2, u) == StoredPaths(stored, u);
      }
    }
  }

  /** Appending a path the user does not have, and dropping the user's cache entry, keeps the
      cache and the table coherent. */
  lemma AppendKeepsCoherent(stored: map<string, seq<string>>, cached: map<string, seq<string>>, userId: string, p: string)
    requires Coherent(stored, cached) && p !in StoredPaths(stored, userId)
    ensures Coherent(stored[userId := StoredPaths(stored, userId) + [p]], cached - {userId})
  {
    var s2 := stored[userId := StoredPaths(stored, userId) + [p]];
    AppendKeepsDistinct(stored, userId, p);
    forall u | u in cached - {userId} ensures (cached - {userId})[u] == StoredPaths(s2, u) {
      assert StoredPaths(s2, u) == StoredPaths(stored, u);
    }
  }

  /** Appending a path the user does not have keeps the user's rows free of duplicates. */
  lemma AppendKeepsDistinct(stored: map<string, seq<string>>, userId: string, p: string)
    requires forall u :: u in stored ==> Seqs.Distinct(stored[u])
    requires p !in StoredPaths(stored, userId)
    ensures Seqs.Distinct(StoredPaths(stored, userId) + [p])
  {
    var s := StoredPaths(stored, userId);
    var t := s + [p];
    forall i, j | 0 <= i < j < |t| ensures t[i] != t[j] {
      assert t[i] == s[i];
      if j < |s| {
        assert t[j] == s[j];
      }
    }
  }
}
