/** The periodic clean-up of backend/app/services/memory_consolidator.py over the memory
    tables, each table a sequence of rows. The clock `now` is in seconds; the monthly decay
    `int(days / 30 * 0.1)` is the integer `days / 300`. */
module MemoryConsolidator {
  import Seqs

  const MinConfidence: int := 2
  const TaskStaleDays: int := 90
  const OldMemoryDays: int := 180
  const Day: int := 86400

  /** A preference, fact or relation row as the consolidator reads it. For preferences
      `category` and `key` are the category and the preference key; facts and relations
      only use the other fields. */
  datatype Memory = Memory(id: nat, userId: string, category: string, key: string, confidence: int, updatedAt: int)

  datatype TaskRow = TaskRow(id: nat, userId: string, status: string, progress: int, updatedAt: int)

  /** Primary keys are unique. */
  predicate UniqueIds(t: seq<Memory>) {
    forall i, j :: 0 <= i < j < |t| ==> t[i].id != t[j].id
  }

  // ---------------------------------------------------------------------------
  // Confidence decay
  // ---------------------------------------------------------------------------

  /** The rows `_decay_old_memories` selects: the user's, last updated more than 180 days
      ago, with confidence above the threshold. */
  predicate Old(m: Memory, userId: string, now: int) {
    m.userId == userId && m.updatedAt < now - OldMemoryDays * Day && m.confidence > MinConfidence
  }

  /** Whole months of age times 0.1: one step of decay per 300 days. */
  function DecayAmount(m: Memory, now: int): int {
    ((now - m.updatedAt) / Day) / 300
  }

  function DecayedConfidence(m: Memory, now: int): int {
    var lowered := m.confidence - DecayAmount(m, now);
    if lowered > MinConfidence then lowered else MinConfidence
  }

  /** A selected row whose confidence actually changes. */
  predicate Decays(m: Memory, userId: string, now: int) {
    Old(m, userId, now) && DecayedConfidence(m, now) != m.confidence
  }

  function DecayRow(m: Memory, userId: string, now: int): Memory {
    if Decays(m, userId, now) then m.(confidence := DecayedConfidence(m, now), updatedAt := now) else m
  }

  /** Decay lowers a selected row's confidence, never below the threshold, and touches
      nothing else of any row. */
  lemma DecayRowFacts(m: Memory, userId: string, now: int)
    ensures var r := DecayRow(m, userId, now);
      r.id == m.id && r.userId == m.userId && r.category == m.category && r.key == m.key &&
      r.confidence <= m.confidence &&
      (Decays(m, userId, now) ==> MinConfidence <= r.confidence < m.confidence && r.updatedAt == now) &&
      (!Decays(m, userId, now) ==> r == m) &&
      (r.confidence < MinConfidence <==> m.confidence < MinConfidence)
  {
  }

  function Decay(t: seq<Memory>, userId: string, now: int): (r: seq<Memory>)
    ensures |r| == |t|
    ensures forall i :: 0 <= i < |t| ==> r[i] == DecayRow(t[i], userId, now)
  {
    if t == [] then [] else Decay(t[..|t| - 1], userId, now) + [DecayRow(t[|t| - 1], userId, now)]
  }

  /** The `..._decayed` counter: the selected rows whose confidence changed. */
  function DecayCount(t: seq<Memory>, userId: string, now: int): nat {
    if t == [] then 0 else DecayCount(t[..|t| - 1], userId, now) + (if Decays(t[|t| - 1], userId, now) then 1 else 0)
  }

  /** The number of rows that differ between two tables of the same length. */
  function CountChanged(a: seq<Memory>, b: seq<Memory>): nat
    requires |a| == |b|
  {
    if a == [] then 0 else CountChanged(a[..|a| - 1], b[..|b| - 1]) + (if a[|a| - 1] != b[|b| - 1] then 1 else 0)
  }

  /** The counter moves exactly for the rows that decay changed. */
  lemma {:induction false} DecayCountChanged(t: seq<Memory>, userId: string, now: int)
    ensures DecayCount(t, userId, now) == CountChanged(t, Decay(t, userId, now))
  {
    if t != [] {
      var init := t[..|t| - 1];
      DecayCountChanged(init, userId, now);
      assert Decay(t, userId, now)[..|t| - 1] == Decay(init, userId, now);
      var m := t[|t| - 1];
      if Decays(m, userId, now) {
        assert DecayRow(m, userId, now).confidence != m.confidence;
      }
    }
  }

  /** `_decay_old_memories` for one table: the loop over the selected rows. */
  method DecayRows(t: seq<Memory>, userId: string, now: int) returns (result: seq<Memory>, count: nat)
    ensures result == Decay(t, userId, now)
    ensures count == DecayCount(t, userId, now)
  {
    result := [];
    count := 0;
    for i := 0 to |t|
      invariant result == Decay(t[..i], userId, now)
      invariant count == DecayCount(t[..i], userId, now)
    {
      assert t[..i + 1][..i] == t[..i];
      var m := t[i];
      if Old(m, userId, now) {
        var decayAmount := ((now - m.updatedAt) / Day) / 300;
        var newConfidence := if m.confidence - decayAmount > MinConfidence then m.confidence - decayAmount else MinConfidence;
        if newConfidence != m.confidence {
          m := m.(confidence := newConfidence, updatedAt := now);
          count := count + 1;
        }
      }
      result := result + [m];
    }
    assert t[..|t|] == t;
  }

  // ---------------------------------------------------------------------------
  // Low-confidence removal
  // ---------------------------------------------------------------------------

  predicate Low(m: Memory, userId: string) {
    m.userId == userId && m.confidence < MinConfidence
  }

  /** `DELETE ... WHERE user_id = :user AND confidence < threshold` */
  function Removal(t: seq<Memory>, userId: string): (r: seq<Memory>)
    ensures |r| <= |t|
    ensures forall m :: m in r <==> m in t && !Low(m, userId)
  {
    if t == [] then []
    else
      var r := Removal(t[..|t| - 1], userId);
      assert t == t[..|t| - 1] + [t[|t| - 1]];
      if Low(t[|t| - 1], userId) then r else r + [t[|t| - 1]]
  }

  /** The user's rows below the threshold. */
  function LowCount(t: seq<Memory>, userId: string): nat {
    if t == [] then 0 else LowCount(t[..|t| - 1], userId) + (if Low(t[|t| - 1], userId) then 1 else 0)
  }

  /** The `rowcount` of the delete is the number of the user's low rows, and afterwards the
      user has none while every other user keeps theirs. */
  lemma {:induction false} RemovalCounts(t: seq<Memory>, userId: string, other: string)
    ensures |t| - |Removal(t, userId)| == LowCount(t, userId)
    ensures LowCount(Removal(t, userId), userId) == 0
    ensures other != userId ==> LowCount(Removal(t, userId), other) == LowCount(t, other)
  {
    if t != [] {
      var init := t[..|t| - 1];
      var m := t[|t| - 1];
      RemovalCounts(init, userId, other);
      var r := Removal(init, userId);
      if !Low(m, userId) {
        assert (r + [m])[..|r|] == r;
      }
    }
  }

  /** Decay never moves a row across the threshold, so it leaves every user's count of low
      rows as it was. */
  lemma {:induction false} DecayKeepsLow(t: seq<Memory>, userId: string, now: int, other: string)
    ensures LowCount(Decay(t, userId, now), other) == LowCount(t, other)
  {
    if t != [] {
      var init := t[..|t| - 1];
      DecayKeepsLow(init, userId, now, other);
      assert Decay(t, userId, now)[..|t| - 1] == Decay(init, userId, now);
      DecayRowFacts(t[|t| - 1], userId, now);
    }
  }

  /** A subsequence of a table with unique ids has unique ids. */
  lemma {:induction false} RemovalUniqueIds(t: seq<Memory>, userId: string)
    requires UniqueIds(t)
    ensures UniqueIds(Removal(t, userId))
  {
    if t != [] {
      var init := t[..|t| - 1];
      assert UniqueIds(init);
      RemovalUniqueIds(init, userId);
      var r := Removal(init, userId);
      var m := t[|t| - 1];
      if !Low(m, userId) {
        forall i | 0 <= i < |r| ensures r[i].id != m.id {
          assert r[i] in init;
        }
      }
    }
  }

  lemma {:induction false} DecayUniqueIds(t: seq<Memory>, userId: string, now: int)
    requires UniqueIds(t)
    ensures UniqueIds(Decay(t, userId, now))
  {
    var r := Decay(t, userId, now);
    forall i, j | 0 <= i < j < |r| ensures r[i].id != r[j].id {
      DecayRowFacts(t[i], userId, now);
      DecayRowFacts(t[j], userId, now);
    }
  }

  // ---------------------------------------------------------------------------
  // Stale tasks
  // ---------------------------------------------------------------------------

  /** The user's active tasks not updated for 90 days. */
  predicate Stale(x: TaskRow, userId: string, now: int) {
    x.userId == userId && x.status == "active" && x.updatedAt < now - TaskStaleDays * Day
  }

  function StaleRow(x: TaskRow, userId: string, now: int): TaskRow {
    if Stale(x, userId, now) then x.(status := if x.progress > 0 then "on_hold" else "cancelled", updatedAt := now) else x
  }

  function MarkStale(ts: seq<TaskRow>, userId: string, now: int): (r: seq<TaskRow>)
    ensures |r| == |ts|
    ensures forall i :: 0 <= i < |ts| ==> r[i] == StaleRow(ts[i], userId, now)
  {
    if ts == [] then [] else MarkStale(ts[..|ts| - 1], userId, now) + [StaleRow(ts[|ts| - 1], userId, now)]
  }

  function StaleCount(ts: seq<TaskRow>, userId: string, now: int): nat {
    if ts == [] then 0 else StaleCount(ts[..|ts| - 1], userId, now) + (if Stale(ts[|ts| - 1], userId, now) then 1 else 0)
  }

  /** A stale task with progress goes on hold, one without is cancelled; no stale task is
      left active, and no other task changes. */
  lemma StaleRowFacts(x: TaskRow, userId: string, now: int)
    ensures var r := StaleRow(x, userId, now);
      r.id == x.id && r.userId == x.userId && r.progress == x.progress &&
      (Stale(x, userId, now) ==> r.status == (if x.progress > 0 then "on_hold" else "cancelled") && r.updatedAt == now) &&
      (!Stale(x, userId, now) ==> r == x) &&
      !Stale(r, userId, now)
  {
  }

  /** The `tasks_marked_stale` counter is the drop in the user's active tasks. */
  lemma {:induction false} StaleCountLeavesActive(ts: seq<TaskRow>, userId: string, now: int)
    ensures StaleCount(ts, userId, now) == ActiveOf(ts, userId) - ActiveOf(MarkStale(ts, userId, now), userId)
  {
    if ts != [] {
      var init := ts[..|ts| - 1];
      StaleCountLeavesActive(init, userId, now);
      assert MarkStale(ts, userId, now)[..|ts| - 1] == MarkStale(init, userId, now);
    }
  }

  /** The user's active tasks. */
  function ActiveOf(ts: seq<TaskRow>, userId: string): nat {
    if ts == [] then 0
    else ActiveOf(ts[..|ts| - 1], userId) + (if ts[|ts| - 1].userId == userId && ts[|ts| - 1].status == "active" then 1 else 0)
  }

  /** `_handle_stale_tasks`: the loop over the stale tasks. */
  method MarkStaleRows(ts: seq<TaskRow>, userId: string, now: int) returns (result: seq<TaskRow>, count: nat)
    ensures result == MarkStale(ts, userId, now)
    ensures count == StaleCount(ts, userId, now)
  {
    result := [];
    count := 0;
    for i := 0 to |ts|
      invariant result == MarkStale(ts[..i], userId, now)
      invariant count == StaleCount(ts[..i], userId, now)
    {
      assert ts[..i + 1][..i] == ts[..i];
      var x := ts[i];
      if x.userId == userId && x.status == "active" && x.updatedAt < now - TaskStaleDays * Day {
        if x.progress > 0 {
          x := x.(status := "on_hold");
        } else {
          x := x.(status := "cancelled");
        }
        x := x.(updatedAt := now);
        count := count + 1;
      }
      result := result + [x];
    }
    assert ts[..|ts|] == ts;
  }

  // ---------------------------------------------------------------------------
  // De-duplication of preferences
  // ---------------------------------------------------------------------------

  /** Text comparison as SQLite's default collation does it: code point by code point. */
  predicate StrLe(a: string, b: string) {
    if a == [] then true
    else if b == [] then false
    else if a[0] != b[0] then a[0] < b[0]
    else StrLe(a[1..], b[1..])
  }

  lemma {:induction false} StrLeTotal(a: string, b: string)
    ensures StrLe(a, b) || StrLe(b, a)
  {
    if a != [] && b != [] && a[0] == b[0] {
      StrLeTotal(a[1..], b[1..]);
    }
  }

  lemma {:induction false} StrLeAntisymmetric(a: string, b: string)
    requires StrLe(a, b) && StrLe(b, a)
    ensures a == b
  {
    if a != [] && b != [] {
      StrLeAntisymmetric(a[1..], b[1..]);
      assert a == [a[0]] + a[1..];
      assert b == [b[0]] + b[1..];
    }
  }

  lemma {:induction false} StrLeTransitive(a: string, b: string, c: string)
    requires StrLe(a, b) && StrLe(b, c)
    ensures StrLe(a, c)
  {
    if a != [] && b != [] && c != [] && a[0] == b[0] && b[0] == c[0] {
      StrLeTransitive(a[1..], b[1..], c[1..]);
    }
  }

  /** The order of the de-duplication query: `preference_key`, then confidence descending,
      then `updated_at` descending. */
  predicate RowBefore(a: Memory, b: Memory) {
    if a.key != b.key then StrLe(a.key, b.key)
    else a.confidence > b.confidence || (a.confidence == b.confidence && a.updatedAt >= b.updatedAt)
  }

  lemma RowBeforeTotal(a: Memory, b: Memory)
    ensures RowBefore(a, b) || RowBefore(b, a)
  {
    StrLeTotal(a.key, b.key);
  }

  lemma RowBeforeTransitive(a: Memory, b: Memory, c: Memory)
    requires RowBefore(a, b) && RowBefore(b, c)
    ensures RowBefore(a, c)
  {
    if a.key != b.key && b.key != c.key {
      StrLeTransitive(a.key, b.key, c.key);
      if a.key == c.key {
        StrLeAntisymmetric(a.key, b.key);
      }
    }
  }

  predicate SortedRows(s: seq<Memory>) {
    forall i, j :: 0 <= i < j < |s| ==> RowBefore(s[i], s[j])
  }

  /** Places `m` in front of the first row it may precede. */
  function InsertRow(m: Memory, s: seq<Memory>): (r: seq<Memory>)
    ensures multiset(r) == multiset(s) + multiset{m}
    ensures |r| == |s| + 1
  {
    if s == [] || RowBefore(m, s[0]) then [m] + s
    else
      assert s == [s[0]] + s[1..];
      [s[0]] + InsertRow(m, s[1..])
  }

  lemma {:induction false} InsertRowSorted(m: Memory, s: seq<Memory>)
    requires SortedRows(s)
    ensures SortedRows(InsertRow(m, s))
    ensures InsertRow(m, s)[0] == m || (s != [] && InsertRow(m, s)[0] == s[0])
  {
    if s == [] || RowBefore(m, s[0]) {
      var r := [m] + s;
      forall i, j | 0 <= i < j < |r| ensures RowBefore(r[i], r[j]) {
        if i == 0 && j > 1 {
          RowBeforeTransitive(m, s[0], s[j - 1]);
        }
      }
    } else {
      RowBeforeTotal(m, s[0]);
      var tail := s[1..];
      assert SortedRows(tail);
      InsertRowSorted(m, tail);
      var t := InsertRow(m, tail);
      var r := [s[0]] + t;
      forall i, j | 0 <= i < j < |r| ensures RowBefore(r[i], r[j]) {
        if i == 0 {
          assert r[j] in multiset(t);
          if r[j] != m {
            assert r[j] in multiset(tail);
            var k :| 0 <= k < |tail| && tail[k] == r[j];
            assert RowBefore(s[0], s[k + 1]);
          }
        } else {
          assert r[i] == t[i - 1] && r[j] == t[j - 1];
        }
      }
    }
  }

  /** The rows in the order of the de-duplication query. */
  function SortRows(s: seq<Memory>): (r: seq<Memory>)
    ensures multiset(r) == multiset(s)
    ensures |r| == |s|
  {
    if s == [] then []
    else
      assert s == [s[0]] + s[1..];
      InsertRow(s[0], SortRows(s[1..]))
  }

  lemma {:induction false} SortRowsSorted(s: seq<Memory>)
    ensures SortedRows(SortRows(s))
  {
    if s != [] {
      SortRowsSorted(s[1..]);
      InsertRowSorted(s[0], SortRows(s[1..]));
    }
  }

  /** The user's preference rows, in table order. */
  function UserRows(t: seq<Memory>, userId: string): (r: seq<Memory>)
    ensures forall m :: m in r <==> m in t && m.userId == userId
    ensures |r| <= |t|
  {
    if t == [] then []
    else
      var r := UserRows(t[..|t| - 1], userId);
      assert t == t[..|t| - 1] + [t[|t| - 1]];
      if t[|t| - 1].userId == userId then r + [t[|t| - 1]] else r
  }

  /** What identifies a preference: its category and key. */
  function Pair(m: Memory): (string, string) {
    (m.category, m.key)
  }

  function Pairs(s: seq<Memory>): set<(string, string)> {
    set i | 0 <= i < |s| :: Pair(s[i])
  }

  /** The walk of the `seen_keys` loop over the pairs: the ids of every row whose pair an
      earlier row already had. */
  function DeletedIds(s: seq<Memory>): seq<nat> {
    if s == [] then []
    else DeletedIds(s[..|s| - 1]) + (if Pair(s[|s| - 1]) in Pairs(s[..|s| - 1]) then [s[|s| - 1].id] else [])
  }

  lemma PairsSnoc(s: seq<Memory>, m: Memory)
    ensures Pairs(s + [m]) == Pairs(s) + {Pair(m)}
  {
    var r := s + [m];
    forall p | p in Pairs(r) ensures p in Pairs(s) + {Pair(m)} {
      var i :| 0 <= i < |r| && Pair(r[i]) == p;
      if i < |s| {
        assert r[i] == s[i];
      }
    }
    forall p | p in Pairs(s) ensures p in Pairs(r) {
      var i :| 0 <= i < |s| && Pair(s[i]) == p;
      assert r[i] == s[i];
    }
    assert r[|s|] == m;
  }

  /** Every row either opens a new pair or is deleted, so the count deleted is the number of
      rows less the number of distinct pairs. */
  lemma {:induction false} DeletedCount(s: seq<Memory>)
    ensures |DeletedIds(s)| + |Pairs(s)| == |s|
  {
    if s == [] {
      assert Pairs(s) == {};
    } else {
      var init := s[..|s| - 1];
      DeletedCount(init);
      var p := Pair(s[|s| - 1]);
      assert s == init + [s[|s| - 1]];
      PairsSnoc(init, s[|s| - 1]);
      if p in Pairs(init) {
        assert Pairs(init) + {p} == Pairs(init);
      } else {
        assert |Pairs(init) + {p}| == |Pairs(init)| + 1;
      }
    }
  }

  /** The ids deleted are ids of rows of the walk, each a row that repeats an earlier pair;
      with unique ids, a row is deleted exactly when an earlier row has its pair. */
  lemma {:induction false} DeletedIdsMembers(s: seq<Memory>, k: nat)
    requires UniqueIds(s) && k < |s|
    ensures s[k].id in DeletedIds(s) <==> Pair(s[k]) in Pairs(s[..k])
    ensures forall x :: x in DeletedIds(s) ==> exists i :: 0 <= i < |s| && s[i].id == x
  {
    var init := s[..|s| - 1];
    var last := s[|s| - 1];
    assert UniqueIds(init);
    if k < |s| - 1 {
      DeletedIdsMembers(init, k);
      assert init[..k] == s[..k];
      assert s[k].id != last.id;
    } else if |s| > 1 {
      DeletedIdsMembers(init, 0);
      forall x | x in DeletedIds(init) ensures x != last.id {
        var i :| 0 <= i < |init| && init[i].id == x;
      }
    } else {
      assert init == [];
    }
    if |s| > 1 {
      DeletedIdsMembers(init, 0);
      forall x | x in DeletedIds(s) ensures exists i :: 0 <= i < |s| && s[i].id == x {
        if x in DeletedIds(init) {
          var i :| 0 <= i < |init| && init[i].id == x;
          assert s[i].id == x;
        }
      }
    }
  }

  /** `DELETE ... WHERE id IN (to_delete)` */
  function DeleteIds(t: seq<Memory>, ids: seq<nat>): (r: seq<Memory>)
    ensures |r| <= |t|
    ensures forall m :: m in r <==> m in t && m.id !in ids
  {
    if t == [] then []
    else
      var r := DeleteIds(t[..|t| - 1], ids);
      assert t == t[..|t| - 1] + [t[|t| - 1]];
      if t[|t| - 1].id in ids then r else r + [t[|t| - 1]]
  }

  /** `_deduplicate_memories` on the preference table. */
  function Dedup(t: seq<Memory>, userId: string): seq<Memory> {
    DeleteIds(t, DeletedIds(SortRows(UserRows(t, userId))))
  }

  /** `len(to_delete)` */
  function DedupCount(t: seq<Memory>, userId: string): nat {
    |DeletedIds(SortRows(UserRows(t, userId)))|
  }

  /** The `seen_keys` loop over the ordered rows: the ids of the rows to delete. */
  method WalkDuplicates(rows: seq<Memory>) returns (toDelete: seq<nat>)
    ensures toDelete == DeletedIds(rows)
  {
    var seen: set<(string, string)> := {};
    toDelete := [];
    for i := 0 to |rows|
      invariant seen == Pairs(rows[..i])
      invariant toDelete == DeletedIds(rows[..i])
    {
      DeletedIdsSnoc(rows, i);
      var key := (rows[i].category, rows[i].key);
      if key in seen {
        toDelete := toDelete + [rows[i].id];
      } else {
        seen := seen + {key};
      }
    }
    assert rows[..|rows|] == rows;
  }

  /** One more row walked: its pair joins the seen pairs, and its id is deleted when the pair
      was seen before. */
  lemma {:induction false} DeletedIdsSnoc(rows: seq<Memory>, i: nat)
    requires i < |rows|
    ensures Pairs(rows[..i + 1]) == Pairs(rows[..i]) + {Pair(rows[i])}
    ensures DeletedIds(rows[..i + 1]) ==
      DeletedIds(rows[..i]) + (if Pair(rows[i]) in Pairs(rows[..i]) then [rows[i].id] else [])
  {
    assert rows[..i + 1][..i] == rows[..i];
    PairsSnoc(rows[..i], rows[i]);
    assert rows[..i] + [rows[i]] == rows[..i + 1];
  }

  /** `_deduplicate_memories`: the walk, then the delete when there is something to delete. */
  method DedupRows(t: seq<Memory>, userId: string) returns (result: seq<Memory>, count: nat)
    ensures result == Dedup(t, userId)
    ensures count == DedupCount(t, userId)
  {
    var rows := SortRows(UserRows(t, userId));
    var toDelete := WalkDuplicates(rows);
    result := t;
    count := 0;
    if toDelete != [] {
      result := DeleteIds(t, toDelete);
      count := |toDelete|;
    } else {
      DeleteNothing(t, toDelete);
    }
  }

  lemma {:induction false} DeleteNothing(t: seq<Memory>, ids: seq<nat>)
    requires ids == []
    ensures DeleteIds(t, ids) == t
  {
    if t != [] {
      DeleteNothing(t[..|t| - 1], ids);
      assert t[..|t| - 1] + [t[|t| - 1]] == t;
    }
  }

  /** The walk's rows: exactly the user's rows of the table, in query order, ids unique. */
  lemma WalkRows(t: seq<Memory>, userId: string)
    requires UniqueIds(t)
    ensures var rows := SortRows(UserRows(t, userId));
      SortedRows(rows) && UniqueIds(rows) &&
      forall x :: x in rows <==> x in t && x.userId == userId
  {
    var u := UserRows(t, userId);
    var rows := SortRows(u);
    SortRowsSorted(u);
    UserRowsUnique(t, userId);
    SortRowsUnique(u);
    forall x ensures x in rows <==> x in u {
      assert x in rows <==> x in multiset(rows);
      assert x in u <==> x in multiset(u);
    }
  }

  /** After de-duplication the user has at most one preference per (category, key). */
  lemma DedupOnePerPair(t: seq<Memory>, userId: string, m: Memory, n: Memory)
    requires UniqueIds(t)
    requires m in Dedup(t, userId) && n in Dedup(t, userId) && m.userId == userId && n.userId == userId
    requires Pair(m) == Pair(n)
    ensures m == n
  {
    var rows := SortRows(UserRows(t, userId));
    WalkRows(t, userId);
    var a :| 0 <= a < |rows| && rows[a] == m;
    var b :| 0 <= b < |rows| && rows[b] == n;
    DeletedIdsMembers(rows, a);
    DeletedIdsMembers(rows, b);
    if a < b {
      PrefixPair(rows, a, b);
    } else if b < a {
      PrefixPair(rows, b, a);
    }
  }

  lemma PrefixPair(rows: seq<Memory>, a: nat, b: nat)
    requires a < b <= |rows|
    ensures Pair(rows[a]) in Pairs(rows[..b])
  {
    assert rows[..b][a] == rows[a];
  }

  /** Every (category, key) the user had survives, in a row at least as confident as any
      row of that pair. */
  lemma DedupKeepsBest(t: seq<Memory>, userId: string, m: Memory)
    requires UniqueIds(t)
    requires m in t && m.userId == userId
    ensures exists k :: k in Dedup(t, userId) && k.userId == userId && Pair(k) == Pair(m) && k.confidence >= m.confidence
  {
    var rows := SortRows(UserRows(t, userId));
    WalkRows(t, userId);
    var a :| 0 <= a < |rows| && rows[a] == m;
    var f := FirstWithPair(rows, a);
    DeletedIdsMembers(rows, f);
    assert rows[f] in Dedup(t, userId);
    if f < a {
      assert RowBefore(rows[f], rows[a]);
    }
  }

  /** Other users' rows are neither deleted nor added. */
  lemma DedupOthers(t: seq<Memory>, userId: string, m: Memory)
    requires UniqueIds(t)
    requires m.userId != userId
    ensures m in Dedup(t, userId) <==> m in t
  {
    if m in t {
      DeletedNotOthers(t, userId, m);
    }
  }

  /** No deleted id belongs to another user's row. */
  lemma DeletedNotOthers(t: seq<Memory>, userId: string, m: Memory)
    requires UniqueIds(t)
    requires m in t && m.userId != userId
    ensures m.id !in DeletedIds(SortRows(UserRows(t, userId)))
  {
    var rows := SortRows(UserRows(t, userId));
    if m.id in DeletedIds(rows) {
      WalkRows(t, userId);
      DeletedIdsMembers(rows, 0);
    }
  }

  /** The first row of the walk that has the pair of row `a`. */
  lemma FirstWithPair(rows: seq<Memory>, a: nat) returns (f: nat)
    requires a < |rows|
    ensures f <= a && Pair(rows[f]) == Pair(rows[a]) && Pair(rows[f]) !in Pairs(rows[..f])
  {
    f := a;
    while Pair(rows[f]) in Pairs(rows[..f])
      invariant f <= a && Pair(rows[f]) == Pair(rows[a])
      decreases f
    {
      var i :| 0 <= i < f && Pair(rows[..f][i]) == Pair(rows[f]);
      f := i;
    }
  }

  lemma {:induction false} UserRowsUnique(t: seq<Memory>, userId: string)
    requires UniqueIds(t)
    ensures UniqueIds(UserRows(t, userId))
  {
    if t != [] {
      var init := t[..|t| - 1];
      assert UniqueIds(init);
      UserRowsUnique(init, userId);
      var r := UserRows(init, userId);
      forall i | 0 <= i < |r| ensures r[i].id != t[|t| - 1].id {
        assert r[i] in init;
      }
    }
  }

  lemma {:induction false} InsertRowUnique(m: Memory, s: seq<Memory>)
    requires UniqueIds(s)
    requires forall x :: x in s ==> x.id != m.id
    ensures UniqueIds(InsertRow(m, s))
  {
    if s == [] || RowBefore(m, s[0]) {
      ConsUnique(m, s);
    } else {
      var tail := s[1..];
      HeadFresh(s);
      InsertRowUnique(m, tail);
      var t := InsertRow(m, tail);
      forall x | x in t ensures x.id != s[0].id {
        assert x in multiset(t);
      }
      ConsUnique(s[0], t);
    }
  }

  /** The first row's id occurs nowhere after it. */
  lemma HeadFresh(s: seq<Memory>)
    requires UniqueIds(s) && s != []
    ensures UniqueIds(s[1..])
    ensures forall x :: x in s[1..] ==> x.id != s[0].id && x in s
  {
    forall x | x in s[1..] ensures x.id != s[0].id {
      var k :| 0 <= k < |s[1..]| && s[1..][k] == x;
      assert s[k + 1] == x;
    }
  }

  /** A row with a fresh id in front of rows with unique ids. */
  lemma ConsUnique(h: Memory, t: seq<Memory>)
    requires UniqueIds(t)
    requires forall x :: x in t ==> x.id != h.id
    ensures UniqueIds([h] + t)
  {
    var r := [h] + t;
    forall i, j | 0 <= i < j < |r| ensures r[i].id != r[j].id {
      assert r[j] == t[j - 1];
      if i > 0 {
        assert r[i] == t[i - 1];
      }
    }
  }

  /** Sorting keeps ids unique. */
  lemma {:induction false} SortRowsUnique(s: seq<Memory>)
    requires UniqueIds(s)
    ensures UniqueIds(SortRows(s))
  {
    if s != [] {
      var tail := s[1..];
      assert UniqueIds(tail);
      SortRowsUnique(tail);
      forall x | x in SortRows(tail) ensures x.id != s[0].id {
        assert x in multiset(SortRows(tail));
        var k :| 0 <= k < |tail| && tail[k] == x;
        assert s[k + 1] == x;
      }
      InsertRowUnique(s[0], SortRows(tail));
    }
  }

  /** Keyed by the text `f"{category}:{key}"`, as written. */
  function KeyString(m: Memory): (r: string)
    ensures |r| == |m.category| + 1 + |m.key|
    ensures r[..|m.category|] == m.category && r[|m.category|] == ':' && r[|m.category| + 1..] == m.key
  {
    m.category + ":" + m.key
  }

  function KeyStrings(s: seq<Memory>): set<string> {
    set i | 0 <= i < |s| :: KeyString(s[i])
  }

  /** The ids the `seen_keys` loop deletes as written: every row the walk on pairs deletes, and
      only ids of the rows walked. */
  function DeletedIdsAsWritten(s: seq<Memory>): (r: seq<nat>)
    ensures forall x :: x in DeletedIds(s) ==> x in r
    ensures forall x :: x in r ==> exists i :: 0 <= i < |s| && s[i].id == x
  {
    if s == [] then []
    else
      var init := s[..|s| - 1];
      var m := s[|s| - 1];
      PairKeyString(init, m);
      DeletedIdsAsWritten(init) + (if KeyString(m) in KeyStrings(init) then [m.id] else [])
  }

  /** Rows with the same pair have the same key string. */
  lemma PairKeyString(s: seq<Memory>, m: Memory)
    ensures Pair(m) in Pairs(s) ==> KeyString(m) in KeyStrings(s)
  {
    if Pair(m) in Pairs(s) {
      var i :| 0 <= i < |s| && Pair(s[i]) == Pair(m);
      assert KeyString(s[i]) == KeyString(m);
    }
  }

  /** Two different preferences whose category or key contains ':' share a key string, and
      the one walked second is deleted as a duplicate. */
  lemma KeyStringCollision(userId: string)
    ensures var first := Memory(2, userId, "a", "b:c", 5, 0);
      var second := Memory(1, userId, "a:b", "c", 5, 0);
      SortedRows([first, second]) && Pair(first) != Pair(second) &&
      DeletedIdsAsWritten([first, second]) == [1] && DeletedIds([first, second]) == []
  {
    var first := Memory(2, userId, "a", "b:c", 5, 0);
    var second := Memory(1, userId, "a:b", "c", 5, 0);
    assert StrLe("b:c", "c");
    CollisionAsWritten(first, second);
    CollisionPairs(first, second);
  }

  /** The walk on key strings deletes the second of two rows with the same key string. */
  lemma CollisionAsWritten(first: Memory, second: Memory)
    requires KeyString(first) == KeyString(second)
    ensures DeletedIdsAsWritten([first, second]) == [second.id]
  {
    assert [first, second][..1] == [first];
    assert [first][..0] == [];
    assert KeyString([first][0]) == KeyString(second);
    assert KeyString(second) in KeyStrings([first]);
    assert DeletedIdsAsWritten([first]) == [];
  }

  /** The walk on pairs keeps two rows whose pairs differ. */
  lemma CollisionPairs(first: Memory, second: Memory)
    requires Pair(first) != Pair(second)
    ensures DeletedIds([first, second]) == []
  {
    assert [first, second][..1] == [first];
    assert [first][..0] == [];
    assert Pair(second) !in Pairs([first]) by {
      forall i | 0 <= i < 1 ensures Pair([first][i]) != Pair(second) {
        assert [first][i] == first;
      }
    }
    assert DeletedIds([first]) == [];
  }

  // ---------------------------------------------------------------------------
  // Consolidation
  // ---------------------------------------------------------------------------

  datatype Stats = Stats(preferencesDecayed: nat, preferencesRemoved: nat, factsDecayed: nat, factsRemoved: nat,
                         tasksMarkedStale: nat, relationsDecayed: nat, relationsRemoved: nat, duplicatesRemoved: nat)

  /** The totals of `consolidate_all_users`; `staleMarked` is absent until a user has been
      processed. */
  datatype Totals = Totals(usersProcessed: nat, memoriesRemoved: nat, memoriesDecayed: nat, staleMarked: Option<nat>)

  datatype Option<T> = None | Some(value: T)

  /** What the removed counters of one user's consolidation add up to: the user's rows below
      the threshold in the three tables before it ran. */
  lemma UserRemovedCounts(prefs: seq<Memory>, facts: seq<Memory>, rels: seq<Memory>, userId: string, now: int)
    ensures |Decay(prefs, userId, now)| - |Removal(Decay(prefs, userId, now), userId)| == LowCount(prefs, userId)
    ensures |Decay(facts, userId, now)| - |Removal(Decay(facts, userId, now), userId)| == LowCount(facts, userId)
    ensures |Decay(rels, userId, now)| - |Removal(Decay(rels, userId, now), userId)| == LowCount(rels, userId)
  {
    DecayKeepsLow(prefs, userId, now, userId);
    RemovalCounts(Decay(prefs, userId, now), userId, userId);
    DecayKeepsLow(facts, userId, now, userId);
    RemovalCounts(Decay(facts, userId, now), userId, userId);
    DecayKeepsLow(rels, userId, now, userId);
    RemovalCounts(Decay(rels, userId, now), userId, userId);
  }

  /** The preference rows a user's consolidation leaves. */
  function ConsolidatedPrefs(prefs: seq<Memory>, userId: string, now: int): seq<Memory> {
    Dedup(Removal(Decay(prefs, userId, now), userId), userId)
  }

  function ConsolidatedRows(t: seq<Memory>, userId: string, now: int): seq<Memory> {
    Removal(Decay(t, userId, now), userId)
  }

  /** Consolidating one user keeps primary keys unique and leaves every other user's count
      of low rows as it was. */
  lemma ConsolidateOthers(t: seq<Memory>, userId: string, now: int, other: string, dedup: bool)
    requires UniqueIds(t)
    requires other != userId
    ensures var r := if dedup then ConsolidatedPrefs(t, userId, now) else ConsolidatedRows(t, userId, now);
      UniqueIds(r) && LowCount(r, other) == LowCount(t, other)
  {
    DecayUniqueIds(t, userId, now);
    DecayKeepsLow(t, userId, now, other);
    var d := Decay(t, userId, now);
    RemovalUniqueIds(d, userId);
    RemovalCounts(d, userId, other);
    if dedup {
      var r := Removal(d, userId);
      DedupUnique(r, userId);
      DedupKeepsOthersLow(r, userId, other);
    }
  }

  lemma DedupUnique(t: seq<Memory>, userId: string)
    requires UniqueIds(t)
    ensures UniqueIds(Dedup(t, userId))
  {
    DeleteIdsUnique(t, DeletedIds(SortRows(UserRows(t, userId))));
  }

  lemma {:induction false} DeleteIdsUnique(t: seq<Memory>, ids: seq<nat>)
    requires UniqueIds(t)
    ensures UniqueIds(DeleteIds(t, ids))
  {
    if t != [] {
      var init := t[..|t| - 1];
      assert UniqueIds(init);
      DeleteIdsUnique(init, ids);
      var r := DeleteIds(init, ids);
      forall i | 0 <= i < |r| ensures r[i].id != t[|t| - 1].id {
        assert r[i] in init;
      }
    }
  }

  /** Deleting only the user's rows keeps another user's low count. */
  lemma DedupKeepsOthersLow(t: seq<Memory>, userId: string, other: string)
    requires UniqueIds(t) && other != userId
    ensures LowCount(Dedup(t, userId), other) == LowCount(t, other)
  {
    var ids := DeletedIds(SortRows(UserRows(t, userId)));
    forall m | m in t && m.userId == other ensures m.id !in ids {
      DeletedNotOthers(t, userId, m);
    }
    DeleteOthersLow(t, ids, other);
  }

  lemma {:induction false} DeleteOthersLow(t: seq<Memory>, ids: seq<nat>, other: string)
    requires forall m :: m in t && m.userId == other ==> m.id !in ids
    ensures LowCount(DeleteIds(t, ids), other) == LowCount(t, other)
  {
    if t != [] {
      var init := t[..|t| - 1];
      var m := t[|t| - 1];
      DeleteOthersLow(init, ids, other);
      var r := DeleteIds(init, ids);
      if m.id !in ids {
        assert (r + [m])[..|r|] == r;
      }
    }
  }

  /** The counters of one user's consolidation. */
  function UserStats(prefs: seq<Memory>, facts: seq<Memory>, rels: seq<Memory>, tasks: seq<TaskRow>, userId: string, now: int): Stats {
    Stats(DecayCount(prefs, userId, now), LowCount(prefs, userId), DecayCount(facts, userId, now), LowCount(facts, userId),
          StaleCount(tasks, userId, now), DecayCount(rels, userId, now), LowCount(rels, userId),
          DedupCount(ConsolidatedRows(prefs, userId, now), userId))
  }

  /** `consolidate_user_memories`: decay, removal, stale tasks and de-duplication, in that
      order, with their counters merged; the removed counters are the user's low rows from
      before the decay, since decay never crosses the threshold. */
  method ConsolidateTables(prefs: seq<Memory>, facts: seq<Memory>, rels: seq<Memory>, tasks: seq<TaskRow>, userId: string, now: int)
    returns (prefs': seq<Memory>, facts': seq<Memory>, rels': seq<Memory>, tasks': seq<TaskRow>, stats: Stats)
    requires UniqueIds(prefs) && UniqueIds(facts) && UniqueIds(rels)
    ensures UniqueIds(prefs') && UniqueIds(facts') && UniqueIds(rels')
    ensures prefs' == ConsolidatedPrefs(prefs, userId, now)
    ensures facts' == ConsolidatedRows(facts, userId, now)
    ensures rels' == ConsolidatedRows(rels, userId, now)
    ensures tasks' == MarkStale(tasks, userId, now)
    ensures stats == UserStats(prefs, facts, rels, tasks, userId, now)
  {
    UserRemovedCounts(prefs, facts, rels, userId, now);
    // 1. decay
    var p, pd := DecayRows(prefs, userId, now);
    var f, fd := DecayRows(facts, userId, now);
    var r, rd := DecayRows(rels, userId, now);
    DecayUniqueIds(prefs, userId, now);
    DecayUniqueIds(facts, userId, now);
    DecayUniqueIds(rels, userId, now);
    // 2. removal
    var pr := |p| - |Removal(p, userId)|;
    var fr := |f| - |Removal(f, userId)|;
    var rr := |r| - |Removal(r, userId)|;
    RemovalUniqueIds(p, userId);
    RemovalUniqueIds(f, userId);
    RemovalUniqueIds(r, userId);
    p, f, r := Removal(p, userId), Removal(f, userId), Removal(r, userId);
    // 3. stale tasks
    var ts;
    tasks', ts := MarkStaleRows(tasks, userId, now);
    // 4. de-duplication
    DedupUnique(p, userId);
    var dup;
    prefs', dup := DedupRows(p, userId);
    facts', rels' := f, r;
    stats := Stats(pd, pr, fd, fr, ts, rd, rr, dup);
  }

  /** `MemoryConsolidator` over the four tables. */
  class Consolidator {
    var preferences: seq<Memory>
    var facts: seq<Memory>
    var relations: seq<Memory>
    var tasks: seq<TaskRow>

    ghost predicate Valid()
      reads this
    {
      UniqueIds(preferences) && UniqueIds(facts) && UniqueIds(relations)
    }

    constructor(preferences: seq<Memory>, facts: seq<Memory>, relations: seq<Memory>, tasks: seq<TaskRow>)
      ensures this.preferences == preferences && this.facts == facts && this.relations == relations && this.tasks == tasks
    {
      this.preferences := preferences;
      this.facts := facts;
      this.relations := relations;
      this.tasks := tasks;
    }

    /** `consolidate_user_memories` on this consolidator's tables. */
    method ConsolidateUser(userId: string, now: int) returns (stats: Stats)
      requires Valid()
      modifies this
      ensures Valid()
      ensures preferences == ConsolidatedPrefs(old(preferences), userId, now)
      ensures facts == ConsolidatedRows(old(facts), userId, now)
      ensures relations == ConsolidatedRows(old(relations), userId, now)
      ensures tasks == MarkStale(old(tasks), userId, now)
      ensures stats == UserStats(old(preferences), old(facts), old(relations), old(tasks), userId, now)
    {
      preferences, facts, relations, tasks, stats := ConsolidateTables(preferences, facts, relations, tasks, userId, now);
    }

    /** The steps of one user's consolidation that committed before it raised: `steps` is
        below 4, each step commits when it ends, and the step that raised leaves nothing. */
    method CommitSteps(userId: string, now: int, steps: nat)
      requires Valid() && steps < Steps
      modifies this
      ensures Valid()
      ensures Tables(preferences, facts, relations, tasks) ==
        Committed(Tables(old(preferences), old(facts), old(relations), old(tasks)), userId, now, steps)
    {
      if steps >= 1 {
        DecayUniqueIds(preferences, userId, now);
        DecayUniqueIds(facts, userId, now);
        DecayUniqueIds(relations, userId, now);
        preferences, facts, relations := Decay(preferences, userId, now), Decay(facts, userId, now), Decay(relations, userId, now);
      }
      if steps >= 2 {
        RemovalUniqueIds(preferences, userId);
        RemovalUniqueIds(facts, userId);
        RemovalUniqueIds(relations, userId);
        preferences, facts, relations := Removal(preferences, userId), Removal(facts, userId), Removal(relations, userId);
      }
      if steps >= 3 {
        tasks := MarkStale(tasks, userId, now);
      }
    }

    /** `consolidate_all_users` over the ids the user query returned. `reached(u)` is how many
        of the four steps of `u`'s consolidation committed: below 4 the consolidation raised,
        the user is skipped and adds nothing to the totals, but the committed steps stay. The
        tables end as every user's committed steps leave them, in query order; the removed
        total is the number of low-confidence rows the processed users had at the start; the
        decayed and stale totals add up the processed users' counters. */
    method ConsolidateAll(userIds: seq<string>, reached: string -> nat, now: int) returns (totals: Totals)
      requires Valid()
      requires Seqs.Distinct(userIds)
      modifies this
      ensures Valid()
      ensures Tables(preferences, facts, relations, tasks) ==
        AllTables(Tables(old(preferences), old(facts), old(relations), old(tasks)), userIds, reached, now, Committed)
      ensures totals.usersProcessed == Processed(userIds, reached)
      ensures totals.memoriesRemoved == RemovedTotal(old(preferences), old(facts), old(relations), userIds, reached)
      ensures totals.memoriesDecayed ==
        DecayedTotal(Tables(old(preferences), old(facts), old(relations), old(tasks)), userIds, reached, now, Committed)
      ensures totals.staleMarked ==
        if totals.usersProcessed > 0
        then Some(StaleTotal(Tables(old(preferences), old(facts), old(relations), old(tasks)), userIds, reached, now, Committed))
        else None
    {
      ghost var start := Tables(preferences, facts, relations, tasks);
      totals := Totals(0, 0, 0, None);
      for i := 0 to |userIds|
        invariant Valid()
        invariant Tables(preferences, facts, relations, tasks) == AllTables(start, userIds[..i], reached, now, Committed)
        invariant TotalsAt(totals, start, userIds[..i], reached, now, Committed)
        invariant forall v :: v !in userIds[..i] ==>
          LowCount(preferences, v) == LowCount(start.prefs, v) &&
          LowCount(facts, v) == LowCount(start.facts, v) &&
          LowCount(relations, v) == LowCount(start.rels, v)
      {
        var userId := userIds[i];
        ghost var before := Tables(preferences, facts, relations, tasks);
        ghost var prior := totals;
        CommittedOthersAll(before, userId, now, reached(userId));
        var stats := ConsolidateOne(userId, now, reached(userId));
        if stats.Some? {
          totals := AddStats(totals, stats.value);
        }
        assert stats.Some? ==> Counted(stats.value, start, before, userId, now);
        TotalsStep(prior, start, userIds, reached, now, Committed, i, before, stats);
      }
      assert userIds[..|userIds|] == userIds;
    }

    /** One user of `consolidate_all_users`: the committed steps, and the counters when all
        four steps committed. */
    method ConsolidateOne(userId: string, now: int, steps: nat) returns (stats: Option<Stats>)
      requires Valid()
      modifies this
      ensures Valid()
      ensures Tables(preferences, facts, relations, tasks) ==
        Committed(Tables(old(preferences), old(facts), old(relations), old(tasks)), userId, now, steps)
      ensures stats.None? <==> steps < Steps
      ensures stats.Some? ==> stats.value == UserStats(old(preferences), old(facts), old(relations), old(tasks), userId, now)
    {
      if steps < Steps {
        CommitSteps(userId, now, steps);
        return None;
      }
      ghost var tb := Tables(preferences, facts, relations, tasks);
      var s := ConsolidateUser(userId, now);
      assert Committed(tb, userId, now, steps) == Tables(preferences, facts, relations, tasks) by {
        CommittedAll(tb, userId, now, steps);
      }
      return Some(s);
    }
  }

  /** The totals once one more user has been processed. */
  function AddStats(totals: Totals, stats: Stats): Totals {
    var stale := if totals.staleMarked.Some? then totals.staleMarked.value else 0;
    Totals(totals.usersProcessed + 1,
           totals.memoriesRemoved + (stats.preferencesRemoved + stats.factsRemoved + stats.relationsRemoved),
           totals.memoriesDecayed + (stats.preferencesDecayed + stats.factsDecayed + stats.relationsDecayed),
           Some(stale + stats.tasksMarkedStale))
  }

  /** The totals of `consolidate_all_users` once the users of `userIds` have been walked. */
  predicate TotalsAt(totals: Totals, tb: Tables, userIds: seq<string>, reached: string -> nat, now: int, step: Step) {
    && totals.usersProcessed == Processed(userIds, reached)
    && totals.memoriesRemoved == RemovedTotal(tb.prefs, tb.facts, tb.rels, userIds, reached)
    && totals.memoriesDecayed == DecayedTotal(tb, userIds, reached, now, step)
    && totals.staleMarked == if totals.usersProcessed > 0 then Some(StaleTotal(tb, userIds, reached, now, step)) else None
  }

  /** The counters one processed user adds to the totals: its low rows at the start, and its
      decayed rows and stale tasks in the tables as it found them. */
  predicate Counted(stats: Stats, tb: Tables, before: Tables, u: string, now: int) {
    && stats.preferencesRemoved + stats.factsRemoved + stats.relationsRemoved
       == LowCount(tb.prefs, u) + LowCount(tb.facts, u) + LowCount(tb.rels, u)
    && stats.preferencesDecayed + stats.factsDecayed + stats.relationsDecayed
       == DecayCount(before.prefs, u, now) + DecayCount(before.facts, u, now) + DecayCount(before.rels, u, now)
    && stats.tasksMarkedStale == StaleCount(before.tasks, u, now)
  }

  /** One more user keeps the totals right: a user that raised adds nothing, one that did not
      adds its counters; and the tables take that user's committed steps. */
  lemma TotalsStep(totals: Totals, tb: Tables, userIds: seq<string>, reached: string -> nat, now: int, step: Step, i: nat,
                   before: Tables, stats: Option<Stats>)
    requires i < |userIds| && Seqs.Distinct(userIds)
    requires TotalsAt(totals, tb, userIds[..i], reached, now, step)
    requires before == AllTables(tb, userIds[..i], reached, now, step)
    requires stats.None? <==> reached(userIds[i]) < Steps
    requires stats.Some? ==> Counted(stats.value, tb, before, userIds[i], now)
    ensures TotalsAt(if stats.Some? then AddStats(totals, stats.value) else totals, tb, userIds[..i + 1], reached, now, step)
    ensures AllTables(tb, userIds[..i + 1], reached, now, step) == step(before, userIds[i], now, reached(userIds[i]))
    ensures userIds[i] !in userIds[..i]
    ensures forall v :: v in userIds[..i + 1] <==> v in userIds[..i] || v == userIds[i]
  {
    var xs, u := userIds[..i], userIds[i];
    assert userIds[..i + 1] == xs + [u];
    assert u !in xs by {
      forall j | 0 <= j < i ensures xs[j] != u {
        assert xs[j] == userIds[j];
      }
    }
    ProcessedSnoc(xs, u, reached);
    RemovedSnoc(tb, xs, u, reached);
    DecayedSnoc(tb, xs, u, reached, now, step);
    StaleSnoc(tb, xs, u, reached, now, step);
    AllTablesSnoc(tb, xs, u, reached, now, step);
    StaleNone(tb, xs, reached, now, step);
    var next := if stats.Some? then AddStats(totals, stats.value) else totals;
    assert next.usersProcessed == Processed(xs + [u], reached);
    assert next.memoriesRemoved == RemovedTotal(tb.prefs, tb.facts, tb.rels, xs + [u], reached);
    assert next.memoriesDecayed == DecayedTotal(tb, xs + [u], reached, now, step);
    var before1 := StaleTotal(tb, xs, reached, now, step);
    var after1 := StaleTotal(tb, xs + [u], reached, now, step);
    if stats.Some? {
      var stale := if totals.staleMarked.Some? then totals.staleMarked.value else 0;
      assert stale == before1;
      assert after1 == before1 + stats.value.tasksMarkedStale;
      assert next.staleMarked == Some(stale + stats.value.tasksMarkedStale);
    } else {
      assert after1 == before1;
    }
  }

  /** Before any user is processed the stale total is still zero. */
  lemma {:induction false} StaleNone(tb: Tables, xs: seq<string>, reached: string -> nat, now: int, step: Step)
    ensures Processed(xs, reached) == 0 ==> StaleTotal(tb, xs, reached, now, step) == 0
  {
    if xs != [] {
      StaleNone(tb, xs[..|xs| - 1], reached, now, step);
    }
  }

  lemma ProcessedSnoc(xs: seq<string>, u: string, reached: string -> nat)
    ensures Processed(xs + [u], reached) == Processed(xs, reached) + (if reached(u) < Steps then 0 else 1)
  {
    assert (xs + [u])[..|xs|] == xs;
  }

  lemma RemovedSnoc(tb: Tables, xs: seq<string>, u: string, reached: string -> nat)
    ensures RemovedTotal(tb.prefs, tb.facts, tb.rels, xs + [u], reached) == RemovedTotal(tb.prefs, tb.facts, tb.rels, xs, reached)
      + (if reached(u) < Steps then 0 else LowCount(tb.prefs, u) + LowCount(tb.facts, u) + LowCount(tb.rels, u))
  {
    assert (xs + [u])[..|xs|] == xs;
  }

  lemma DecayedSnoc(tb: Tables, xs: seq<string>, u: string, reached: string -> nat, now: int, step: Step)
    ensures var at := AllTables(tb, xs, reached, now, step);
      DecayedTotal(tb, xs + [u], reached, now, step) == DecayedTotal(tb, xs, reached, now, step)
      + (if reached(u) < Steps then 0 else DecayCount(at.prefs, u, now) + DecayCount(at.facts, u, now) + DecayCount(at.rels, u, now))
  {
    assert (xs + [u])[..|xs|] == xs;
  }

  lemma StaleSnoc(tb: Tables, xs: seq<string>, u: string, reached: string -> nat, now: int, step: Step)
    ensures StaleTotal(tb, xs + [u], reached, now, step) == StaleTotal(tb, xs, reached, now, step)
      + (if reached(u) < Steps then 0 else StaleCount(AllTables(tb, xs, reached, now, step).tasks, u, now))
  {
    assert (xs + [u])[..|xs|] == xs;
  }

  lemma AllTablesSnoc(tb: Tables, xs: seq<string>, u: string, reached: string -> nat, now: int, step: Step)
    ensures AllTables(tb, xs + [u], reached, now, step) == step(AllTables(tb, xs, reached, now, step), u, now, reached(u))
  {
    assert (xs + [u])[..|xs|] == xs;
  }

  /** `CommittedOthers` for every other user at once. */
  lemma CommittedOthersAll(tb: Tables, userId: string, now: int, steps: nat)
    requires UniqueIds(tb.prefs) && UniqueIds(tb.facts) && UniqueIds(tb.rels)
    ensures forall v :: v != userId ==>
      && LowCount(Committed(tb, userId, now, steps).prefs, v) == LowCount(tb.prefs, v)
      && LowCount(Committed(tb, userId, now, steps).facts, v) == LowCount(tb.facts, v)
      && LowCount(Committed(tb, userId, now, steps).rels, v) == LowCount(tb.rels, v)
  {
    forall v | v != userId
      ensures LowCount(Committed(tb, userId, now, steps).prefs, v) == LowCount(tb.prefs, v)
      ensures LowCount(Committed(tb, userId, now, steps).facts, v) == LowCount(tb.facts, v)
      ensures LowCount(Committed(tb, userId, now, steps).rels, v) == LowCount(tb.rels, v)
    {
      CommittedOthers(tb, userId, now, steps, v);
    }
  }

  /** The number of steps of one user's consolidation: decay, removal, stale tasks and
      de-duplication. */
  const Steps: nat := 4

  /** The four tables together. */
  datatype Tables = Tables(prefs: seq<Memory>, facts: seq<Memory>, rels: seq<Memory>, tasks: seq<TaskRow>)

  /** The tables once the first `steps` steps of `userId`'s consolidation have committed. */
  function Committed(tb: Tables, userId: string, now: int, steps: nat): Tables {
    if steps == 0 then tb
    else if steps == 1 then Tables(Decay(tb.prefs, userId, now), Decay(tb.facts, userId, now), Decay(tb.rels, userId, now), tb.tasks)
    else if steps == 2 then
      Tables(ConsolidatedRows(tb.prefs, userId, now), ConsolidatedRows(tb.facts, userId, now), ConsolidatedRows(tb.rels, userId, now), tb.tasks)
    else if steps == 3 then
      Tables(ConsolidatedRows(tb.prefs, userId, now), ConsolidatedRows(tb.facts, userId, now), ConsolidatedRows(tb.rels, userId, now),
             MarkStale(tb.tasks, userId, now))
    else
      Tables(ConsolidatedPrefs(tb.prefs, userId, now), ConsolidatedRows(tb.facts, userId, now), ConsolidatedRows(tb.rels, userId, now),
             MarkStale(tb.tasks, userId, now))
  }

  lemma CommittedAll(tb: Tables, userId: string, now: int, steps: nat)
    requires steps >= Steps
    ensures Committed(tb, userId, now, steps) == Tables(ConsolidatedPrefs(tb.prefs, userId, now),
      ConsolidatedRows(tb.facts, userId, now), ConsolidatedRows(tb.rels, userId, now), MarkStale(tb.tasks, userId, now))
  {
  }

  /** What one user's consolidation does to the tables, given how many of its steps committed;
      `Committed` in the model, a parameter in the lemmas that do not depend on it. */
  type Step = (Tables, string, int, nat) -> Tables

  /** The tables after every user of `userIds`, in order, has had its committed steps. */
  function AllTables(tb: Tables, userIds: seq<string>, reached: string -> nat, now: int, step: Step): Tables {
    if userIds == [] then tb
    else
      var u := userIds[|userIds| - 1];
      step(AllTables(tb, userIds[..|userIds| - 1], reached, now, step), u, now, reached(u))
  }

  /** The decay counters of the processed users, each taken on the tables as that user found them. */
  function DecayedTotal(tb: Tables, userIds: seq<string>, reached: string -> nat, now: int, step: Step): nat {
    if userIds == [] then 0
    else
      var u := userIds[|userIds| - 1];
      var at := AllTables(tb, userIds[..|userIds| - 1], reached, now, step);
      DecayedTotal(tb, userIds[..|userIds| - 1], reached, now, step) +
      (if reached(u) < Steps then 0 else DecayCount(at.prefs, u, now) + DecayCount(at.facts, u, now) + DecayCount(at.rels, u, now))
  }

  /** The stale-task counters of the processed users, each taken on the tasks as that user found them. */
  function StaleTotal(tb: Tables, userIds: seq<string>, reached: string -> nat, now: int, step: Step): nat {
    if userIds == [] then 0
    else
      var u := userIds[|userIds| - 1];
      var at := AllTables(tb, userIds[..|userIds| - 1], reached, now, step);
      StaleTotal(tb, userIds[..|userIds| - 1], reached, now, step) + (if reached(u) < Steps then 0 else StaleCount(at.tasks, u, now))
  }

  /** Committed steps of one user keep primary keys unique and leave every other user's count
      of low rows as it was. */
  lemma CommittedOthers(tb: Tables, userId: string, now: int, steps: nat, other: string)
    requires UniqueIds(tb.prefs) && UniqueIds(tb.facts) && UniqueIds(tb.rels)
    requires other != userId
    ensures var c := Committed(tb, userId, now, steps);
      && LowCount(c.prefs, other) == LowCount(tb.prefs, other)
      && LowCount(c.facts, other) == LowCount(tb.facts, other)
      && LowCount(c.rels, other) == LowCount(tb.rels, other)
  {
    if steps == 1 {
      DecayKeepsLow(tb.prefs, userId, now, other);
      DecayKeepsLow(tb.facts, userId, now, other);
      DecayKeepsLow(tb.rels, userId, now, other);
    } else if steps == 2 || steps == 3 {
      ConsolidateOthers(tb.prefs, userId, now, other, false);
      ConsolidateOthers(tb.facts, userId, now, other, false);
      ConsolidateOthers(tb.rels, userId, now, other, false);
    } else if steps >= 4 {
      ConsolidateOthers(tb.prefs, userId, now, other, true);
      ConsolidateOthers(tb.facts, userId, now, other, false);
      ConsolidateOthers(tb.rels, userId, now, other, false);
    }
  }

  /** The number of users whose consolidation did not raise. */
  function Processed(userIds: seq<string>, reached: string -> nat): nat {
    if userIds == [] then 0
    else Processed(userIds[..|userIds| - 1], reached) + (if reached(userIds[|userIds| - 1]) < Steps then 0 else 1)
  }

  /** The low-confidence rows, in all three tables, of the users whose consolidation did not raise. */
  function RemovedTotal(prefs: seq<Memory>, facts: seq<Memory>, rels: seq<Memory>, userIds: seq<string>, reached: string -> nat): nat {
    if userIds == [] then 0
    else
      var u := userIds[|userIds| - 1];
      RemovedTotal(prefs, facts, rels, userIds[..|userIds| - 1], reached) +
      (if reached(u) < Steps then 0 else LowCount(prefs, u) + LowCount(facts, u) + LowCount(rels, u))
  }
}
