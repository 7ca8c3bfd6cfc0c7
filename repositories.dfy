/** The data-access helpers of backend/app/infrastructure/database/repositories.py that carry
    logic of their own: recognising SQLite's "database is locked" error, the bounded write retry
    around it, and the two message queries that select by recency. A database call is a
    parameter `call` giving the outcome of each attempt; a session's messages are a sequence
    in creation order, the order `created_at` sorts them in. */
module Repositories {
  import opened Wrappers
  import Py
  import Seqs

  // ---------------------------------------------------------------------------
  // Lock errors and the write retry
  // ---------------------------------------------------------------------------

  /** `_is_sqlite_locked_error`, on the error's text. */
  predicate IsLockedMessage(msg: string) {
    var m := Py.Lower(msg);
    Py.Contains(m, "database is locked") || (Py.Contains(m, "sqlite") && Py.Contains(m, "locked"))
  }

  /** Either way of recognising the error needs the word "locked". */
  lemma {:induction false} LockedNeedsWord(msg: string)
    ensures IsLockedMessage(msg) ==> Py.Contains(Py.Lower(msg), "locked")
  {
    var m := Py.Lower(msg);
    if Py.Contains(m, "database is locked") {
      assert Py.OccursAt("database is locked", "locked", 12);
      Py.ContainsAt("database is locked", "locked", 12);
      Py.ContainsTrans(m, "database is locked", "locked");
    }
  }

  /** The plain message is recognised, and "locked" alone is not enough. */
  lemma LockedExamples()
    ensures IsLockedMessage("database is locked")
    ensures !IsLockedMessage("locked")
  {
    Py.LowerNoUpper("database is locked");
    Py.ContainsAt("database is locked", "database is locked", 0);
    Py.LowerNoUpper("locked");
    assert Py.Find("locked", "database is locked") == -1;
    assert "locked"[0..6][0] != "sqlite"[0];
    assert Py.FindFrom("locked", "sqlite", 1) == -1;
  }

  /** The outcome of one awaited attempt: a value, an `OperationalError` with its text, or any
      other exception. */
  datatype Attempt<T> = Done(value: T) | OperationalError(message: string) | OtherError(message: string)

  /** The failures the retry absorbs. */
  predicate IsLocked<T>(a: Attempt<T>) {
    a.OperationalError? && IsLockedMessage(a.message)
  }

  const FirstDelayMs: nat := 50
  const MaxDelayMs: nat := 800

  /** The sleep after the `j`-th lock failure: 50 ms doubled `j` times, capped at 800 ms. */
  function DelayMs(j: nat): (d: nat)
    ensures FirstDelayMs <= d <= MaxDelayMs
    ensures j == 0 ==> d == FirstDelayMs
  {
    if j == 0 then FirstDelayMs
    else var p := DelayMs(j - 1); if 2 * p < MaxDelayMs then 2 * p else MaxDelayMs
  }

  /** The delays reached: 50, 100, 200, 400 and then 800 for good. */
  lemma {:induction false} DelaySchedule(j: nat)
    ensures j < 4 ==> DelayMs(j) == (if j == 0 then 50 else if j == 1 then 100 else if j == 2 then 200 else 400)
    ensures j >= 4 ==> DelayMs(j) == 800
  {
    if j > 0 {
      DelaySchedule(j - 1);
    }
  }

  /** The sleeps of the first `n` lock failures. */
  function Delays(n: nat): (ds: seq<nat>)
    ensures |ds| == n
    ensures forall j :: 0 <= j < n ==> ds[j] == DelayMs(j)
  {
    if n == 0 then [] else Delays(n - 1) + [DelayMs(n - 1)]
  }

  /** The retry from attempt number `attempt` on, absorbing the failures `retryable` accepts:
      the result, the number of attempts made in all, and the sleeps taken from there. */
  function Retry<T>(call: nat -> Attempt<T>, retryable: Attempt<T> -> bool, retries: nat, attempt: nat)
    : (Result<T, Attempt<T>>, nat, seq<nat>)
    requires attempt <= retries
    decreases retries - attempt
  {
    var outcome := call(attempt);
    if outcome.Done? then (Ok(outcome.value), attempt + 1, [])
    else if !retryable(outcome) then (Err(outcome), attempt + 1, [])
    else if attempt == retries then (Err(outcome), attempt + 1, [DelayMs(attempt)])
    else
      var rest := Retry(call, retryable, retries, attempt + 1);
      (rest.0, rest.1, [DelayMs(attempt)] + rest.2)
  }

  /** What the retry promises from attempt `a` on: every attempt before the last was a retryable
      failure, a success is returned and any other error re-raised, a retryable failure is
      raised only once the retries are used up, and each retryable failure was followed by its
      sleep. */
  lemma {:induction false} RetryFrom<T>(call: nat -> Attempt<T>, retryable: Attempt<T> -> bool, retries: nat, a: nat)
    requires a <= retries
    ensures var res := Retry(call, retryable, retries, a); var n := res.1;
      && a + 1 <= n <= retries + 1
      && (forall j :: a <= j < n - 1 ==> retryable(call(j)))
      && (res.0.Ok? <==> call(n - 1).Done?)
      && (res.0.Ok? ==> res.0.value == call(n - 1).value)
      && (res.0.Err? ==> res.0.error == call(n - 1))
      && (res.0.Err? && retryable(call(n - 1)) ==> n == retries + 1)
      && Delays(a) + res.2 == Delays(if res.0.Err? && retryable(call(n - 1)) then n else n - 1)
    decreases retries - a
  {
    var outcome := call(a);
    if outcome.Done? || !retryable(outcome) {
      assert Delays(a) + [] == Delays(a);
    } else if a == retries {
      assert Delays(a + 1) == Delays(a) + [DelayMs(a)];
    } else {
      var rest := Retry(call, retryable, retries, a + 1);
      RetryFrom(call, retryable, retries, a + 1);
      assert Retry(call, retryable, retries, a) == (rest.0, rest.1, [DelayMs(a)] + rest.2);
      DelaysCons(a, rest.2);
      forall j | a <= j < rest.1 - 1 ensures retryable(call(j)) {
        if j == a {
          assert call(j) == outcome;
        }
      }
    }
  }

  /** The sleep of failure `a` in front of the later ones extends the sleeps before it. */
  lemma DelaysCons(a: nat, later: seq<nat>)
    ensures Delays(a) + ([DelayMs(a)] + later) == Delays(a + 1) + later
  {
    assert Delays(a + 1) == Delays(a) + [DelayMs(a)];
    Seqs.AppendAssoc(Delays(a), [DelayMs(a)], later);
  }

  /** The loop of `_run_with_sqlite_write_retry`, for any test of which failures to retry. */
  method RetryLoop<T>(call: nat -> Attempt<T>, retryable: Attempt<T> -> bool, retries: nat)
    returns (r: Result<T, Attempt<T>>, attempts: nat, sleeps: seq<nat>)
    ensures (r, attempts, sleeps) == Retry(call, retryable, retries, 0)
  {
    var delay := FirstDelayMs;
    sleeps := [];
    var attempt: nat := 0;
    assert sleeps + Retry(call, retryable, retries, 0).2 == Retry(call, retryable, retries, 0).2;
    while true
      invariant attempt <= retries
      invariant delay == DelayMs(attempt)
      invariant var rest := Retry(call, retryable, retries, attempt);
        Retry(call, retryable, retries, 0) == (rest.0, rest.1, sleeps + rest.2)
      decreases retries - attempt
    {
      var outcome := call(attempt);
      if outcome.Done? || !retryable(outcome) {
        assert sleeps + [] == sleeps;
        return if outcome.Done? then Ok(outcome.value) else Err(outcome), attempt + 1, sleeps;
      }
      if attempt == retries {
        return Err(outcome), attempt + 1, sleeps + [delay];
      }
      Seqs.AppendAssoc(sleeps, [delay], Retry(call, retryable, retries, attempt + 1).2);
      sleeps := sleeps + [delay];
      delay := if 2 * delay < MaxDelayMs then 2 * delay else MaxDelayMs;
      attempt := attempt + 1;
    }
  }

  /** `_run_with_sqlite_write_retry`: at most `retries + 1` attempts. A success is returned at
      once, an error that is not a lock error is re-raised at once, and every lock failure,
      the last one included, is followed by a sleep before the next attempt or the final raise
      of that last failure. `sleeps` lists the sleeps in milliseconds. */
  method RunWithWriteRetry<T>(call: nat -> Attempt<T>, retries: nat)
    returns (r: Result<T, Attempt<T>>, attempts: nat, sleeps: seq<nat>)
    ensures (r, attempts, sleeps) == Retry(call, IsLocked, retries, 0)
  {
    r, attempts, sleeps := RetryLoop(call, IsLocked, retries);
  }

  /** The retry as a whole (for the write retry, `retryable` is `IsLocked`): at most
      `retries + 1` attempts, all but the last retryable failures; the last one's success is
      returned and its error raised; a retryable error is raised only after the last retry;
      the sleeps are the schedule's first delays, one per retryable failure. */
  lemma RetryOutcome<T>(call: nat -> Attempt<T>, retryable: Attempt<T> -> bool, retries: nat)
    ensures var res := Retry(call, retryable, retries, 0); var n := res.1;
      && 1 <= n <= retries + 1
      && (forall j :: 0 <= j < n - 1 ==> retryable(call(j)))
      && (res.0.Ok? <==> call(n - 1).Done?)
      && (res.0.Ok? ==> res.0.value == call(n - 1).value)
      && (res.0.Err? ==> res.0.error == call(n - 1))
      && (res.0.Err? && retryable(call(n - 1)) ==> n == retries + 1)
      && res.2 == Delays(if res.0.Err? && retryable(call(n - 1)) then n else n - 1)
  {
    RetryFrom(call, retryable, retries, 0);
  }

  // ---------------------------------------------------------------------------
  // Message queries
  // ---------------------------------------------------------------------------

  datatype MessageRow = MessageRow(id: string, role: string, content: string)

  /** SQLite's `LIMIT n`: a negative limit means no limit. */
  function Limit<T>(xs: seq<T>, n: int): (r: seq<T>)
    ensures |r| == (if n < 0 || n > |xs| then |xs| else n)
    ensures r == xs[..|r|]
  {
    if n < 0 || n > |xs| then xs else xs[..n]
  }

  /** `get_recent_messages`: newest first with the limit, then reversed. The result is the last
      `count` messages, oldest first (all of them for a negative count). */
  function RecentMessages(chronological: seq<MessageRow>, count: int): (r: seq<MessageRow>)
    ensures var k := if count < 0 || count > |chronological| then |chronological| else count;
      r == chronological[|chronological| - k..]
  {
    var k := if count < 0 || count > |chronological| then |chronological| else count;
    Seqs.ReverseTakeReverse(chronological, k);
    Seqs.Reverse(Limit(Seqs.Reverse(chronological), count))
  }

  function Ids(ms: seq<MessageRow>): set<string> {
    set m | m in ms :: m.id
  }

  /** The session's messages whose id is not kept. */
  function NotKept(ms: seq<MessageRow>, keep: set<string>): (r: seq<MessageRow>)
    ensures |r| <= |ms|
  {
    if ms == [] then []
    else (if ms[0].id in keep then [] else [ms[0]]) + NotKept(ms[1..], keep)
  }

  function Kept(ms: seq<MessageRow>, keep: set<string>): (r: seq<MessageRow>)
    ensures |r| <= |ms|
    ensures forall m :: m in r ==> m in ms && m.id in keep
  {
    if ms == [] then []
    else (if ms[0].id in keep then [ms[0]] else []) + Kept(ms[1..], keep)
  }

  /** `delete_old_messages`: the messages left and the number deleted. The ids to keep are
      those of the newest `keep_last`; when there are none (an empty session, or `keep_last`
      of 0) nothing is deleted and 0 is returned. */
  function DeleteOldMessages(chronological: seq<MessageRow>, keepLast: int): (r: (seq<MessageRow>, nat))
    ensures |r.0| + r.1 == |chronological|
    ensures forall m :: m in r.0 ==> m in chronological
    ensures keepLast == 0 ==> r == (chronological, 0)
  {
    var keep := NewestIds(chronological, keepLast);
    KeptSplit(chronological, keep);
    if keep == {} then (chronological, 0)
    else (Kept(chronological, keep), |NotKept(chronological, keep)|)
  }

  /** The ids of the newest `keep_last` messages. */
  function NewestIds(chronological: seq<MessageRow>, keepLast: int): set<string> {
    Ids(Limit(Seqs.Reverse(chronological), keepLast))
  }

  predicate DistinctIds(ms: seq<MessageRow>) {
    forall i, j :: 0 <= i < j < |ms| ==> ms[i].id != ms[j].id
  }

  lemma {:induction false} KeptSplit(ms: seq<MessageRow>, keep: set<string>)
    ensures |Kept(ms, keep)| + |NotKept(ms, keep)| == |ms|
  {
    if ms != [] {
      KeptSplit(ms[1..], keep);
    }
  }

  /** When the kept ids are exactly those from position `i` on, the kept rows are `ms[i..]`. */
  lemma {:induction false} KeptFrom(ms: seq<MessageRow>, i: nat, keep: set<string>)
    requires i <= |ms|
    requires forall j :: 0 <= j < i ==> ms[j].id !in keep
    requires forall j :: i <= j < |ms| ==> ms[j].id in keep
    ensures Kept(ms, keep) == ms[i..]
    decreases |ms|
  {
    if ms != [] {
      var tail := ms[1..];
      if i == 0 {
        assert ms[0].id in keep;
        KeptFrom(tail, 0, keep);
        assert ms == [ms[0]] + tail;
      } else {
        assert ms[0].id !in keep;
        KeptFrom(tail, i - 1, keep);
        assert tail[i - 1..] == ms[i..];
      }
    }
  }

  /** With distinct ids, the rows before a suffix carry none of the suffix's ids. */
  lemma SuffixIds(ms: seq<MessageRow>, i: nat)
    requires DistinctIds(ms) && i <= |ms|
    ensures forall j :: 0 <= j < i ==> ms[j].id !in Ids(ms[i..])
    ensures forall j :: i <= j < |ms| ==> ms[j].id in Ids(ms[i..])
  {
    forall j | 0 <= j < i ensures ms[j].id !in Ids(ms[i..]) {
      forall m | m in ms[i..] ensures m.id != ms[j].id {
        var t :| 0 <= t < |ms[i..]| && ms[i..][t] == m;
        assert ms[i + t] == m;
      }
    }
    forall j | i <= j < |ms| ensures ms[j].id in Ids(ms[i..]) {
      assert ms[i..][j - i] == ms[j];
    }
  }

  /** With distinct ids, keeping the ids of a suffix keeps exactly that suffix. */
  lemma KeptSuffix(ms: seq<MessageRow>, i: nat)
    requires DistinctIds(ms) && i <= |ms|
    ensures Kept(ms, Ids(ms[i..])) == ms[i..]
  {
    SuffixIds(ms, i);
    KeptFrom(ms, i, Ids(ms[i..]));
  }

  lemma IdsReverse(s: seq<MessageRow>)
    ensures Ids(Seqs.Reverse(s)) == Ids(s)
  {
    var r := Seqs.Reverse(s);
    forall m | m in r ensures m in s {
      var i :| 0 <= i < |r| && r[i] == m;
    }
    forall m | m in s ensures m in r {
      var i :| 0 <= i < |s| && s[i] == m;
      assert r[|s| - 1 - i] == m;
    }
  }

  /** With distinct ids and `keep_last >= 1`, exactly the newest `keep_last` messages survive,
      in their order, and the rest are counted as deleted. */
  lemma {:induction false} DeleteOldKeepsNewest(ms: seq<MessageRow>, keepLast: nat)
    requires DistinctIds(ms) && ms != [] && keepLast >= 1
    ensures var k := if keepLast > |ms| then |ms| else keepLast;
      DeleteOldMessages(ms, keepLast) == (ms[|ms| - k..], |ms| - k)
  {
    var k := if keepLast > |ms| then |ms| else keepLast;
    var i := |ms| - k;
    assert NewestIds(ms, keepLast) == Ids(ms[i..]) != {} by {
      NewestIdsSuffix(ms, keepLast, k);
    }
    assert Kept(ms, Ids(ms[i..])) == ms[i..] by {
      KeptSuffix(ms, i);
    }
    DeleteOldWhenKept(ms, keepLast, i);
  }

  /** When the kept ids are those of `ms[i..]`, `ms[i..]` is what is left. */
  lemma DeleteOldWhenKept(ms: seq<MessageRow>, keepLast: int, i: nat)
    requires i <= |ms|
    requires NewestIds(ms, keepLast) == Ids(ms[i..]) != {}
    requires Kept(ms, Ids(ms[i..])) == ms[i..]
    ensures DeleteOldMessages(ms, keepLast) == (ms[i..], i)
  {
    KeptSplit(ms, Ids(ms[i..]));
  }

  /** The newest `k` ids are the ids of the last `k` messages. */
  lemma NewestIdsSuffix(ms: seq<MessageRow>, keepLast: nat, k: nat)
    requires ms != [] && keepLast >= 1 && k == (if keepLast > |ms| then |ms| else keepLast)
    ensures NewestIds(ms, keepLast) == Ids(ms[|ms| - k..]) != {}
  {
    var newest := Limit(Seqs.Reverse(ms), keepLast);
    var suffix := ms[|ms| - k..];
    assert newest == Seqs.Reverse(ms)[..k];
    Seqs.ReverseTakeReverse(ms, k);
    assert Seqs.Reverse(newest) == suffix;
    IdsReverse(newest);
    assert newest[0] in newest;
    assert newest[0].id in Ids(newest);
  }

  /** `keep_last` of 0 keeps no id, so nothing is deleted. */
  lemma KeepNoneDeletesNothing(ms: seq<MessageRow>)
    ensures DeleteOldMessages(ms, 0) == (ms, 0)
  {
    assert Limit(Seqs.Reverse(ms), 0) == [];
    assert NewestIds(ms, 0) == {};
  }

  /** A session without messages loses nothing and reports 0, whatever `keep_last` is. */
  lemma EmptySessionDeletesNothing(keepLast: int)
    ensures DeleteOldMessages([], keepLast) == ([], 0)
  {
    var none: seq<MessageRow> := [];
    assert Limit(Seqs.Reverse(none), keepLast) == [];
  }
}
