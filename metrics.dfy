/** `MetricsCollector` and `MetricsMiddleware` of backend/app/middleware/metrics.py. Durations are
    whole milliseconds, the uptime is a parameter and the ratios are exact reals. */
module Metrics {
  import opened Wrappers
  import Seqs
  import Sorting

  /** How many of the most recent durations are kept for the percentiles. */
  const MaxDurations: nat := 1000
  const TopPathLimit: nat := 10
  /** Statuses from here on count as errors. */
  const ErrorStatus := 400
  /** The status recorded when the application raises. */
  const ExceptionStatus := 500
  /** The endpoint the middleware does not measure. */
  const MetricsPath := "/metrics"

  /** A `defaultdict(int)`: its entries in first-insertion order. */
  type Counter<K> = seq<(K, nat)>

  function Keys<K>(c: Counter<K>): (r: seq<K>)
    ensures |r| == |c|
  {
    if c == [] then [] else [c[0].0] + Keys(c[1..])
  }

  /** `counter[k]`: zero for a key never bumped. */
  function Count<K(==)>(c: Counter<K>, k: K): (n: nat)
    ensures k !in Keys(c) ==> n == 0
  {
    if c == [] then 0 else if c[0].0 == k then c[0].1 else Count(c[1..], k)
  }

  /** `sum(counter.values())` */
  function Sum<K>(c: Counter<K>): nat {
    if c == [] then 0 else c[0].1 + Sum(c[1..])
  }

  /** `counter[k] += 1` */
  function Bump<K(==)>(c: Counter<K>, k: K): Counter<K> {
    if c == [] then [(k, 1)]
    else if c[0].0 == k then [(k, c[0].1 + 1)] + c[1..]
    else [c[0]] + Bump(c[1..], k)
  }

  /** Bumping adds one to that key's count and leaves every other count. */
  lemma {:induction false} BumpCount<K(!new)>(c: Counter<K>, k: K, j: K)
    ensures Count(Bump(c, k), j) == Count(c, j) + (if j == k then 1 else 0)
  {
    if c != [] && c[0].0 != k {
      BumpCount(c[1..], k, j);
      assert Bump(c, k)[1..] == Bump(c[1..], k);
    }
  }

  /** Bumping adds one to the total. */
  lemma {:induction false} BumpSum<K>(c: Counter<K>, k: K)
    ensures Sum(Bump(c, k)) == Sum(c) + 1
  {
    if c != [] && c[0].0 != k {
      BumpSum(c[1..], k);
      assert Bump(c, k)[1..] == Bump(c[1..], k);
    } else if c != [] {
      assert Bump(c, k)[1..] == c[1..];
    }
  }

  /** A new key joins at the end; the order of the others stays. */
  lemma {:induction false} BumpKeys<K>(c: Counter<K>, k: K)
    ensures Keys(Bump(c, k)) == if k in Keys(c) then Keys(c) else Keys(c) + [k]
  {
    var r := Bump(c, k);
    if c == [] {
    } else if c[0].0 == k {
      assert r[1..] == c[1..];
    } else {
      BumpKeys(c[1..], k);
      assert r[1..] == Bump(c[1..], k);
      assert Keys(c) == [c[0].0] + Keys(c[1..]);
      assert Keys(r) == [c[0].0] + Keys(r[1..]);
    }
  }

  /** A bumped counter still has each key once. */
  lemma BumpDistinct<K(!new)>(c: Counter<K>, k: K)
    requires Seqs.Distinct(Keys(c))
    ensures Seqs.Distinct(Keys(Bump(c, k)))
  {
    BumpKeys(c, k);
    if k !in Keys(c) {
      var ks := Keys(c) + [k];
      forall i, j | 0 <= i < j < |ks| ensures ks[i] != ks[j] {
        if j == |ks| - 1 {
          assert ks[i] == Keys(c)[i];
        }
      }
    }
  }

  /** One `record_request` call. */
  datatype Request = Request(httpMethod: string, path: string, status: int, durationMs: int)

  function Durations(log: seq<Request>): (ds: seq<int>)
    ensures |ds| == |log|
  {
    if log == [] then [] else Durations(log[..|log| - 1]) + [log[|log| - 1].durationMs]
  }

  /** The number of requests answered with an error status. */
  function Errors(log: seq<Request>): (n: nat)
    ensures n <= |log|
  {
    if log == [] then 0
    else Errors(log[..|log| - 1]) + (if log[|log| - 1].status >= ErrorStatus then 1 else 0)
  }

  function TotalMs(log: seq<Request>): int {
    if log == [] then 0 else TotalMs(log[..|log| - 1]) + log[|log| - 1].durationMs
  }

  /** The log functions on one more request. */
  lemma LogSnoc(log: seq<Request>, req: Request)
    ensures Durations(log + [req]) == Durations(log) + [req.durationMs]
    ensures Errors(log + [req]) == Errors(log) + (if req.status >= ErrorStatus then 1 else 0)
    ensures TotalMs(log + [req]) == TotalMs(log) + req.durationMs
  {
    var l := log + [req];
    assert l[..|l| - 1] == log;
  }

  /** The last `MaxDurations` entries of `ds`, or all of them when there are fewer. */
  function Recent(ds: seq<int>): (r: seq<int>)
    ensures |r| <= MaxDurations
    ensures |r| == if |ds| <= MaxDurations then |ds| else MaxDurations
    ensures r == ds[|ds| - |r|..]
  {
    if |ds| <= MaxDurations then ds else ds[|ds| - MaxDurations..]
  }

  /** The trimming `record_request` does after appending: `ds[-1000:]` once the list is too long. */
  function Trim(ds: seq<int>): seq<int> {
    if |ds| > MaxDurations then ds[|ds| - MaxDurations..] else ds
  }

  /** Appending and trimming the recent window gives the window of the longer history: the
      list kept is always the 1000 most recent durations. */
  lemma RecentSnoc(ds: seq<int>, d: int)
    ensures Trim(Recent(ds) + [d]) == Recent(ds + [d])
  {
    var w := Recent(ds) + [d];
    var h := ds + [d];
    if |ds| >= MaxDurations {
      assert Trim(w) == w[1..];
      assert Recent(h) == h[|h| - MaxDurations..];
      forall i | 0 <= i < MaxDurations ensures w[1..][i] == h[|h| - MaxDurations..][i] {
        if i < MaxDurations - 1 {
          assert w[1..][i] == ds[|ds| - MaxDurations + 1 + i];
        }
      }
    } else {
      assert Recent(ds) == ds;
    }
  }

  /** No duration is ever dropped before there are more than 1000 of them. */
  lemma RecentShort(ds: seq<int>)
    requires |ds| <= MaxDurations
    ensures Recent(ds) == ds
  {
  }

  /** Durations in ascending order. */
  predicate Ascending(s: seq<int>) {
    forall i, j :: 0 <= i < j < |s| ==> s[i] <= s[j]
  }

  function NegKey(d: int): (int, int) {
    (-d, 0)
  }

  /** `sorted(ds)`: a descending sort on the negated value. */
  function SortAsc(ds: seq<int>): (s: seq<int>)
    ensures multiset(s) == multiset(ds)
    ensures |s| == |ds|
  {
    Sorting.SortDesc(ds, NegKey)
  }

  lemma SortAscSorted(ds: seq<int>)
    ensures Ascending(SortAsc(ds))
  {
    var s := SortAsc(ds);
    Sorting.SortDescSorted(ds, NegKey);
    forall i, j | 0 <= i < j < |s| ensures s[i] <= s[j] {
      assert Sorting.KeyGe(NegKey(s[i]), NegKey(s[j]));
    }
  }

  /** The position `_percentile` reads: `min(int(n * p / 100), n - 1)`. */
  function PercentileIndex(n: nat, p: nat): (k: nat)
    requires n > 0
    ensures k < n
  {
    if n * p / 100 < n - 1 then n * p / 100 else n - 1
  }

  lemma PercentileIndexMonotone(n: nat, p: nat, q: nat)
    requires n > 0 && p <= q
    ensures PercentileIndex(n, p) <= PercentileIndex(n, q)
  {
    assert n * p <= n * q by {
      assert n * q == n * p + n * (q - p);
    }
  }

  /** `_percentile(sorted_data, p)`: 0 for no data, otherwise one of the data. */
  function Percentile(sorted: seq<int>, p: nat): (r: int)
    ensures sorted == [] ==> r == 0
    ensures sorted != [] ==> r in sorted
  {
    if sorted == [] then 0 else sorted[PercentileIndex(|sorted|, p)]
  }

  /** On sorted data a higher percentile is never smaller, and each lies between the extremes. */
  lemma PercentileMonotone(sorted: seq<int>, p: nat, q: nat)
    requires Ascending(sorted) && sorted != [] && p <= q
    ensures sorted[0] <= Percentile(sorted, p) <= Percentile(sorted, q) <= sorted[|sorted| - 1]
  {
    PercentileIndexMonotone(|sorted|, p, q);
  }

  /** The 50th, 95th and 99th percentiles. */
  datatype Percentiles = Percentiles(p50: int, p95: int, p99: int)

  /** The snapshot `get_metrics` returns. */
  datatype Snapshot = Snapshot(
    uptimeSeconds: real,
    totalRequests: nat,
    requestsPerSecond: real,
    errorCount: nat,
    errorRate: real,
    avgDurationMs: real,
    requestsByMethod: Counter<string>,
    requestsByStatus: Counter<int>,
    topPaths: seq<(string, nat)>,
    percentiles: Option<Percentiles>)

  /** `(x / y) if y > 0 else 0` */
  function Ratio(x: real, y: real): (r: real)
    ensures y <= 0.0 ==> r == 0.0
    ensures 0.0 <= x <= y ==> 0.0 <= r <= 1.0
  {
    if y > 0.0 then x / y else 0.0
  }

  function CountKey(e: (string, nat)): (int, int) {
    (e.1, 0)
  }

  /** `_get_top_paths(limit)`: the first `limit` paths after a stable sort by count, largest first. */
  function TopPaths(c: Counter<string>, limit: nat): (r: seq<(string, nat)>)
    ensures |r| <= limit && |r| <= |c|
    ensures multiset(r) <= multiset(c)
    ensures |c| <= limit ==> multiset(r) == multiset(c)
  {
    var s := Sorting.SortDesc(c, CountKey);
    var n := if limit < |s| then limit else |s|;
    assert s == s[..n] + s[n..];
    s[..n]
  }

  /** The result is by count, largest first. */
  lemma TopPathsOrdered(c: Counter<string>, limit: nat)
    ensures var r := TopPaths(c, limit);
      forall i, j :: 0 <= i < j < |r| ==> r[i].1 >= r[j].1
  {
    var s := Sorting.SortDesc(c, CountKey);
    Sorting.SortDescSorted(c, CountKey);
    var r := TopPaths(c, limit);
    forall i, j | 0 <= i < j < |r| ensures r[i].1 >= r[j].1 {
      assert r[i] == s[i] && r[j] == s[j];
      assert Sorting.KeyGe(CountKey(s[i]), CountKey(s[j]));
    }
  }

  /** In a descending sequence nothing after position `n` has a larger key than anything before. */
  lemma PrefixIsTop<T>(s: seq<T>, key: T -> (int, int), n: nat, x: T, y: T)
    requires Sorting.SortedDesc(s, key) && n <= |s|
    requires x in s[n..] && y in s[..n]
    ensures Sorting.KeyGe(key(y), key(x))
  {
    var k :| 0 <= k < |s[n..]| && s[n..][k] == x;
    var m :| 0 <= m < n && s[..n][m] == y;
    assert s[m] == y && s[n + k] == x;
  }

  /** No path left out was requested more often than a path that is in the result. */
  lemma TopPathsAreTop(c: Counter<string>, limit: nat, x: (string, nat), y: (string, nat))
    requires x in multiset(c) - multiset(TopPaths(c, limit)) && y in TopPaths(c, limit)
    ensures x.1 <= y.1
  {
    var s := Sorting.SortDesc(c, CountKey);
    Sorting.SortDescSorted(c, CountKey);
    var r := TopPaths(c, limit);
    var n := |r|;
    assert r == s[..n];
    assert s == r + s[n..];
    assert multiset(c) == multiset(r) + multiset(s[n..]);
    assert x in multiset(s[n..]);
    PrefixIsTop(s, CountKey, n, x, y);
  }

  /** The collector's invariant, on its field values. */
  ghost predicate Consistent(requestCount: Counter<string>, statusCount: Counter<int>, pathCount: Counter<string>,
                             errorCount: nat, totalDurationMs: int, requestDurations: seq<int>, log: seq<Request>)
  {
    Sum(requestCount) == |log| && Sum(statusCount) == |log| && Sum(pathCount) == |log|
    && errorCount == Errors(log)
    && totalDurationMs == TotalMs(log)
    && requestDurations == Recent(Durations(log))
  }

  /** `record_request` keeps the invariant. */
  lemma RecordKeeps(requestCount: Counter<string>, statusCount: Counter<int>, pathCount: Counter<string>,
                    errorCount: nat, totalDurationMs: int, requestDurations: seq<int>, log: seq<Request>, req: Request)
    requires Consistent(requestCount, statusCount, pathCount, errorCount, totalDurationMs, requestDurations, log)
    ensures Consistent(Bump(requestCount, req.httpMethod), Bump(statusCount, req.status), Bump(pathCount, req.path),
                       errorCount + (if req.status >= ErrorStatus then 1 else 0), totalDurationMs + req.durationMs,
                       Trim(requestDurations + [req.durationMs]), log + [req])
  {
    BumpSum(requestCount, req.httpMethod);
    BumpSum(statusCount, req.status);
    BumpSum(pathCount, req.path);
    RecentSnoc(Durations(log), req.durationMs);
    LogSnoc(log, req);
  }

  class MetricsCollector {
    var requestCount: Counter<string>
    var statusCount: Counter<int>
    var pathCount: Counter<string>
    var errorCount: nat
    var totalDurationMs: int
    var requestDurations: seq<int>
    /** Every request recorded since the last reset, oldest first. */
    ghost var log: seq<Request>

    /** Each counter adds up to the number of recordings, the error count and total are those
        of the log, and the durations kept are its most recent ones. */
    ghost predicate Valid()
      reads this
    {
      Consistent(requestCount, statusCount, pathCount, errorCount, totalDurationMs, requestDurations, log)
    }

    constructor()
      ensures Valid() && log == []
      ensures requestCount == [] && statusCount == [] && pathCount == []
      ensures errorCount == 0 && totalDurationMs == 0 && requestDurations == []
    {
      requestCount := [];
      statusCount := [];
      pathCount := [];
      errorCount := 0;
      totalDurationMs := 0;
      requestDurations := [];
      log := [];
    }

    /** `record_request` */
    method RecordRequest(httpMethod: string, path: string, status: int, durationMs: int)
      requires Valid()
      modifies this
      ensures Valid()
      ensures log == old(log) + [Request(httpMethod, path, status, durationMs)]
      ensures requestCount == Bump(old(requestCount), httpMethod)
      ensures statusCount == Bump(old(statusCount), status)
      ensures pathCount == Bump(old(pathCount), path)
      ensures errorCount == old(errorCount) + (if status >= ErrorStatus then 1 else 0)
      ensures totalDurationMs == old(totalDurationMs) + durationMs
      ensures requestDurations == Trim(old(requestDurations) + [durationMs])
    {
      var req := Request(httpMethod, path, status, durationMs);
      var errors := errorCount;
      if status >= ErrorStatus {
        errors := errors + 1;
      }
      var ds := requestDurations + [durationMs];
      if |ds| > MaxDurations {
        ds := ds[|ds| - MaxDurations..];
      }
      assert ds == Trim(requestDurations + [durationMs]);
      assert errors == errorCount + (if req.status >= ErrorStatus then 1 else 0);
      RecordKeeps(requestCount, statusCount, pathCount, errorCount, totalDurationMs, requestDurations, log, req);
      requestCount, statusCount, pathCount := Bump(requestCount, httpMethod), Bump(statusCount, status), Bump(pathCount, path);
      totalDurationMs, errorCount, requestDurations, log := totalDurationMs + durationMs, errors, ds, log + [req];
    }

    /** `get_metrics`, given the uptime. */
    method GetMetrics(uptimeSeconds: real) returns (m: Snapshot)
      requires Valid()
      ensures m.uptimeSeconds == uptimeSeconds
      ensures m.totalRequests == |log| && m.errorCount == Errors(log)
      ensures m.requestsPerSecond == Ratio(|log| as real, uptimeSeconds)
      ensures m.errorRate == Ratio(Errors(log) as real, |log| as real)
      ensures 0.0 <= m.errorRate <= 1.0
      ensures m.avgDurationMs == Ratio(TotalMs(log) as real, |log| as real)
      ensures m.requestsByMethod == requestCount && m.requestsByStatus == statusCount
      ensures m.topPaths == TopPaths(pathCount, TopPathLimit)
      ensures m.percentiles.Some? <==> log != []
      ensures m.percentiles.Some? ==>
        var p := m.percentiles.value;
        p.p50 <= p.p95 <= p.p99 &&
        p.p50 in requestDurations && p.p95 in requestDurations && p.p99 in requestDurations
    {
      var total := Sum(requestCount);
      var percentiles := None;
      if requestDurations != [] {
        var sorted := SortAsc(requestDurations);
        SortAscSorted(requestDurations);
        PercentileMonotone(sorted, 50, 95);
        PercentileMonotone(sorted, 95, 99);
        var p := Percentiles(Percentile(sorted, 50), Percentile(sorted, 95), Percentile(sorted, 99));
        assert p.p50 in multiset(sorted) && p.p95 in multiset(sorted) && p.p99 in multiset(sorted);
        percentiles := Some(p);
      }
      m := Snapshot(uptimeSeconds, total, Ratio(total as real, uptimeSeconds),
                    errorCount, Ratio(errorCount as real, total as real),
                    Ratio(totalDurationMs as real, total as real),
                    requestCount, statusCount, TopPaths(pathCount, TopPathLimit), percentiles);
    }

    /** `reset` */
    method Reset()
      modifies this
      ensures Valid() && log == []
      ensures requestCount == [] && statusCount == [] && pathCount == []
      ensures errorCount == 0 && totalDurationMs == 0 && requestDurations == []
    {
      requestCount := [];
      statusCount := [];
      pathCount := [];
      errorCount := 0;
      totalDurationMs := 0;
      requestDurations := [];
      log := [];
    }
  }

  /** `MetricsMiddleware.dispatch`: every request but the metrics endpoint's is recorded under its
      normalized path, with status 500 when the application raised (`status` is `None`). */
  method Dispatch(c: MetricsCollector, httpMethod: string, path: string, normalizedPath: string,
                  status: Option<int>, durationMs: int)
    requires c.Valid()
    modifies c
    ensures c.Valid()
    ensures path == MetricsPath ==> unchanged(c)
    ensures path != MetricsPath ==>
      var code := status.GetOr(ExceptionStatus);
      && c.log == old(c.log) + [Request(httpMethod, normalizedPath, code, durationMs)]
      && c.requestCount == Bump(old(c.requestCount), httpMethod)
      && c.statusCount == Bump(old(c.statusCount), code)
      && c.pathCount == Bump(old(c.pathCount), normalizedPath)
      && c.errorCount == old(c.errorCount) + (if code >= ErrorStatus then 1 else 0)
      && c.totalDurationMs == old(c.totalDurationMs) + durationMs
      && c.requestDurations == Trim(old(c.requestDurations) + [durationMs])
  {
    if path == MetricsPath {
      return;
    }
    c.RecordRequest(httpMethod, normalizedPath, status.GetOr(ExceptionStatus), durationMs);
  }
}
