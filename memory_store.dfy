/** The agent's memory stores (backend/app/core/memory/store.py): the keyword score, the
    short-term conversation window with idle expiry, and the ranking step of episodic recall.
    The wall clock is an integer parameter `now` (seconds); the SQLite query of `recall` is
    represented by the rows it returns. */
module MemoryStore {
  import opened Wrappers
  import Py
  import Sorting

  // ---------------------------------------------------------------------------
  // Keyword score
  // ---------------------------------------------------------------------------

  /** The total number of non-overlapping occurrences of the terms in `hay`. */
  function TermsScore(terms: seq<string>, hay: string): nat {
    if terms == [] then 0 else Py.Count(hay, terms[0]) + TermsScore(terms[1..], hay)
  }

  /** `_score_text`: 0 for an empty query or text; otherwise, over the whitespace-separated
      terms of the lowercased query, the sum of their counts in the lowercased text. */
  function ScoreText(query: string, text: string): (r: nat)
    ensures r > 0 <==> ScoreTerms(query, text)
    ensures Py.AllSpace(query) ==> r == 0
  {
    ScoreTermsFacts(query, text);
    if query == [] || text == [] then 0
    else TermsScore(Py.SplitWs(Py.Lower(query)), Py.Lower(text))
  }

  /** The score is positive exactly when some (non-empty) term occurs in `hay`. */
  lemma {:induction false} TermsScorePositive(terms: seq<string>, hay: string)
    requires forall k :: 0 <= k < |terms| ==> terms[k] != []
    ensures TermsScore(terms, hay) > 0 <==> exists k :: 0 <= k < |terms| && Py.Contains(hay, terms[k])
  {
    if terms != [] {
      Py.CountZero(hay, terms[0]);
      TermsScorePositive(terms[1..], hay);
      if exists k :: 0 <= k < |terms| && Py.Contains(hay, terms[k]) {
        var k :| 0 <= k < |terms| && Py.Contains(hay, terms[k]);
        if k > 0 {
          assert terms[1..][k - 1] == terms[k];
        }
      }
      if exists k :: 0 <= k < |terms[1..]| && Py.Contains(hay, terms[1..][k]) {
        var k :| 0 <= k < |terms[1..]| && Py.Contains(hay, terms[1..][k]);
        assert terms[k + 1] == terms[1..][k];
      }
    }
  }

  /** Some term of the lowercased query occurs in the lowercased text. */
  predicate ScoreTerms(query: string, text: string) {
    var terms := Py.SplitWs(Py.Lower(query));
    text != [] && exists k :: 0 <= k < |terms| && Py.Contains(Py.Lower(text), terms[k])
  }

  /** The summed count over the query's terms is positive iff one of them occurs in the
      lowercased text; a blank query has no terms. */
  lemma ScoreTermsFacts(query: string, text: string)
    ensures query != [] && text != [] ==>
      (TermsScore(Py.SplitWs(Py.Lower(query)), Py.Lower(text)) > 0 <==> ScoreTerms(query, text))
    ensures query == [] ==> !ScoreTerms(query, text)
    ensures Py.AllSpace(query) ==> Py.SplitWs(Py.Lower(query)) == []
  {
    var terms := Py.SplitWs(Py.Lower(query));
    if query != [] && text != [] {
      TermsScorePositive(terms, Py.Lower(text));
    } else if query == [] {
      assert Py.Lower(query) == [];
    }
    if Py.AllSpace(query) {
      assert Py.AllSpace(Py.Lower(query)) by {
        forall i | 0 <= i < |query| ensures Py.IsSpace(Py.Lower(query)[i]) {
          assert Py.Lower(query)[i] == Py.LowerChar(query[i]);
        }
      }
      Py.SplitWsEmpty(Py.Lower(query));
    }
  }

  // ---------------------------------------------------------------------------
  // Short-term memory
  // ---------------------------------------------------------------------------

  /** The sessions idle for more than `ttl` seconds at time `now`. */
  function Expired(updatedAt: map<string, int>, now: int, ttl: int): set<string> {
    set sid | sid in updatedAt && now - updatedAt[sid] > ttl
  }

  /** The bounded window that `add_message` keeps: `messages[-window_size:]` once the list is
      longer than `window_size`. */
  function Window<T>(messages: seq<T>, windowSize: int): seq<T> {
    if |messages| > windowSize then Py.Drop(messages, -windowSize) else messages
  }

  /** With a window of at least one, the kept messages are the most recent ones, at most
      `windowSize` of them and never fewer than `min(windowSize, |messages|)`. A window of 0
      keeps everything, because `-0 == 0` makes the slice the whole list. */
  lemma WindowFacts<T>(messages: seq<T>, windowSize: int)
    ensures Window(messages, windowSize) == messages[|messages| - |Window(messages, windowSize)|..]
    ensures windowSize >= 1 ==> |Window(messages, windowSize)| == (if |messages| > windowSize then windowSize else |messages|)
    ensures windowSize == 0 ==> Window(messages, windowSize) == messages
  {
    if windowSize >= 0 {
      Py.DropNegative(messages, windowSize);
    }
  }

  /** A conversation message as the agent records it: `{"role": ..., "content": ...}`. */
  datatype Message = Message(role: string, content: string)

  /** `ShortTermMemory`: each session's recent messages and the time it was last written. */
  class ShortTermMemory {
    const windowSize: int
    const ttl: int
    var store: map<string, seq<Message>>
    var updatedAt: map<string, int>

    /** Every session with messages has a timestamp and vice versa. */
    ghost predicate Valid()
      reads this
    {
      store.Keys == updatedAt.Keys
    }

    constructor(windowSize: int, ttl: int)
      ensures Valid()
      ensures this.windowSize == windowSize && this.ttl == ttl && store == map[] && updatedAt == map[]
    {
      this.windowSize := windowSize;
      this.ttl := ttl;
      store := map[];
      updatedAt := map[];
    }

    /** `_prune`: forgets every session idle for more than `ttl`, in both maps. */
    method Prune(now: int)
      modifies this
      ensures store == old(store) - Expired(old(updatedAt), now, ttl)
      ensures updatedAt == old(updatedAt) - Expired(old(updatedAt), now, ttl)
      ensures old(Valid()) ==> Valid()
    {
      var expired := Expired(updatedAt, now, ttl);
      ghost var all := expired;
      while expired != {}
        invariant expired <= all
        invariant store == old(store) - (all - expired)
        invariant updatedAt == old(updatedAt) - (all - expired)
        decreases |expired|
      {
        var sid :| sid in expired;
        store := store - {sid};
        updatedAt := updatedAt - {sid};
        assert all - (expired - {sid}) == (all - expired) + {sid};
        expired := expired - {sid};
      }
    }

    /** `add_message`: prunes, appends to the session and keeps only the last `window_size`
        messages, then stamps the session with `now`. */
    method AddMessage(sessionId: string, message: Message, now: int)
      modifies this
      ensures var pruned := old(store) - Expired(old(updatedAt), now, ttl);
        var previous := if sessionId in pruned then pruned[sessionId] else [];
        store == pruned[sessionId := Window(previous + [message], windowSize)]
      ensures updatedAt == (old(updatedAt) - Expired(old(updatedAt), now, ttl))[sessionId := now]
      ensures old(Valid()) ==> Valid()
    {
      Prune(now);
      var messages := if sessionId in store then store[sessionId] else [];
      messages := messages + [message];
      if |messages| > windowSize {
        messages := Py.Drop(messages, -windowSize);
      }
      store := store[sessionId := messages];
      updatedAt := updatedAt[sessionId := now];
    }

    /** `get_context`: prunes and returns the session's messages, [] for an unknown session. */
    method GetContext(sessionId: string, now: int) returns (messages: seq<Message>)
      modifies this
      ensures var pruned := old(store) - Expired(old(updatedAt), now, ttl);
        messages == (if sessionId in pruned then pruned[sessionId] else [])
      ensures store == old(store) - Expired(old(updatedAt), now, ttl)
      ensures updatedAt == old(updatedAt) - Expired(old(updatedAt), now, ttl)
    {
      Prune(now);
      messages := if sessionId in store then store[sessionId] else [];
    }

    /** `clear`: forgets one session. */
    method Clear(sessionId: string)
      modifies this
      ensures store == old(store) - {sessionId} && updatedAt == old(updatedAt) - {sessionId}
      ensures old(Valid()) ==> Valid()
    {
      store := store - {sessionId};
      updatedAt := updatedAt - {sessionId};
    }
  }

  /** A session written at `now` holds at most `windowSize` messages, the newest last, as long
      as the window is at least one. */
  lemma AddedWindow(previous: seq<Message>, message: Message, windowSize: int)
    requires windowSize >= 1
    ensures var w := Window(previous + [message], windowSize);
      1 <= |w| <= windowSize && w[|w| - 1] == message
  {
    WindowFacts(previous + [message], windowSize);
  }

  // ---------------------------------------------------------------------------
  // Episodic recall
  // ---------------------------------------------------------------------------

  /** A row of the `episodes` table as `recall` selects it. */
  datatype Episode = Episode(id: string, kind: string, summary: Option<string>, content: Option<string>,
                             metadata: Option<string>, createdAt: int)

  /** A recalled episode with its score. */
  datatype Scored = Scored(episode: Episode, score: nat)

  function OrEmpty(x: Option<string>): string {
    if x.Some? then x.value else ""
  }

  /** The text scored for a row: summary and content, each `or ""`, joined by a space. */
  function EpisodeText(e: Episode): string {
    OrEmpty(e.summary) + " " + OrEmpty(e.content)
  }

  /** Each row with its score against `query`, in row order. */
  function ScoreRows(rows: seq<Episode>, query: string): (r: seq<Scored>)
    ensures |r| == |rows|
    ensures forall i :: 0 <= i < |rows| ==> r[i] == Scored(rows[i], ScoreText(query, EpisodeText(rows[i])))
  {
    if rows == [] then [] else ScoreRows(rows[..|rows| - 1], query) + [Scored(rows[|rows| - 1], ScoreText(query, EpisodeText(rows[|rows| - 1])))]
  }

  /** The sort key of `recall`: score, then creation time. */
  function RankKey(s: Scored): (int, int) {
    (s.score, s.episode.createdAt)
  }

  /** The rows ranked by (score, created_at), highest first, then cut to `limit` (Python's
      `[:limit]`). */
  function Ranked(rows: seq<Episode>, query: string, limit: int): seq<Scored> {
    Py.Take(Sorting.SortDesc(ScoreRows(rows, query), RankKey), limit)
  }

  /** The scoring loop of `recall`: one scored row per fetched row, in row order. */
  method ScoreAll(rows: seq<Episode>, query: string) returns (scored: seq<Scored>)
    ensures scored == ScoreRows(rows, query)
  {
    scored := [];
    for i := 0 to |rows|
      invariant scored == ScoreRows(rows[..i], query)
    {
      var row := rows[i];
      var score := ScoreText(query, OrEmpty(row.summary) + " " + OrEmpty(row.content));
      assert rows[..i + 1][..i] == rows[..i];
      scored := scored + [Scored(row, score)];
    }
    assert rows[..|rows|] == rows;
  }

  /** The result loop of `recall`: one answer per ranked row, in ranked order. */
  method Emit(top: seq<Scored>) returns (results: seq<Scored>)
    ensures results == top
  {
    results := [];
    for i := 0 to |top|
      invariant results == top[..i]
    {
      results := results + [top[i]];
    }
    assert top[..|top|] == top;
  }

  /** `recall` (after the query): scores every row, ranks and truncates. */
  method Recall(rows: seq<Episode>, query: string, limit: int) returns (results: seq<Scored>)
    ensures results == Ranked(rows, query, limit)
  {
    var scored := ScoreAll(rows, query);
    var top := Py.Take(Sorting.SortDesc(scored, RankKey), limit);
    results := Emit(top);
  }

  /** The recalled episodes are at most `limit` rows, in descending (score, created_at) order,
      each carrying its own score, and drawn from the fetched rows. */
  lemma {:induction false} RankedFacts(rows: seq<Episode>, query: string, limit: int)
    ensures limit >= 0 ==> |Ranked(rows, query, limit)| <= limit
    ensures |Ranked(rows, query, limit)| <= |rows|
    ensures Sorting.SortedDesc(Ranked(rows, query, limit), RankKey)
    ensures forall s :: s in Ranked(rows, query, limit) ==>
      s.episode in rows && s.score == ScoreText(query, EpisodeText(s.episode))
  {
    var scored := ScoreRows(rows, query);
    var sorted := Sorting.SortDesc(scored, RankKey);
    Sorting.SortDescSorted(scored, RankKey);
    var n := Py.SliceIndex(|sorted|, limit);
    Sorting.TakeSorted(sorted, RankKey, n);
    forall s | s in Ranked(rows, query, limit)
      ensures s.episode in rows && s.score == ScoreText(query, EpisodeText(s.episode))
    {
      assert s in sorted;
      assert s in multiset(scored);
      var i :| 0 <= i < |scored| && scored[i] == s;
      assert s.episode == rows[i];
    }
  }
}
