/** The chat server's in-memory state (backend/server/app.py, with the identical user and
    session helpers of src/server/app.py): the LRU pool of LLM clients, the per-user session
    store, session titles and the session-selection rule of `/api/session/init`.
    Identifiers from `uuid4()` and the millisecond clock are parameters (`freshId`, `now`);
    a missing id (`None`) and an empty id are both written "", since the code only tests
    their truthiness. */
module ServerApp {
  import opened Wrappers
  import Py
  import Seqs
  import Sorting
  import Json

  // ---------------------------------------------------------------------------
  // Session titles
  // ---------------------------------------------------------------------------

  const NewSessionTitle: string := "新会话"
  const TitleLimit: nat := 24

  /** `create_session_title`: the stripped text, cut to 24 characters plus "..." when longer;
      blank text gives the default title. */
  function CreateSessionTitle(content: string): (t: string)
    ensures Py.Strip(content) == [] ==> t == NewSessionTitle
    ensures 0 < |Py.Strip(content)| <= TitleLimit ==> t == Py.Strip(content)
    ensures |Py.Strip(content)| > TitleLimit ==> t == Py.Strip(content)[..TitleLimit] + "..."
  {
    var trimmed := Py.Strip(content);
    if trimmed == [] then NewSessionTitle
    else if |trimmed| > TitleLimit then trimmed[..TitleLimit] + "..." else trimmed
  }

  /** A title is never blank, never longer than 27 characters, and never has surrounding
      whitespace; a title is its own title. */
  lemma {:induction false} TitleShape(content: string)
    ensures var t := CreateSessionTitle(content);
      t != [] && |t| <= TitleLimit + 3 && Py.IsStripped(t)
    ensures CreateSessionTitle(CreateSessionTitle(content)) == CreateSessionTitle(content)
  {
    var t := CreateSessionTitle(content);
    TitleStripped(content);
    Py.StripStripped(t);
    TitleOfTitle(t);
  }

  lemma {:induction false} TitleStripped(content: string)
    ensures var t := CreateSessionTitle(content);
      t != [] && Py.IsStripped(t) && (|t| <= TitleLimit || (|t| == TitleLimit + 3 && t[TitleLimit..] == "..."))
  {
    var s := Py.Strip(content);
    var t := CreateSessionTitle(content);
    if s == [] {
      assert Py.IsStripped(NewSessionTitle);
    } else if |s| > TitleLimit {
      Truncated(s);
    }
  }

  /** A cut title keeps the first character of the stripped text and ends in "...". */
  lemma {:induction false} Truncated(s: string)
    requires |s| > TitleLimit && !Py.IsSpace(s[0])
    ensures var t := s[..TitleLimit] + "...";
      |t| == TitleLimit + 3 && t[TitleLimit..] == "..." && Py.IsStripped(t)
  {
    var t := s[..TitleLimit] + "...";
    assert t[0] == s[0];
    assert t[|t| - 1] == '.';
  }

  /** A stripped, non-blank title of at most 27 characters maps to itself. */
  lemma {:induction false} TitleOfTitle(t: string)
    requires Py.Strip(t) == t && t != []
    requires |t| <= TitleLimit || (|t| == TitleLimit + 3 && t[TitleLimit..] == "...")
    ensures CreateSessionTitle(t) == t
  {
    if |t| > TitleLimit {
      assert t == t[..TitleLimit] + t[TitleLimit..];
    }
  }

  // ---------------------------------------------------------------------------
  // Tool-call status
  // ---------------------------------------------------------------------------

  /** The status recorded for a finished tool call. */
  function ToolStatus(result: Json.Value): (status: string)
    ensures status == "failed" <==> Json.IsFailure(result)
    ensures status == "failed" || status == "completed"
  {
    if result.Dict? && Json.Get(result.fields, "ok") == Some(Json.Bool(false)) then "failed" else "completed"
  }

  /** Only an explicit `ok: False` fails a call: a dict without `ok`, a falsy non-bool `ok`
      and a non-dict result all complete. */
  lemma ToolStatusExamples(fields: seq<(string, Json.Value)>, v: Json.Value)
    requires "ok" !in Json.Keys(fields)
    ensures ToolStatus(Json.Dict(fields)) == "completed"
    ensures !v.Dict? ==> ToolStatus(v) == "completed"
    ensures ToolStatus(Json.Dict([("ok", Json.Int(0))])) == "completed"
    ensures ToolStatus(Json.Dict([("ok", Json.Null)])) == "completed"
    ensures ToolStatus(Json.Dict([("ok", Json.Bool(false))])) == "failed"
  {
  }

  // ---------------------------------------------------------------------------
  // LLM client pool
  // ---------------------------------------------------------------------------

  /** The configuration fields the pool key is made of. */
  datatype LlmConfig = LlmConfig(baseUrl: string, model: string, httpProxy: Option<string>, httpsProxy: Option<string>)

  /** A client built by the pool: the configuration it was built from and its creation serial. */
  datatype Client = Client(config: LlmConfig, serial: nat)

  /** `x or ''` for an optional string. */
  function OrEmpty(x: Option<string>): string {
    if x.Some? then x.value else ""
  }

  /** `_make_key` */
  function MakeKey(c: LlmConfig): string {
    c.baseUrl + "|" + c.model + "|" + OrEmpty(c.httpProxy) + "|" + OrEmpty(c.httpsProxy)
  }

  /** The key is the four fields joined by "|", so it splits back into them when no field
      contains "|"; configurations with such fields share a key only if they agree on every
      field, taking a missing proxy as "". */
  lemma KeyFields(c: LlmConfig)
    requires '|' !in c.baseUrl && '|' !in c.model && '|' !in OrEmpty(c.httpProxy) && '|' !in OrEmpty(c.httpsProxy)
    ensures Py.Split(MakeKey(c), "|") == [c.baseUrl, c.model, OrEmpty(c.httpProxy), OrEmpty(c.httpsProxy)]
  {
    var parts := [c.baseUrl, c.model, OrEmpty(c.httpProxy), OrEmpty(c.httpsProxy)];
    Py.JoinCons("|", parts[2], [parts[3]]);
    Py.JoinCons("|", parts[1], parts[2..]);
    Py.JoinCons("|", parts[0], parts[1..]);
    assert [parts[0]] + parts[1..] == parts;
    assert Py.Join("|", parts) == MakeKey(c);
    Py.SplitJoin(parts, '|');
  }

  lemma KeyInjective(a: LlmConfig, b: LlmConfig)
    requires '|' !in a.baseUrl && '|' !in a.model && '|' !in OrEmpty(a.httpProxy) && '|' !in OrEmpty(a.httpsProxy)
    requires '|' !in b.baseUrl && '|' !in b.model && '|' !in OrEmpty(b.httpProxy) && '|' !in OrEmpty(b.httpsProxy)
    requires MakeKey(a) == MakeKey(b)
    ensures a.baseUrl == b.baseUrl && a.model == b.model
    ensures OrEmpty(a.httpProxy) == OrEmpty(b.httpProxy) && OrEmpty(a.httpsProxy) == OrEmpty(b.httpsProxy)
  {
    KeyFields(a);
    KeyFields(b);
  }

  /** A missing proxy and an empty proxy give the same key. */
  lemma NoProxySharesKey(c: LlmConfig)
    ensures MakeKey(c.(httpProxy := None)) == MakeKey(c.(httpProxy := Some("")))
    ensures MakeKey(c.(httpsProxy := None)) == MakeKey(c.(httpsProxy := Some("")))
  {
  }

  /** The number of clients the pool can hold: `max_size`, or none at all when it is below 1
      (the first miss then fails on `pop(0)` of the empty access list). */
  function Capacity(maxSize: int): nat {
    if maxSize > 0 then maxSize else 0
  }

  /** Appending a key that is not yet listed keeps the access order duplicate-free. */
  lemma AppendFresh(order: seq<string>, key: string)
    requires Seqs.Distinct(order) && key !in order
    ensures Seqs.Distinct(order + [key])
  {
  }

  /** Dropping the least recently used key removes exactly that key from the pool's key set. */
  lemma EvictFront(order: seq<string>, pool: map<string, Client>)
    requires Seqs.Distinct(order) && order != []
    requires forall k :: k in order <==> k in pool
    ensures Seqs.Distinct(order[1..])
    ensures forall k :: k in order[1..] <==> k in pool - {order[0]}
    ensures |pool - {order[0]}| == |pool| - 1
  {
    assert order[0] !in order[1..];
    assert order == [order[0]] + order[1..];
  }

  /** `ClientPool`: clients keyed by `MakeKey`, with the access order used for LRU eviction. */
  class ClientPool {
    var pool: map<string, Client>
    var accessOrder: seq<string>
    const maxSize: int
    /** How many clients were built so far (stands in for the identity of new objects). */
    var created: nat

    /** The access order lists every pooled key exactly once, and the pool stays in capacity. */
    ghost predicate Valid()
      reads this
    {
      Seqs.Distinct(accessOrder) && (forall k :: k in accessOrder <==> k in pool)
      && |pool| <= Capacity(maxSize)
    }

    constructor(maxSize: int)
      ensures Valid()
      ensures pool == map[] && accessOrder == [] && this.maxSize == maxSize && created == 0
    {
      pool := map[];
      accessOrder := [];
      this.maxSize := maxSize;
      created := 0;
    }

    /** `get_client`. A hit returns the pooled client and makes its key the most recent; a miss
        at capacity first evicts the least recently used key, then builds, pools and returns a
        new client. With `max_size` below 1 a miss raises `IndexError`, changing nothing. */
    method GetClient(config: LlmConfig) returns (r: Result<Client, string>)
      requires Valid()
      modifies this
      ensures Valid()
      ensures var key := MakeKey(config);
        key in old(pool) ==>
          r == Ok(old(pool)[key]) && pool == old(pool) && created == old(created)
          && accessOrder == Seqs.Remove(old(accessOrder), key) + [key]
      ensures var key := MakeKey(config);
        key !in old(pool) && |old(pool)| >= maxSize && old(accessOrder) == [] ==>
          r == Err("IndexError") && pool == old(pool) && accessOrder == old(accessOrder) && created == old(created)
      ensures var key := MakeKey(config);
        key !in old(pool) && |old(pool)| >= maxSize && old(accessOrder) != [] ==>
          var lru := old(accessOrder)[0];
          r == Ok(Client(config, old(created))) && created == old(created) + 1
          && pool == (old(pool) - {lru})[key := Client(config, old(created))]
          && accessOrder == old(accessOrder)[1..] + [key]
      ensures var key := MakeKey(config);
        key !in old(pool) && |old(pool)| < maxSize ==>
          r == Ok(Client(config, old(created))) && created == old(created) + 1
          && pool == old(pool)[key := Client(config, old(created))]
          && accessOrder == old(accessOrder) + [key]
      ensures maxSize >= 1 ==> r.Ok? && MakeKey(config) in pool && pool[MakeKey(config)] == r.value
    {
      var key := MakeKey(config);
      if key in pool {
        Seqs.RemoveDistinct(accessOrder, key);
        if key in accessOrder {
          accessOrder := Seqs.Remove(accessOrder, key);
        }
        AppendFresh(accessOrder, key);
        accessOrder := accessOrder + [key];
        return Ok(pool[key]);
      }
      if |pool| >= maxSize {
        if accessOrder == [] {
          return Err("IndexError");
        }
        var lru := accessOrder[0];
        EvictFront(accessOrder, pool);
        accessOrder := accessOrder[1..];
        pool := pool - {lru};
      }
      var client := Client(config, created);
      AppendFresh(accessOrder, key);
      created := created + 1;
      pool := pool[key := client];
      accessOrder := accessOrder + [key];
      return Ok(client);
    }

    /** `clear` */
    method Clear()
      modifies this
      ensures pool == map[] && accessOrder == [] && created == old(created)
      ensures Valid()
    {
      pool := map[];
      accessOrder := [];
    }

    /** `stats`: the pool size, its capacity and the pooled keys. */
    method Stats() returns (size: nat, max: int, keys: set<string>)
      requires Valid()
      ensures size == |pool| && max == maxSize && keys == pool.Keys
      ensures size <= Capacity(maxSize)
    {
      size := |pool|;
      max := maxSize;
      keys := pool.Keys;
    }
  }

  // ---------------------------------------------------------------------------
  // Users and sessions
  // ---------------------------------------------------------------------------

  /** A chat session as `create_session` builds it (messages are opaque JSON values). */
  datatype Session = Session(id: string, title: string, messages: seq<Json.Value>, createdAt: int, updatedAt: int)

  /** A user's entry in `USER_STORE`: the `sessions` dict, in insertion order, and the active id. */
  datatype UserState = UserState(sessions: seq<Session>, activeSessionId: string)

  const EmptyUser := UserState([], "")

  /** The session ids, in insertion order (the keys of the `sessions` dict). */
  function Ids(ss: seq<Session>): (ids: seq<string>)
    ensures |ids| == |ss|
    ensures forall i :: 0 <= i < |ss| ==> ids[i] == ss[i].id
  {
    if ss == [] then [] else [ss[0].id] + Ids(ss[1..])
  }

  /** `sessions.get(id)` */
  function FindSession(ss: seq<Session>, id: string): (r: Option<Session>)
    ensures r.None? <==> id !in Ids(ss)
    ensures r.Some? ==> r.value in ss && r.value.id == id
  {
    if ss == [] then None else if ss[0].id == id then Some(ss[0]) else FindSession(ss[1..], id)
  }

  /** `sessions[s.id] = s`: an existing id keeps its place, a new one goes last. */
  function PutSession(ss: seq<Session>, s: Session): (r: seq<Session>)
    ensures s in r
    ensures s.id in Ids(ss) ==> Ids(r) == Ids(ss)
    ensures s.id !in Ids(ss) ==> Ids(r) == Ids(ss) + [s.id]
  {
    if ss == [] then [s]
    else if ss[0].id == s.id then [s] + ss[1..]
    else [ss[0]] + PutSession(ss[1..], s)
  }

  /** After `PutSession` the id finds the new session and every other id finds what it found. */
  lemma {:induction false} FindPut(ss: seq<Session>, s: Session, other: string)
    ensures FindSession(PutSession(ss, s), s.id) == Some(s)
    ensures other != s.id ==> FindSession(PutSession(ss, s), other) == FindSession(ss, other)
  {
    if ss != [] && ss[0].id != s.id {
      FindPut(ss[1..], s, other);
    }
  }

  /** `create_session(title)`: no messages, created and updated at `now`. */
  function NewSession(id: string, title: string, now: int): Session {
    Session(id, title, [], now, now)
  }

  /** `get_or_create_user` on the user map: the id it answers with and the new map. */
  function GetOrCreate(users: map<string, UserState>, userId: string, freshId: string): (string, map<string, UserState>) {
    if userId != "" && userId in users then (userId, users)
    else
      var id := if userId != "" then userId else freshId;
      (id, if id in users then users else users[id := EmptyUser])
  }

  /** A known id is answered unchanged; any other id, or a fresh one for a missing id, gets an
      entry without sessions, and no existing user is touched. */
  lemma GetOrCreateFacts(users: map<string, UserState>, userId: string, freshId: string)
    ensures var (id, u) := GetOrCreate(users, userId, freshId);
      id in u && users.Keys <= u.Keys && (forall k :: k in users ==> u[k] == users[k])
      && u.Keys == users.Keys + {id}
      && id == (if userId != "" then userId else freshId)
      && (id !in users ==> u[id] == EmptyUser)
  {
  }

  /** `ensure_session` on one user's state: the session id it answers with and the new state. */
  function Ensure(st: UserState, sessionId: string, titleHint: string, freshId: string, now: int): (string, UserState) {
    if sessionId != "" && sessionId in Ids(st.sessions) then (sessionId, st)
    else
      var title := if titleHint != "" then titleHint else NewSessionTitle;
      (freshId, UserState(PutSession(st.sessions, NewSession(freshId, title, now)), freshId))
  }

  /** A known session id is answered unchanged. Otherwise one new active session is added, with
      no messages and `createdAt == updatedAt`, leaving every other session as it was. */
  lemma EnsureFacts(st: UserState, sessionId: string, titleHint: string, freshId: string, now: int, other: string)
    ensures var (id, st2) := Ensure(st, sessionId, titleHint, freshId, now);
      FindSession(st2.sessions, id).Some?
    ensures sessionId != "" && sessionId in Ids(st.sessions) ==> Ensure(st, sessionId, titleHint, freshId, now) == (sessionId, st)
    ensures !(sessionId != "" && sessionId in Ids(st.sessions)) ==>
      var (id, st2) := Ensure(st, sessionId, titleHint, freshId, now);
      var s := FindSession(st2.sessions, id).value;
      id == freshId && st2.activeSessionId == id
      && s.messages == [] && s.createdAt == s.updatedAt == now
      && s.title == (if titleHint != "" then titleHint else NewSessionTitle)
      && (freshId !in Ids(st.sessions) ==> Ids(st2.sessions) == Ids(st.sessions) + [freshId])
      && (other != freshId ==> FindSession(st2.sessions, other) == FindSession(st.sessions, other))
  {
    var title := if titleHint != "" then titleHint else NewSessionTitle;
    FindPut(st.sessions, NewSession(freshId, title, now), other);
  }

  /** The sort key of `list_sessions`. */
  function UpdatedKey(s: Session): (int, int) {
    (s.updatedAt, 0)
  }

  /** `list_sessions`: the sessions, most recently updated first, ties in insertion order. */
  function ListSessions(st: UserState): (r: seq<Session>)
    ensures |r| == |st.sessions|
    ensures multiset(r) == multiset(st.sessions)
  {
    Sorting.SortDesc(st.sessions, UpdatedKey)
  }

  /** The first listed session is one of the user's and was updated no earlier than any other. */
  lemma {:induction false} MostRecentFirst(st: UserState)
    requires st.sessions != []
    ensures ListSessions(st) != [] && ListSessions(st)[0] in st.sessions
    ensures forall s :: s in st.sessions ==> s.updatedAt <= ListSessions(st)[0].updatedAt
  {
    var r := ListSessions(st);
    assert |r| == |st.sessions| by {
      assert |multiset(r)| == |multiset(st.sessions)|;
    }
    assert r[0] in multiset(r);
    Sorting.SortDescSorted(st.sessions, UpdatedKey);
    forall s | s in st.sessions ensures s.updatedAt <= r[0].updatedAt {
      assert s in multiset(r);
      var j :| 0 <= j < |r| && r[j] == s;
      if j > 0 {
        assert Sorting.KeyGe(UpdatedKey(r[0]), UpdatedKey(r[j]));
      }
    }
  }

  /** The id `init_session` starts from: the requested id, else the stored active id. */
  function Chosen(st: UserState, requested: string): string {
    if requested != "" then requested else st.activeSessionId
  }

  /** An id that names no session is replaced by a new session. */
  function Repair(st: UserState, chosen: string, freshId: string, now: int): (string, UserState) {
    if chosen != "" && chosen !in Ids(st.sessions) then Ensure(st, "", "", freshId, now) else (chosen, st)
  }

  /** With no id at all, the most recently updated session is chosen and made active. */
  function Fallback(e: (string, UserState)): (string, UserState) {
    if e.0 == "" && e.1.sessions != [] then
      var recent := ListSessions(e.1)[0].id;
      (recent, e.1.(activeSessionId := recent))
    else e
  }

  /** `init_session`'s choice on one user's state: the active session id it answers with and
      the new state. */
  function InitSelect(st: UserState, requested: string, freshId: string, now: int): (string, UserState) {
    if st.sessions == [] then Ensure(st, "", "", freshId, now)
    else Fallback(Repair(st, Chosen(st, requested), freshId, now))
  }

  /** The listed-first session's id is one of the session ids. */
  lemma {:induction false} MostRecentId(st: UserState)
    requires st.sessions != []
    ensures ListSessions(st) != [] && ListSessions(st)[0].id in Ids(st.sessions)
    ensures forall s :: s in st.sessions ==> s.updatedAt <= ListSessions(st)[0].updatedAt
  {
    MostRecentFirst(st);
    var r := ListSessions(st)[0];
    var j :| 0 <= j < |st.sessions| && st.sessions[j] == r;
    assert Ids(st.sessions)[j] == r.id;
  }

  /** The answered id always names one of the user's sessions after the call. */
  lemma {:induction false} InitSelectHasSession(st: UserState, requested: string, freshId: string, now: int)
    ensures InitSelect(st, requested, freshId, now).0 in Ids(InitSelect(st, requested, freshId, now).1.sessions)
  {
    var chosen := if requested != "" then requested else st.activeSessionId;
    if st.sessions == [] || (chosen != "" && chosen !in Ids(st.sessions)) {
      EnsureFacts(st, "", "", freshId, now, "");
      var e := Ensure(st, "", "", freshId, now);
      assert e.0 in Ids(e.1.sessions);
      if st.sessions != [] && e.0 == "" {
        MostRecentId(e.1);
      }
    } else if chosen == "" {
      MostRecentId(st);
    }
  }

  /** Without sessions, exactly one is created and made active. */
  lemma InitSelectCreatesFirst(st: UserState, requested: string, freshId: string, now: int)
    requires st.sessions == []
    ensures InitSelect(st, requested, freshId, now).0 == freshId
    ensures InitSelect(st, requested, freshId, now).1.activeSessionId == freshId
    ensures InitSelect(st, requested, freshId, now).1.sessions == [NewSession(freshId, NewSessionTitle, now)]
  {
  }

  /** A known requested id is answered and nothing changes: it does not become the stored
      active id. With no requested id, a known active id is answered. */
  lemma InitSelectKnown(st: UserState, requested: string, freshId: string, now: int)
    requires st.sessions != []
    ensures requested != "" && requested in Ids(st.sessions) ==>
      InitSelect(st, requested, freshId, now) == (requested, st)
    ensures requested == "" && st.activeSessionId != "" && st.activeSessionId in Ids(st.sessions) ==>
      InitSelect(st, requested, freshId, now) == (st.activeSessionId, st)
  {
  }

  /** An unknown id (requested, else active) is replaced by one new active session. */
  lemma {:induction false} InitSelectUnknown(st: UserState, requested: string, freshId: string, now: int)
    requires st.sessions != [] && freshId != ""
    requires var chosen := if requested != "" then requested else st.activeSessionId;
      chosen != "" && chosen !in Ids(st.sessions)
    ensures InitSelect(st, requested, freshId, now).0 == freshId
    ensures InitSelect(st, requested, freshId, now).1.activeSessionId == freshId
    ensures freshId !in Ids(st.sessions) ==>
      Ids(InitSelect(st, requested, freshId, now).1.sessions) == Ids(st.sessions) + [freshId]
  {
    EnsureFacts(st, "", "", freshId, now, "");
  }

  /** With neither id given, the most recently updated session is answered and made active. */
  lemma {:induction false} InitSelectMostRecent(st: UserState, requested: string, freshId: string, now: int)
    requires st.sessions != [] && requested == "" && st.activeSessionId == ""
    ensures ListSessions(st) != []
    ensures var top := ListSessions(st)[0];
      InitSelect(st, requested, freshId, now) == (top.id, st.(activeSessionId := top.id))
      && top in st.sessions && (forall s :: s in st.sessions ==> s.updatedAt <= top.updatedAt)
  {
    MostRecentFirst(st);
  }

  lemma UpdateTwice(m: map<string, UserState>, k: string, a: UserState, b: UserState)
    ensures m[k := a][k := b] == m[k := b]
  {
  }

  /** `USER_STORE`: every user's sessions and active session id. */
  class UserStore {
    var users: map<string, UserState>

    constructor()
      ensures users == map[]
    {
      users := map[];
    }

    /** `get_or_create_user` */
    method GetOrCreateUser(userId: string, freshId: string) returns (id: string, state: UserState)
      modifies this
      ensures (id, users) == GetOrCreate(old(users), userId, freshId)
      ensures id in users && state == users[id]
    {
      if userId != "" && userId in users {
        return userId, users[userId];
      }
      id := if userId != "" then userId else freshId;
      if id !in users {
        users := users[id := EmptyUser];
      }
      state := users[id];
    }

    /** `ensure_session` for the user `userId`. */
    method EnsureSession(userId: string, sessionId: string, titleHint: string, freshId: string, now: int)
      returns (id: string)
      requires userId in users
      modifies this
      ensures var e := Ensure(old(users)[userId], sessionId, titleHint, freshId, now);
        id == e.0 && users == old(users)[userId := e.1]
    {
      var st := users[userId];
      if sessionId != "" && sessionId in Ids(st.sessions) {
        return sessionId;
      }
      var title := if titleHint != "" then titleHint else NewSessionTitle;
      var session := NewSession(freshId, title, now);
      users := users[userId := UserState(PutSession(st.sessions, session), session.id)];
      return session.id;
    }

    /** The selection step of `init_session` for a user that has sessions. */
    method SelectSession(userId: string, requestActiveId: string, freshSessionId: string, now: int)
      returns (activeId: string)
      requires userId in users && users[userId].sessions != []
      modifies this
      ensures var sel := InitSelect(old(users)[userId], requestActiveId, freshSessionId, now);
        activeId == sel.0 && users == old(users)[userId := sel.1]
    {
      var st := users[userId];
      activeId := if requestActiveId != "" then requestActiveId else st.activeSessionId;
      ghost var e := Repair(st, activeId, freshSessionId, now);
      if activeId != "" && activeId !in Ids(st.sessions) {
        activeId := EnsureSession(userId, "", "", freshSessionId, now);
      }
      assert activeId == e.0 && users == old(users)[userId := e.1];
      assert InitSelect(old(users)[userId], requestActiveId, freshSessionId, now) == Fallback(e);
      var current := users[userId];
      if activeId == "" && current.sessions != [] {
        activeId := ListSessions(current)[0].id;
        UpdateTwice(old(users), userId, e.1, current.(activeSessionId := activeId));
        users := users[userId := current.(activeSessionId := activeId)];
      }
    }

    /** `init_session`: finds or creates the user, selects (or creates) the active session and
        lists the user's sessions, most recent first. */
    method InitSession(requestUserId: string, requestActiveId: string, freshUserId: string, freshSessionId: string, now: int)
      returns (userId: string, activeId: string, sessions: seq<Session>)
      modifies this
      ensures var g := GetOrCreate(old(users), requestUserId, freshUserId);
        var sel := InitSelect(g.1[g.0], requestActiveId, freshSessionId, now);
        userId == g.0 && activeId == sel.0 && users == g.1[userId := sel.1]
        && sessions == ListSessions(sel.1)
    {
      var st;
      userId, st := GetOrCreateUser(requestUserId, freshUserId);
      if st.sessions == [] {
        activeId := EnsureSession(userId, "", "", freshSessionId, now);
      } else {
        activeId := SelectSession(userId, requestActiveId, freshSessionId, now);
      }
      sessions := ListSessions(users[userId]);
    }
  }
}
