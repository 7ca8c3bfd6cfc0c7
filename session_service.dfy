/** `SessionService` of backend/app/services/session_service.py over the database tables it
    reaches through the repositories and the session entries of the cache. Session and message
    ids from `uuid4()` are parameters; timestamps and the cache's time-to-live are left out. */
module SessionService {
  import opened Wrappers
  import Py
  import ServerApp
  import Repositories

  /** A row of the sessions table. */
  datatype SessionRow = SessionRow(userId: string, title: string)

  /** The session dictionary the service returns and caches. */
  datatype SessionData = SessionData(id: string, userId: string, title: string,
                                     messages: seq<Repositories.MessageRow>)

  /** The title of a new session: the one given, or "新会话" when it is missing or blank. */
  function InitialTitle(title: Option<string>): string
  {
    if title.None? || Py.Strip(title.value) == "" then ServerApp.NewSessionTitle else title.value
  }

  /** A given title is kept as it is, unstripped, unless it is blank; the title is never blank. */
  lemma InitialTitleRule(title: Option<string>)
    ensures title.Some? && !Py.AllSpace(title.value) ==> InitialTitle(title) == title.value
    ensures title.None? || Py.AllSpace(title.value) ==> InitialTitle(title) == ServerApp.NewSessionTitle
    ensures !Py.AllSpace(InitialTitle(title))
  {
    var t := InitialTitle(title);
    if t == ServerApp.NewSessionTitle {
      assert !Py.IsSpace(t[0]);
    } else {
      assert Py.Strip(t) != "";
    }
  }

  /** What the database says about a session for `user_id`: nothing when the session is
      missing or belongs to another user, else the dictionary, with the messages when asked. */
  function FromDatabase(sessions: map<string, SessionRow>, messages: map<string, seq<Repositories.MessageRow>>,
                        userId: string, sessionId: string, loadMessages: bool): (r: Option<SessionData>)
    ensures r.Some? ==> r.value.userId == userId && r.value.id == sessionId
    ensures r.Some? <==> sessionId in sessions && sessions[sessionId].userId == userId
  {
    if sessionId !in sessions || sessions[sessionId].userId != userId then None
    else
      var row := sessions[sessionId];
      var ms := if loadMessages && sessionId in messages then messages[sessionId] else [];
      Some(SessionData(sessionId, row.userId, row.title, ms))
  }

  /** Every cached dictionary sits under its own owner and id. */
  predicate CacheOwned(cache: map<(string, string), SessionData>) {
    forall k :: k in cache ==> cache[k].userId == k.0 && cache[k].id == k.1
  }

  /** Caching a dictionary under its own owner and id keeps the cache owned. */
  lemma CachePutOwned(cache: map<(string, string), SessionData>, k: (string, string), d: SessionData)
    requires CacheOwned(cache) && d.userId == k.0 && d.id == k.1
    ensures CacheOwned(cache[k := d])
  {
  }

  /** `get_session`: a cached dictionary when messages are not wanted, else the database's. A
      session is only ever handed to its owner: from the cache because entries are cached under
      their owner, from the database because of the ownership check. When messages are wanted,
      the cache is not consulted, so the database decides. */
  function Lookup(sessions: map<string, SessionRow>, messages: map<string, seq<Repositories.MessageRow>>,
                  cache: map<(string, string), SessionData>,
                  userId: string, sessionId: string, loadMessages: bool): (r: Option<SessionData>)
    ensures CacheOwned(cache) && r.Some? ==> r.value.userId == userId && r.value.id == sessionId
    ensures loadMessages ==> (r.Some? <==> sessionId in sessions && sessions[sessionId].userId == userId)
  {
    if (userId, sessionId) in cache && !loadMessages then Some(cache[(userId, sessionId)])
    else FromDatabase(sessions, messages, userId, sessionId, loadMessages)
  }

  /** A session someone else owns, and that is not cached for the caller, is not found. */
  lemma OtherOwnerNotFound(sessions: map<string, SessionRow>, messages: map<string, seq<Repositories.MessageRow>>,
                           cache: map<(string, string), SessionData>, userId: string, sessionId: string, loadMessages: bool)
    requires sessionId !in sessions || sessions[sessionId].userId != userId
    requires CacheOwned(cache) && (userId, sessionId) !in cache
    ensures Lookup(sessions, messages, cache, userId, sessionId, loadMessages) == None
  {
  }

  class Service {
    var users: set<string>
    var sessions: map<string, SessionRow>
    /** Each session's messages in creation order. */
    var messages: map<string, seq<Repositories.MessageRow>>
    var cache: map<(string, string), SessionData>

    ghost predicate Valid()
      reads this
    {
      CacheOwned(cache)
    }

    constructor()
      ensures Valid()
      ensures users == {} && sessions == map[] && messages == map[] && cache == map[]
    {
      users := {};
      sessions := map[];
      messages := map[];
      cache := map[];
    }

    function MessagesOf(sessionId: string): seq<Repositories.MessageRow>
      reads this
    {
      if sessionId in messages then messages[sessionId] else []
    }

    /** `create_session`: the user is created if need be, the session is stored with its
        title and cached with no messages. */
    method CreateSession(userId: string, title: Option<string>, freshId: string) returns (d: SessionData)
      requires Valid()
      requires freshId !in sessions
      modifies this
      ensures Valid()
      ensures d == SessionData(freshId, userId, InitialTitle(title), [])
      ensures users == old(users) + {userId}
      ensures sessions == old(sessions)[freshId := SessionRow(userId, InitialTitle(title))]
      ensures messages == old(messages)
      ensures cache == old(cache)[(userId, freshId) := d]
    {
      EnsureUser(userId);
      var t := InitialTitle(title);
      StoreSession(freshId, SessionRow(userId, t));
      d := SessionData(freshId, userId, t, []);
      CacheSession(d);
    }

    /** `user_repo.get_or_create` */
    method EnsureUser(userId: string)
      requires Valid()
      modifies this
      ensures Valid()
      ensures users == old(users) + {userId}
      ensures sessions == old(sessions) && messages == old(messages) && cache == old(cache)
    {
      users := users + {userId};
    }

    /** `session_repo.create` */
    method StoreSession(id: string, row: SessionRow)
      requires Valid()
      modifies this
      ensures Valid()
      ensures sessions == old(sessions)[id := row]
      ensures users == old(users) && messages == old(messages) && cache == old(cache)
    {
      sessions := sessions[id := row];
    }

    /** `cache.set_session`: the dictionary is cached under its owner and id. */
    method CacheSession(d: SessionData)
      requires Valid()
      modifies this
      ensures Valid()
      ensures cache == old(cache)[(d.userId, d.id) := d]
      ensures users == old(users) && sessions == old(sessions) && messages == old(messages)
    {
      CachePutOwned(cache, (d.userId, d.id), d);
      cache := cache[(d.userId, d.id) := d];
    }

    /** `get_session`; a dictionary read from the database is cached. */
    method GetSession(userId: string, sessionId: string, loadMessages: bool) returns (r: Option<SessionData>)
      requires Valid()
      modifies this
      ensures Valid()
      ensures r == Lookup(old(sessions), old(messages), old(cache), userId, sessionId, loadMessages)
      ensures r.Some? ==> r.value.userId == userId && r.value.id == sessionId
      ensures users == old(users) && sessions == old(sessions) && messages == old(messages)
      ensures cache == if r.Some? && !((userId, sessionId) in old(cache) && !loadMessages)
                       then old(cache)[(userId, sessionId) := r.value] else old(cache)
    {
      if (userId, sessionId) in cache && !loadMessages {
        return Some(cache[(userId, sessionId)]);
      }
      if sessionId !in sessions {
        return None;
      }
      var row := sessions[sessionId];
      if row.userId != userId {
        return None;
      }
      var ms := if loadMessages && sessionId in messages then messages[sessionId] else [];
      var d := SessionData(sessionId, row.userId, row.title, ms);
      cache := cache[(userId, sessionId) := d];
      return Some(d);
    }

    /** `update_session_title`: only after the ownership check; the database update succeeds
        when the session row exists, and then the cached dictionary is dropped. */
    method UpdateSessionTitle(userId: string, sessionId: string, title: string) returns (ok: bool)
      requires Valid()
      modifies this
      ensures Valid()
      ensures ok <==> Lookup(old(sessions), old(messages), old(cache), userId, sessionId, false).Some?
                      && sessionId in old(sessions)
      ensures Lookup(old(sessions), old(messages), old(cache), userId, sessionId, false).None? ==>
                sessions == old(sessions) && messages == old(messages) && cache == old(cache)
      ensures ok ==> sessions == old(sessions)[sessionId := SessionRow(old(sessions)[sessionId].userId, title)]
                     && (userId, sessionId) !in cache
      ensures !ok ==> sessions == old(sessions)
      ensures users == old(users) && messages == old(messages)
    {
      var s := GetSession(userId, sessionId, false);
      if s.None? {
        return false;
      }
      ok := sessionId in sessions;
      if ok {
        sessions := sessions[sessionId := SessionRow(sessions[sessionId].userId, title)];
        cache := cache - {(userId, sessionId)};
      }
    }

    /** `delete_session`: only after the ownership check; removing the row removes the
        session's messages with it, and then the cached dictionary is dropped. */
    method DeleteSession(userId: string, sessionId: string) returns (ok: bool)
      requires Valid()
      modifies this
      ensures Valid()
      ensures ok <==> Lookup(old(sessions), old(messages), old(cache), userId, sessionId, false).Some?
                      && sessionId in old(sessions)
      ensures Lookup(old(sessions), old(messages), old(cache), userId, sessionId, false).None? ==>
                sessions == old(sessions) && messages == old(messages) && cache == old(cache)
      ensures ok ==> sessions == old(sessions) - {sessionId} && messages == old(messages) - {sessionId}
                     && (userId, sessionId) !in cache
      ensures !ok ==> sessions == old(sessions) && messages == old(messages)
      ensures users == old(users)
    {
      var s := GetSession(userId, sessionId, false);
      if s.None? {
        return false;
      }
      ok := sessionId in sessions;
      if ok {
        sessions := sessions - {sessionId};
        messages := messages - {sessionId};
        cache := cache - {(userId, sessionId)};
      }
    }

    /** `add_message`: the message joins the end of its session's messages. */
    method AddMessage(sessionId: string, role: string, content: string, freshId: string)
      returns (m: Repositories.MessageRow)
      modifies this
      ensures m == Repositories.MessageRow(freshId, role, content)
      ensures messages == old(messages)[sessionId := old(MessagesOf(sessionId)) + [m]]
      ensures users == old(users) && sessions == old(sessions) && cache == old(cache)
    {
      m := Repositories.MessageRow(freshId, role, content);
      messages := messages[sessionId := MessagesOf(sessionId) + [m]];
    }

    /** `get_recent_messages`: the last `count` messages, oldest first. */
    method GetRecentMessages(sessionId: string, count: int) returns (ms: seq<Repositories.MessageRow>)
      ensures ms == Repositories.RecentMessages(MessagesOf(sessionId), count)
    {
      ms := Repositories.RecentMessages(MessagesOf(sessionId), count);
    }

    /** `cleanup_old_messages`: `delete_old_messages` on the session's messages. */
    method CleanupOldMessages(sessionId: string, keepLast: int) returns (deleted: nat)
      modifies this
      ensures var r := Repositories.DeleteOldMessages(old(MessagesOf(sessionId)), keepLast);
        deleted == r.1 && MessagesOf(sessionId) == r.0
      ensures forall s :: s != sessionId ==> (s in messages <==> s in old(messages))
      ensures forall s :: s != sessionId && s in messages ==> messages[s] == old(messages)[s]
      ensures users == old(users) && sessions == old(sessions) && cache == old(cache)
    {
      var r := Repositories.DeleteOldMessages(MessagesOf(sessionId), keepLast);
      if sessionId in messages {
        messages := messages[sessionId := r.0];
      } else {
        Repositories.EmptySessionDeletesNothing(keepLast);
      }
      deleted := r.1;
    }
  }
}
