/** The chat repository (repositories/chat_repository.py) over two in-memory
    collections: sessions keyed by `session_id` (the field the database keeps
    a unique index on) and the message log in insertion order. */
module ChatStore {
  import opened Common
  import opened ChatModels
  import Sorting

  /** The messages of one session, in stored order: the `find` filter. */
  function SessionMessages(ms: seq<ChatMessage>, sessionId: string): (r: seq<ChatMessage>)
    ensures |r| <= |ms|
    ensures forall m :: multiset(r)[m] == if m.sessionId == sessionId then multiset(ms)[m] else 0
  {
    if ms == [] then []
    else
      assert ms == [ms[0]] + ms[1..];
      (if ms[0].sessionId == sessionId then [ms[0]] else []) + SessionMessages(ms[1..], sessionId)
  }

  /** The sort key of `sort("timestamp")`. */
  function TimestampKey(m: ChatMessage): real
  {
    m.timestamp as real
  }

  class ChatRepository {
    var sessions: map<string, ChatSession>
    var messages: seq<ChatMessage>

    /** Each session is stored under its own identifier. */
    ghost predicate Valid()
      reads this
    {
      forall id :: id in sessions ==> sessions[id].sessionId == id
    }

    constructor ()
      ensures Valid()
      ensures sessions == map[] && messages == []
    {
      sessions := map[];
      messages := [];
    }

    /** `insert_one`: refused when the identifier is already stored. */
    method CreateSession(session: ChatSession) returns (ok: bool)
      requires Valid()
      modifies this
      ensures Valid()
      ensures ok <==> session.sessionId !in old(sessions)
      ensures sessions == if ok then old(sessions)[session.sessionId := session] else old(sessions)
      ensures messages == old(messages)
    {
      ok := session.sessionId !in sessions;
      if ok {
        sessions := sessions[session.sessionId := session];
      }
    }

    function GetSession(sessionId: string): (r: Option<ChatSession>)
      reads this
      requires Valid()
      ensures r.None? <==> sessionId !in sessions
      ensures r.Some? ==> r.value == sessions[sessionId] && r.value.sessionId == sessionId
    {
      if sessionId in sessions then Some(sessions[sessionId]) else None
    }

    /** An active session of the user, if there is one. Which of several
        matching sessions is returned is not specified. */
    method GetSessionByUserId(userId: string) returns (r: Option<ChatSession>)
      requires Valid()
      ensures r.Some? ==> r.value.sessionId in sessions && sessions[r.value.sessionId] == r.value
      ensures r.Some? ==> r.value.userId == userId && r.value.isActive
      ensures r.None? <==> !HasActiveSession(userId)
    {
      if HasActiveSession(userId) {
        var id :| id in sessions && sessions[id].userId == userId && sessions[id].isActive;
        r := Some(sessions[id]);
      } else {
        r := None;
      }
    }

    predicate HasActiveSession(userId: string)
      reads this
    {
      exists id :: id in sessions && sessions[id].userId == userId && sessions[id].isActive
    }

    /** `update_one` with `$set` and no upsert: replaces a stored session, and
        changes nothing when the identifier is not stored. */
    method UpdateSession(session: ChatSession)
      requires Valid()
      modifies this
      ensures Valid()
      ensures sessions == if session.sessionId in old(sessions) then old(sessions)[session.sessionId := session]
                          else old(sessions)
      ensures messages == old(messages)
    {
      if session.sessionId in sessions {
        sessions := sessions[session.sessionId := session];
      }
    }

    /** The message collection has no unique index: every insert succeeds. */
    method SaveMessage(message: ChatMessage)
      modifies this
      ensures messages == old(messages) + [message]
      ensures sessions == old(sessions)
    {
      messages := messages + [message];
    }

    /** The session's messages, each as often as it was stored, in ascending
        timestamp order. */
    function GetMessages(sessionId: string): (r: seq<ChatMessage>)
      reads this
      ensures forall m :: m in r ==> m in messages && m.sessionId == sessionId
      ensures forall m :: multiset(r)[m] == if m.sessionId == sessionId then multiset(messages)[m] else 0
      ensures Sorting.SortedBy(r, TimestampKey)
    {
      var own := SessionMessages(messages, sessionId);
      var r := Sorting.SortBy(own, TimestampKey);
      assert forall m :: m in r ==> multiset(own)[m] > 0;
      r
    }
  }

  /** A session stored by `CreateSession` is what `GetSession` then returns,
      and no other session changes. */
  method CreateThenGet(repo: ChatRepository, session: ChatSession, other: string)
    requires repo.Valid() && session.sessionId !in repo.sessions
    requires other != session.sessionId
    modifies repo
    ensures repo.Valid()
    ensures repo.GetSession(session.sessionId) == Some(session)
    ensures repo.GetSession(other) == old(repo.GetSession(other))
  {
    var ok := repo.CreateSession(session);
  }
}
