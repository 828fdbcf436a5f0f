/** The persistent state behind the services: the session and message
    tables (the two JPA repositories, with their identity columns), and the
    two event streams the Kafka producer publishes to, recorded as logs.
    Times are whatever the clock read when a row was written. */
module Storage {
  import opened Wrappers
  import opened Text

  datatype SenderType = User | Ai

  datatype Session = Session(id: int, userId: string, sessionName: string, isFavorite: bool,
                             createdAt: int, updatedAt: int)

  datatype ChatMessage = ChatMessage(id: int, sessionId: int, sender: SenderType, content: string,
                                     context: Option<string>, timestamp: int)

  datatype SessionEventKind =
    SessionCreated | SessionRenamed | SessionFavorited | SessionUnfavorited | SessionDeleted

  /** publishSessionEvent's payload, without its publish-time timestamp. */
  datatype SessionEvent = SessionEvent(kind: SessionEventKind, sessionId: int, userId: string, sessionName: string)

  datatype MessageEventKind = MessageAdded

  /** publishMessageEvent's payload, without its publish-time timestamp. */
  datatype MessageEvent = MessageEvent(kind: MessageEventKind, messageId: int, sessionId: int,
                                       sender: SenderType, contentLength: nat)

  /** The message of SessionNotFoundException. */
  function NotFoundMessage(sessionId: int): string {
    "Session not found with id: " + DecimalString(sessionId)
  }

  /** countBySessionId over the message table. */
  function CountBySessionId(messages: seq<ChatMessage>, sessionId: int): nat
    decreases |messages|
  {
    if messages == [] then 0
    else CountBySessionId(messages[..|messages| - 1], sessionId)
         + (if messages[|messages| - 1].sessionId == sessionId then 1 else 0)
  }

  /** findBySessionId, unpaged: the session's messages in table order. */
  function FindBySessionId(messages: seq<ChatMessage>, sessionId: int): (r: seq<ChatMessage>)
    ensures forall m :: m in r <==> m in messages && m.sessionId == sessionId
    decreases |messages|
  {
    if messages == [] then []
    else FindBySessionId(messages[..|messages| - 1], sessionId)
         + (if messages[|messages| - 1].sessionId == sessionId then [messages[|messages| - 1]] else [])
  }

  /** The messages that survive deleting a session (the cascade). */
  function WithoutSession(messages: seq<ChatMessage>, sessionId: int): (r: seq<ChatMessage>)
    ensures forall m :: m in r <==> m in messages && m.sessionId != sessionId
    ensures |r| <= |messages|
    decreases |messages|
  {
    if messages == [] then []
    else WithoutSession(messages[..|messages| - 1], sessionId)
         + (if messages[|messages| - 1].sessionId != sessionId then [messages[|messages| - 1]] else [])
  }

  /** The count is the length of the session's message list. */
  lemma {:induction false} CountIsFindLength(messages: seq<ChatMessage>, sessionId: int)
    ensures CountBySessionId(messages, sessionId) == |FindBySessionId(messages, sessionId)|
    decreases |messages|
  {
    if messages != [] {
      CountIsFindLength(messages[..|messages| - 1], sessionId);
    }
  }

  /** Appending rows adds to the count exactly those that reference the session. */
  lemma CountAppend(messages: seq<ChatMessage>, m: ChatMessage, sessionId: int)
    ensures CountBySessionId(messages + [m], sessionId)
            == CountBySessionId(messages, sessionId) + (if m.sessionId == sessionId then 1 else 0)
  {
    assert (messages + [m])[..|messages|] == messages;
  }

  /** A session no message references has count zero. */
  lemma {:induction false} CountUnreferenced(messages: seq<ChatMessage>, sessionId: int)
    requires forall i :: 0 <= i < |messages| ==> messages[i].sessionId != sessionId
    ensures CountBySessionId(messages, sessionId) == 0
    decreases |messages|
  {
    if messages != [] {
      CountUnreferenced(messages[..|messages| - 1], sessionId);
    }
  }

  /** Deleting one session's messages leaves every other session's count. */
  lemma {:induction false} CountWithoutSession(messages: seq<ChatMessage>, deleted: int, sessionId: int)
    ensures CountBySessionId(WithoutSession(messages, deleted), sessionId)
            == if sessionId == deleted then 0 else CountBySessionId(messages, sessionId)
    decreases |messages|
  {
    if messages != [] {
      var init, last := messages[..|messages| - 1], messages[|messages| - 1];
      var rest := WithoutSession(init, deleted);
      CountWithoutSession(init, deleted, sessionId);
      if last.sessionId != deleted {
        assert WithoutSession(messages, deleted) == rest + [last];
        CountAppend(rest, last, sessionId);
      } else {
        assert WithoutSession(messages, deleted) == rest + [];
        assert rest + [] == rest;
      }
    }
  }

  /** The session and message tables. */
  class ChatStore {
    var sessions: map<int, Session>
    var messages: seq<ChatMessage>
    var nextSessionId: int
    var nextMessageId: int

    /** Rows are keyed by their own id, ids come from the identity counters
        in increasing order, and every message references a stored session. */
    ghost predicate Valid()
      reads this
    {
      && (forall id :: id in sessions ==> sessions[id].id == id && id < nextSessionId)
      && (forall i :: 0 <= i < |messages| ==> messages[i].id < nextMessageId)
      && IdsIncreasing(messages)
      && (forall i :: 0 <= i < |messages| ==> messages[i].sessionId in sessions)
    }

    constructor ()
      ensures Valid()
      ensures sessions == map[] && messages == []
    {
      sessions := map[];
      messages := [];
      nextSessionId := 1;
      nextMessageId := 1;
    }

    /** findByIdAndUserId: the session with this id, if this user owns it. */
    function FindByIdAndUserId(id: int, userId: string): (r: Option<Session>)
      reads this
      ensures r.Some? <==> id in sessions && sessions[id].userId == userId
      ensures r.Some? ==> r.value == sessions[id]
    {
      if id in sessions && sessions[id].userId == userId then Some(sessions[id]) else None
    }

    /** save of a new message: the identity column assigns its id and the
        auditing listener its timestamp. */
    method InsertMessage(sessionId: int, sender: SenderType, content: string, context: Option<string>, now: int)
      returns (saved: ChatMessage)
      requires Valid() && sessionId in sessions
      modifies this
      ensures Valid()
      ensures saved == ChatMessage(old(nextMessageId), sessionId, sender, content, context, now)
      ensures messages == old(messages) + [saved] && nextMessageId == old(nextMessageId) + 1
      ensures sessions == old(sessions) && nextSessionId == old(nextSessionId)
    {
      saved := ChatMessage(nextMessageId, sessionId, sender, content, context, now);
      messages := messages + [saved];
      nextMessageId := nextMessageId + 1;
    }

    /** save of a new session: the identity column assigns its id. */
    method InsertSession(userId: string, sessionName: string, isFavorite: bool, now: int)
      returns (saved: Session)
      requires Valid()
      modifies this
      ensures Valid()
      ensures saved == Session(old(nextSessionId), userId, sessionName, isFavorite, now, now)
      ensures old(nextSessionId) !in old(sessions)
      ensures sessions == old(sessions)[saved.id := saved] && nextSessionId == old(nextSessionId) + 1
      ensures messages == old(messages) && nextMessageId == old(nextMessageId)
    {
      saved := Session(nextSessionId, userId, sessionName, isFavorite, now, now);
      sessions := sessions[saved.id := saved];
      nextSessionId := nextSessionId + 1;
    }

    /** save of a session that is already stored. */
    method UpdateSession(s: Session)
      requires Valid() && s.id in sessions
      modifies this
      ensures Valid()
      ensures sessions == old(sessions)[s.id := s]
      ensures messages == old(messages)
      ensures nextSessionId == old(nextSessionId) && nextMessageId == old(nextMessageId)
    {
      sessions := sessions[s.id := s];
    }

    /** delete of a session, with its messages. */
    method DeleteSession(id: int)
      requires Valid()
      modifies this
      ensures Valid()
      ensures sessions == old(sessions) - {id}
      ensures messages == WithoutSession(old(messages), id)
      ensures nextSessionId == old(nextSessionId) && nextMessageId == old(nextMessageId)
    {
      WithoutSessionKeepsOrder(messages, id);
      sessions := sessions - {id};
      messages := WithoutSession(messages, id);
    }
  }

  /** Message ids increase along the table. */
  predicate IdsIncreasing(messages: seq<ChatMessage>) {
    forall i, j :: 0 <= i < j < |messages| ==> messages[i].id < messages[j].id
  }

  /** Dropping rows keeps the survivors in their order. */
  lemma {:induction false} WithoutSessionKeepsOrder(messages: seq<ChatMessage>, sessionId: int)
    requires IdsIncreasing(messages)
    ensures IdsIncreasing(WithoutSession(messages, sessionId))
    decreases |messages|
  {
    if messages != [] {
      var init, last := messages[..|messages| - 1], messages[|messages| - 1];
      WithoutSessionKeepsOrder(init, sessionId);
      var r0 := WithoutSession(init, sessionId);
      if last.sessionId != sessionId {
        var r := r0 + [last];
        assert WithoutSession(messages, sessionId) == r;
        forall i | 0 <= i < |r0| ensures r0[i].id < last.id {
          assert r0[i] in init;
          var k :| 0 <= k < |init| && init[k] == r0[i];
          assert messages[k] == init[k];
        }
        forall i, j | 0 <= i < j < |r| ensures r[i].id < r[j].id {
          if j < |r0| {
            assert r[i] == r0[i] && r[j] == r0[j];
          } else {
            assert r[i] == r0[i] && r[j] == last;
          }
        }
      } else {
        assert WithoutSession(messages, sessionId) == r0 + [];
        assert r0 + [] == r0;
      }
    }
  }

  /** The Kafka producer, as the record of what it was asked to send. */
  class KafkaProducerService {
    var sessionEvents: seq<SessionEvent>
    var messageEvents: seq<MessageEvent>

    constructor ()
      ensures sessionEvents == [] && messageEvents == []
    {
      sessionEvents := [];
      messageEvents := [];
    }

    /** publishSessionEvent */
    method PublishSessionEvent(kind: SessionEventKind, sessionId: int, userId: string, sessionName: string)
      modifies this
      ensures sessionEvents == old(sessionEvents) + [SessionEvent(kind, sessionId, userId, sessionName)]
      ensures messageEvents == old(messageEvents)
    {
      sessionEvents := sessionEvents + [SessionEvent(kind, sessionId, userId, sessionName)];
    }

    /** publishMessageEvent: only the content's length is sent. */
    method PublishMessageEvent(kind: MessageEventKind, messageId: int, sessionId: int,
                               sender: SenderType, content: string)
      modifies this
      ensures messageEvents == old(messageEvents) + [MessageEvent(kind, messageId, sessionId, sender, |content|)]
      ensures sessionEvents == old(sessionEvents)
    {
      messageEvents := messageEvents + [MessageEvent(kind, messageId, sessionId, sender, |content|)];
    }
  }
}
