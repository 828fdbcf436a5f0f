/** SessionService: create, read, rename, favorite-toggle and delete of a
    chat session, each scoped by (session id, owning user), each publishing a
    session event, and each answering with the session and its message count. */
module Sessions {
  import opened Wrappers
  import opened Storage

  datatype SessionRequest = SessionRequest(sessionName: string)

  datatype SessionResponse = SessionResponse(id: int, userId: string, sessionName: string, isFavorite: bool,
                                             createdAt: int, updatedAt: int, messageCount: nat)

  /** mapToResponse: the session's fields and the number of stored messages
      that reference it. */
  function ResponseOf(s: Session, messages: seq<ChatMessage>): (r: SessionResponse)
    ensures r.messageCount == |FindBySessionId(messages, s.id)|
    ensures r.id == s.id && r.userId == s.userId && r.sessionName == s.sessionName
    ensures r.isFavorite == s.isFavorite && r.createdAt == s.createdAt && r.updatedAt == s.updatedAt
  {
    CountIsFindLength(messages, s.id);
    SessionResponse(s.id, s.userId, s.sessionName, s.isFavorite, s.createdAt, s.updatedAt,
                    CountBySessionId(messages, s.id))
  }

  /** The session with its favorite flag negated. */
  function Toggled(s: Session): Session {
    s.(isFavorite := !s.isFavorite)
  }

  /** The event a toggle publishes, from the flag's new value. */
  function FavoriteEventKind(isFavorite: bool): SessionEventKind {
    if isFavorite then SessionFavorited else SessionUnfavorited
  }

  /** Toggling twice gives back the session as it was. */
  lemma ToggleTwiceRestores(s: Session)
    ensures Toggled(Toggled(s)) == s
    ensures Toggled(s).isFavorite != s.isFavorite
  {
  }

  /** The toggle event says "favorited" exactly when the new flag is set. */
  lemma FavoriteEventIff(isFavorite: bool)
    ensures FavoriteEventKind(isFavorite) == SessionFavorited <==> isFavorite
    ensures FavoriteEventKind(isFavorite) == SessionUnfavorited <==> !isFavorite
  {
  }

  class SessionService {
    const store: ChatStore
    const kafka: KafkaProducerService

    constructor (store: ChatStore, kafka: KafkaProducerService)
      ensures this.store == store && this.kafka == kafka
    {
      this.store := store;
      this.kafka := kafka;
    }

    /** createSession: a new, non-favorite session owned by the caller. */
    method CreateSession(userId: string, request: SessionRequest, now: int) returns (resp: SessionResponse)
      requires store.Valid()
      modifies store, kafka
      ensures store.Valid()
      ensures var s := Session(old(store.nextSessionId), userId, request.sessionName, false, now, now);
        && s.id !in old(store.sessions)
        && store.sessions == old(store.sessions)[s.id := s]
        && kafka.sessionEvents == old(kafka.sessionEvents) + [SessionEvent(SessionCreated, s.id, userId, s.sessionName)]
        && resp == ResponseOf(s, store.messages)
      ensures resp.messageCount == 0
      ensures store.messages == old(store.messages) && store.nextMessageId == old(store.nextMessageId)
      ensures kafka.messageEvents == old(kafka.messageEvents)
    {
      var session := store.InsertSession(userId, request.sessionName, false, now);
      kafka.PublishSessionEvent(SessionCreated, session.id, userId, session.sessionName);
      forall i | 0 <= i < |store.messages| ensures store.messages[i].sessionId != session.id {
        assert store.messages[i].sessionId in old(store.sessions);
      }
      CountUnreferenced(store.messages, session.id);
      resp := ResponseOf(session, store.messages);
    }

    /** getSessionById: the caller's session, or not-found. */
    method GetSessionById(sessionId: int, userId: string) returns (r: Result<SessionResponse, ApiError>)
      ensures r.Success? <==> sessionId in store.sessions && store.sessions[sessionId].userId == userId
      ensures r.Success? ==> r.value == ResponseOf(store.sessions[sessionId], store.messages)
      ensures r.Failure? ==> r.error == SessionNotFound(NotFoundMessage(sessionId))
    {
      var found := store.FindByIdAndUserId(sessionId, userId);
      if found.None? {
        return Failure(SessionNotFound(NotFoundMessage(sessionId)));
      }
      r := Success(ResponseOf(found.value, store.messages));
    }

    /** updateSessionName: only the name of the caller's session changes. */
    method UpdateSessionName(sessionId: int, userId: string, request: SessionRequest)
      returns (r: Result<SessionResponse, ApiError>)
      requires store.Valid()
      modifies store, kafka
      ensures store.Valid()
      ensures store.messages == old(store.messages) && kafka.messageEvents == old(kafka.messageEvents)
      ensures store.nextSessionId == old(store.nextSessionId) && store.nextMessageId == old(store.nextMessageId)
      ensures old(store.FindByIdAndUserId(sessionId, userId)).None? ==>
        && r == Failure(SessionNotFound(NotFoundMessage(sessionId)))
        && store.sessions == old(store.sessions)
        && kafka.sessionEvents == old(kafka.sessionEvents)
      ensures old(store.FindByIdAndUserId(sessionId, userId)).Some? ==>
        var s := old(store.sessions)[sessionId].(sessionName := request.sessionName);
        && store.sessions == old(store.sessions)[sessionId := s]
        && kafka.sessionEvents == old(kafka.sessionEvents) + [SessionEvent(SessionRenamed, sessionId, userId, s.sessionName)]
        && r == Success(ResponseOf(s, store.messages))
    {
      var found := store.FindByIdAndUserId(sessionId, userId);
      if found.None? {
        return Failure(SessionNotFound(NotFoundMessage(sessionId)));
      }
      var session := found.value.(sessionName := request.sessionName);
      store.UpdateSession(session);
      kafka.PublishSessionEvent(SessionRenamed, session.id, userId, session.sessionName);
      r := Success(ResponseOf(session, store.messages));
    }

    /** toggleFavorite: the caller's session with its flag negated. */
    method ToggleFavorite(sessionId: int, userId: string) returns (r: Result<SessionResponse, ApiError>)
      requires store.Valid()
      modifies store, kafka
      ensures store.Valid()
      ensures store.messages == old(store.messages) && kafka.messageEvents == old(kafka.messageEvents)
      ensures store.nextSessionId == old(store.nextSessionId) && store.nextMessageId == old(store.nextMessageId)
      ensures old(store.FindByIdAndUserId(sessionId, userId)).None? ==>
        && r == Failure(SessionNotFound(NotFoundMessage(sessionId)))
        && store.sessions == old(store.sessions)
        && kafka.sessionEvents == old(kafka.sessionEvents)
      ensures old(store.FindByIdAndUserId(sessionId, userId)).Some? ==>
        var s := Toggled(old(store.sessions)[sessionId]);
        && store.sessions == old(store.sessions)[sessionId := s]
        && kafka.sessionEvents == old(kafka.sessionEvents)
             + [SessionEvent(FavoriteEventKind(s.isFavorite), sessionId, userId, s.sessionName)]
        && r == Success(ResponseOf(s, store.messages))
    {
      var found := store.FindByIdAndUserId(sessionId, userId);
      if found.None? {
        return Failure(SessionNotFound(NotFoundMessage(sessionId)));
      }
      var session := found.value.(isFavorite := !found.value.isFavorite);
      store.UpdateSession(session);
      var eventType := if session.isFavorite then SessionFavorited else SessionUnfavorited;
      kafka.PublishSessionEvent(eventType, session.id, userId, session.sessionName);
      r := Success(ResponseOf(session, store.messages));
    }

    /** deleteSession: the caller's session goes, with its messages. */
    method DeleteSession(sessionId: int, userId: string) returns (r: Outcome<ApiError>)
      requires store.Valid()
      modifies store, kafka
      ensures store.Valid()
      ensures kafka.messageEvents == old(kafka.messageEvents)
      ensures store.nextSessionId == old(store.nextSessionId) && store.nextMessageId == old(store.nextMessageId)
      ensures old(store.FindByIdAndUserId(sessionId, userId)).None? ==>
        && r == Fail(SessionNotFound(NotFoundMessage(sessionId)))
        && store.sessions == old(store.sessions) && store.messages == old(store.messages)
        && kafka.sessionEvents == old(kafka.sessionEvents)
      ensures old(store.FindByIdAndUserId(sessionId, userId)).Some? ==>
        && r == Pass
        && store.sessions == old(store.sessions) - {sessionId}
        && store.messages == WithoutSession(old(store.messages), sessionId)
        && kafka.sessionEvents == old(kafka.sessionEvents)
             + [SessionEvent(SessionDeleted, sessionId, userId, old(store.sessions)[sessionId].sessionName)]
    {
      var found := store.FindByIdAndUserId(sessionId, userId);
      if found.None? {
        return Fail(SessionNotFound(NotFoundMessage(sessionId)));
      }
      store.DeleteSession(found.value.id);
      kafka.PublishSessionEvent(SessionDeleted, sessionId, userId, found.value.sessionName);
      r := Pass;
    }
  }

  /** After a delete, the other sessions keep their message counts and the
      deleted id counts no messages. */
  lemma DeleteKeepsOtherCounts(messages: seq<ChatMessage>, deleted: int, s: Session)
    ensures ResponseOf(s, WithoutSession(messages, deleted)).messageCount
            == if s.id == deleted then 0 else ResponseOf(s, messages).messageCount
  {
    CountWithoutSession(messages, deleted, s.id);
  }
}
