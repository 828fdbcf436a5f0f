/** MessageService: the message exchange. One call looks up the caller's
    session, stores the user's message and announces it, asks the completion
    client for a reply, stores that reply as the assistant's message and
    announces it, and finally touches the session's last-updated time. */
module Messages {
  import opened Wrappers
  import opened Storage
  import opened Text
  import opened HuggingFace

  datatype MessageRequest = MessageRequest(content: string, context: Option<string>)

  datatype MessageResponse = MessageResponse(id: int, sessionId: int, sender: SenderType, content: string,
                                             context: Option<string>, timestamp: int)

  /** The clock readings of one exchange: when each message was saved and
      when the session was touched. */
  datatype ExchangeTimes = ExchangeTimes(userSavedAt: int, aiSavedAt: int, touchedAt: int)

  datatype Direction = Asc | Desc

  /** A Pageable: page number, page size and sort order. */
  datatype PageRequest = PageRequest(page: nat, size: nat, direction: Direction, sortBy: string)

  /** mapToResponse */
  function ResponseOf(m: ChatMessage): MessageResponse {
    MessageResponse(m.id, m.sessionId, m.sender, m.content, m.context, m.timestamp)
  }

  function ResponsesOf(ms: seq<ChatMessage>): (r: seq<MessageResponse>)
    ensures |r| == |ms| && forall i :: 0 <= i < |ms| ==> r[i] == ResponseOf(ms[i])
  {
    seq(|ms|, i requires 0 <= i < |ms| => ResponseOf(ms[i]))
  }

  /** The user's message as addMessage builds it (before its id is known,
      `id` is the one the table will assign). */
  function UserMessage(id: int, sessionId: int, request: MessageRequest, at: int): ChatMessage {
    ChatMessage(id, sessionId, User, request.content, request.context, at)
  }

  /** The assistant's message built from the completion client's reply. */
  function AiMessage(id: int, sessionId: int, reply: Reply, at: int): ChatMessage {
    ChatMessage(id, sessionId, Ai, reply.content, Some(reply.context), at)
  }

  /** The MESSAGE_ADDED event for a stored message. */
  function AddedEvent(m: ChatMessage): MessageEvent {
    MessageEvent(MessageAdded, m.id, m.sessionId, m.sender, |m.content|)
  }

  /** What one exchange returns and leaves behind. */
  datatype Exchange = Exchange(result: Result<seq<MessageResponse>, ApiError>,
                               sessions: map<int, Session>, messages: seq<ChatMessage>,
                               nextMessageId: int, published: seq<MessageEvent>)

  /** addMessage on the tables as they were, given the completion reply. */
  function ExchangeOf(sessions: map<int, Session>, messages: seq<ChatMessage>, nextMessageId: int,
                      sessionId: int, userId: string, request: MessageRequest, reply: Reply,
                      times: ExchangeTimes): Exchange
  {
    if !(sessionId in sessions && sessions[sessionId].userId == userId) then
      Exchange(Failure(SessionNotFound(NotFoundMessage(sessionId))), sessions, messages, nextMessageId, [])
    else
      var u := UserMessage(nextMessageId, sessionId, request, times.userSavedAt);
      var a := AiMessage(nextMessageId + 1, sessionId, reply, times.aiSavedAt);
      Exchange(Success([ResponseOf(u), ResponseOf(a)]),
               sessions[sessionId := sessions[sessionId].(updatedAt := times.touchedAt)],
               messages + [u, a], nextMessageId + 2, [AddedEvent(u), AddedEvent(a)])
  }

  class MessageService {
    const store: ChatStore
    const kafka: KafkaProducerService

    constructor (store: ChatStore, kafka: KafkaProducerService)
      ensures this.store == store && this.kafka == kafka
    {
      this.store := store;
      this.kafka := kafka;
    }

    /** addMessage. `calls` and `waits` stand for what the completion
        endpoint and the back-off sleeps do; `requests` records the message
        arrays sent to it. */
    method AddMessage(sessionId: int, userId: string, request: MessageRequest,
                      calls: seq<HttpOutcome>, waits: seq<WaitOutcome>, times: ExchangeTimes)
      returns (r: Result<seq<MessageResponse>, ApiError>, ghost requests: seq<seq<Turn>>)
      requires store.Valid()
      requires MaxRetries <= |calls| && MaxRetries - 1 <= |waits|
      modifies store, kafka
      ensures store.Valid()
      ensures var x := ExchangeOf(old(store.sessions), old(store.messages), old(store.nextMessageId),
                                  sessionId, userId, request, CompletionOf(request.context, calls, waits).reply, times);
        && r == x.result
        && store.sessions == x.sessions && store.messages == x.messages && store.nextMessageId == x.nextMessageId
        && kafka.messageEvents == old(kafka.messageEvents) + x.published
      ensures store.nextSessionId == old(store.nextSessionId) && kafka.sessionEvents == old(kafka.sessionEvents)
      ensures r.Failure? ==> requests == []
      ensures r.Success? ==> |requests| == CompletionOf(request.context, calls, waits).attempts
      ensures forall i :: 0 <= i < |requests| ==> requests[i] == BuildMessages(request.content, request.context)
    {
      var found := store.FindByIdAndUserId(sessionId, userId);
      if found.None? {
        return Failure(SessionNotFound(NotFoundMessage(sessionId))), [];
      }
      var session := found.value;
      var responses: seq<MessageResponse> := [];

      var message := store.InsertMessage(session.id, User, request.content, request.context, times.userSavedAt);
      kafka.PublishMessageEvent(MessageAdded, message.id, sessionId, User, request.content);
      responses := responses + [ResponseOf(message)];

      var aiResponse, sent := GenerateResponse(request.content, request.context, calls, waits);
      requests := sent;

      var aiMessage := store.InsertMessage(session.id, Ai, aiResponse.content, Some(aiResponse.context), times.aiSavedAt);
      kafka.PublishMessageEvent(MessageAdded, aiMessage.id, sessionId, Ai, aiResponse.content);
      responses := responses + [ResponseOf(aiMessage)];

      store.UpdateSession(session.(updatedAt := times.touchedAt));
      assert responses == [ResponseOf(message), ResponseOf(aiMessage)];
      assert store.messages == old(store.messages) + [message, aiMessage];
      r := Success(responses);
    }

    /** getMessages: the caller's session's messages, after the ownership
        check. */
    method GetMessages(sessionId: int, userId: string, pageable: PageRequest)
      returns (r: Result<seq<MessageResponse>, ApiError>)
      ensures r.Failure? <==> store.FindByIdAndUserId(sessionId, userId).None?
      ensures r.Failure? ==> r.error == SessionNotFound(NotFoundMessage(sessionId))
      ensures r.Success? ==> r.value == ResponsesOf(FindBySessionId(store.messages, sessionId))
    {
      var found := store.FindByIdAndUserId(sessionId, userId);
      if found.None? {
        return Failure(SessionNotFound(NotFoundMessage(sessionId)));
      }
      r := Success(ResponsesOf(FindBySessionId(store.messages, sessionId)));
    }
  }

  // ---------------------------------------------------------------------
  // Properties of one exchange

  /** An unknown or foreign session is rejected before anything is stored
      or published. */
  lemma RejectedExchangeChangesNothing(sessions: map<int, Session>, messages: seq<ChatMessage>, nextMessageId: int,
                                       sessionId: int, userId: string, request: MessageRequest, reply: Reply,
                                       times: ExchangeTimes)
    requires !(sessionId in sessions && sessions[sessionId].userId == userId)
    ensures var x := ExchangeOf(sessions, messages, nextMessageId, sessionId, userId, request, reply, times);
      && x.result == Failure(SessionNotFound(NotFoundMessage(sessionId)))
      && x.sessions == sessions && x.messages == messages && x.nextMessageId == nextMessageId
      && x.published == []
  {
  }

  /** On the caller's own session the exchange always succeeds, whatever the
      completion client replied: there is no partial outcome. */
  lemma OwnedExchangeSucceeds(sessions: map<int, Session>, messages: seq<ChatMessage>, nextMessageId: int,
                              sessionId: int, userId: string, request: MessageRequest, reply: Reply,
                              times: ExchangeTimes)
    requires sessionId in sessions && sessions[sessionId].userId == userId
    ensures ExchangeOf(sessions, messages, nextMessageId, sessionId, userId, request, reply, times).result.Success?
  {
  }

  /** A successful exchange appends exactly two messages to the session,
      the user's then the assistant's, announces them in that order, and
      returns them in that order. */
  lemma ExchangeAddsTwoMessages(sessions: map<int, Session>, messages: seq<ChatMessage>, nextMessageId: int,
                                sessionId: int, userId: string, request: MessageRequest, reply: Reply,
                                times: ExchangeTimes)
    requires sessionId in sessions && sessions[sessionId].userId == userId
    ensures var x := ExchangeOf(sessions, messages, nextMessageId, sessionId, userId, request, reply, times);
      var n := |messages|;
      && |x.messages| == n + 2 && x.messages[..n] == messages
      && x.messages[n].sessionId == sessionId && x.messages[n + 1].sessionId == sessionId
      && x.messages[n].sender == User && x.messages[n + 1].sender == Ai
      && x.messages[n].content == request.content && x.messages[n].context == request.context
      && x.messages[n + 1].content == reply.content && x.messages[n + 1].context == Some(reply.context)
      && |x.published| == 2
      && x.published[0] == MessageEvent(MessageAdded, x.messages[n].id, sessionId, User, |request.content|)
      && x.published[1] == MessageEvent(MessageAdded, x.messages[n + 1].id, sessionId, Ai, |reply.content|)
      && x.result.Success? && x.result.value == ResponsesOf(x.messages[n..])
  {
    var x := ExchangeOf(sessions, messages, nextMessageId, sessionId, userId, request, reply, times);
    assert x.messages[|messages|..] == x.messages[|messages|..|messages| + 2];
  }

  /** Only the looked-up session's last-updated time changes in the
      session table. */
  lemma ExchangeTouchesOnlyItsSession(sessions: map<int, Session>, messages: seq<ChatMessage>, nextMessageId: int,
                                      sessionId: int, userId: string, request: MessageRequest, reply: Reply,
                                      times: ExchangeTimes)
    requires sessionId in sessions && sessions[sessionId].userId == userId
    ensures var x := ExchangeOf(sessions, messages, nextMessageId, sessionId, userId, request, reply, times);
      && x.sessions.Keys == sessions.Keys
      && (forall id :: id in sessions && id != sessionId ==> x.sessions[id] == sessions[id])
      && x.sessions[sessionId] == sessions[sessionId].(updatedAt := times.touchedAt)
  {
  }

  /** The session's message count rises by exactly two, every other
      session's stays the same. */
  lemma ExchangeCounts(sessions: map<int, Session>, messages: seq<ChatMessage>, nextMessageId: int,
                       sessionId: int, userId: string, request: MessageRequest, reply: Reply,
                       times: ExchangeTimes, other: int)
    requires sessionId in sessions && sessions[sessionId].userId == userId
    ensures var x := ExchangeOf(sessions, messages, nextMessageId, sessionId, userId, request, reply, times);
      && CountBySessionId(x.messages, sessionId) == CountBySessionId(messages, sessionId) + 2
      && (other != sessionId ==> CountBySessionId(x.messages, other) == CountBySessionId(messages, other))
  {
    var u := UserMessage(nextMessageId, sessionId, request, times.userSavedAt);
    var a := AiMessage(nextMessageId + 1, sessionId, reply, times.aiSavedAt);
    assert messages + [u, a] == (messages + [u]) + [a];
    CountAppend(messages, u, sessionId);
    CountAppend(messages + [u], a, sessionId);
    CountAppend(messages, u, other);
    CountAppend(messages + [u], a, other);
  }

  /** End to end, by the outcome of the last request sent: a response with
      text `t` makes the assistant message hold the trimmed text and the
      caller's context extended by `t`; any other outcome makes it hold the
      caller's context unchanged (null read as empty). */
  lemma ExchangeThreadsContext(sessions: map<int, Session>, messages: seq<ChatMessage>, nextMessageId: int,
                               sessionId: int, userId: string, request: MessageRequest,
                               calls: seq<HttpOutcome>, waits: seq<WaitOutcome>, times: ExchangeTimes, t: string)
    requires sessionId in sessions && sessions[sessionId].userId == userId
    requires MaxRetries <= |calls| && MaxRetries - 1 <= |waits|
    ensures var c := CompletionOf(request.context, calls, waits);
      var x := ExchangeOf(sessions, messages, nextMessageId, sessionId, userId, request, c.reply, times);
      var ai := x.messages[|messages| + 1];
      Generated(calls[c.attempts - 1], t) ==>
        ai.content == Trim(t) && ai.context == Some(BuildContextString(request.context, t))
    ensures var c := CompletionOf(request.context, calls, waits);
      var x := ExchangeOf(sessions, messages, nextMessageId, sessionId, userId, request, c.reply, times);
      var ai := x.messages[|messages| + 1];
      Degraded(calls[c.attempts - 1]) ==> ai.context == Some(PassedContext(request.context))
  {
    ContextThreading(request.context, calls, waits, t);
  }
}
