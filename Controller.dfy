/** MessageController: the HTTP entry points of the exchange. Each one
    charges the caller's rate limit first and only then delegates to the
    message service, with the authenticated name as the user id for both. */
module MessageApi {
  import opened Wrappers
  import opened Text
  import opened Storage
  import opened HuggingFace
  import opened RateLimit
  import opened Messages

  const Created: int := 201
  const Ok: int := 200
  const DefaultPage: int := 0
  const DefaultPageSize: int := 20
  const SortProperty := "timestamp"

  datatype HttpReply<T> = HttpReply(status: int, body: T)

  /** @NotBlank on MessageRequest.content: some character survives trim. */
  predicate NotBlank(s: string) {
    Trim(s) != []
  }

  /** PageRequest.of(page, size, Sort.by(direction, "timestamp")), which
      throws on a negative page or a size below one. */
  function PageRequestOf(page: int, size: int, direction: Direction): (r: Result<PageRequest, ApiError>)
    ensures r.Success? <==> page >= 0 && size >= 1
    ensures r.Success? ==> r.value == PageRequest(page, size, direction, SortProperty)
  {
    if page < 0 then Failure(InvalidPageRequest("Page index must not be less than zero"))
    else if size < 1 then Failure(InvalidPageRequest("Page size must not be less than one"))
    else Success(PageRequest(page, size, direction, SortProperty))
  }

  class MessageController {
    const messageService: MessageService
    const rateLimitService: RateLimitService

    constructor (messageService: MessageService, rateLimitService: RateLimitService)
      ensures this.messageService == messageService && this.rateLimitService == rateLimitService
    {
      this.messageService := messageService;
      this.rateLimitService := rateLimitService;
    }

    /** POST /api/sessions/{sessionId}/messages. A blank body never reaches
        the handler; otherwise the rate limit is charged, and only when it
        admits the call does the exchange run. */
    method AddMessage(sessionId: int, request: MessageRequest, principal: string,
                      calls: seq<HttpOutcome>, waits: seq<WaitOutcome>, times: ExchangeTimes)
      returns (r: Result<HttpReply<seq<MessageResponse>>, ApiError>)
      requires messageService.store.Valid()
      requires MaxRetries <= |calls| && MaxRetries - 1 <= |waits|
      modifies rateLimitService, messageService.store, messageService.kafka
      ensures messageService.store.Valid()
      ensures !NotBlank(request.content) ==>
        && r == Failure(ValidationFailed("Content is required"))
        && unchanged(rateLimitService) && unchanged(messageService.store) && unchanged(messageService.kafka)
      ensures NotBlank(request.content) ==>
        && rateLimitService.store == AfterCheck(old(rateLimitService.store), principal, rateLimitService.maxRequests)
        && rateLimitService.ttl == TtlAfterCheck(old(rateLimitService.store), old(rateLimitService.ttl), principal,
                                                 rateLimitService.durationSeconds)
      ensures NotBlank(request.content) && !Admits(old(rateLimitService.store), principal, rateLimitService.maxRequests) ==>
        && r == Failure(RateLimitExceeded(ExceededMessage(rateLimitService.maxRequests, rateLimitService.durationSeconds)))
        && unchanged(messageService.store) && unchanged(messageService.kafka)
      ensures NotBlank(request.content) && Admits(old(rateLimitService.store), principal, rateLimitService.maxRequests) ==>
        var x := ExchangeOf(old(messageService.store.sessions), old(messageService.store.messages),
                            old(messageService.store.nextMessageId), sessionId, principal, request,
                            CompletionOf(request.context, calls, waits).reply, times);
        && r == (if x.result.Success? then Success(HttpReply(Created, x.result.value)) else Failure(x.result.error))
        && messageService.store.sessions == x.sessions && messageService.store.messages == x.messages
        && messageService.store.nextMessageId == x.nextMessageId
        && messageService.store.nextSessionId == old(messageService.store.nextSessionId)
        && messageService.kafka.messageEvents == old(messageService.kafka.messageEvents) + x.published
        && messageService.kafka.sessionEvents == old(messageService.kafka.sessionEvents)
    {
      if !NotBlank(request.content) {
        return Failure(ValidationFailed("Content is required"));
      }
      var userId := principal;
      var admitted := rateLimitService.CheckRateLimit(userId);
      if admitted.Fail? {
        return Failure(admitted.error);
      }
      var response, _ := messageService.AddMessage(sessionId, userId, request, calls, waits, times);
      if response.Failure? {
        return Failure(response.error);
      }
      r := Success(HttpReply(Created, response.value));
    }

    /** GET /api/sessions/{sessionId}/messages. The rate limit is charged
        before the page request is built and before the ownership check. */
    method GetMessages(sessionId: int, page: Option<int>, size: Option<int>, direction: Option<Direction>,
                       principal: string)
      returns (r: Result<HttpReply<seq<MessageResponse>>, ApiError>)
      modifies rateLimitService
      ensures rateLimitService.store == AfterCheck(old(rateLimitService.store), principal, rateLimitService.maxRequests)
      ensures rateLimitService.ttl == TtlAfterCheck(old(rateLimitService.store), old(rateLimitService.ttl), principal,
                                                    rateLimitService.durationSeconds)
      ensures !Admits(old(rateLimitService.store), principal, rateLimitService.maxRequests) ==>
        r == Failure(RateLimitExceeded(ExceededMessage(rateLimitService.maxRequests, rateLimitService.durationSeconds)))
      ensures Admits(old(rateLimitService.store), principal, rateLimitService.maxRequests) ==>
        var pageable := PageRequestOf(page.GetOr(DefaultPage), size.GetOr(DefaultPageSize), direction.GetOr(Asc));
        var owned := messageService.store.FindByIdAndUserId(sessionId, principal);
        && (pageable.Failure? ==> r == Failure(pageable.error))
        && (pageable.Success? && owned.None? ==> r == Failure(SessionNotFound(NotFoundMessage(sessionId))))
        && (pageable.Success? && owned.Some? ==>
              r == Success(HttpReply(Ok, ResponsesOf(FindBySessionId(messageService.store.messages, sessionId)))))
    {
      var userId := principal;
      var admitted := rateLimitService.CheckRateLimit(userId);
      if admitted.Fail? {
        return Failure(admitted.error);
      }
      var pageable := PageRequestOf(page.GetOr(DefaultPage), size.GetOr(DefaultPageSize), direction.GetOr(Asc));
      if pageable.Failure? {
        return Failure(pageable.error);
      }
      var response := messageService.GetMessages(sessionId, userId, pageable.value);
      if response.Failure? {
        return Failure(response.error);
      }
      r := Success(HttpReply(Ok, response.value));
    }
  }

  /** A blank message is one that only holds characters trim removes. */
  lemma NotBlankIff(s: string)
    ensures NotBlank(s) <==> exists i :: 0 <= i < |s| && !IsTrimmable(s[i])
  {
    TrimEmptyIff(s);
  }
}
