# rag-chat-storage: a verified model of the message exchange

rag-chat-storage is a Spring Boot service that stores chat sessions and their
messages. When a user adds a message to a session, the service stores it, asks
an OpenAI-compatible completion endpoint for a reply, stores the reply as the
assistant's message and announces both on a Kafka topic. This project models
that exchange in Dafny and proves properties of the model:

- the completion client (`HuggingFace`, Completion.dfy): its retry loop, how
  each failure maps to a degraded reply, how the response body is parsed, and
  how the conversation context is threaded;
- the fixed-window rate limiter (`RateLimit`, RateLimit.dfy): a per-user
  counter in a key/value store, where a key's expiry is an explicit step;
- the tables and the event producer (`Storage`, Storage.dfy): the session
  table as a map, the message table as a sequence with identity counters, and
  the Kafka producer as two event logs;
- session operations (`Sessions`, Sessions.dfy): create, get, rename,
  favorite toggle, delete, and the message count shown in every response;
- the exchange (`Messages`, Messages.dfy): `addMessage` as an imperative
  method, tied to a pure function `ExchangeOf` that the lemmas reason about,
  and the ownership-guarded `getMessages`;
- the HTTP handlers for messages (`MessageApi`, Controller.dfy): bean
  validation, the rate check before delegation, and page-request building;
- the two request filters (`Security`, Security.dfy): the public-path rule
  they share, bearer-token extraction, the JWT authentication decision and the
  API-key decision, each as a pure decision function, plus the filter methods
  that act on a request/response exchange.

The model takes the outside world as parameters. The completion endpoint is a
sequence of attempt outcomes (`HttpOutcome`). The back-off sleep is a sequence
of wait outcomes (`WaitOutcome`). Clock readings are integer inputs.
`JwtUtil.validateToken` and `getUserIdFromToken` are caller-supplied functions
that may throw.

Three behaviours of the code the model keeps as written:

- a client error other than 401, 429 or 404 yields "Error communicating with
  AI service" (HuggingFaceService.java:112). Only server errors yield the
  "temporarily unavailable" text, and any other exception yields "Error
  processing your request: " followed by its message (:116);
- a degraded reply passes a null context on as the empty string, never as
  null (HuggingFaceService.java:226 and :233);
- rename and favorite toggle set only the name or the flag before saving
  (SessionService.java:82-83 and :99-100). Any change to the last-updated time
  would come from the session entity's auditing, and ChatSession.java is not
  part of this model.

## Model

| member | source | states |
|---|---|---|
| HuggingFace.BuildMessages | src/main/java/com/ragchat/storage/service/HuggingFaceService.java:127-152 | the system turn comes first and the user turn last; an assistant turn holding the context sits between them exactly when the context is non-null and non-empty, so there are 2 or 3 turns |
| HuggingFace.CompletionFrom | src/main/java/com/ragchat/storage/service/HuggingFaceService.java:46-121 | a call that starts at attempt `a` sends more than `a` requests and never more than MAX_RETRIES = 2 |
| HuggingFace.GenerateResponse | src/main/java/com/ragchat/storage/service/HuggingFaceService.java:46-121 | the retry loop sends 1 or 2 requests, each with the same message list, and returns the reply the whole-call function gives for these outcomes; the return after the loop is unreachable |
| HuggingFace.SecondAttemptOnlyAfterTransient | src/main/java/com/ragchat/storage/service/HuggingFaceService.java:81-94 | a second request is sent if and only if the first failed with HTTP 500 or 503 and the back-off sleep was not interrupted |
| HuggingFace.ClientErrorsNeverRetry | src/main/java/com/ragchat/storage/service/HuggingFaceService.java:100-112 | a client error ends the call after one request; 401, 429 and 404 give their fixed texts, any other status gives "Error communicating with AI service", and the caller's context is kept |
| HuggingFace.ExhaustedRetries | src/main/java/com/ragchat/storage/service/HuggingFaceService.java:81-98 | two transient server errors use both attempts and end in the "temporarily unavailable" reply with the caller's context |
| HuggingFace.RepliesAreClassified | src/main/java/com/ragchat/storage/service/HuggingFaceService.java:46-121 | every reply is one of the fixed degraded texts, a report of an unexpected exception, or the trimmed text of one of the responses |
| HuggingFace.ClassifiedFrom | src/main/java/com/ragchat/storage/service/HuggingFaceService.java:46-121 | the same classification for the call from any attempt on, proved by induction over the attempts |
| HuggingFace.ParseWellFormed | src/main/java/com/ragchat/storage/service/HuggingFaceService.java:185-203 | a body of the documented shape with non-blank text gives the trimmed text as content and the context built from the untrimmed text |
| HuggingFace.ParseGeneratedText | src/main/java/com/ragchat/storage/service/HuggingFaceService.java:182-211 | the converse: a parsed reply other than the default one comes from a body of the documented shape with non-blank text |
| HuggingFace.ParseFallsBackToDefault | src/main/java/com/ragchat/storage/service/HuggingFaceService.java:182-211 | a body without non-blank generated text gives the default "could you rephrase" reply, or a parsing exception |
| HuggingFace.ContextThreading | src/main/java/com/ragchat/storage/service/HuggingFaceService.java:182-235 | split on the outcome of the last request sent: if it is a response whose generated text t is non-blank, the reply is exactly (trim(t), the caller's context joined by a newline with t); if it has no non-blank generated text at all (a server or client error, another exception, a body of another shape), the reply's context is the caller's context with null read as "" |
| HuggingFace.ThreadingFrom | src/main/java/com/ragchat/storage/service/HuggingFaceService.java:46-121 | the generated-text half of that split for the call from any attempt on, proved by induction over the attempts: a retried attempt is never the last one unless its back-off was interrupted, in which case it carried no generated text |
| HuggingFace.ThreadingSettled | src/main/java/com/ragchat/storage/service/HuggingFaceService.java:58-121 | an attempt that is not retried ends the call, and if its response carries non-blank generated text t the reply is (trim(t), context joined with t) |
| HuggingFace.PassingFrom | src/main/java/com/ragchat/storage/service/HuggingFaceService.java:46-121 | the degraded half of the split from any attempt on, by induction over the attempts: when the last request carried no non-blank generated text, the reply keeps the caller's context |
| HuggingFace.SettledGenerated | src/main/java/com/ragchat/storage/service/HuggingFaceService.java:185-203 | a settled response with non-blank generated text t gives the reply (trim(t), context joined with t) |
| HuggingFace.SettledDegraded | src/main/java/com/ragchat/storage/service/HuggingFaceService.java:95-121 | a settled outcome without non-blank generated text gives a reply whose context is the caller's context, null read as "" |
| Text.TrimStart | src/main/java/com/ragchat/storage/service/HuggingFaceService.java:198-200 | String.trim's leading cut: a suffix whose removed characters are all at most U+0020 and whose first character is not |
| Text.TrimEnd | src/main/java/com/ragchat/storage/service/HuggingFaceService.java:198-200 | String.trim's trailing cut: a prefix whose removed characters are all at most U+0020 and whose last character is not |
| Text.TrimEmptyIff | src/main/java/com/ragchat/storage/service/HuggingFaceService.java:198 | `trim().isEmpty()` holds exactly when every character is at most U+0020 |
| Text.TrimmedEnds | src/main/java/com/ragchat/storage/service/HuggingFaceService.java:200 | non-empty trimmed text neither starts nor ends with a character trim removes |
| RateLimit.KeyInjective | src/main/java/com/ragchat/storage/service/RateLimitService.java:26 | distinct users get distinct "rate_limit:" keys |
| RateLimit.AfterCheck | src/main/java/com/ragchat/storage/service/RateLimitService.java:25-46 | after a check the caller's key is present, and every other key is present exactly when it was before, with the same count |
| RateLimit.RateLimitService.constructor | src/main/java/com/ragchat/storage/service/RateLimitService.java:15-23 | the service starts with an empty store and the configured ceiling and window |
| RateLimit.RateLimitService.CheckRateLimit | src/main/java/com/ragchat/storage/service/RateLimitService.java:25-46 | the call passes exactly when the key is absent or its count is below the ceiling; a rejection carries the formatted ceiling message; the store becomes the checked-store function of the old one; a time-to-live of the window length is set only when the key was absent, and every other time-to-live is kept |
| RateLimit.RateLimitService.Expire | src/main/java/com/ragchat/storage/service/RateLimitService.java:31 | only a key given a time-to-live can expire; the expiry removes the key and its time-to-live and nothing else |
| RateLimit.OtherUsersUnaffected | src/main/java/com/ragchat/storage/service/RateLimitService.java:26 | a check for one user leaves every other user's counter present or absent, and valued, as before |
| RateLimit.CheckCases | src/main/java/com/ragchat/storage/service/RateLimitService.java:28-45 | an absent key is admitted and set to 1; a count at or above the ceiling is rejected and the store is unchanged; a count below it is admitted and raised by exactly 1 |
| RateLimit.ExpiryRestartsWindow | src/main/java/com/ragchat/storage/service/RateLimitService.java:28-32 | after expiry the next call is admitted and the count restarts at 1, whatever it was |
| RateLimit.CountStaysWithinCeiling | src/main/java/com/ragchat/storage/service/RateLimitService.java:34-43 | with a ceiling of at least 1, one check never takes a count within the ceiling beyond it |
| RateLimit.Verdicts | src/main/java/com/ragchat/storage/service/RateLimitService.java:25-46 | n consecutive checks give n verdicts |
| RateLimit.VerdictIsAdmission | src/main/java/com/ragchat/storage/service/RateLimitService.java:28-44 | verdict i of a run is true exactly when the counters the first i calls left admit the call, proved by induction over the run |
| RateLimit.AdmittedUpToCeiling | src/main/java/com/ragchat/storage/service/RateLimitService.java:34-44 | from a count c, the next n calls with c + n within the ceiling are all admitted and leave the count at c + n |
| RateLimit.FixedWindow | src/main/java/com/ragchat/storage/service/RateLimitService.java:30-44 | in a fresh window with a ceiling N >= 1, calls 1 to N are admitted, call N + 1 is rejected, and the count is then N |
| RateLimit.VerdictsSplit | src/main/java/com/ragchat/storage/service/RateLimitService.java:25-46 | the verdict of call n + 1 depends only on the counters the first n calls left |
| RateLimit.CeilingInvariant | src/main/java/com/ragchat/storage/service/RateLimitService.java:34-43 | over any number of calls, a count that starts within the ceiling stays within it |
| RateLimit.SplitWithoutExpiry | src/main/java/com/ragchat/storage/service/RateLimitService.java:28-43 | run as separate `get`, `set` and `increment` operations with no expiry in between, a call leaves the counters, the time-to-live table and the verdict exactly as the one-step check does |
| RateLimit.ExpiryBetweenReadAndIncrement | src/main/java/com/ragchat/storage/service/RateLimitService.java:28-43 | in the separate-operations run, if the key expires after `get` admitted the call and before `increment`, the call is admitted, INCR recreates the counter at 1 with no time-to-live, every other key is kept, and no number of later calls gives the counter a time-to-live again |
| RateLimit.OrphanedCounterNeverExpires | src/main/java/com/ragchat/storage/service/RateLimitService.java:28-43 | a counter without a time-to-live keeps none over any number of later calls, since only the call that creates the key sets one; such a counter therefore never expires |
| Storage.FindBySessionId | src/main/java/com/ragchat/storage/repository/MessageRepository.java:11 | the session's messages are exactly the stored messages that reference it |
| Storage.WithoutSession | src/main/java/com/ragchat/storage/service/SessionService.java:117 | the rows that survive a session delete are exactly those referencing another session |
| Storage.CountIsFindLength | src/main/java/com/ragchat/storage/repository/MessageRepository.java:11-12 | countBySessionId equals the number of messages findBySessionId lists |
| Storage.CountAppend | src/main/java/com/ragchat/storage/repository/MessageRepository.java:12 | appending a row adds one to the count of its own session and nothing to any other |
| Storage.CountUnreferenced | src/main/java/com/ragchat/storage/repository/MessageRepository.java:12 | a session no message references counts zero |
| Storage.CountWithoutSession | src/main/java/com/ragchat/storage/service/SessionService.java:117 | after the cascade the deleted session counts zero and every other session keeps its count |
| Storage.WithoutSessionKeepsOrder | src/main/java/com/ragchat/storage/service/SessionService.java:117 | the cascade keeps the surviving messages in increasing id order |
| Storage.ChatStore.constructor | src/main/java/com/ragchat/storage/repository/SessionRepository.java:12 | the tables start empty and consistent |
| Storage.ChatStore.FindByIdAndUserId | src/main/java/com/ragchat/storage/repository/SessionRepository.java:15 | a session is found exactly when the id exists and the user owns it, and then it is the stored row |
| Storage.ChatStore.InsertMessage | src/main/java/com/ragchat/storage/model/ChatMessage.java:23-44 | a saved message takes the next identity value and the clock's timestamp, and is appended; the session table is untouched |
| Storage.ChatStore.InsertSession | src/main/java/com/ragchat/storage/service/SessionService.java:39 | a saved session takes a fresh identity value and is added; the message table is untouched |
| Storage.ChatStore.UpdateSession | src/main/java/com/ragchat/storage/service/SessionService.java:83 | saving an existing session replaces only its own row |
| Storage.ChatStore.DeleteSession | src/main/java/com/ragchat/storage/service/SessionService.java:117 | the session's row and all its messages go (the message cascade is assumed; see Left out); everything else stays and the tables stay consistent |
| Storage.KafkaProducerService.constructor | src/main/java/com/ragchat/storage/service/KafkaProducerService.java:15-17 | both event logs start empty |
| Storage.KafkaProducerService.PublishSessionEvent | src/main/java/com/ragchat/storage/service/KafkaProducerService.java:25-41 | one session event with kind, session id, user id and name is appended; the message log is untouched |
| Storage.KafkaProducerService.PublishMessageEvent | src/main/java/com/ragchat/storage/service/KafkaProducerService.java:43-60 | one message event is appended carrying the content's length, not the content; the session log is untouched |
| Sessions.ResponseOf | src/main/java/com/ragchat/storage/service/SessionService.java:123-128 | a response copies the session's fields, and its message count is the number of stored messages that reference the session |
| Sessions.ToggleTwiceRestores | src/main/java/com/ragchat/storage/service/SessionService.java:99 | toggling negates the favorite flag, and toggling twice restores the session |
| Sessions.FavoriteEventIff | src/main/java/com/ragchat/storage/service/SessionService.java:102-104 | the toggle event is SESSION_FAVORITED exactly when the new flag is true, and SESSION_UNFAVORITED exactly when it is false |
| Sessions.SessionService.constructor | src/main/java/com/ragchat/storage/service/SessionService.java:22-27 | the service is wired to the given tables and producer |
| Sessions.SessionService.CreateSession | src/main/java/com/ragchat/storage/service/SessionService.java:29-45 | a new, non-favorite session owned by the caller with the requested name is added under a fresh id, SESSION_CREATED is published, and the response counts zero messages |
| Sessions.SessionService.GetSessionById | src/main/java/com/ragchat/storage/service/SessionService.java:63-72 | the response is returned exactly when the caller owns the session; otherwise not-found with the session id in the message |
| Sessions.SessionService.UpdateSessionName | src/main/java/com/ragchat/storage/service/SessionService.java:74-89 | not found: nothing changes and nothing is published; found: only that session's name changes and SESSION_RENAMED is published |
| Sessions.SessionService.ToggleFavorite | src/main/java/com/ragchat/storage/service/SessionService.java:91-107 | not found: nothing changes; found: only that session's flag is negated and the event kind follows the new flag |
| Sessions.SessionService.DeleteSession | src/main/java/com/ragchat/storage/service/SessionService.java:109-121 | not found: nothing changes; found: exactly that session and its messages go and SESSION_DELETED is published with the requested id and the old name |
| Sessions.DeleteKeepsOtherCounts | src/main/java/com/ragchat/storage/service/SessionService.java:123-127 | after a delete every other session reports the same message count and the deleted id reports zero |
| Messages.ResponsesOf | src/main/java/com/ragchat/storage/service/MessageService.java:103-104 | one response per message, in order |
| Messages.MessageService.constructor | src/main/java/com/ragchat/storage/service/MessageService.java:29-35 | the service is wired to the given tables and producer |
| Messages.MessageService.AddMessage | src/main/java/com/ragchat/storage/service/MessageService.java:37-92 | the result, tables and event log are those of the exchange function on the old tables and on the completion client's reply; the completion client receives the request's content and context, once per attempt the completion call makes; a rejection sends no completion request |
| Messages.MessageService.GetMessages | src/main/java/com/ragchat/storage/service/MessageService.java:94-121 | it fails with not-found exactly when the caller does not own the session, and otherwise lists the session's messages; it changes nothing |
| Messages.RejectedExchangeChangesNothing | src/main/java/com/ragchat/storage/service/MessageService.java:41-42 | an unknown or foreign session is rejected with not-found, and no message is stored and no event is published |
| Messages.OwnedExchangeSucceeds | src/main/java/com/ragchat/storage/service/MessageService.java:37-92 | on an owned session the exchange succeeds whatever the completion client replied |
| Messages.ExchangeAddsTwoMessages | src/main/java/com/ragchat/storage/service/MessageService.java:43-86 | exactly two messages are appended to the session, the user's with the request's content and context and then the assistant's with the reply's; two MESSAGE_ADDED events follow with their ids, in the same order; the result is the two messages in that order |
| Messages.ExchangeTouchesOnlyItsSession | src/main/java/com/ragchat/storage/service/MessageService.java:89-90 | the session table keeps its ids; only the looked-up session changes, and only its last-updated time |
| Messages.ExchangeCounts | src/main/java/com/ragchat/storage/service/MessageService.java:52-76 | the session's message count rises by exactly two and every other session's stays the same |
| Messages.ExchangeThreadsContext | src/main/java/com/ragchat/storage/service/MessageService.java:63-76 | the stored assistant message follows the same split: when the last completion request returned non-blank generated text t, its content is trim(t) and its context the request's context joined with t; otherwise its context is the request's context, null read as "" |
| MessageApi.PageRequestOf | src/main/java/com/ragchat/storage/controller/MessageController.java:67 | a page request is built exactly when the page is not negative and the size is at least one, and sorts by "timestamp" in the requested direction |
| MessageApi.MessageController.constructor | src/main/java/com/ragchat/storage/controller/MessageController.java:34-37 | the controller is wired to the given services |
| MessageApi.MessageController.AddMessage | src/main/java/com/ragchat/storage/controller/MessageController.java:39-53 | blank content is refused before anything happens; otherwise the rate limit is charged for the authenticated name, the counters and their time-to-live changing as one check prescribes; a rejection leaves the tables and events unchanged; an admitted call is the exchange for the same name, answered with 201, with the message counter advanced as the exchange says and the session counter and session events untouched |
| MessageApi.MessageController.GetMessages | src/main/java/com/ragchat/storage/controller/MessageController.java:55-70 | the rate limit is charged first, counters and time-to-live as one check prescribes; an admitted call uses page 0, size 20 and ascending order by default, refuses a bad page request, and otherwise answers 200 with the ownership-checked listing; tables and events are untouched |
| MessageApi.NotBlankIff | src/main/java/com/ragchat/storage/dto/MessageRequest.java:17-18 | content passes @NotBlank exactly when some character is above U+0020 |
| Security.PublicPathIff | src/main/java/com/ragchat/storage/security/JwtAuthenticationFilter.java:34-42 | a path is public exactly when it starts with one of the seven public prefixes or equals "/" or "/error" |
| Security.PublicPathExamples | src/main/java/com/ragchat/storage/security/ApiKeyFilter.java:36-44 | "/api/auth/login" and "/swagger-ui.html" are public; "/api/auth", "/actuator" and a message endpoint are not |
| Security.GetJwtFromRequest | src/main/java/com/ragchat/storage/security/JwtAuthenticationFilter.java:69-75 | a token is returned exactly when the header has text and starts with "Bearer ", and the header is then "Bearer " followed by the token |
| Security.BearerRoundTrip | src/main/java/com/ragchat/storage/security/JwtAuthenticationFilter.java:71-72 | extracting from "Bearer " + t gives back t for every t |
| Security.BearerIsCaseSensitive | src/main/java/com/ragchat/storage/security/JwtAuthenticationFilter.java:71 | a "bearer " header gives no token |
| Security.JwtDecision | src/main/java/com/ragchat/storage/security/JwtAuthenticationFilter.java:31-66 | the JWT filter never rejects; public paths pass untouched; it authenticates exactly when the path is not public, the token has text, validation returns true and the user-id call returns, and the principal is what that call returned |
| Security.ApiKeyDecision | src/main/java/com/ragchat/storage/security/ApiKeyFilter.java:33-72 | the API-key filter never authenticates; a request passes exactly when its path is public or its key equals the configured one; a rejection carries 401, "Unauthorized", "Invalid or missing API key" and the request path |
| Security.PublicPathsSkipBothFilters | src/main/java/com/ragchat/storage/security/ApiKeyFilter.java:36-48 | the shared public-path rule makes both filters pass a public request on |
| Security.ApiKeyIsExact | src/main/java/com/ragchat/storage/security/ApiKeyFilter.java:53 | a missing key, or the key with a trailing space, is rejected: there is no trimming |
| Security.FilterExchange.constructor | src/main/java/com/ragchat/storage/security/ApiKeyFilter.java:29-30 | a fresh exchange has no principal, no chain call, status 200 and no body |
| Security.JwtAuthenticationFilter.constructor | src/main/java/com/ragchat/storage/security/JwtAuthenticationFilter.java:24 | the filter holds the given token utility |
| Security.JwtAuthenticationFilter.DoFilterInternal | src/main/java/com/ragchat/storage/security/JwtAuthenticationFilter.java:26-67 | the chain is invoked exactly once; the principal is set to the decided user id on authentication and left alone otherwise; the response is untouched |
| Security.ApiKeyFilter.constructor | src/main/java/com/ragchat/storage/security/ApiKeyFilter.java:23-24 | the filter holds the configured key |
| Security.ApiKeyFilter.DoFilterInternal | src/main/java/com/ragchat/storage/security/ApiKeyFilter.java:28-73 | a passed request invokes the chain once and leaves the response alone; a rejected one does not invoke the chain and gets status 401, a JSON content type and the decided error body |

## Left out

- HTTP transport of the completion client: `RestTemplate.exchange`, the headers and the request body are outside the model. Each attempt's outcome is an input.
- `buildOpenAIRequest`: it only fills a map with the model name and floating-point sampling constants.
- The retry delay itself: the 5-second `Thread.sleep` is a wait outcome, and restoring the thread's interrupt flag is not modelled.
- HuggingFace.CompletionFrom: the text of a parsing exception (a ClassCastException or NullPointerException on a body of unexpected shape) is a fixed placeholder, because the JVM's message text is not visible here; the reply is still known to start with "Error processing your request: ".
- HuggingFace.RepliesAreClassified: the generated-text case does not exclude a generated text that happens to equal one of the fixed texts.
- Kafka delivery: sends are asynchronous and their callbacks only log; the model records each event as an appended value, without its publish-time timestamp.
- RateLimit.RateLimitService.CheckRateLimit: the `get` and the `increment` are one step in the method, so neither a concurrent caller nor an expiry can fall between them. Both can in the source. Two callers that both read a count of N - 1 both pass, so the window admits more than N calls. A key that expires between the read and the increment is recreated by INCR at 1 with no time-to-live, so that counter never expires again. CheckSplit runs the read, the store's expiry and INCR in that order, and ExpiryBetweenReadAndIncrement and OrphanedCounterNeverExpires state the expiry case about it. Wall-clock expiry is the explicit `Expire` step.
- The redis counter is parsed with `Integer.parseInt`; a malformed stored value is not modelled.
- Spring caching (`@Cacheable`, `@CacheEvict`): the proofs cover the method bodies as written, not cached answers. The session cache key leaves out the user id, and adding a message does not evict the message cache.
- Transactions and rollback: a storage failure, which aborts the whole exchange, is not modelled.
- Messages.MessageService.GetMessages: it returns every message of the session in table order; the page slice, the sort by timestamp and the page metadata map are not modelled.
- ModelMapper: the mapping to response objects is written out field by field.
- Sessions.ResponseOf: the `(int)` cast of the count is not modelled; counts beyond 2^31 - 1 would wrap in the source.
- Storage.KafkaProducerService.PublishMessageEvent: Java's `length()` counts UTF-16 code units; the model counts Unicode scalar values, which differs for characters outside the Basic Multilingual Plane.
- ChatSession.java is not part of this model. Creation stores the clock reading as both timestamps, and rename and toggle do not touch the last-updated time.
- `getAllSessions` and `getFavoriteSessions`: paged listings over library page objects.
- SessionController, AuthController, HealthController, SecurityConfig and the application class: routing, token issuance and wiring.
- JwtUtil is not part of this model: its two calls are parameters, and a user id it returns as null is not distinguished.
- Header names are case-insensitive in the servlet API; the model receives the header values already looked up.
- A `direction` request parameter that does not name ASC or DESC is rejected by Spring before the handler runs; the model only takes valid directions.
- A null message content is treated like blank content by bean validation; the model's content is always a string.
- The global exception handler that turns the error results into HTTP statuses is not part of this model; errors are returned as values.
- Storage.ChatStore.DeleteSession: removing a session's messages along with it is assumed. `deleteSession` deletes only the session row (SessionService.java:117), and ChatMessage.java:27-28 shows only a non-null `session_id` join column. Whether messages are cascaded, rejected by a foreign key, or left behind depends on the session side of the mapping and on the schema, and ChatSession.java is not part of this model.
- Logging and timing measurements.
