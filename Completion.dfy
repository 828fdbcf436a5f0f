/** The completion client (HuggingFaceService): one chat-completion request to
    an OpenAI-compatible endpoint, retried once on HTTP 500/503, and every
    failure turned into a fixed reply so that the caller never sees an
    exception. The HTTP exchange and the back-off sleep are inputs: a
    sequence of attempt outcomes and a sequence of wait outcomes. */
module HuggingFace {
  import opened Wrappers
  import opened Text

  const MaxRetries: nat := 2

  const SystemPrompt := "You are a helpful AI assistant. Provide clear, accurate, and concise responses."
  const DefaultReply := "I'm here to help! Could you please rephrase your question?"
  const InterruptedText := "Request interrupted"
  const UnavailableText := "AI service temporarily unavailable. Please try again."
  const InvalidKeyText := "Invalid API key. Please check your Hugging Face token."
  const ProviderRateLimitText := "Rate limit exceeded. Please try again later."
  const MisconfiguredText := "Model not found or endpoint incorrect. Please check configuration."
  const ClientFailureText := "Error communicating with AI service"
  const UnexpectedPrefix := "Error processing your request: "
  const RetriesExhaustedText := "Failed to get response after retries. Please try again."

  /** One entry of the `messages` array of the request. */
  datatype Role = SystemRole | AssistantRole | UserRole
  datatype Turn = Turn(role: Role, content: string)

  /** A JSON value as the HTTP client deserialises it into java.util types. */
  datatype Json =
    | JNull
    | JBool(b: bool)
    | JNumber(n: int)
    | JString(s: string)
    | JArray(items: seq<Json>)
    | JObject(fields: map<string, Json>)

  /** What one `restTemplate.exchange` call does: return a (possibly empty)
      JSON object body, or throw. */
  datatype HttpOutcome =
    | Responded(body: Option<map<string, Json>>)
    | ServerError(status: int)          // HttpServerErrorException
    | ClientError(status: int)          // HttpClientErrorException
    | Other(message: Option<string>)    // any other exception, with its getMessage()

  /** What the back-off `Thread.sleep` does. */
  datatype WaitOutcome = Slept | Interrupted

  /** The result map of generateResponse: it always holds both keys. */
  datatype Reply = Reply(content: string, context: string)

  /** The runtime exceptions parsing can raise on a body of unexpected shape. */
  datatype Fault = ClassCast | NullPointer

  datatype Parsed = Replied(reply: Reply) | Threw(fault: Fault)

  /** A whole generateResponse call: the reply and how many requests were sent. */
  datatype Completion = Completion(reply: Reply, attempts: nat)

  /** buildMessages: system turn, then the prior context as an assistant
      turn when there is one, then the user turn. */
  function BuildMessages(userMessage: string, context: Option<string>): (turns: seq<Turn>)
    ensures 2 <= |turns| <= 3
    ensures turns[0] == Turn(SystemRole, SystemPrompt)
    ensures turns[|turns| - 1] == Turn(UserRole, userMessage)
    ensures |turns| == 3 <==> context.Some? && context.value != ""
    ensures |turns| == 3 ==> turns[1] == Turn(AssistantRole, context.value)
  {
    [Turn(SystemRole, SystemPrompt)]
    + (if context.Some? && context.value != "" then [Turn(AssistantRole, context.value)] else [])
    + [Turn(UserRole, userMessage)]
  }

  /** buildContextString: the prior context and the new reply joined by a
      newline, or the new reply alone when there is no prior context. */
  function BuildContextString(oldContext: Option<string>, newResponse: string): string {
    if oldContext.Some? && oldContext.value != "" then oldContext.value + "\n" + newResponse
    else newResponse
  }

  /** The context a reply carries when no new text was generated: the
      caller's own, with null read as the empty string. */
  function PassedContext(context: Option<string>): string {
    context.GetOr("")
  }

  /** createDefaultResponse */
  function DefaultResponse(context: Option<string>): Reply {
    Reply(DefaultReply, PassedContext(context))
  }

  /** createErrorResponse */
  function ErrorResponse(errorMessage: string, context: Option<string>): Reply {
    Reply(errorMessage, PassedContext(context))
  }

  /** Java string concatenation of a possibly null string. */
  function JavaString(s: Option<string>): string {
    if s.Some? then s.value else "null"
  }

  /** The text the JVM gives a parsing exception; the model does not know it. */
  function FaultMessage(f: Fault): string {
    match f
    case ClassCast => "java.lang.ClassCastException"
    case NullPointer => "java.lang.NullPointerException"
  }

  /** The fixed degraded reply for an HTTP 4xx status. */
  function ClientErrorMessage(status: int): string {
    if status == 401 then InvalidKeyText
    else if status == 429 then ProviderRateLimitText
    else if status == 404 then MisconfiguredText
    else ClientFailureText
  }

  predicate IsTransient(status: int) {
    status == 503 || status == 500
  }

  /** A body of the documented shape {choices:[{message:{content: text}}]}. */
  predicate HasGeneratedText(body: Option<map<string, Json>>, text: string) {
    && body.Some? && "choices" in body.value
    && body.value["choices"].JArray? && |body.value["choices"].items| > 0
    && body.value["choices"].items[0].JObject?
    && "message" in body.value["choices"].items[0].fields
    && body.value["choices"].items[0].fields["message"].JObject?
    && "content" in body.value["choices"].items[0].fields["message"].fields
    && body.value["choices"].items[0].fields["message"].fields["content"] == JString(text)
  }

  /** Map.get: the value at a key, or null when the key is absent. */
  function Get(m: map<string, Json>, key: string): Json {
    if key in m then m[key] else JNull
  }

  /** parseOpenAIResponse, including the casts that throw on a body of
      unexpected shape. */
  function ParseOpenAIResponse(body: Option<map<string, Json>>, context: Option<string>): Parsed {
    if body.None? || "choices" !in body.value || body.value["choices"].JNull? then
      Replied(DefaultResponse(context))
    else if !body.value["choices"].JArray? then Threw(ClassCast)         // cast to List
    else
      var choices := body.value["choices"].items;
      if |choices| == 0 then Replied(DefaultResponse(context))
      else if choices[0].JNull? then Threw(NullPointer)                   // firstChoice.get(..)
      else if !choices[0].JObject? then Threw(ClassCast)                  // element as Map
      else
        var message := Get(choices[0].fields, "message");
        if message.JNull? then Replied(DefaultResponse(context))
        else if !message.JObject? then Threw(ClassCast)                   // cast to Map
        else if "content" !in message.fields then Replied(DefaultResponse(context))
        else
          var content := message.fields["content"];
          if content.JNull? then Replied(DefaultResponse(context))
          else if !content.JString? then Threw(ClassCast)                 // cast to String
          else if Trim(content.s) == [] then Replied(DefaultResponse(context))
          else Replied(Reply(Trim(content.s), BuildContextString(context, content.s)))
  }

  /** Whether attempt number `attempt` (counting from 0) is followed by a
      retry: it failed with HTTP 500 or 503 and was not the last one. */
  predicate Retried(call: HttpOutcome, attempt: nat) {
    call.ServerError? && IsTransient(call.status) && attempt < MaxRetries - 1
  }

  /** The reply of an attempt that is not retried. */
  function Settled(call: HttpOutcome, context: Option<string>): Reply {
    match call
    case Responded(body) =>
      (match ParseOpenAIResponse(body, context)
       case Replied(r) => r
       case Threw(f) => ErrorResponse(UnexpectedPrefix + FaultMessage(f), context))
    case ServerError(_) => ErrorResponse(UnavailableText, context)
    case ClientError(status) => ErrorResponse(ClientErrorMessage(status), context)
    case Other(message) => ErrorResponse(UnexpectedPrefix + JavaString(message), context)
  }

  /** What generateResponse returns from attempt number `attempt` (counting
      from 0) on, given what every request and every back-off wait does. */
  function CompletionFrom(context: Option<string>, calls: seq<HttpOutcome>, waits: seq<WaitOutcome>,
                          attempt: nat): (c: Completion)
    requires attempt < MaxRetries <= |calls| && MaxRetries - 1 <= |waits|
    ensures attempt < c.attempts <= MaxRetries
    decreases MaxRetries - attempt
  {
    if Retried(calls[attempt], attempt) then
      if waits[attempt] == Interrupted then Completion(ErrorResponse(InterruptedText, context), attempt + 1)
      else CompletionFrom(context, calls, waits, attempt + 1)
    else Completion(Settled(calls[attempt], context), attempt + 1)
  }

  /** The whole generateResponse call. */
  function CompletionOf(context: Option<string>, calls: seq<HttpOutcome>, waits: seq<WaitOutcome>): Completion
    requires MaxRetries <= |calls| && MaxRetries - 1 <= |waits|
  {
    CompletionFrom(context, calls, waits, 0)
  }

  /** generateResponse. `sent` lists the `messages` array of every request
      that went out, in order. */
  method GenerateResponse(userMessage: string, context: Option<string>,
                          calls: seq<HttpOutcome>, waits: seq<WaitOutcome>)
    returns (reply: Reply, sent: seq<seq<Turn>>)
    requires MaxRetries <= |calls| && MaxRetries - 1 <= |waits|
    ensures 1 <= |sent| <= MaxRetries
    ensures forall i :: 0 <= i < |sent| ==> sent[i] == BuildMessages(userMessage, context)
    ensures reply == CompletionOf(context, calls, waits).reply
    ensures |sent| == CompletionOf(context, calls, waits).attempts
  {
    var attempt := 0;
    sent := [];
    while attempt < MaxRetries
      invariant attempt < MaxRetries
      invariant |sent| == attempt
      invariant forall i :: 0 <= i < |sent| ==> sent[i] == BuildMessages(userMessage, context)
      invariant CompletionFrom(context, calls, waits, attempt) == CompletionOf(context, calls, waits)
      decreases MaxRetries - attempt
    {
      var messages := BuildMessages(userMessage, context);
      sent := sent + [messages];
      match calls[attempt]
      case Responded(body) =>
        match ParseOpenAIResponse(body, context) {
          case Replied(r) =>
            reply := r;
            return;
          case Threw(f) =>
            reply := ErrorResponse(UnexpectedPrefix + FaultMessage(f), context);
            return;
        }
      case ServerError(status) =>
        if IsTransient(status) && attempt < MaxRetries - 1 {
          if waits[attempt] == Interrupted {
            reply := ErrorResponse(InterruptedText, context);
            return;
          }
          attempt := attempt + 1;
          continue;
        }
        reply := ErrorResponse(UnavailableText, context);
        return;
      case ClientError(status) =>
        reply := ErrorResponse(ClientErrorMessage(status), context);
        return;
      case Other(message) =>
        reply := ErrorResponse(UnexpectedPrefix + JavaString(message), context);
        return;
    }
    // Every iteration returns or retries a non-final attempt, so the loop
    // never runs out of attempts.
    assert false;
    reply := ErrorResponse(RetriesExhaustedText, context);
  }

  // ---------------------------------------------------------------------
  // Properties of a whole call

  /** A second request is sent exactly when the first failed with HTTP 500
      or 503 and the back-off wait was not interrupted. */
  lemma SecondAttemptOnlyAfterTransient(context: Option<string>, calls: seq<HttpOutcome>, waits: seq<WaitOutcome>)
    requires MaxRetries <= |calls| && MaxRetries - 1 <= |waits|
    ensures CompletionOf(context, calls, waits).attempts == 2 <==>
              calls[0].ServerError? && IsTransient(calls[0].status) && waits[0] == Slept
  {
    if calls[0].ServerError? && IsTransient(calls[0].status) && waits[0] == Slept {
      assert CompletionOf(context, calls, waits) == CompletionFrom(context, calls, waits, 1);
    }
  }

  /** A client error ends the call after one request, with the fixed text
      for its status and the caller's context. */
  lemma ClientErrorsNeverRetry(context: Option<string>, calls: seq<HttpOutcome>, waits: seq<WaitOutcome>)
    requires MaxRetries <= |calls| && MaxRetries - 1 <= |waits|
    requires calls[0].ClientError?
    ensures var c := CompletionOf(context, calls, waits);
      && c.attempts == 1
      && c.reply.context == PassedContext(context)
      && (calls[0].status == 401 ==> c.reply.content == InvalidKeyText)
      && (calls[0].status == 429 ==> c.reply.content == ProviderRateLimitText)
      && (calls[0].status == 404 ==> c.reply.content == MisconfiguredText)
      && (calls[0].status !in {401, 429, 404} ==> c.reply.content == ClientFailureText)
  {
  }

  /** Two transient server errors in a row use up both attempts and end in
      the "temporarily unavailable" reply. */
  lemma ExhaustedRetries(context: Option<string>, calls: seq<HttpOutcome>, waits: seq<WaitOutcome>)
    requires MaxRetries <= |calls| && MaxRetries - 1 <= |waits|
    requires calls[0].ServerError? && IsTransient(calls[0].status) && waits[0] == Slept
    requires calls[1].ServerError? && IsTransient(calls[1].status)
    ensures CompletionOf(context, calls, waits) == Completion(ErrorResponse(UnavailableText, context), 2)
  {
    assert CompletionOf(context, calls, waits) == CompletionFrom(context, calls, waits, 1);
  }

  /** The fixed texts a degraded reply may carry. */
  predicate IsFixedText(content: string) {
    || content == DefaultReply || content == InterruptedText || content == UnavailableText
    || content == InvalidKeyText || content == ProviderRateLimitText || content == MisconfiguredText
    || content == ClientFailureText
  }

  /** `r` is the reply that a successful response `call` turns into. */
  ghost predicate IsGeneratedBy(call: HttpOutcome, r: Reply) {
    exists t :: Generated(call, t) && r.content == Trim(t)
  }

  ghost predicate Classified(calls: seq<HttpOutcome>, from: nat, r: Reply)
    requires from <= |calls|
  {
    || IsFixedText(r.content)
    || StartsWith(r.content, UnexpectedPrefix)
    || exists i :: from <= i < |calls| && IsGeneratedBy(calls[i], r)
  }

  /** Every reply is generated text from one of the responses, one of the
      fixed degraded texts, or the report of an unexpected exception. */
  lemma RepliesAreClassified(context: Option<string>, calls: seq<HttpOutcome>, waits: seq<WaitOutcome>)
    requires MaxRetries <= |calls| && MaxRetries - 1 <= |waits|
    ensures Classified(calls, 0, CompletionOf(context, calls, waits).reply)
  {
    ClassifiedFrom(context, calls, waits, 0);
  }

  lemma {:induction false} ClassifiedFrom(context: Option<string>, calls: seq<HttpOutcome>, waits: seq<WaitOutcome>, attempt: nat)
    requires attempt < MaxRetries <= |calls| && MaxRetries - 1 <= |waits|
    ensures Classified(calls, attempt, CompletionFrom(context, calls, waits, attempt).reply)
    decreases MaxRetries - attempt
  {
    var r := CompletionFrom(context, calls, waits, attempt).reply;
    match calls[attempt]
    case Responded(body) =>
      match ParseOpenAIResponse(body, context) {
        case Replied(p) =>
          assert r == p;
          if p != DefaultResponse(context) {
            var t := ParseGeneratedText(body, context);
            assert IsGeneratedBy(calls[attempt], r);
          }
        case Threw(f) =>
          assert r.content == UnexpectedPrefix + FaultMessage(f);
          StartsWithConcat(UnexpectedPrefix, FaultMessage(f));
      }
    case ServerError(status) =>
      if IsTransient(status) && attempt < MaxRetries - 1 && waits[attempt] != Interrupted {
        ClassifiedFrom(context, calls, waits, attempt + 1);
      }
    case ClientError(status) =>
      assert r.content == ClientErrorMessage(status);
    case Other(message) =>
      assert r.content == UnexpectedPrefix + JavaString(message);
      StartsWithConcat(UnexpectedPrefix, JavaString(message));
  }

  // ---------------------------------------------------------------------
  // Properties of parsing

  /** A body of the documented shape whose text is not blank gives the
      trimmed text as content and the untrimmed text as new context. */
  lemma ParseWellFormed(body: Option<map<string, Json>>, context: Option<string>, text: string)
    requires HasGeneratedText(body, text) && Trim(text) != []
    ensures ParseOpenAIResponse(body, context) ==
              Replied(Reply(Trim(text), BuildContextString(context, text)))
  {
  }

  /** Conversely, any parsed reply other than the default one comes from a
      body of the documented shape with non-blank text. */
  lemma ParseGeneratedText(body: Option<map<string, Json>>, context: Option<string>) returns (text: string)
    requires ParseOpenAIResponse(body, context).Replied?
    requires ParseOpenAIResponse(body, context).reply != DefaultResponse(context)
    ensures HasGeneratedText(body, text) && Trim(text) != []
    ensures ParseOpenAIResponse(body, context).reply == Reply(Trim(text), BuildContextString(context, text))
  {
    var choices := body.value["choices"].items;
    var message := Get(choices[0].fields, "message").fields;
    text := message["content"].s;
  }

  /** A body without a non-blank generated text never yields generated
      content: it yields the default reply, or a parsing exception. */
  lemma ParseFallsBackToDefault(body: Option<map<string, Json>>, context: Option<string>)
    requires forall t :: HasGeneratedText(body, t) ==> Trim(t) == []
    ensures ParseOpenAIResponse(body, context) == Replied(DefaultResponse(context))
         || ParseOpenAIResponse(body, context).Threw?
  {
    if ParseOpenAIResponse(body, context).Replied? && ParseOpenAIResponse(body, context).reply != DefaultResponse(context) {
      var t := ParseGeneratedText(body, context);
    }
  }

  /** `call` is a response of the documented shape whose text `t` is not
      blank. */
  predicate Generated(call: HttpOutcome, t: string) {
    call.Responded? && HasGeneratedText(call.body, t) && Trim(t) != []
  }

  /** `call` carries no usable generated text. */
  ghost predicate Degraded(call: HttpOutcome) {
    forall t :: !Generated(call, t)
  }

  /** Context threading, by the outcome of the last request sent: a
      response with text `t` gives the trimmed text and the caller's
      context extended by `t`; any other outcome passes the caller's
      context on (null read as ""). */
  lemma ContextThreading(context: Option<string>, calls: seq<HttpOutcome>, waits: seq<WaitOutcome>, t: string)
    requires MaxRetries <= |calls| && MaxRetries - 1 <= |waits|
    ensures var c := CompletionOf(context, calls, waits);
      Generated(calls[c.attempts - 1], t) ==> c.reply == Reply(Trim(t), BuildContextString(context, t))
    ensures var c := CompletionOf(context, calls, waits);
      Degraded(calls[c.attempts - 1]) ==> c.reply.context == PassedContext(context)
  {
    ThreadingFrom(context, calls, waits, 0, t);
    PassingFrom(context, calls, waits, 0);
  }

  /** The generated case of ContextThreading, from any attempt on. */
  lemma {:induction false} ThreadingFrom(context: Option<string>, calls: seq<HttpOutcome>, waits: seq<WaitOutcome>,
                                         attempt: nat, t: string)
    requires attempt < MaxRetries <= |calls| && MaxRetries - 1 <= |waits|
    ensures ThreadsGenerated(CompletionFrom(context, calls, waits, attempt), calls, context, t)
    decreases MaxRetries - attempt
  {
    if Retried(calls[attempt], attempt) {
      if waits[attempt] == Slept {
        RetryStep(context, calls, waits, attempt);
        ThreadingFrom(context, calls, waits, attempt + 1, t);
      } else {
        InterruptedStep(context, calls, waits, attempt);
      }
    } else {
      ThreadingSettled(context, calls, waits, attempt, t);
    }
  }

  /** If the last request sent in `c` returned text `t`, the reply is the
      trimmed text with the caller's context extended by `t`. */
  predicate ThreadsGenerated(c: Completion, calls: seq<HttpOutcome>, context: Option<string>, t: string)
    requires 0 < c.attempts <= |calls|
  {
    Generated(calls[c.attempts - 1], t) ==> c.reply == Reply(Trim(t), BuildContextString(context, t))
  }

  /** A retried attempt whose wait was not interrupted hands the call on
      to the next attempt. */
  lemma RetryStep(context: Option<string>, calls: seq<HttpOutcome>, waits: seq<WaitOutcome>, attempt: nat)
    requires attempt < MaxRetries <= |calls| && MaxRetries - 1 <= |waits|
    requires Retried(calls[attempt], attempt) && waits[attempt] == Slept
    ensures attempt + 1 < MaxRetries
    ensures CompletionFrom(context, calls, waits, attempt) == CompletionFrom(context, calls, waits, attempt + 1)
  {
  }

  /** An interrupted wait ends the call on the server error just seen. */
  lemma InterruptedStep(context: Option<string>, calls: seq<HttpOutcome>, waits: seq<WaitOutcome>, attempt: nat)
    requires attempt < MaxRetries <= |calls| && MaxRetries - 1 <= |waits|
    requires Retried(calls[attempt], attempt) && waits[attempt] == Interrupted
    ensures CompletionFrom(context, calls, waits, attempt) == Completion(ErrorResponse(InterruptedText, context), attempt + 1)
    ensures calls[attempt].ServerError?
  {
  }

  lemma ThreadingSettled(context: Option<string>, calls: seq<HttpOutcome>, waits: seq<WaitOutcome>,
                         attempt: nat, t: string)
    requires attempt < MaxRetries <= |calls| && MaxRetries - 1 <= |waits|
    requires !Retried(calls[attempt], attempt)
    ensures ThreadsGenerated(CompletionFrom(context, calls, waits, attempt), calls, context, t)
  {
    var c := CompletionFrom(context, calls, waits, attempt);
    assert c == Completion(Settled(calls[attempt], context), attempt + 1);
    SettledGenerated(calls[attempt], context, t);
    assert calls[c.attempts - 1] == calls[attempt];
  }

  /** The degraded case of ContextThreading, from any attempt on. */
  lemma {:induction false} PassingFrom(context: Option<string>, calls: seq<HttpOutcome>, waits: seq<WaitOutcome>,
                                       attempt: nat)
    requires attempt < MaxRetries <= |calls| && MaxRetries - 1 <= |waits|
    ensures PassesDegraded(CompletionFrom(context, calls, waits, attempt), calls, context)
    decreases MaxRetries - attempt
  {
    if Retried(calls[attempt], attempt) {
      if waits[attempt] == Slept {
        RetryStep(context, calls, waits, attempt);
        PassingFrom(context, calls, waits, attempt + 1);
      } else {
        InterruptedStep(context, calls, waits, attempt);
      }
    } else {
      PassingSettled(context, calls, waits, attempt);
    }
  }

  lemma PassingSettled(context: Option<string>, calls: seq<HttpOutcome>, waits: seq<WaitOutcome>, attempt: nat)
    requires attempt < MaxRetries <= |calls| && MaxRetries - 1 <= |waits|
    requires !Retried(calls[attempt], attempt)
    ensures PassesDegraded(CompletionFrom(context, calls, waits, attempt), calls, context)
  {
    var c := CompletionFrom(context, calls, waits, attempt);
    assert c == Completion(Settled(calls[attempt], context), attempt + 1);
    SettledDegraded(calls[attempt], context);
    assert calls[c.attempts - 1] == calls[attempt];
  }

  /** If the last request sent in `c` carried no usable text, the reply
      passes the caller's context on. */
  ghost predicate PassesDegraded(c: Completion, calls: seq<HttpOutcome>, context: Option<string>)
    requires 0 < c.attempts <= |calls|
  {
    Degraded(calls[c.attempts - 1]) ==> c.reply.context == PassedContext(context)
  }

  /** A settled response with text `t` gives the trimmed text and the
      extended context. */
  lemma SettledGenerated(call: HttpOutcome, context: Option<string>, t: string)
    ensures Generated(call, t) ==> Settled(call, context) == Reply(Trim(t), BuildContextString(context, t))
  {
    if Generated(call, t) {
      ParseWellFormed(call.body, context, t);
    }
  }

  /** A settled outcome without usable text passes the caller's context on. */
  lemma SettledDegraded(call: HttpOutcome, context: Option<string>)
    ensures Degraded(call) ==> Settled(call, context).context == PassedContext(context)
  {
    if call.Responded? {
      var parsed := ParseOpenAIResponse(call.body, context);
      if parsed.Replied? && parsed.reply != DefaultResponse(context) {
        var u := ParseGeneratedText(call.body, context);
        assert Generated(call, u);
      }
    }
  }
}
