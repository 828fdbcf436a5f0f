/** The two request filters (ApiKeyFilter and JwtAuthenticationFilter):
    the shared public-path rule, bearer-token extraction, and each filter's
    decision. JwtUtil is outside the model: its two calls are functions
    supplied by the caller, each of which may throw. */
module Security {
  import opened Wrappers
  import opened Text

  const BearerPrefix := "Bearer "
  const Unauthorized: int := 401

  /** The prefixes and the exact paths that skip both filters. */
  const PublicPrefixes: seq<string> :=
    ["/actuator/", "/swagger-ui", "/swagger-resources", "/api-docs", "/v3/api-docs", "/webjars/", "/api/auth/"]
  const PublicExactPaths: seq<string> := ["/", "/error"]

  /** The skip test both filters apply to the request URI, in their order. */
  predicate IsPublicPath(path: string) {
    || StartsWith(path, "/actuator/")
    || StartsWith(path, "/swagger-ui")
    || StartsWith(path, "/swagger-resources")
    || StartsWith(path, "/api-docs")
    || path == "/"
    || path == "/error"
    || StartsWith(path, "/v3/api-docs")
    || StartsWith(path, "/webjars/")
    || StartsWith(path, "/api/auth/")
  }

  /** A path is public exactly when it starts with one of the public
      prefixes or is one of the public exact paths. */
  lemma PublicPathIff(path: string)
    ensures IsPublicPath(path) <==>
              (exists i :: 0 <= i < |PublicPrefixes| && StartsWith(path, PublicPrefixes[i]))
              || path in PublicExactPaths
  {
    if StartsWith(path, "/actuator/") { assert StartsWith(path, PublicPrefixes[0]); }
    if StartsWith(path, "/swagger-ui") { assert StartsWith(path, PublicPrefixes[1]); }
    if StartsWith(path, "/swagger-resources") { assert StartsWith(path, PublicPrefixes[2]); }
    if StartsWith(path, "/api-docs") { assert StartsWith(path, PublicPrefixes[3]); }
    if StartsWith(path, "/v3/api-docs") { assert StartsWith(path, PublicPrefixes[4]); }
    if StartsWith(path, "/webjars/") { assert StartsWith(path, PublicPrefixes[5]); }
    if StartsWith(path, "/api/auth/") { assert StartsWith(path, PublicPrefixes[6]); }
  }

  /** A string that differs from `prefix` at some position does not start with it. */
  lemma MismatchAt(s: string, prefix: string, i: nat)
    requires i < |prefix| && i < |s| && s[i] != prefix[i]
    ensures !StartsWith(s, prefix)
  {
  }

  /** The auth endpoints are public only below "/api/auth/"; the message
      endpoints are not public. */
  lemma PublicPathExamples()
    ensures IsPublicPath("/api/auth/login")
    ensures !IsPublicPath("/api/auth")
    ensures !IsPublicPath("/actuator")
    ensures IsPublicPath("/swagger-ui.html")
    ensures !IsPublicPath("/api/sessions/7/messages")
  {
    assert "/api/auth/login"[..|"/api/auth/"|] == "/api/auth/";
    assert "/swagger-ui.html"[..|"/swagger-ui"|] == "/swagger-ui";
    var p := "/api/sessions/7/messages";
    MismatchAt(p, "/actuator/", 2);
    MismatchAt(p, "/swagger-ui", 1);
    MismatchAt(p, "/swagger-resources", 1);
    MismatchAt(p, "/api-docs", 4);
    MismatchAt(p, "/v3/api-docs", 1);
    MismatchAt(p, "/webjars/", 1);
    MismatchAt(p, "/api/auth/", 5);
    var q := "/api/auth";
    MismatchAt(q, "/actuator/", 2);
    MismatchAt(q, "/swagger-ui", 1);
    MismatchAt(q, "/swagger-resources", 1);
    MismatchAt(q, "/api-docs", 4);
    MismatchAt(q, "/v3/api-docs", 1);
    MismatchAt(q, "/webjars/", 1);
    var r := "/actuator";
    MismatchAt(r, "/swagger-ui", 1);
    MismatchAt(r, "/swagger-resources", 1);
    MismatchAt(r, "/api-docs", 2);
    MismatchAt(r, "/v3/api-docs", 1);
    MismatchAt(r, "/webjars/", 1);
    MismatchAt(r, "/api/auth/", 2);
  }

  /** The parts of a request the filters read. */
  datatype Request = Request(uri: string, authorization: Option<string>, apiKey: Option<string>)

  /** getJwtFromRequest: the Authorization header without its "Bearer "
      prefix, or null. */
  function GetJwtFromRequest(authorization: Option<string>): (token: Option<string>)
    ensures token.Some? <==>
              authorization.Some? && HasText(authorization.value) && StartsWith(authorization.value, BearerPrefix)
    ensures token.Some? ==> authorization.value == BearerPrefix + token.value
  {
    if authorization.Some? && HasText(authorization.value) && StartsWith(authorization.value, BearerPrefix) then
      Some(authorization.value[|BearerPrefix|..])
    else None
  }

  /** Extracting from "Bearer " followed by any token gives that token back. */
  lemma BearerRoundTrip(t: string)
    ensures GetJwtFromRequest(Some(BearerPrefix + t)) == Some(t)
  {
    var h := BearerPrefix + t;
    assert !IsWhitespace(h[0]);
    StartsWithConcat(BearerPrefix, t);
  }

  /** The prefix is matched case-sensitively. */
  lemma BearerIsCaseSensitive(t: string)
    ensures GetJwtFromRequest(Some("bearer " + t)) == None
  {
    assert ("bearer " + t)[0] == 'b';
  }

  /** A JwtUtil call either returns or throws. */
  datatype Call<T> = Returned(value: T) | Threw

  datatype JwtUtil = JwtUtil(validateToken: string -> Call<bool>, getUserIdFromToken: string -> Call<string>)

  /** The error body ApiKeyFilter writes. */
  datatype ErrorResponse = ErrorResponse(status: int, error: string, message: string, path: string)

  /** What a filter does with a request: hand it on unchanged, reject it,
      or hand it on with an authenticated principal. */
  datatype Decision = PassThrough | Reject401(body: ErrorResponse) | Authenticated(userId: string)

  /** JwtAuthenticationFilter's decision. */
  function JwtDecision(request: Request, jwt: JwtUtil): (d: Decision)
    ensures !d.Reject401?
    ensures IsPublicPath(request.uri) ==> d == PassThrough
    ensures d.Authenticated? <==>
              && !IsPublicPath(request.uri)
              && GetJwtFromRequest(request.authorization).Some?
              && HasText(GetJwtFromRequest(request.authorization).value)
              && jwt.validateToken(GetJwtFromRequest(request.authorization).value) == Returned(true)
              && jwt.getUserIdFromToken(GetJwtFromRequest(request.authorization).value).Returned?
    ensures d.Authenticated? ==>
              jwt.getUserIdFromToken(GetJwtFromRequest(request.authorization).value) == Returned(d.userId)
  {
    if IsPublicPath(request.uri) then PassThrough
    else
      var token := GetJwtFromRequest(request.authorization);
      if token.None? || !HasText(token.value) then PassThrough
      else if jwt.validateToken(token.value) != Returned(true) then PassThrough
      else
        match jwt.getUserIdFromToken(token.value)
        case Returned(userId) => Authenticated(userId)
        case Threw => PassThrough
  }

  /** ApiKeyFilter's decision: a non-public request needs the header to be
      exactly the configured key. */
  function ApiKeyDecision(request: Request, validApiKey: string): (d: Decision)
    ensures !d.Authenticated?
    ensures d == PassThrough <==> IsPublicPath(request.uri) || request.apiKey == Some(validApiKey)
    ensures d.Reject401? ==>
              d.body == ErrorResponse(Unauthorized, "Unauthorized", "Invalid or missing API key", request.uri)
  {
    if IsPublicPath(request.uri) then PassThrough
    else if request.apiKey.None? || request.apiKey.value != validApiKey then
      Reject401(ErrorResponse(Unauthorized, "Unauthorized", "Invalid or missing API key", request.uri))
    else PassThrough
  }

  /** Both filters let a public path through untouched. */
  lemma PublicPathsSkipBothFilters(request: Request, jwt: JwtUtil, validApiKey: string)
    requires IsPublicPath(request.uri)
    ensures JwtDecision(request, jwt) == PassThrough && ApiKeyDecision(request, validApiKey) == PassThrough
  {
  }

  /** The key comparison neither trims nor folds case. */
  lemma ApiKeyIsExact(request: Request, validApiKey: string)
    requires !IsPublicPath(request.uri)
    requires request.apiKey == Some(validApiKey + " ") || request.apiKey.None?
    ensures ApiKeyDecision(request, validApiKey).Reject401?
  {
    if request.apiKey.Some? {
      assert |request.apiKey.value| != |validApiKey|;
    }
  }

  /** One request passing through the servlet filter chain: the security
      context's principal, how often the rest of the chain was invoked, and
      what was written to the response. */
  class FilterExchange {
    var authentication: Option<string>
    var chainInvocations: nat
    var status: int
    var contentType: Option<string>
    var body: Option<ErrorResponse>

    constructor ()
      ensures authentication == None && chainInvocations == 0 && status == 200
      ensures contentType == None && body == None
    {
      authentication := None;
      chainInvocations := 0;
      status := 200;
      contentType := None;
      body := None;
    }
  }

  class JwtAuthenticationFilter {
    const jwtUtil: JwtUtil

    constructor (jwtUtil: JwtUtil)
      ensures this.jwtUtil == jwtUtil
    {
      this.jwtUtil := jwtUtil;
    }

    /** doFilterInternal: the chain runs exactly once for every request; the
        principal is set only on a valid token, and a throwing JwtUtil call
        is swallowed. */
    method DoFilterInternal(request: Request, exchange: FilterExchange)
      modifies exchange
      ensures exchange.chainInvocations == old(exchange.chainInvocations) + 1
      ensures exchange.authentication ==
                match JwtDecision(request, jwtUtil)
                case Authenticated(userId) => Some(userId)
                case _ => old(exchange.authentication)
      ensures exchange.status == old(exchange.status) && exchange.body == old(exchange.body)
      ensures exchange.contentType == old(exchange.contentType)
    {
      if IsPublicPath(request.uri) {
        exchange.chainInvocations := exchange.chainInvocations + 1;
        return;
      }
      var jwt := GetJwtFromRequest(request.authorization);
      if jwt.Some? && HasText(jwt.value) && jwtUtil.validateToken(jwt.value) == Returned(true) {
        var userId := jwtUtil.getUserIdFromToken(jwt.value);
        if userId.Returned? {
          exchange.authentication := Some(userId.value);
        }
      }
      exchange.chainInvocations := exchange.chainInvocations + 1;
    }
  }

  class ApiKeyFilter {
    const validApiKey: string

    constructor (validApiKey: string)
      ensures this.validApiKey == validApiKey
    {
      this.validApiKey := validApiKey;
    }

    /** doFilterInternal: pass a public or correctly keyed request on, or
        answer 401 with a JSON error naming the path and stop. */
    method DoFilterInternal(request: Request, exchange: FilterExchange)
      modifies exchange
      ensures exchange.authentication == old(exchange.authentication)
      ensures ApiKeyDecision(request, validApiKey) == PassThrough ==>
        && exchange.chainInvocations == old(exchange.chainInvocations) + 1
        && exchange.status == old(exchange.status) && exchange.body == old(exchange.body)
        && exchange.contentType == old(exchange.contentType)
      ensures ApiKeyDecision(request, validApiKey).Reject401? ==>
        && exchange.chainInvocations == old(exchange.chainInvocations)
        && exchange.status == Unauthorized && exchange.contentType == Some("application/json")
        && exchange.body == Some(ApiKeyDecision(request, validApiKey).body)
    {
      var path := request.uri;
      if IsPublicPath(path) {
        exchange.chainInvocations := exchange.chainInvocations + 1;
        return;
      }
      var apiKey := request.apiKey;
      if apiKey.None? || apiKey.value != validApiKey {
        exchange.status := Unauthorized;
        exchange.contentType := Some("application/json");
        exchange.body := Some(ErrorResponse(Unauthorized, "Unauthorized", "Invalid or missing API key", request.uri));
        return;
      }
      exchange.chainInvocations := exchange.chainInvocations + 1;
    }
  }
}
