/**
 * The wrappers around handlers (internal/controller/middlewares.go): the
 * request middleware that turns a handler's error into a JSON response, the
 * bearer-token gate for mutating routes, and the per-IP rate-limit gate.
 */
module Middlewares {
  import opened Wrappers
  import opened Errors
  import opened Strings
  import opened Http
  import opened Net
  import opened RateLimiting

  const AuthorizationHeaderKey := "authorization"
  const AuthorizationTypeBearer := "bearer"

  const MissingHeaderMessage := "authorization header is not provided"
  const BadFormatMessage := "invalid authorization header format"
  const UnsupportedTypePrefix := "unsupported authorization type "
  const InvalidTokenMessage := "invalid token"

  const UnknownIpMessage := "unable to determine IP"
  const RateLimitedMessage := "rate limit exceeded"

  /** The JSON content type the middleware sets on an error response. */
  const JsonContentType := "application/json"

  // ---------------------------------------------------------------------------
  // middleware

  /**
   * What middleware writes after the handler returned: nothing on success; on
   * failure the JSON content type, the status ErrorInfo chose, then the
   * encoded `{"error": ...}` body.
   */
  function MiddlewareEffects(err: Option<Error>): (effects: seq<Effect>)
    ensures err.None? ==> effects == []
    ensures err.Some? ==> StatusOf(effects) == ErrorInfo(err.value).1
    ensures err.Some? ==> HeaderOf(effects, "Content-Type") == Some(JsonContentType)
    ensures err.Some? ==> BodyOf(effects) == [Encode(ErrorBody(ErrorInfo(err.value).0.error))]
  {
    match err
    case None => []
    case Some(e) =>
      var (response, code) := ErrorInfo(e);
      var head := [SetHeader("Content-Type", JsonContentType)];
      StatusOfHead(head, code, [Encode(ErrorBody(response.error))]);
      HeaderOfHead(head, WriteHeader(code), [Encode(ErrorBody(response.error))], "Content-Type");
      BodyOfAppend(head + [WriteHeader(code)], [Encode(ErrorBody(response.error))]);
      BodyOfAppend(head, [WriteHeader(code)]);
      head + [WriteHeader(code)] + [Encode(ErrorBody(response.error))]
  }

  /**
   * middleware, from the moment the wrapped handler returned `err`; whatever
   * the handler wrote to `w` stays ahead of what the middleware writes.
   */
  method Middleware(w: ResponseRecorder, err: Option<Error>)
    modifies w
    ensures w.trace == old(w.trace) + MiddlewareEffects(err)
  {
    if err.Some? {
      var (response, code) := ErrorInfo(err.value);
      w.SetHeader("Content-Type", JsonContentType);
      w.WriteHeader(code);
      w.Encode(ErrorBody(response.error));
    }
  }

  /** A handler that fails before writing anything gets ErrorInfo's status, content type and body. */
  lemma MiddlewareReportsFailure(handlerTrace: seq<Effect>, e: Error)
    requires !Committed(handlerTrace)
    ensures StatusOf(handlerTrace + MiddlewareEffects(Some(e))) == ErrorInfo(e).1
    ensures BodyOf(handlerTrace + MiddlewareEffects(Some(e))) == BodyOf(handlerTrace) + [Encode(ErrorBody(ErrorInfo(e).0.error))]
  {
    StatusOfUncommittedPrefix(handlerTrace, MiddlewareEffects(Some(e)));
    BodyOfAppend(handlerTrace, MiddlewareEffects(Some(e)));
  }

  /**
   * A handler that fails after it committed its head (an encode or write error
   * after WriteHeader(200)) keeps that status: the middleware's WriteHeader is
   * superfluous, and its error body is appended after what was written.
   */
  lemma MiddlewareCannotChangeCommittedStatus(handlerTrace: seq<Effect>, e: Error)
    requires Committed(handlerTrace)
    ensures StatusOf(handlerTrace + MiddlewareEffects(Some(e))) == StatusOf(handlerTrace)
    ensures BodyOf(handlerTrace + MiddlewareEffects(Some(e))) == BodyOf(handlerTrace) + [Encode(ErrorBody(ErrorInfo(e).0.error))]
  {
    StatusOfCommittedPrefix(handlerTrace, MiddlewareEffects(Some(e)));
    BodyOfAppend(handlerTrace, MiddlewareEffects(Some(e)));
  }

  // ---------------------------------------------------------------------------
  // ensureAdmin

  datatype AuthDecision = Pass | Unauthorized(message: string)

  /**
   * ensureAdmin's guard chain over the authorization header value (empty when
   * the header is absent) and the configured token.
   */
  function EnsureAdmin(header: string, token: string): (d: AuthDecision)
    ensures header == [] ==> d == Unauthorized(MissingHeaderMessage)
    ensures header != [] && |Fields(header)| < 2 ==> d == Unauthorized(BadFormatMessage)
    ensures |Fields(header)| >= 2 && ToLower(Fields(header)[0]) != AuthorizationTypeBearer ==>
              d == Unauthorized(UnsupportedTypePrefix + ToLower(Fields(header)[0]))
    ensures |Fields(header)| >= 2 && ToLower(Fields(header)[0]) == AuthorizationTypeBearer && Fields(header)[1] != token ==>
              d == Unauthorized(InvalidTokenMessage)
    ensures d.Pass? <==> |Fields(header)| >= 2 && ToLower(Fields(header)[0]) == AuthorizationTypeBearer && Fields(header)[1] == token
    ensures d.Pass? ==> token != [] && NoSpace(token)
  {
    if |header| == 0 then Unauthorized(MissingHeaderMessage)
    else
      var fields := Fields(header);
      if |fields| < 2 then Unauthorized(BadFormatMessage)
      else
        var authorizationType := ToLower(fields[0]);
        if authorizationType != AuthorizationTypeBearer then Unauthorized(UnsupportedTypePrefix + authorizationType)
        else if fields[1] != token then Unauthorized(InvalidTokenMessage)
        else Pass
  }

  /** What ensureAdmin writes when it refuses: http.Error with 401. */
  function AuthEffects(message: string): (effects: seq<Effect>)
    ensures StatusOf(effects) == StatusUnauthorized
    ensures BodyOf(effects) == [Write(message + "\n")]
  {
    HttpError(message, StatusUnauthorized)
  }

  /** The scheme is matched without regard to ASCII case. */
  lemma SchemeIsCaseInsensitive(scheme: string)
    ensures ToLower(scheme) == AuthorizationTypeBearer <==> EqualFoldAscii(scheme, AuthorizationTypeBearer)
  {
    ToLowerMatchesIffFold(scheme, AuthorizationTypeBearer);
  }

  /**
   * Every well-formed bearer header passes: any leading white space, the
   * scheme in any case, a white-space separator, the exact token, and
   * anything after it (extra fields are ignored).
   */
  lemma EnsureAdminAcceptsBearer(lead: string, scheme: string, sep: string, token: string, tail: string)
    requires AllSpace(lead)
    requires EqualFoldAscii(scheme, AuthorizationTypeBearer)
    requires sep != [] && AllSpace(sep)
    requires token != [] && NoSpace(token)
    requires tail == [] || IsSpace(tail[0])
    ensures EnsureAdmin(lead + scheme + sep + token + tail, token) == Pass
  {
    SchemeIsCaseInsensitive(scheme);
    assert NoSpace(scheme);
    var header := lead + scheme + sep + token + tail;
    assert header == lead + (scheme + (sep + (token + tail)));
    FieldsSkipSpace(lead, scheme + (sep + (token + tail)));
    FieldsOfWordThen(scheme, sep + (token + tail));
    FieldsSkipSpace(sep, token + tail);
    FieldsOfWordThen(token, tail);
    assert |header| > 0;
  }

  /** "Bearer <token>" is a header ensureAdmin accepts, whatever the token's letters. */
  lemma BearerHeaderPasses(token: string)
    requires token != [] && NoSpace(token)
    ensures EnsureAdmin("Bearer " + token, token) == Pass
  {
    assert EqualFoldAscii("Bearer", AuthorizationTypeBearer);
    EnsureAdminAcceptsBearer([], "Bearer", " ", token, []);
    assert [] + "Bearer" + " " + token + [] == "Bearer " + token;
  }

  /** A header of white space only is present but malformed. */
  lemma EnsureAdminBlankHeader(header: string, token: string)
    requires header != [] && AllSpace(header)
    ensures EnsureAdmin(header, token) == Unauthorized(BadFormatMessage)
  {
    FieldsSkipSpace(header, []);
    assert header + [] == header;
  }

  /** With no token configured (TOKEN unset) every request is refused. */
  lemma EnsureAdminUnsetTokenRefusesAll(header: string)
    ensures EnsureAdmin(header, []).Unauthorized?
  {
  }

  /** A right header with a different token is refused as an invalid token. */
  lemma EnsureAdminWrongToken(scheme: string, presented: string, token: string)
    requires EqualFoldAscii(scheme, AuthorizationTypeBearer)
    requires presented != [] && NoSpace(presented) && presented != token
    ensures EnsureAdmin(scheme + " " + presented, token) == Unauthorized(InvalidTokenMessage)
  {
    SchemeIsCaseInsensitive(scheme);
    var header := scheme + " " + presented;
    assert Fields(header) == [scheme, presented] by {
      assert header == scheme + (" " + (presented + []));
      FieldsOfWordThen(scheme, " " + (presented + []));
      FieldsSkipSpace(" ", presented + []);
      FieldsOfWordThen(presented, []);
      assert presented + [] == presented;
    }
  }

  // ---------------------------------------------------------------------------
  // limitMiddleware

  /**
   * limitMiddleware: take the IP out of the remote address, fetch (and
   * refresh) its limiter, and admit the request when the limiter allows it.
   * `allowed` is the answer Allow() gives. Returns whether next runs.
   */
  method LimitMiddleware(rl: RateLimiter, w: ResponseRecorder, remoteAddr: string, now: int, allowed: bool)
    returns (callNext: bool)
    modifies rl, w
    ensures SplitHostPort(remoteAddr).Failure? ==>
              && !callNext
              && rl.clients == old(rl.clients)
              && w.trace == old(w.trace) + HttpError(UnknownIpMessage, StatusInternalServerError)
    ensures SplitHostPort(remoteAddr).Success? ==>
              var ip := SplitHostPort(remoteAddr).value.0;
              && ip in rl.clients
              && rl.clients == Refreshed(old(rl.clients), ip, now, rl.clients[ip].limiter)
              && (ip in old(rl.clients) ==> rl.clients[ip].limiter == old(rl.clients)[ip].limiter)
              && callNext == allowed
              && w.trace == old(w.trace) + (if allowed then [] else HttpError(RateLimitedMessage, StatusTooManyRequests))
  {
    var split := SplitHostPort(remoteAddr);
    if split.Failure? {
      w.Replay(HttpError(UnknownIpMessage, StatusInternalServerError));
      return false;
    }
    var ip := split.value.0;
    var limiter := rl.GetClient(ip, now);
    if !allowed {
      w.Replay(HttpError(RateLimitedMessage, StatusTooManyRequests));
      return false;
    }
    callNext := true;
  }
}
