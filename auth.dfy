/** The server actions of the session layer: token verification, copying the
    backend's cookies into the cookie store, sign-in, sign-out with redirect,
    and the current-session check that refreshes an expired access token. */
module Auth {
  import opened Js
  import opened AuthStore
  import opened Http

  const AccessCookie := "accessToken"
  const RefreshCookie := "refreshToken"
  /** Where every sign-out redirects. */
  const SessionExpired := "/sign-in?reason=session_expired"
  /** The sign-in error used when the backend sends no message. */
  const SignInFailed := "로그인에 실패했습니다."

  // ---------------------------------------------------------------------------
  // verifyToken

  /** `exp * 1000 < Date.now()`: the NumericDate `exp` (seconds) lies strictly
      before `now` (milliseconds). A missing `exp` compares as NaN, which is
      never less than anything. */
  predicate Expired(c: Claims, now: int) {
    c.exp.Some? && c.exp.value * 1000 < now
  }

  /** The record the code builds from decoded claims: exactly the five payload fields. */
  function PayloadOf(c: Claims): (p: Payload)
    ensures p.id == c.id && p.role == c.role && p.userType == c.userType
    ensures p.iat == c.iat && p.exp == c.exp
  {
    Payload(c.id, c.role, c.userType, c.iat, c.exp)
  }

  /** Decodes a token without checking its signature and refuses it when it
      cannot be decoded or has expired. */
  function VerifyToken(decode: string -> Option<Claims>, token: string, now: int): (r: Option<Payload>)
    ensures r.None? <==> decode(token).None? || Expired(decode(token).value, now)
    ensures r.Some? ==> r.value == PayloadOf(decode(token).value)
  {
    match decode(token)
    case None => None
    case Some(c) => if c.exp.Some? && c.exp.value * 1000 < now then None else Some(PayloadOf(c))
  }

  /** A decodable token with an expiry is accepted exactly up to and including
      the millisecond `exp * 1000`. */
  lemma VerifyTokenExpiry(decode: string -> Option<Claims>, token: string, now: int)
    requires decode(token).Some? && decode(token).value.exp.Some?
    ensures VerifyToken(decode, token, now).Some? <==> now <= decode(token).value.exp.value * 1000
  {
  }

  /** A decodable token without an `exp` claim is accepted at every time. */
  lemma VerifyTokenWithoutExpiry(decode: string -> Option<Claims>, token: string, now: int)
    requires decode(token).Some? && decode(token).value.exp.None?
    ensures VerifyToken(decode, token, now) == Some(PayloadOf(decode(token).value))
  {
  }

  /** A token refused at some time is refused at every later time. */
  lemma VerifyTokenStaysExpired(decode: string -> Option<Claims>, token: string, now: int, later: int)
    requires now <= later
    requires VerifyToken(decode, token, now).None?
    ensures VerifyToken(decode, token, later).None?
  {
  }

  // ---------------------------------------------------------------------------
  // syncBackendCookies

  /** The access token a list of cookies carries: the value of its last
      cookie named `accessToken`. */
  function AccessTokenIn(cookies: seq<ParsedCookie>): Option<string> {
    match LastNamed(cookies, AccessCookie)
    case Some(c) => Some(c.value)
    case None => None
  }

  /** The access token a response's Set-Cookie lines carry. */
  function NewAccessToken(parse: string -> ParsedCookie, r: Response): Option<string> {
    AccessTokenIn(ParseSetCookie(parse, r.setCookie))
  }

  /** The token `AccessTokenIn` returns is the value of an `accessToken`
      cookie that no later cookie of the list replaces, and there is none
      exactly when no cookie of the list is named `accessToken`. */
  lemma AccessTokenInIsLast(cookies: seq<ParsedCookie>)
    ensures AccessTokenIn(cookies).None? <==>
              forall i :: 0 <= i < |cookies| ==> cookies[i].name != AccessCookie
    ensures AccessTokenIn(cookies).Some? ==>
              exists i :: 0 <= i < |cookies| && cookies[i].name == AccessCookie
                && cookies[i].value == AccessTokenIn(cookies).value
                && forall j :: i < j < |cookies| ==> cookies[j].name != AccessCookie
  {
    LastNamedIsLast(cookies, AccessCookie);
  }

  /** Copies every cookie of the response into the store, attributes included,
      and returns the value of the last `accessToken` among them. A response
      without Set-Cookie lines changes nothing and yields no token. */
  method SyncBackendCookies(ctx: RequestContext, response: Response) returns (token: Option<string>)
    modifies ctx`store
    ensures response.setCookie == [] ==> ctx.store == old(ctx.store) && token.None?
    ensures ctx.store == WriteAll(old(ctx.store), ParseSetCookie(ctx.parseCookie, response.setCookie))
    ensures token == NewAccessToken(ctx.parseCookie, response)
  {
    token := None;
    if |response.setCookie| > 0 {
      var cookies := ParseSetCookie(ctx.parseCookie, response.setCookie);
      var i := 0;
      while i < |cookies|
        invariant 0 <= i <= |cookies|
        invariant ctx.store == WriteAll(old(ctx.store), cookies[..i])
        invariant token == AccessTokenIn(cookies[..i])
      {
        assert cookies[..i + 1][..i] == cookies[..i];
        if cookies[i].name == AccessCookie {
          token := Some(cookies[i].value);
        }
        ctx.Set(Stored(cookies[i]));
        i := i + 1;
      }
      assert cookies[..i] == cookies;
    }
  }

  // ---------------------------------------------------------------------------
  // Backend error messages

  /** `errorData.message` when the body parsed to an object whose `message`
      is a non-empty string. */
  function BackendMessage(json: Option<Json>): Option<string> {
    if json.Some? && json.value.JObject? && "message" in json.value.fields
       && json.value.fields["message"].JString? && json.value.fields["message"].str != ""
    then Some(json.value.fields["message"].str)
    else None
  }

  /** `errorData.message || fallback` */
  function ErrorText(json: Option<Json>, fallback: string): (m: string)
    ensures BackendMessage(json).Some? ==> m == BackendMessage(json).value
    ensures BackendMessage(json).None? ==> m == fallback
  {
    match BackendMessage(json)
    case Some(m) => m
    case None => fallback
  }

  // ---------------------------------------------------------------------------
  // signInAction

  datatype SignInParams = SignInParams(email: string, password: string)

  /** The sign-in call: a POST of the credentials as a JSON object holding
      exactly `email` and `password`, with the JSON content type as its only
      header (so no cookie), and caching turned off. */
  function SignInRequest(apiUrl: string, params: SignInParams): (req: Request)
    ensures req.url == apiUrl + "/auth/sign-in" && req.verb == Some("POST")
    ensures req.headers.Keys == {"Content-Type"} && req.headers["Content-Type"] == Text("application/json")
    ensures req.body.Some? && req.body.value.Stringified? && req.body.value.value.JObject?
    ensures var fields := req.body.value.value.fields;
            fields.Keys == {"email", "password"}
            && fields["email"] == JString(params.email) && fields["password"] == JString(params.password)
    ensures req.cache == Some("no-store")
  {
    Request(apiUrl + "/auth/sign-in", Some("POST"),
            map["Content-Type" := Text("application/json")],
            Some(Stringified(JObject(map["email" := JString(params.email), "password" := JString(params.password)]))),
            Some("no-store"))
  }

  /** Posts the credentials as JSON, without the store's cookies. A rejected
      or non-ok answer is thrown with the backend's message (or the default
      one) and leaves the store alone. An ok answer's cookies are copied into
      the store and the payload of the access token among them is returned,
      or null when none arrived or it does not verify. */
  method SignInAction(ctx: RequestContext, params: SignInParams, now: int)
    returns (r: Outcome<Option<Payload>>)
    modifies ctx
    ensures ctx.sent == old(ctx.sent) + [SignInRequest(ctx.apiUrl, params)]
    ensures var answer := ctx.backend(ctx.sent);
      match answer
      case NetworkError(m) =>
        r == Thrown(m) && ctx.store == old(ctx.store)
      case Reply(resp) =>
        if !Ok(resp.status) then
          r == Thrown(ErrorText(resp.json, SignInFailed)) && ctx.store == old(ctx.store)
        else
          var token := NewAccessToken(ctx.parseCookie, resp);
          && ctx.store == WriteAll(old(ctx.store), ParseSetCookie(ctx.parseCookie, resp.setCookie))
          && r == Returned(if Truthy(token) then VerifyToken(ctx.decodeJwt, token.value, now) else None)
  {
    var answer := ctx.Fetch(SignInRequest(ctx.apiUrl, params));
    if answer.NetworkError? {
      return Thrown(answer.message);
    }
    var response := answer.response;
    if !Ok(response.status) {
      return Thrown(ErrorText(response.json, SignInFailed));
    }
    var accessToken := SyncBackendCookies(ctx, response);
    if Truthy(accessToken) {
      var payload := VerifyToken(ctx.decodeJwt, accessToken.value, now);
      if payload.Some? {
        return Returned(payload);
      }
    }
    return Returned(None);
  }

  // ---------------------------------------------------------------------------
  // signOutAndRedirect

  /** The store with both session cookies removed. */
  function SignedOut(store: Store): (s: Store)
    ensures AccessCookie !in s && RefreshCookie !in s
    ensures forall n :: n in store && n != AccessCookie && n != RefreshCookie ==> n in s && s[n] == store[n]
    ensures s.Keys <= store.Keys
  {
    store - {AccessCookie, RefreshCookie}
  }

  /** Signing out twice leaves the store as signing out once. */
  lemma SignedOutIdempotent(store: Store)
    ensures SignedOut(SignedOut(store)) == SignedOut(store)
  {
  }

  /** The sign-out call: a bodiless POST whose only header carries the
      store's cookies, with no cache setting. */
  function SignOutRequest(apiUrl: string, store: Store): (req: Request)
    ensures req.url == apiUrl + "/auth/sign-out" && req.verb == Some("POST")
    ensures req.headers.Keys == {"Cookie"} && req.headers["Cookie"] == StoreCookies(store)
    ensures req.body.None? && req.cache.None?
  {
    Request(apiUrl + "/auth/sign-out", Some("POST"), map["Cookie" := StoreCookies(store)], None, None)
  }

  /** Deletes both session cookies, then tells the backend, ignoring whatever
      it answers, and redirects to the sign-in page. The backend call carries
      the store as it is after the deletion. */
  method SignOutAndRedirect<T>(ctx: RequestContext) returns (r: Outcome<T>)
    modifies ctx
    ensures ctx.store == SignedOut(old(ctx.store))
    ensures ctx.sent == old(ctx.sent) + [SignOutRequest(ctx.apiUrl, ctx.store)]
    ensures r == Redirected(SessionExpired)
  {
    ctx.Delete(AccessCookie);
    ctx.Delete(RefreshCookie);
    var _ := ctx.Fetch(SignOutRequest(ctx.apiUrl, ctx.store));
    r := Redirected(SessionExpired);
  }

  // ---------------------------------------------------------------------------
  // getAccessTokenAction

  /** The payload of the store's access token, when there is a non-empty one
      and it verifies. */
  function CurrentPayload(decode: string -> Option<Claims>, store: Store, now: int): (p: Option<Payload>)
    ensures p.Some? ==> Truthy(Value(store, AccessCookie))
    ensures Truthy(Value(store, AccessCookie)) ==> p == VerifyToken(decode, store[AccessCookie].value, now)
  {
    var token := Value(store, AccessCookie);
    if Truthy(token) then VerifyToken(decode, token.value, now) else None
  }

  /** The refresh call of the session check: a bodiless POST whose only
      header is the cookie `refreshToken=<token>`, so no other cookie of the
      store goes with it, and caching turned off. */
  function RefreshRequest(apiUrl: string, refreshToken: string): (req: Request)
    ensures req.url == apiUrl + "/auth/refresh-access" && req.verb == Some("POST")
    ensures req.headers.Keys == {"Cookie"} && req.headers["Cookie"] == Text("refreshToken=" + refreshToken)
    ensures req.body.None? && req.cache == Some("no-store")
  {
    assert RefreshCookie + "=" == "refreshToken=";
    Request(apiUrl + "/auth/refresh-access", Some("POST"),
            map["Cookie" := Text(RefreshCookie + "=" + refreshToken)], None, Some("no-store"))
  }

  /** A refresh answer the session check accepts: ok, with a non-empty access token. */
  predicate Renewed(parse: string -> ParsedCookie, answer: Answer) {
    answer.Reply? && Ok(answer.response.status) && Truthy(NewAccessToken(parse, answer.response))
  }

  /** The store once a refresh answer's cookies are copied in (a rejected or
      non-ok answer copies nothing). */
  function AfterRefresh(parse: string -> ParsedCookie, store: Store, answer: Answer): Store {
    if answer.Reply? && Ok(answer.response.status)
    then WriteAll(store, ParseSetCookie(parse, answer.response.setCookie))
    else store
  }

  /** Returns the session of the current access token, without any backend
      call, when that token verifies. Otherwise it needs a refresh token: with
      none it signs out at once; with one it asks the backend for a new access
      token, sending only the refresh cookie. A rejected or non-ok answer, or
      one without a new access token, signs out (after copying the answer's
      cookies); any other answer's cookies are kept and the new token's payload
      is returned, null included, without signing out. The clock is read
      twice: `now` when the current token is checked, `later` when the new
      one is, after the refresh answer arrived. */
  method GetAccessTokenAction(ctx: RequestContext, now: int, later: int) returns (r: Outcome<Option<Payload>>)
    modifies ctx
    ensures var current := CurrentPayload(ctx.decodeJwt, old(ctx.store), now);
      current.Some? ==>
        r == Returned(current) && ctx.store == old(ctx.store) && ctx.sent == old(ctx.sent)
    ensures var current := CurrentPayload(ctx.decodeJwt, old(ctx.store), now);
      var refresh := Value(old(ctx.store), RefreshCookie);
      current.None? && !Truthy(refresh) ==>
        && r == Redirected(SessionExpired)
        && ctx.store == SignedOut(old(ctx.store))
        && ctx.sent == old(ctx.sent) + [SignOutRequest(ctx.apiUrl, ctx.store)]
    ensures var current := CurrentPayload(ctx.decodeJwt, old(ctx.store), now);
      var refresh := Value(old(ctx.store), RefreshCookie);
      current.None? && Truthy(refresh) ==>
        var asked := old(ctx.sent) + [RefreshRequest(ctx.apiUrl, refresh.value)];
        var answer := ctx.backend(asked);
        var renewed := AfterRefresh(ctx.parseCookie, old(ctx.store), answer);
        if Renewed(ctx.parseCookie, answer) then
          && ctx.sent == asked
          && ctx.store == renewed
          && r == Returned(VerifyToken(ctx.decodeJwt, NewAccessToken(ctx.parseCookie, answer.response).value, later))
        else
          && ctx.sent == asked + [SignOutRequest(ctx.apiUrl, ctx.store)]
          && ctx.store == SignedOut(renewed)
          && r == Redirected(SessionExpired)
  {
    var accessToken := Value(ctx.store, AccessCookie);
    var refreshToken := Value(ctx.store, RefreshCookie);
    if Truthy(accessToken) {
      var payload := VerifyToken(ctx.decodeJwt, accessToken.value, now);
      if payload.Some? {
        return Returned(payload);
      }
    }
    if !Truthy(refreshToken) {
      r := SignOutAndRedirect(ctx);
      return;
    }
    var answer := ctx.Fetch(RefreshRequest(ctx.apiUrl, refreshToken.value));
    if answer.NetworkError? || !Ok(answer.response.status) {
      r := SignOutAndRedirect(ctx);
      return;
    }
    var newAccessToken := SyncBackendCookies(ctx, answer.response);
    if !Truthy(newAccessToken) {
      r := SignOutAndRedirect(ctx);
      return;
    }
    return Returned(VerifyToken(ctx.decodeJwt, newAccessToken.value, later));
  }
}
