/** The request wrapper every backend call goes through: it builds the URL
    and headers, sends the request, and on a 401 refreshes the session once
    and retries; every other answer becomes a thrown error, an empty result,
    parsed JSON or text. */
module ApiClient {
  import opened Js
  import opened Http
  import Auth

  /** The caller's options: method, extra headers, body, and the flag that
      stops a retried request from refreshing again. */
  datatype FetchOptions = FetchOptions(
    verb: Option<string>,
    headers: map<string, string>,
    body: Option<Json>,
    skipRefresh: bool)

  /** What a call returns: parsed JSON or the raw body text. */
  datatype Data = JsonData(json: Json) | TextData(text: string)

  /** Stands for the message of the error `response.json()` throws on a body
      that is not JSON; the model does not fix its text. */
  const InvalidJson := "SyntaxError"

  // ---------------------------------------------------------------------------
  // Building the request

  /** The endpoint's path without one leading slash, if it has one. */
  function PathOf(endpoint: string): string {
    if StartsWith(endpoint, "/") then endpoint[1..] else endpoint
  }

  /** `API_URL` followed by the endpoint, with a slash put in front of an
      endpoint that lacks one. */
  function RequestUrl(apiUrl: string, endpoint: string): (url: string)
    ensures |url| > |apiUrl| && url[..|apiUrl|] == apiUrl
    ensures url[|apiUrl|] == '/'
    ensures url[|apiUrl| + 1..] == PathOf(endpoint)
  {
    apiUrl + (if StartsWith(endpoint, "/") then endpoint else "/" + endpoint)
  }

  /** An endpoint with and without its leading slash names the same URL. */
  lemma RequestUrlLeadingSlash(apiUrl: string, endpoint: string)
    requires !StartsWith(endpoint, "/")
    ensures RequestUrl(apiUrl, "/" + endpoint) == RequestUrl(apiUrl, endpoint)
  {
    assert StartsWith("/" + endpoint, "/");
    assert ("/" + endpoint)[1..] == endpoint;
    assert PathOf("/" + endpoint) == PathOf(endpoint);
  }

  /** The default JSON content type and the store's cookies, overridden by
      any header the caller passes under the same name. */
  function RequestHeaders(store: Store, custom: map<string, string>): (h: map<string, HeaderValue>)
    ensures h.Keys == {"Content-Type", "Cookie"} + custom.Keys
    ensures forall k :: k in custom ==> h[k] == Text(custom[k])
    ensures "Content-Type" !in custom ==> h["Content-Type"] == Text("application/json")
    ensures "Cookie" !in custom ==> h["Cookie"] == StoreCookies(store)
  {
    map["Content-Type" := Text("application/json"), "Cookie" := StoreCookies(store)]
      + map k | k in custom :: Text(custom[k])
  }

  /** A body that is a string, or that is falsy, is sent as given; any other
      body is sent as its JSON text. */
  function RequestBody(body: Option<Json>): (b: Option<Body>)
    ensures b.Some? <==> body.Some?
    ensures b.Some? ==> b.value.value == body.value
    ensures b.Some? ==> (b.value.Stringified? <==> !body.value.JString? && JsonTruthy(body.value))
  {
    match body
    case None => None
    case Some(v) => if JsonTruthy(v) && !v.JString? then Some(Stringified(v)) else Some(AsGiven(v))
  }

  /** The request `fetchApi` sends: the caller's method, the merged headers,
      the body, and caching always turned off. */
  function BuildRequest(apiUrl: string, store: Store, endpoint: string, options: FetchOptions): (req: Request)
    ensures req.url == RequestUrl(apiUrl, endpoint) && req.verb == options.verb
    ensures req.headers == RequestHeaders(store, options.headers)
    ensures req.body == RequestBody(options.body)
    ensures req.cache == Some("no-store")
  {
    Request(RequestUrl(apiUrl, endpoint), options.verb, RequestHeaders(store, options.headers),
            RequestBody(options.body), Some("no-store"))
  }

  /** A retry differs from the first request only in the cookies it carries. */
  lemma RetryKeepsRequest(apiUrl: string, before: Store, after: Store, endpoint: string, options: FetchOptions)
    ensures var first := BuildRequest(apiUrl, before, endpoint, options);
            var retry := BuildRequest(apiUrl, after, endpoint, options.(skipRefresh := true));
            && retry.url == first.url && retry.verb == first.verb && retry.body == first.body
            && retry.cache == first.cache && retry.headers.Keys == first.headers.Keys
            && forall k :: k in first.headers && k != "Cookie" ==> retry.headers[k] == first.headers[k]
  {
  }

  /** The refresh call of the wrapper: a bodiless POST to the refresh
      endpoint whose only header carries every cookie of the store, with no
      cache setting. */
  function RefreshRequest(apiUrl: string, store: Store): (req: Request)
    ensures req.url == apiUrl + "/auth/refresh-access" && req.verb == Some("POST")
    ensures req.headers.Keys == {"Cookie"} && req.headers["Cookie"] == StoreCookies(store)
    ensures req.body.None? && req.cache.None?
  {
    Request(apiUrl + "/auth/refresh-access", Some("POST"), map["Cookie" := StoreCookies(store)], None, None)
  }

  // ---------------------------------------------------------------------------
  // Handling the response

  /** The response declares a JSON body. */
  predicate JsonContent(resp: Response) {
    resp.contentType.Some? && Includes(resp.contentType.value, "application/json")
  }

  /** The result of a response that is not an error: `{}` for 204, the parsed
      body for a JSON content type (a body that does not parse is thrown), and
      the text otherwise. */
  function Classify(resp: Response): (r: Outcome<Data>)
    ensures !r.Redirected?
    ensures r.Thrown? <==> resp.status != 204 && JsonContent(resp) && resp.json.None?
    ensures resp.status == 204 ==> r == Returned(JsonData(JObject(map[])))
    ensures resp.status != 204 && JsonContent(resp) && resp.json.Some? ==> r == Returned(JsonData(resp.json.value))
    ensures resp.status != 204 && !JsonContent(resp) ==> r == Returned(TextData(resp.text))
  {
    if resp.status == 204 then Returned(JsonData(JObject(map[])))
    else if JsonContent(resp) then
      match resp.json
      case Some(v) => Returned(JsonData(v))
      case None => Thrown(InvalidJson)
    else Returned(TextData(resp.text))
  }

  /** The message of an error response: the backend's, or one naming the
      status in decimal. */
  function FailureText(resp: Response): string {
    Auth.ErrorText(resp.json, "API Request Failed: " + NatToString(resp.status))
  }

  /** Without a backend message, the error text is `API Request Failed: `
      followed by digits that spell the status. */
  lemma FailureTextNamesStatus(resp: Response)
    ensures Auth.BackendMessage(resp.json).Some? ==> FailureText(resp) == Auth.BackendMessage(resp.json).value
    ensures Auth.BackendMessage(resp.json).None? ==>
              var m := FailureText(resp);
              && |m| > 20 && m[..20] == "API Request Failed: "
              && DigitsValue(m[20..]) == resp.status
  {
    var fallback := "API Request Failed: " + NatToString(resp.status);
    assert fallback[20..] == NatToString(resp.status);
  }

  /** How the wrapper ends once no refresh is attempted: a rejected fetch and
      an error status other than 401 are thrown, and everything else,
      401 included, is classified by its body. */
  function Settle(answer: Answer): (r: Outcome<Data>)
    ensures !r.Redirected?
    ensures answer.NetworkError? ==> r == Thrown(answer.message)
    ensures answer.Reply? && !Ok(answer.response.status) && answer.response.status != 401 ==>
              r == Thrown(FailureText(answer.response))
    ensures answer.Reply? && (Ok(answer.response.status) || answer.response.status == 401) ==>
              r == Classify(answer.response)
  {
    match answer
    case NetworkError(m) => Thrown(m)
    case Reply(resp) =>
      if !Ok(resp.status) && resp.status != 401 then Thrown(FailureText(resp))
      else Classify(resp)
  }

  /** A 401 that is not refreshed is never thrown for its status: it yields
      the classification of its body. */
  lemma SettleUnauthorized(resp: Response)
    requires resp.status == 401
    ensures Settle(Reply(resp)) == Classify(resp)
    ensures Settle(Reply(resp)).Thrown? ==> JsonContent(resp) && resp.json.None?
  {
  }

  // ---------------------------------------------------------------------------
  // The refresh step

  predicate Unauthorized(answer: Answer) {
    answer.Reply? && answer.response.status == 401
  }

  /** A refresh answer the wrapper retries on: ok, with a non-empty Set-Cookie header. */
  predicate RefreshGranted(answer: Answer) {
    answer.Reply? && Ok(answer.response.status) && Truthy(CombinedSetCookie(answer.response))
  }

  /** A refresh is granted exactly when it is ok and sent some Set-Cookie
      line, unless its only line is empty. */
  lemma RefreshGrantedLines(answer: Answer)
    ensures RefreshGranted(answer) <==>
              && answer.Reply? && Ok(answer.response.status)
              && (|answer.response.setCookie| >= 2
                  || (|answer.response.setCookie| == 1 && answer.response.setCookie[0] != ""))
  {
    if answer.Reply? {
      CombinedSetCookieTruthy(answer.response);
    }
  }

  /** The cookies copied from a granted refresh: one per non-empty
      Set-Cookie line, in the order the lines came. */
  function RefreshCookies(parse: string -> ParsedCookie, resp: Response): (cookies: seq<ParsedCookie>)
    ensures |cookies| == |NonEmptyLines(resp.setCookie)|
    ensures forall i :: 0 <= i < |cookies| ==> cookies[i] == parse(NonEmptyLines(resp.setCookie)[i])
  {
    ParseSetCookieLines(parse, resp.setCookie);
    ParseSetCookie(parse, resp.setCookie)
  }

  /** The cookies the code as written copies from a granted refresh: it hands
      the comma-joined header to the parser as one string, which the parser
      reads as a single cookie, however many lines the header joined. */
  function RefreshCookiesAsWritten(parse: string -> ParsedCookie, resp: Response): (cookies: seq<ParsedCookie>)
    ensures |cookies| <= 1
    ensures Truthy(CombinedSetCookie(resp)) ==> cookies == [parse(CombinedSetCookie(resp).value)]
    ensures !Truthy(CombinedSetCookie(resp)) ==> cookies == []
  {
    var header := CombinedSetCookie(resp);
    if Truthy(header) then
      assert ParseSetCookie(parse, [header.value][1..]) == [];
      ParseSetCookie(parse, [header.value])
    else []
  }

  /** As written, a refresh that sends a new access cookie and a new refresh
      cookie on two lines never leaves both in a store that held neither. */
  lemma AsWrittenLosesACookie(parse: string -> ParsedCookie, store: Store, resp: Response)
    requires |resp.setCookie| == 2 && resp.setCookie[0] != "" && resp.setCookie[1] != ""
    requires parse(resp.setCookie[0]).name == Auth.AccessCookie
    requires parse(resp.setCookie[1]).name == Auth.RefreshCookie
    requires Auth.AccessCookie !in store && Auth.RefreshCookie !in store
    ensures var after := WriteAll(store, RefreshCookiesAsWritten(parse, resp));
            !(Auth.AccessCookie in after && Auth.RefreshCookie in after)
  {
    var header := CombinedSetCookie(resp);
    assert resp.setCookie[1..] == [resp.setCookie[1]];
    assert Join(resp.setCookie[1..], ", ") == resp.setCookie[1];
    assert header.value == resp.setCookie[0] + ", " + resp.setCookie[1];
    assert Truthy(header);
    var cookies := RefreshCookiesAsWritten(parse, resp);
    WriteAllLookup(store, cookies, Auth.AccessCookie);
    WriteAllLookup(store, cookies, Auth.RefreshCookie);
  }

  /** Corrected, the same refresh stores both cookies, each as sent. */
  lemma RefreshStoresEveryCookie(parse: string -> ParsedCookie, store: Store, resp: Response)
    requires |resp.setCookie| == 2 && resp.setCookie[0] != "" && resp.setCookie[1] != ""
    requires parse(resp.setCookie[0]).name == Auth.AccessCookie
    requires parse(resp.setCookie[1]).name == Auth.RefreshCookie
    ensures var after := WriteAll(store, RefreshCookies(parse, resp));
            && Lookup(after, Auth.AccessCookie) == Some(Stored(parse(resp.setCookie[0])))
            && Lookup(after, Auth.RefreshCookie) == Some(Stored(parse(resp.setCookie[1])))
  {
    var cookies := RefreshCookies(parse, resp);
    assert cookies == [parse(resp.setCookie[0]), parse(resp.setCookie[1])];
    assert cookies[..1] == [parse(resp.setCookie[0])];
    WriteAllLookup(store, cookies, Auth.AccessCookie);
    WriteAllLookup(store, cookies, Auth.RefreshCookie);
  }

  // ---------------------------------------------------------------------------
  // fetchApi

  /** The loop that copies a granted refresh's cookies into the store. */
  method SetCookies(ctx: RequestContext, cookies: seq<ParsedCookie>)
    modifies ctx`store
    ensures ctx.store == WriteAll(old(ctx.store), cookies)
  {
    var i := 0;
    while i < |cookies|
      invariant 0 <= i <= |cookies|
      invariant ctx.store == WriteAll(old(ctx.store), cookies[..i])
    {
      assert cookies[..i + 1][..i] == cookies[..i];
      ctx.Set(Stored(cookies[i]));
      i := i + 1;
    }
    assert cookies[..i] == cookies;
  }

  /** What lines 44-87 leave behind, from the store `before` and the log
      `asked` to the store `after` and the log `sent`: two more requests.
      The first is a refresh with every cookie of `before`. If it is granted,
      its cookies are copied into the store and the request is sent again,
      built from the renewed store with `skipRefresh` set, and its answer is
      settled; any other refresh answer, a rejection included, signs the
      session out. */
  predicate RefreshedThenRetried(ctx: RequestContext, endpoint: string, options: FetchOptions,
                                 before: Store, asked: seq<Request>,
                                 after: Store, sent: seq<Request>, r: Outcome<Data>)
  {
    var n := |asked|;
    && |sent| == n + 2
    && sent[..n] == asked
    && sent[n] == RefreshRequest(ctx.apiUrl, before)
    && var second := ctx.backend(sent[..n + 1]);
       if RefreshGranted(second) then
         var renewed := WriteAll(before, RefreshCookies(ctx.parseCookie, second.response));
         && after == renewed
         && sent[n + 1] == BuildRequest(ctx.apiUrl, renewed, endpoint, options.(skipRefresh := true))
         && r == Settle(ctx.backend(sent))
       else
         && after == Auth.SignedOut(before)
         && sent[n + 1] == Auth.SignOutRequest(ctx.apiUrl, after)
         && r == Redirected(Auth.SessionExpired)
  }

  /** Lines 44-87: one refresh, then the retry or the sign-out. */
  method RefreshThenRetry(ctx: RequestContext, endpoint: string, options: FetchOptions) returns (r: Outcome<Data>)
    modifies ctx
    decreases 1
    ensures |ctx.sent| == |old(ctx.sent)| + 2 && ctx.sent[..|old(ctx.sent)|] == old(ctx.sent)
    ensures RefreshedThenRetried(ctx, endpoint, options, old(ctx.store), old(ctx.sent), ctx.store, ctx.sent, r)
    ensures r.Redirected? ==> r == Redirected(Auth.SessionExpired)
  {
    ghost var n := |old(ctx.sent)|;
    var refreshResponse := ctx.Fetch(RefreshRequest(ctx.apiUrl, ctx.store));
    ghost var asked := ctx.sent;
    if RefreshGranted(refreshResponse) {
      SetCookies(ctx, RefreshCookies(ctx.parseCookie, refreshResponse.response));
      r := FetchApi(ctx, endpoint, options.(skipRefresh := true));
      assert ctx.sent[..n + 1] == asked;
      assert ctx.sent[..n + 2] == ctx.sent;
    } else {
      r := Auth.SignOutAndRedirect(ctx);
      assert ctx.sent[..n + 1] == asked;
    }
  }

  /** Sends the request. A 401 without `skipRefresh` leads to one refresh and
      at most one retry (see `RefreshThenRetry`); any other first answer is
      settled directly and leaves the store alone. So a call sends one or
      three requests, refreshes at most once, and ends in a redirect only
      after a refused refresh. */
  method FetchApi(ctx: RequestContext, endpoint: string, options: FetchOptions) returns (r: Outcome<Data>)
    modifies ctx
    decreases if options.skipRefresh then 0 else 2
    ensures |ctx.sent| == |old(ctx.sent)| + 1 || |ctx.sent| == |old(ctx.sent)| + 3
    ensures ctx.sent[..|old(ctx.sent)|] == old(ctx.sent)
    ensures ctx.sent[|old(ctx.sent)|] == BuildRequest(ctx.apiUrl, old(ctx.store), endpoint, options)
    ensures var first := ctx.backend(ctx.sent[..|old(ctx.sent)| + 1]);
      (|ctx.sent| == |old(ctx.sent)| + 3) <==> (Unauthorized(first) && !options.skipRefresh)
    ensures var first := ctx.backend(ctx.sent[..|old(ctx.sent)| + 1]);
      !(Unauthorized(first) && !options.skipRefresh) ==>
        r == Settle(first) && ctx.store == old(ctx.store)
    ensures |ctx.sent| == |old(ctx.sent)| + 3 ==>
      RefreshedThenRetried(ctx, endpoint, options, old(ctx.store), ctx.sent[..|old(ctx.sent)| + 1], ctx.store, ctx.sent, r)
    ensures r.Redirected? ==> r == Redirected(Auth.SessionExpired) && |ctx.sent| == |old(ctx.sent)| + 3
  {
    ghost var n := |old(ctx.sent)|;
    var request := BuildRequest(ctx.apiUrl, ctx.store, endpoint, options);
    var response := ctx.Fetch(request);
    ghost var asked := ctx.sent;
    if Unauthorized(response) && !options.skipRefresh {
      r := RefreshThenRetry(ctx, endpoint, options);
      assert ctx.sent[..n + 1] == asked;
      assert ctx.sent[..n + 2][..n + 1] == asked;
    } else {
      r := Settle(response);
      assert ctx.sent[..n + 1] == asked;
    }
  }
}
