/** What the session layer sees of HTTP and of the server framework: cookies
    as the Set-Cookie parser returns them and as the cookie store keeps them,
    backend requests and responses, and the per-request context that owns the
    cookie store and the channel to the backend. */
module Http {
  import opened Js
  import opened AuthStore

  /** One Set-Cookie line as the cookie parser returns it. `expires` is a
      time in milliseconds. */
  datatype ParsedCookie = ParsedCookie(
    name: string,
    value: string,
    httpOnly: Option<bool>,
    secure: Option<bool>,
    path: Option<string>,
    domain: Option<string>,
    maxAge: Option<int>,
    expires: Option<int>,
    sameSite: Option<string>)

  /** A cookie as the code hands it to `cookieStore.set`: the parsed cookie's
      name, value and attributes, without its domain. */
  datatype Cookie = Cookie(
    name: string,
    value: string,
    httpOnly: Option<bool>,
    secure: Option<bool>,
    path: Option<string>,
    maxAge: Option<int>,
    expires: Option<int>,
    sameSite: Option<string>)

  /** The object literal passed to `cookieStore.set` for a parsed cookie: its
      name, value and every attribute the parser read except the domain,
      which is dropped. */
  function Stored(p: ParsedCookie): (c: Cookie)
    ensures c.name == p.name && c.value == p.value
    ensures c.httpOnly == p.httpOnly && c.secure == p.secure && c.path == p.path
    ensures c.maxAge == p.maxAge && c.expires == p.expires && c.sameSite == p.sameSite
  {
    Cookie(p.name, p.value, p.httpOnly, p.secure, p.path, p.maxAge, p.expires, p.sameSite)
  }

  /** The cookie store of one request: at most one cookie per name. */
  type Store = map<string, Cookie>

  /** `cookieStore.get(name)` */
  function Lookup(store: Store, name: string): Option<Cookie> {
    if name in store then Some(store[name]) else None
  }

  /** `cookieStore.get(name)?.value` */
  function Value(store: Store, name: string): Option<string> {
    if name in store then Some(store[name].value) else None
  }

  /** The store after `cookieStore.set` of every cookie of the list, in order. */
  function WriteAll(store: Store, cookies: seq<ParsedCookie>): Store
    decreases |cookies|
  {
    if cookies == [] then store
    else
      var last := cookies[|cookies| - 1];
      WriteAll(store, cookies[..|cookies| - 1])[last.name := Stored(last)]
  }

  /** The last cookie of the list with the given name, if any. */
  function LastNamed(cookies: seq<ParsedCookie>, name: string): Option<ParsedCookie>
    decreases |cookies|
  {
    if cookies == [] then None
    else if cookies[|cookies| - 1].name == name then Some(cookies[|cookies| - 1])
    else LastNamed(cookies[..|cookies| - 1], name)
  }

  /** `LastNamed` finds the entry with that name that no later entry shares,
      and finds none exactly when no entry has the name. */
  lemma {:induction false} LastNamedIsLast(cookies: seq<ParsedCookie>, name: string)
    ensures LastNamed(cookies, name).None? <==>
              forall i :: 0 <= i < |cookies| ==> cookies[i].name != name
    ensures LastNamed(cookies, name).Some? ==>
              exists i :: 0 <= i < |cookies| && cookies[i] == LastNamed(cookies, name).value
                && cookies[i].name == name
                && forall j :: i < j < |cookies| ==> cookies[j].name != name
    decreases |cookies|
  {
    if cookies != [] {
      var k := |cookies| - 1;
      var front := cookies[..k];
      LastNamedIsLast(front, name);
      if cookies[k].name != name {
        assert forall i :: 0 <= i < k ==> front[i] == cookies[i];
        if LastNamed(front, name).Some? {
          var i :| 0 <= i < |front| && front[i] == LastNamed(front, name).value
                   && front[i].name == name
                   && forall j :: i < j < |front| ==> front[j].name != name;
          assert cookies[i] == front[i];
        }
      }
    }
  }

  /** Writing a list of cookies sets each name to the last cookie of that name
      in the list, with all its attributes but the domain, and leaves every
      other name as it was. */
  lemma {:induction false} WriteAllLookup(store: Store, cookies: seq<ParsedCookie>, name: string)
    ensures Lookup(WriteAll(store, cookies), name) ==
              match LastNamed(cookies, name)
              case Some(p) => Some(Stored(p))
              case None => Lookup(store, name)
    decreases |cookies|
  {
    if cookies != [] {
      WriteAllLookup(store, cookies[..|cookies| - 1], name);
    }
  }

  /** The cookie parser applied to a list of Set-Cookie lines: empty lines are
      dropped and every other line becomes one cookie. */
  function ParseSetCookie(parse: string -> ParsedCookie, lines: seq<string>): seq<ParsedCookie>
    decreases |lines|
  {
    if lines == [] then []
    else if lines[0] == "" then ParseSetCookie(parse, lines[1..])
    else [parse(lines[0])] + ParseSetCookie(parse, lines[1..])
  }

  /** The lines of the list that are not empty, in order. */
  function NonEmptyLines(lines: seq<string>): (kept: seq<string>)
    ensures |kept| <= |lines|
    ensures forall i :: 0 <= i < |kept| ==> kept[i] != ""
    ensures (forall i :: 0 <= i < |lines| ==> lines[i] != "") ==> kept == lines
    decreases |lines|
  {
    if lines == [] then []
    else if lines[0] == "" then NonEmptyLines(lines[1..])
    else [lines[0]] + NonEmptyLines(lines[1..])
  }

  /** The parser yields exactly one cookie per non-empty line, in order; so
      when no line is empty, one cookie per line. */
  lemma {:induction false} ParseSetCookieLines(parse: string -> ParsedCookie, lines: seq<string>)
    ensures |ParseSetCookie(parse, lines)| == |NonEmptyLines(lines)|
    ensures forall i :: 0 <= i < |NonEmptyLines(lines)| ==>
              ParseSetCookie(parse, lines)[i] == parse(NonEmptyLines(lines)[i])
    decreases |lines|
  {
    if lines != [] {
      ParseSetCookieLines(parse, lines[1..]);
    }
  }

  /** An HTTP status code a fetch `Response` can carry. */
  type Status = s: int | 200 <= s <= 599 witness 200

  /** `response.ok` */
  predicate Ok(status: Status) {
    200 <= status <= 299
  }

  /** A backend response: its status, its Set-Cookie lines, its Content-Type,
      its body text and that text parsed as JSON (`None` when it is not JSON). */
  datatype Response = Response(
    status: Status,
    setCookie: seq<string>,
    contentType: Option<string>,
    text: string,
    json: Option<Json>)

  /** `response.headers.get("set-cookie")`: every Set-Cookie line in one
      string, joined with `", "`, or `null` when there is none. */
  function CombinedSetCookie(r: Response): Option<string> {
    if r.setCookie == [] then None else Some(Join(r.setCookie, ", "))
  }

  /** The joined header is missing exactly when there is no line, and truthy
      unless there is no line or one empty line. */
  lemma CombinedSetCookieTruthy(r: Response)
    ensures CombinedSetCookie(r).None? <==> r.setCookie == []
    ensures Truthy(CombinedSetCookie(r)) <==>
              |r.setCookie| >= 2 || (|r.setCookie| == 1 && r.setCookie[0] != "")
  {
    if |r.setCookie| >= 2 {
      assert |Join(r.setCookie, ", ")| >= 2;
    }
  }

  /** What `fetch` settles with: a response, or a rejection with a message. */
  datatype Answer = Reply(response: Response) | NetworkError(message: string)

  /** A request header's value: a literal, or `cookieStore.toString()` of the
      store as it was when the request was built. */
  datatype HeaderValue = Text(text: string) | StoreCookies(snapshot: Store)

  /** A request body: a value sent as the caller gave it, or `JSON.stringify` of a value. */
  datatype Body = AsGiven(value: Json) | Stringified(value: Json)

  datatype Request = Request(
    url: string,
    verb: Option<string>,
    headers: map<string, HeaderValue>,
    body: Option<Body>,
    cache: Option<string>)

  /** How a call ends: a value, a thrown error with its message, or a
      framework redirect (which is thrown too and ends the call). */
  datatype Outcome<+T> = Returned(value: T) | Thrown(message: string) | Redirected(location: string)

  /** The context of one server request: its cookie store, the requests sent
      to the backend so far, and the libraries the code calls. The backend is
      any function from the requests sent so far to the answer to the last one. */
  class RequestContext {
    var store: Store
    var sent: seq<Request>
    const apiUrl: string
    const backend: seq<Request> -> Answer
    const parseCookie: string -> ParsedCookie
    const decodeJwt: string -> Option<Claims>

    constructor (apiUrl: string, cookies: Store, backend: seq<Request> -> Answer,
                 parseCookie: string -> ParsedCookie, decodeJwt: string -> Option<Claims>)
      ensures this.apiUrl == apiUrl && this.backend == backend
      ensures this.parseCookie == parseCookie && this.decodeJwt == decodeJwt
      ensures store == cookies && sent == []
    {
      this.apiUrl := apiUrl;
      this.backend := backend;
      this.parseCookie := parseCookie;
      this.decodeJwt := decodeJwt;
      store := cookies;
      sent := [];
    }

    /** `await fetch(...)`: sends the request and returns the backend's answer. */
    method Fetch(req: Request) returns (answer: Answer)
      modifies this`sent
      ensures sent == old(sent) + [req]
      ensures answer == backend(sent)
    {
      sent := sent + [req];
      answer := backend(sent);
    }

    /** `cookieStore.set(cookie)`: replaces any cookie of the same name. */
    method Set(cookie: Cookie)
      modifies this`store
      ensures store == old(store)[cookie.name := cookie]
    {
      store := store[cookie.name := cookie];
    }

    /** `cookieStore.delete(name)` */
    method Delete(name: string)
      modifies this`store
      ensures store == old(store) - {name}
    {
      store := store - {name};
    }
  }
}
