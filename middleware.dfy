/** The route guard that runs before every matched page: it sends a visitor
    without an access-token cookie to the sign-in page, and a visitor with one
    away from it. */
module RouteGuard {
  import opened Js

  /** A redirect answer, by the path of its target; the target keeps the
      request's origin. */
  datatype Redirect = Redirect(pathname: string)

  /** A request cookie named `accessToken` is present, whatever its value. */
  predicate HasToken(cookies: map<string, string>) {
    "accessToken" in cookies
  }

  /** The sign-in pages: every path that begins with `/sign-in`. */
  predicate IsAuthPage(pathname: string) {
    StartsWith(pathname, "/sign-in")
  }

  /** Redirects to `/sign-in` without a token outside the sign-in pages, to
      `/` with a token on them, and lets every other request through (`None`). */
  function Middleware(cookies: map<string, string>, pathname: string): (r: Option<Redirect>)
    ensures r.None? <==> (HasToken(cookies) != IsAuthPage(pathname))
    ensures r == Some(Redirect("/sign-in")) <==> !HasToken(cookies) && !IsAuthPage(pathname)
    ensures r == Some(Redirect("/")) <==> HasToken(cookies) && IsAuthPage(pathname)
  {
    var token := HasToken(cookies);
    var isAuthPage := IsAuthPage(pathname);
    if !token && !isAuthPage then Some(Redirect("/sign-in"))
    else if token && isAuthPage then Some(Redirect("/"))
    else None
  }

  /** Following a redirect with the same cookies is let through: the guard never loops. */
  lemma NoRedirectLoop(cookies: map<string, string>, pathname: string)
    requires Middleware(cookies, pathname).Some?
    ensures Middleware(cookies, Middleware(cookies, pathname).value.pathname).None?
  {
    assert IsAuthPage("/sign-in");
    assert !IsAuthPage("/");
  }

  /** Only the presence of the cookie counts, not its value: an empty or
      expired token is treated as a session. */
  lemma PresenceOnly(cookies: map<string, string>, other: map<string, string>, pathname: string)
    requires HasToken(cookies) <==> HasToken(other)
    ensures Middleware(cookies, pathname) == Middleware(other, pathname)
  {
  }

  /** The sign-up page is not a sign-in page, so it needs a session too. */
  lemma SignUpNeedsSession(cookies: map<string, string>)
    requires !HasToken(cookies)
    ensures Middleware(cookies, "/sign-up") == Some(Redirect("/sign-in"))
  {
    assert !IsAuthPage("/sign-up") by { assert "/sign-up"[..8][6] != "/sign-in"[6]; }
  }

  /** `config.matcher`, the pattern `/((?!api|_next|static).*)`: a slash, then
      any text that does not begin with `api`, `_next` or `static`. The guard
      thus skips every path that begins with `/api`, `/_next` or `/static`. */
  predicate Matches(pathname: string) {
    && StartsWith(pathname, "/")
    && !StartsWith(pathname[1..], "api")
    && !StartsWith(pathname[1..], "_next")
    && !StartsWith(pathname[1..], "static")
  }

  /** After a leading slash, the rest begins with `k` exactly when the whole
      path begins with `/` and then `k`. */
  lemma AfterSlash(pathname: string, k: string)
    requires StartsWith(pathname, "/")
    ensures StartsWith(pathname[1..], k) <==> StartsWith(pathname, "/" + k)
  {
    if StartsWith(pathname[1..], k) {
      assert pathname[..|k| + 1] == "/" + pathname[1..][..|k|];
    }
    if StartsWith(pathname, "/" + k) {
      assert pathname[1..][..|k|] == pathname[..|k| + 1][1..];
    }
  }

  /** The guard skips exactly the paths that begin with `/api`, `/_next` or
      `/static`, and every path that does not begin with a slash. */
  lemma MatchesPrefixes(pathname: string)
    ensures Matches(pathname) <==>
              && StartsWith(pathname, "/")
              && !StartsWith(pathname, "/api") && !StartsWith(pathname, "/_next")
              && !StartsWith(pathname, "/static")
  {
    if StartsWith(pathname, "/") {
      AfterSlash(pathname, "api");
      AfterSlash(pathname, "_next");
      AfterSlash(pathname, "static");
    }
  }

  /** Both redirect targets are guarded paths, and the skipped prefixes are
      prefixes of the text, not whole segments. */
  lemma MatcherExamples()
    ensures Matches("/sign-in") && Matches("/")
    ensures !Matches("/api/auth") && !Matches("/_next/image") && !Matches("/static/logo.png")
    ensures !Matches("/apiary")
  {
    assert "/sign-in"[1..][..3][0] != "api"[0];
    assert "/sign-in"[1..][..5][0] != "_next"[0];
    assert "/sign-in"[1..][..6][1] != "static"[1];
    assert "/api/auth"[1..][..3] == "api";
    assert "/_next/image"[1..][..5] == "_next";
    assert "/static/logo.png"[1..][..6] == "static";
    assert "/apiary"[1..][..3] == "api";
  }
}
