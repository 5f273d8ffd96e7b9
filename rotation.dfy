/**
 * The refresh-token cookie across requests: the `Set-Cookie` line a
 * handler writes, the `Cookie` header the browser sends back, and the
 * token the next refresh hands to the upstream. The browser keeps the
 * name-value pair of a `Set-Cookie` line, the text before its first `;`
 * (section 5.2 of RFC 6265), and sends it back as the whole `Cookie`
 * header when it is the only cookie for the path.
 */
module Rotation {
  import opened Wrappers
  import opened Text
  import opened Json
  import opened Foreign
  import opened Cookies
  import opened Env
  import opened Request
  import opened Http
  import opened Tokens
  import opened Login
  import opened Refresh
  import opened AuthRefresh

  /** The name-value pair the browser keeps from a `Set-Cookie` line. */
  function BrowserCookie(setCookie: string): (pair: string)
    ensures ';' !in pair && |pair| <= |setCookie| && setCookie[..|pair|] == pair
  {
    BeforeFirst(setCookie, ';')
  }

  /** The request headers of a refresh that carries exactly that cookie. */
  function CookieHeaders(setCookie: string): Fields {
    map["cookie" := One(BrowserCookie(setCookie))]
  }

  /** Whatever the attributes, the cookie a handler stores gives the same token back to the refresh handlers. */
  lemma {:induction false} StoredCookieReadsBack(p: Primitives, token: string, attrs: string)
    requires UriCodecSound(p)
    ensures StoredRefreshToken(CookieHeaders(StoreCookie(p, JStr(token), attrs)), p.decodeUri) == Some(token)
  {
    var encoded := p.encodeUri(token);
    var pair := RefreshCookie + "=" + encoded;
    assert ';' !in encoded;
    assert ';' !in RefreshCookie + "=";
    assert StoreCookie(p, JStr(token), attrs) == pair + [';'] + (" " + attrs);
    BeforeSeparator(pair, ';', " " + attrs);
    RefreshTokenRoundTrip(p, token);
  }

  /** A POST that carries the cookie of an earlier `Set-Cookie` line and nothing else in its headers. */
  predicate Follows(req: IncomingRequest, setCookie: string) {
    req.verb == "POST" && req.headers == CookieHeaders(setCookie)
  }

  /**
   * After a successful legacy login, the legacy refresh sends the upstream
   * exactly the refresh token the login received (for a string token).
   */
  lemma LoginThenRefresh(login: IncomingRequest, env: Env, issued: Upstream, refresh: IncomingRequest,
                         upstream: Upstream, p: Primitives)
    requires UriCodecSound(p)
    requires LoginExchange(login, env, issued, p).reply.status == 200
    requires UpstreamJson(issued, p).fields["refresh_token"].JStr?
    requires Follows(refresh, LoginExchange(login, env, issued, p).reply.headers["Set-Cookie"])
    ensures RefreshExchange(refresh, env, upstream, p).call ==
            Some(RefreshCall(LegacyBaseApi(env.endPointApi), UpstreamJson(issued, p).fields["refresh_token"].s))
  {
    LoginSuccess(login, env, issued, p);
    var token := UpstreamJson(issued, p).fields["refresh_token"];
    StoredCookieReadsBack(p, token.s, LegacyCookieAttrs(DefaultMaxAge, IsProd(env)));
    assert Truthy(token);
  }

  /** Each successful legacy refresh rotates the cookie: the next refresh sends the token it just received. */
  lemma RefreshThenRefresh(first: IncomingRequest, env: Env, issued: Upstream, next: IncomingRequest,
                           upstream: Upstream, p: Primitives)
    requires UriCodecSound(p)
    requires RefreshExchange(first, env, issued, p).reply.status == 200
    requires UpstreamJson(issued, p).fields["refresh_token"].JStr?
    requires Follows(next, RefreshExchange(first, env, issued, p).reply.headers["Set-Cookie"])
    ensures RefreshExchange(next, env, upstream, p).call ==
            Some(RefreshCall(LegacyBaseApi(env.endPointApi), UpstreamJson(issued, p).fields["refresh_token"].s))
  {
    RefreshSuccess(first, env, issued, p);
    var token := UpstreamJson(issued, p).fields["refresh_token"];
    StoredCookieReadsBack(p, token.s, LegacyCookieAttrs(DefaultMaxAge, IsProd(env)));
    assert Truthy(token);
  }

  /** The same for api/auth/refresh.ts, which writes the cookie with the site-wide attributes. */
  lemma AuthRefreshThenRefresh(first: IncomingRequest, env: Env, issued: Upstream, next: IncomingRequest,
                               upstream: Upstream, p: Primitives)
    requires UriCodecSound(p)
    requires AuthRefreshExchange(first, env, issued, p).reply.status == 200
    requires UpstreamJson(issued, p).fields["refresh_token"].JStr?
    requires Follows(next, AuthRefreshExchange(first, env, issued, p).reply.headers["Set-Cookie"])
    ensures AuthRefreshExchange(next, env, upstream, p).call ==
            Some(RefreshCall(BaseApi(env.endPointApi, p.isUrl), UpstreamJson(issued, p).fields["refresh_token"].s))
  {
    AuthRefreshSuccess(first, env, issued, p);
    var token := UpstreamJson(issued, p).fields["refresh_token"];
    StoredCookieReadsBack(p, token.s, CookieAttrs(DefaultMaxAge, IsProd(env)));
    assert Truthy(token);
  }
}
