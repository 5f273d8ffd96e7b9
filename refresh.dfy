/**
 * The legacy refresh handler of api/refresh.ts: read the refresh token from
 * the cookie, exchange it upstream, and either rotate the cookie
 * (Path=/api, SameSite=Strict) or clear it when the upstream refuses.
 */
module Refresh {
  import opened Wrappers
  import opened Json
  import opened Foreign
  import opened Cookies
  import opened Env
  import opened Request
  import opened Http
  import opened Tokens

  const NoRefreshToken := "Sem refresh_token"

  /** What api/refresh.ts answers, and the upstream request it makes. */
  function RefreshExchange(req: IncomingRequest, env: Env, upstream: Upstream, p: Primitives): (e: Exchange)
    ensures req.verb != "POST" <==> e == Exchange(Fail(405, MethodNotAllowed), None)
    // No usable cookie: 401 before any upstream call; a cookie that cannot be read: 500.
    ensures req.verb == "POST" && StoredRefreshToken(req.headers, p.decodeUri) == Some("") ==>
      e == Exchange(Fail(401, NoRefreshToken), None)
    ensures req.verb == "POST" && StoredRefreshToken(req.headers, p.decodeUri).None? ==>
      e == Exchange(Fail(500, InternalError), None)
    // The upstream sees exactly the stored refresh token.
    ensures e.call.Some? <==>
      (req.verb == "POST" && StoredRefreshToken(req.headers, p.decodeUri).Some?
       && StoredRefreshToken(req.headers, p.decodeUri).value != "")
    ensures e.call.Some? ==>
      e.call.value == RefreshCall(LegacyBaseApi(env.endPointApi), StoredRefreshToken(req.headers, p.decodeUri).value)
    // Any upstream refusal clears the cookie, whatever its status, and is relayed.
    ensures e.call.Some? && upstream.Answered? && !Ok(upstream) ==>
      e.reply == Reply(upstream.status, map["Set-Cookie" := ClearCookie(LegacyCookieAttrs(0, IsProd(env)))],
                       JsonBody(UpstreamJson(upstream, p)))
    // A 2xx without both tokens neither rotates nor clears the cookie.
    ensures e.call.Some? && upstream.Answered? && Ok(upstream) && !HasTokens(UpstreamJson(upstream, p)) ==>
      e.reply == Fail(502, BadAuthReply)
    // Success rotates the cookie to the new refresh token and returns only the access token.
    ensures e.call.Some? && upstream.Answered? && Ok(upstream) && HasTokens(UpstreamJson(upstream, p)) ==>
      var data := UpstreamJson(upstream, p);
      e.reply == Reply(200, map["Set-Cookie" := StoreCookie(p, data.fields["refresh_token"], LegacyCookieAttrs(DefaultMaxAge, IsProd(env)))],
                       JsonBody(SuccessBody(data.fields["access_token"])))
    // A fetch that throws is caught: 500.
    ensures e.call.Some? && upstream.Unreachable? ==> e.reply == Fail(500, InternalError)
  {
    if req.verb != "POST" then Exchange(Fail(405, MethodNotAllowed), None)
    else match StoredRefreshToken(req.headers, p.decodeUri)
      case None => Exchange(Fail(500, InternalError), None)
      case Some(token) =>
        if token == "" then Exchange(Fail(401, NoRefreshToken), None)
        else
          var isProd := IsProd(env);
          var call := RefreshCall(LegacyBaseApi(env.endPointApi), token);
          var clear := map["Set-Cookie" := ClearCookie(LegacyClearCookie(isProd))];
          Exchange(TokenAnswer(upstream, p, clear, LegacyCookieAttrs(DefaultMaxAge, isProd)), Some(call))
  }

  /**
   * A 200 comes only from an upstream 2xx with both tokens: the cookie is
   * rotated to the new refresh token, and the body holds the access token only.
   */
  lemma RefreshSuccess(req: IncomingRequest, env: Env, upstream: Upstream, p: Primitives)
    requires RefreshExchange(req, env, upstream, p).reply.status == 200
    ensures RefreshExchange(req, env, upstream, p).call.Some?
    ensures upstream.Answered? && Ok(upstream) && HasTokens(UpstreamJson(upstream, p))
    ensures var data := UpstreamJson(upstream, p);
      var r := RefreshExchange(req, env, upstream, p).reply;
      && r.headers == map["Set-Cookie" := StoreCookie(p, data.fields["refresh_token"], LegacyCookieAttrs(DefaultMaxAge, IsProd(env)))]
      && r.payload == JsonBody(SuccessBody(data.fields["access_token"]))
  {
    var clear := map["Set-Cookie" := ClearCookie(LegacyClearCookie(IsProd(env)))];
    TokenAnswerSuccessOnly(upstream, p, clear, LegacyCookieAttrs(DefaultMaxAge, IsProd(env)));
  }

  /** `handler` of api/refresh.ts, writing the response through `res`. */
  method HandleRefresh(req: IncomingRequest, env: Env, upstream: Upstream, p: Primitives, res: Response)
    returns (call: Option<Call>)
    requires res.Untouched()
    modifies res
    ensures res.Holds(RefreshExchange(req, env, upstream, p).reply)
    ensures call == RefreshExchange(req, env, upstream, p).call
  {
    if req.verb != "POST" {
      res.Status(405);
      res.SendJson(Failure(MethodNotAllowed));
      return None;
    }
    var h := req.headers;
    if "cookie" in h && h["cookie"].Many? {
      // `split` is not a function of an array: the catch block answers.
      res.Status(500);
      res.SendJson(Failure(InternalError));
      return None;
    }
    var cookies := ParseCookies(if "cookie" in h then Some(h["cookie"].s) else None, p.decodeUri);
    if cookies.None? {
      res.Status(500);
      res.SendJson(Failure(InternalError));
      return None;
    }
    var refresh := if RefreshCookie in cookies.value then cookies.value[RefreshCookie] else "";
    if refresh == "" {
      res.Status(401);
      res.SendJson(Failure(NoRefreshToken));
      return None;
    }
    var isProd := IsProd(env);
    call := Some(RefreshCall(LegacyBaseApi(env.endPointApi), refresh));
    if upstream.Unreachable? {
      res.Status(500);
      res.SendJson(Failure(InternalError));
      return;
    }
    var data := UpstreamJson(upstream, p);
    if !Ok(upstream) {
      res.SetHeader("Set-Cookie", ClearCookie(LegacyClearCookie(isProd)));
      res.Status(upstream.status);
      res.SendJson(data);
      return;
    }
    var accessToken, refreshToken := Field(data, "access_token"), Field(data, "refresh_token");
    if !Present(accessToken) || !Present(refreshToken) {
      res.Status(502);
      res.SendJson(Failure(BadAuthReply));
      return;
    }
    res.SetHeader("Set-Cookie", StoreCookie(p, refreshToken.value, LegacyCookieAttrs(DefaultMaxAge, isProd)));
    res.Status(200);
    res.SendJson(SuccessBody(accessToken.value));
  }
}
