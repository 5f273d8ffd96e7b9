/**
 * The refresh handler of api/auth/refresh.ts, built on the shared helpers
 * of api/_lib: the same ladder as the legacy handler, with the base URL
 * normalised by `getBaseApiFromEnv` and the cookie scoped to Path=/ with
 * SameSite=Lax.
 */
module AuthRefresh {
  import opened Wrappers
  import opened Json
  import opened Foreign
  import opened Cookies
  import opened Env
  import opened Request
  import opened Http
  import opened Tokens

  const NoRefreshToken := "Sem refresh_token"

  /** What api/auth/refresh.ts answers, and the upstream request it makes. */
  function AuthRefreshExchange(req: IncomingRequest, env: Env, upstream: Upstream, p: Primitives): (e: Exchange)
    ensures req.verb != "POST" <==> e == Exchange(Fail(405, MethodNotAllowed), None)
    ensures req.verb == "POST" && StoredRefreshToken(req.headers, p.decodeUri) == Some("") ==>
      e == Exchange(Fail(401, NoRefreshToken), None)
    // A cookie value that does not percent-decode ends in the catch block.
    ensures req.verb == "POST" && StoredRefreshToken(req.headers, p.decodeUri).None? ==>
      e == Exchange(Fail(500, InternalError), None)
    ensures e.call.Some? <==>
      (req.verb == "POST" && StoredRefreshToken(req.headers, p.decodeUri).Some?
       && StoredRefreshToken(req.headers, p.decodeUri).value != "")
    ensures e.call.Some? ==>
      e.call.value == RefreshCall(BaseApi(env.endPointApi, p.isUrl), StoredRefreshToken(req.headers, p.decodeUri).value)
    ensures e.call.Some? && upstream.Answered? && !Ok(upstream) ==>
      e.reply == Reply(upstream.status, map["Set-Cookie" := ClearCookie(CookieAttrs(0, IsProd(env)))],
                       JsonBody(UpstreamJson(upstream, p)))
    ensures e.call.Some? && upstream.Answered? && Ok(upstream) && !HasTokens(UpstreamJson(upstream, p)) ==>
      e.reply == Fail(502, BadAuthReply)
    ensures e.call.Some? && upstream.Answered? && Ok(upstream) && HasTokens(UpstreamJson(upstream, p)) ==>
      var data := UpstreamJson(upstream, p);
      e.reply == Reply(200, map["Set-Cookie" := StoreCookie(p, data.fields["refresh_token"], CookieAttrs(DefaultMaxAge, IsProd(env)))],
                       JsonBody(SuccessBody(data.fields["access_token"])))
    ensures e.call.Some? && upstream.Unreachable? ==> e.reply == Fail(500, InternalError)
  {
    if req.verb != "POST" then Exchange(Fail(405, MethodNotAllowed), None)
    else match StoredRefreshToken(req.headers, p.decodeUri)
      case None => Exchange(Fail(500, InternalError), None)
      case Some(token) =>
        if token == "" then Exchange(Fail(401, NoRefreshToken), None)
        else
          var isProd := IsProd(env);
          var call := RefreshCall(BaseApi(env.endPointApi, p.isUrl), token);
          var clear := map["Set-Cookie" := ClearCookie(ClearCookieAttrs(isProd))];
          Exchange(TokenAnswer(upstream, p, clear, CookieAttrs(DefaultMaxAge, isProd)), Some(call))
  }

  /**
   * A 200 comes only from an upstream 2xx with both tokens: the cookie is
   * rotated to the new refresh token, and the body holds the access token only.
   */
  lemma AuthRefreshSuccess(req: IncomingRequest, env: Env, upstream: Upstream, p: Primitives)
    requires AuthRefreshExchange(req, env, upstream, p).reply.status == 200
    ensures AuthRefreshExchange(req, env, upstream, p).call.Some?
    ensures upstream.Answered? && Ok(upstream) && HasTokens(UpstreamJson(upstream, p))
    ensures var data := UpstreamJson(upstream, p);
      var r := AuthRefreshExchange(req, env, upstream, p).reply;
      && r.headers == map["Set-Cookie" := StoreCookie(p, data.fields["refresh_token"], CookieAttrs(DefaultMaxAge, IsProd(env)))]
      && r.payload == JsonBody(SuccessBody(data.fields["access_token"]))
  {
    var clear := map["Set-Cookie" := ClearCookie(ClearCookieAttrs(IsProd(env)))];
    TokenAnswerSuccessOnly(upstream, p, clear, CookieAttrs(DefaultMaxAge, IsProd(env)));
  }

  /** `handler` of api/auth/refresh.ts, writing the response through `res`. */
  method HandleAuthRefresh(req: IncomingRequest, env: Env, upstream: Upstream, p: Primitives, res: Response)
    returns (call: Option<Call>)
    requires res.Untouched()
    modifies res
    ensures res.Holds(AuthRefreshExchange(req, env, upstream, p).reply)
    ensures call == AuthRefreshExchange(req, env, upstream, p).call
  {
    if req.verb != "POST" {
      res.Status(405);
      res.SendJson(Failure(MethodNotAllowed));
      return None;
    }
    var h := req.headers;
    if "cookie" in h && h["cookie"].Many? {
      res.Status(500);
      res.SendJson(Failure(InternalError));
      return None;
    }
    var cookies := ParseCookies(if "cookie" in h then Some(h["cookie"].s) else None, p.decodeUri);
    if cookies.None? {
      res.Status(500);
      res.SendJson(Failure(InternalError));
      return None;
    }
    var refresh := if RefreshCookie in cookies.value then cookies.value[RefreshCookie] else "";
    if refresh == "" {
      res.Status(401);
      res.SendJson(Failure(NoRefreshToken));
      return None;
    }
    var isProd := IsProd(env);
    var base := GetBaseApiFromEnv(env.endPointApi, p.isUrl);
    call := Some(RefreshCall(base, refresh));
    if upstream.Unreachable? {
      res.Status(500);
      res.SendJson(Failure(InternalError));
      return;
    }
    var data := UpstreamJson(upstream, p);
    if !Ok(upstream) {
      res.SetHeader("Set-Cookie", ClearCookie(ClearCookieAttrs(isProd)));
      res.Status(upstream.status);
      res.SendJson(data);
      return;
    }
    var accessToken, refreshToken := Field(data, "access_token"), Field(data, "refresh_token");
    if !Present(accessToken) || !Present(refreshToken) {
      res.Status(502);
      res.SendJson(Failure(BadAuthReply));
      return;
    }
    res.SetHeader("Set-Cookie", StoreCookie(p, refreshToken.value, CookieAttrs(DefaultMaxAge, isProd)));
    res.Status(200);
    res.SendJson(SuccessBody(accessToken.value));
  }
}
