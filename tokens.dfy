/**
 * The tail shared by the login and refresh handlers once the upstream
 * token endpoint has answered: relay a failure, reject a reply without
 * both tokens, or store the refresh token in a cookie and hand the access
 * token to the browser.
 */
module Tokens {
  import opened Wrappers
  import opened Json
  import opened Foreign
  import opened Cookies
  import opened Request
  import opened Http

  /** What a handler decided, and the upstream request it sent, if any. */
  datatype Exchange = Exchange(reply: Reply, call: Option<Call>)

  /** `{ success: true, access_token }`: the refresh token is never part of it. */
  function SuccessBody(accessToken: Json): (j: Json)
    ensures j.JObj? && j.fields.Keys == {"success", "access_token"}
    ensures j.fields["success"] == JBool(true) && j.fields["access_token"] == accessToken
  {
    JObj(map["success" := JBool(true), "access_token" := accessToken])
  }

  /** `refresh_token=${encodeURIComponent(token)}; ${attrs}`. */
  function StoreCookie(p: Primitives, token: Json, attrs: string): string {
    RefreshCookie + "=" + p.encodeUri(JsString(p, token)) + "; " + attrs
  }

  /** `refresh_token=; ${attrs}`. */
  function ClearCookie(attrs: string): string {
    RefreshCookie + "=; " + attrs
  }

  /**
   * `parseCookies(req.headers.cookie)['refresh_token']`: `None` when that
   * throws (a value that does not percent-decode, or a Cookie header that
   * is an array and has no `split`), `""` when there is no such cookie.
   */
  function StoredRefreshToken(h: Fields, decode: string -> Option<string>): (r: Option<string>)
    ensures "cookie" !in h ==> r == Some("")
    ensures "cookie" in h && h["cookie"].Many? ==> r.None?
    ensures "cookie" in h && h["cookie"].One? ==>
      match ParsedCookies(Some(h["cookie"].s), decode)
      case None => r.None?
      case Some(jar) => r == Some(if RefreshCookie in jar then jar[RefreshCookie] else "")
  {
    if "cookie" in h && h["cookie"].Many? then None
    else match ParsedCookies(if "cookie" in h then Some(h["cookie"].s) else None, decode)
      case None => None
      case Some(jar) => Some(if RefreshCookie in jar then jar[RefreshCookie] else "")
  }

  /** The upstream refresh request: `POST ${base}/admin/auth/token/refresh` with `{ refresh_token }`. */
  function RefreshCall(base: string, token: string): Call {
    Call(base + "/admin/auth/token/refresh", "POST", map["Content-Type" := "application/json"],
         Some(JObj(map["refresh_token" := JStr(token)])))
  }

  /** The two tokens of a parsed upstream body, when both are truthy. */
  predicate HasTokens(data: Json) {
    Present(Field(data, "access_token")) && Present(Field(data, "refresh_token"))
  }

  /**
   * From the upstream answer on: `data = await upstream.json().catch(() => ({}))`;
   * a non-2xx is relayed (with `onFailure` headers: the refresh handlers
   * clear the cookie there, login writes none); a 2xx without both tokens
   * is 502; otherwise the refresh token goes into a cookie built with
   * `attrs` and the access token into the body. A rejected `fetch` is 500.
   */
  function TokenAnswer(upstream: Upstream, p: Primitives, onFailure: map<string, string>, attrs: string): (r: Reply)
    ensures upstream.Unreachable? ==> r == Fail(500, InternalError)
    ensures upstream.Answered? && !Ok(upstream) ==>
      r == Reply(upstream.status, onFailure, JsonBody(UpstreamJson(upstream, p)))
    ensures upstream.Answered? && Ok(upstream) && !HasTokens(UpstreamJson(upstream, p)) ==>
      r == Fail(502, BadAuthReply)
    ensures upstream.Answered? && Ok(upstream) && HasTokens(UpstreamJson(upstream, p)) ==>
      var data := UpstreamJson(upstream, p);
      r == Reply(200, map["Set-Cookie" := StoreCookie(p, data.fields["refresh_token"], attrs)],
                 JsonBody(SuccessBody(data.fields["access_token"])))
  {
    if upstream.Unreachable? then Fail(500, InternalError)
    else
      var data := UpstreamJson(upstream, p);
      if !Ok(upstream) then Reply(upstream.status, onFailure, JsonBody(data))
      else
        var accessToken, refreshToken := Field(data, "access_token"), Field(data, "refresh_token");
        if !Present(accessToken) || !Present(refreshToken) then Fail(502, BadAuthReply)
        else Reply(200, map["Set-Cookie" := StoreCookie(p, refreshToken.value, attrs)], JsonBody(SuccessBody(accessToken.value)))
  }

  /**
   * A 2xx status is only ever the success reply: a relayed failure keeps a
   * non-2xx status, and no 2xx other than 200 can come out.
   */
  lemma TokenAnswerSuccessOnly(upstream: Upstream, p: Primitives, onFailure: map<string, string>, attrs: string)
    ensures var r := TokenAnswer(upstream, p, onFailure, attrs);
      200 <= r.status <= 299 <==> upstream.Answered? && Ok(upstream) && HasTokens(UpstreamJson(upstream, p))
    ensures var r := TokenAnswer(upstream, p, onFailure, attrs);
      200 <= r.status <= 299 ==>
        (r.status == 200 && r.payload.JsonBody? && r.payload.value.JObj? && "refresh_token" !in r.payload.value.fields)
  {
  }
}
