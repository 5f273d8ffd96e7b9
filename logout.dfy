/**
 * The logout handler of api/auth/logout.ts: whatever the request, clear
 * the refresh cookie, forbid caching and report success.
 */
module Logout {
  import opened Text
  import opened Json
  import opened Cookies
  import opened Env
  import opened Http
  import opened Tokens

  /** The reply of api/auth/logout.ts; it depends on the production flag only. */
  function LogoutReply(isProd: bool): (r: Reply)
    ensures r.status == 200
    ensures r.headers.Keys == {"Set-Cookie", "Cache-Control"}
    ensures r.headers["Set-Cookie"] == RefreshCookie + "=; " + CookieAttrs(0, isProd)
    ensures r.headers["Cache-Control"] == "no-store"
    ensures r.payload == JsonBody(JObj(map["success" := JBool(true)]))
  {
    Reply(200, map["Set-Cookie" := ClearCookie(ClearCookieAttrs(isProd)), "Cache-Control" := "no-store"],
          JsonBody(JObj(map["success" := JBool(true)])))
  }

  /** `handler` of api/auth/logout.ts: the request is not read at all. */
  method HandleLogout(env: Env, res: Response)
    requires res.Untouched()
    modifies res
    ensures res.Holds(LogoutReply(IsProd(env)))
  {
    res.SetHeader("Set-Cookie", ClearCookie(ClearCookieAttrs(IsProd(env))));
    res.SetHeader("Cache-Control", "no-store");
    res.Status(200);
    res.SendJson(JObj(map["success" := JBool(true)]));
  }

  /** The cookie logout writes has an empty value and Max-Age=0, with the Path and SameSite of the stored one. */
  lemma LogoutExpiresCookie(isProd: bool)
    ensures LogoutReply(isProd).headers["Set-Cookie"] == RefreshCookie + "=; " + AttrLine("/", "Lax", "0", isProd)
  {
    assert IntText(0) == "0";
  }
}
