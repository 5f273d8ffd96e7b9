/**
 * The legacy login handler of api/login.ts: check the method, read the
 * credentials from the body, exchange them upstream for a token pair, keep
 * the refresh token in an HttpOnly cookie (Path=/api, SameSite=Strict) and
 * return the access token.
 */
module Login {
  import opened Wrappers
  import opened Json
  import opened Foreign
  import opened Cookies
  import opened Env
  import opened Request
  import opened Http
  import opened Tokens

  const MissingCredentials := "username e password são obrigatórios"

  /** The upstream token request: `POST ${base}/admin/auth/token` with `{ username, password }`. */
  function LoginCall(base: string, username: Json, password: Json): Call {
    Call(base + "/admin/auth/token", "POST", map["Content-Type" := "application/json"],
         Some(JObj(map["username" := username, "password" := password])))
  }

  /**
   * The credentials in a decoded body, `const { username, password } = …`:
   * `None` when destructuring throws (a body that parsed to `null`).
   */
  function Credentials(v: Json): (c: Option<(Option<Json>, Option<Json>)>)
    ensures c.None? <==> v.JNull?
    ensures c.Some? ==> c.value == (Field(v, "username"), Field(v, "password"))
  {
    if v.JNull? then None else Some((Field(v, "username"), Field(v, "password")))
  }

  /** A POST whose body decodes, but without a truthy `username` and `password`. */
  predicate LacksCredentials(req: IncomingRequest, p: Primitives) {
    && req.verb == "POST"
    && RequestBody(req.body, p).Some?
    && Credentials(RequestBody(req.body, p).value).Some?
    && var (u, pw) := Credentials(RequestBody(req.body, p).value).value;
       !(Present(u) && Present(pw))
  }

  /** A POST whose body decodes to a value with a truthy `username` and `password`. */
  predicate HasCredentials(req: IncomingRequest, p: Primitives) {
    && req.verb == "POST"
    && RequestBody(req.body, p).Some?
    && Credentials(RequestBody(req.body, p).value).Some?
    && var (u, pw) := Credentials(RequestBody(req.body, p).value).value;
       Present(u) && Present(pw)
  }

  /** A POST whose body is a non-empty string that is not JSON. */
  predicate UnparsableBody(req: IncomingRequest, p: Primitives) {
    && req.verb == "POST"
    && req.body.Some? && req.body.value.JStr? && req.body.value.s != ""
    && p.parseJson(req.body.value.s).None?
  }

  /** What api/login.ts answers, and the upstream request it makes. */
  function LoginExchange(req: IncomingRequest, env: Env, upstream: Upstream, p: Primitives): (e: Exchange)
    // Only POST is served, and the 405 is decided before anything else.
    ensures req.verb != "POST" <==> e == Exchange(Fail(405, MethodNotAllowed), None)
    // A string body that is not JSON is an internal error, not a bad request.
    ensures UnparsableBody(req, p) ==> e == Exchange(Fail(500, InternalError), None)
    // Destructuring a body that decoded to `null` throws: 500.
    ensures req.verb == "POST" && RequestBody(req.body, p).Some? && Credentials(RequestBody(req.body, p).value).None? ==>
      e == Exchange(Fail(500, InternalError), None)
    // Missing credentials are rejected before any upstream call.
    ensures LacksCredentials(req, p) ==> e == Exchange(Fail(400, MissingCredentials), None)
    // The upstream is called exactly when both credentials are present, at the legacy base URL,
    // and its answer goes through the token rule (relay, 502, or 200 with the cookie).
    ensures e.call.Some? <==> HasCredentials(req, p)
    ensures HasCredentials(req, p) ==>
      && var (u, pw) := Credentials(RequestBody(req.body, p).value).value;
      && e.call == Some(LoginCall(LegacyBaseApi(env.endPointApi), u.value, pw.value))
      && e.reply == TokenAnswer(upstream, p, map[], LegacyCookieAttrs(DefaultMaxAge, IsProd(env)))
    // A cookie is written only on the 200 reply, and only then.
    ensures "Set-Cookie" in e.reply.headers <==> e.reply.status == 200
    ensures e.reply.status == 200 ==> e.call.Some? && upstream.Answered? && Ok(upstream)
  {
    if req.verb != "POST" then Exchange(Fail(405, MethodNotAllowed), None)
    else match RequestBody(req.body, p)
      case None => Exchange(Fail(500, InternalError), None)
      case Some(v) =>
        match Credentials(v)
        case None => Exchange(Fail(500, InternalError), None)
        case Some((u, pw)) =>
          if !Present(u) || !Present(pw) then Exchange(Fail(400, MissingCredentials), None)
          else
            var call := LoginCall(LegacyBaseApi(env.endPointApi), u.value, pw.value);
            var reply := TokenAnswer(upstream, p, map[], LegacyCookieAttrs(DefaultMaxAge, IsProd(env)));
            Exchange(reply, Some(call))
  }

  /** An upstream 2xx without both tokens (a 202 asking for a second factor, say) is a 502 with no cookie. */
  lemma LoginRejectsPartialSuccess(req: IncomingRequest, env: Env, upstream: Upstream, p: Primitives)
    requires LoginExchange(req, env, upstream, p).call.Some?
    requires upstream.Answered? && Ok(upstream) && !HasTokens(UpstreamJson(upstream, p))
    ensures LoginExchange(req, env, upstream, p).reply == Fail(502, BadAuthReply)
  {
  }

  /**
   * The success reply: the cookie holds the encoded refresh token with the
   * legacy attributes, and the body holds `success` and the access token only.
   */
  lemma LoginSuccess(req: IncomingRequest, env: Env, upstream: Upstream, p: Primitives)
    requires LoginExchange(req, env, upstream, p).reply.status == 200
    ensures upstream.Answered? && HasTokens(UpstreamJson(upstream, p))
    ensures var data := UpstreamJson(upstream, p);
      var r := LoginExchange(req, env, upstream, p).reply;
      && r.headers == map["Set-Cookie" := StoreCookie(p, data.fields["refresh_token"], LegacyCookieAttrs(DefaultMaxAge, IsProd(env)))]
      && r.payload == JsonBody(SuccessBody(data.fields["access_token"]))
  {
    TokenAnswerSuccessOnly(upstream, p, map[], LegacyCookieAttrs(DefaultMaxAge, IsProd(env)));
  }

  /** The success reply is reachable: both credentials and an upstream 2xx carrying both tokens give 200. */
  lemma LoginReachesSuccess(req: IncomingRequest, env: Env, upstream: Upstream, p: Primitives)
    requires HasCredentials(req, p)
    requires upstream.Answered? && Ok(upstream) && HasTokens(UpstreamJson(upstream, p))
    ensures LoginExchange(req, env, upstream, p).reply.status == 200
    ensures LoginExchange(req, env, upstream, p).call.Some?
  {
  }

  /** `handler` of api/login.ts, writing the response through `res`. */
  method HandleLogin(req: IncomingRequest, env: Env, upstream: Upstream, p: Primitives, res: Response)
    returns (call: Option<Call>)
    requires res.Untouched()
    modifies res
    ensures res.Holds(LoginExchange(req, env, upstream, p).reply)
    ensures call == LoginExchange(req, env, upstream, p).call
  {
    if req.verb != "POST" {
      res.Status(405);
      res.SendJson(Failure(MethodNotAllowed));
      return None;
    }
    var body := RequestBody(req.body, p);
    if body.None? || body.value.JNull? {
      // JSON.parse threw, or destructuring `null` did: the catch block answers.
      res.Status(500);
      res.SendJson(Failure(InternalError));
      return None;
    }
    var username, password := Field(body.value, "username"), Field(body.value, "password");
    if !Present(username) || !Present(password) {
      res.Status(400);
      res.SendJson(Failure(MissingCredentials));
      return None;
    }
    var base := LegacyBaseApi(env.endPointApi);
    call := Some(LoginCall(base, username.value, password.value));
    if upstream.Unreachable? {
      res.Status(500);
      res.SendJson(Failure(InternalError));
      return;
    }
    var data := UpstreamJson(upstream, p);
    if !Ok(upstream) {
      res.Status(upstream.status);
      res.SendJson(data);
      return;
    }
    var accessToken, refreshToken := Field(data, "access_token"), Field(data, "refresh_token");
    if !Present(accessToken) || !Present(refreshToken) {
      res.Status(502);
      res.SendJson(Failure(BadAuthReply));
      return;
    }
    res.SetHeader("Set-Cookie", StoreCookie(p, refreshToken.value, LegacyCookieAttrs(DefaultMaxAge, IsProd(env))));
    res.Status(200);
    res.SendJson(SuccessBody(accessToken.value));
  }
}
