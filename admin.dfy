/**
 * The admin collection proxy of api/admin/index.ts: GET lists with a
 * clamped page window, POST creates with the request body; both forward
 * the caller's Authorization header and relay the upstream answer.
 */
module Admin {
  import opened Wrappers
  import opened Text
  import opened Json
  import opened Foreign
  import opened Env
  import opened Request
  import opened Http
  import opened Tokens

  const MissingAuthorization := "Authorization header ausente"

  /** Truthiness of a header value: an empty string is falsy, an array never is. */
  predicate FieldTruthy(v: FieldValue) {
    v.Many? || v.s != ""
  }

  /**
   * `req.headers['authorization'] || req.headers['Authorization']`, kept
   * only when it is a non-empty string (`!auth || Array.isArray(auth)` is 401).
   */
  function Authorization(h: Fields): (a: Option<string>)
    ensures a.Some? ==> a.value != ""
    ensures "authorization" in h && h["authorization"].One? && h["authorization"].s != "" ==>
      a == Some(h["authorization"].s)
    ensures "authorization" in h && h["authorization"].Many? ==> a.None?
    // The capitalised name is consulted only when the lower-case one is absent or falsy.
    ensures ("authorization" !in h || !FieldTruthy(h["authorization"])) && "Authorization" in h ==>
      a == (if h["Authorization"].One? && h["Authorization"].s != "" then Some(h["Authorization"].s) else None)
    ensures ("authorization" !in h || !FieldTruthy(h["authorization"])) && "Authorization" !in h ==> a.None?
  {
    var auth :=
      if "authorization" in h && FieldTruthy(h["authorization"]) then Some(h["authorization"])
      else if "Authorization" in h then Some(h["Authorization"])
      else None;
    if auth.Some? && auth.value.One? && auth.value.s != "" then Some(auth.value.s) else None
  }

  /** `Array.isArray(q[key]) ? q[key][0] : q[key]`: `None` for undefined. */
  function QueryValue(q: Fields, key: string): (v: Option<string>)
    ensures key !in q ==> v.None?
    ensures key in q && q[key].One? ==> v == Some(q[key].s)
    ensures key in q && q[key].Many? ==> (v.Some? <==> q[key].xs != [])
  {
    if key !in q then None
    else match q[key]
      case One(s) => Some(s)
      case Many(xs) => if xs != [] then Some(xs[0]) else None
  }

  /** The offset after clamping: a parsed value that is not a finite number, or is negative, becomes 0. */
  function PageOffset(parsed: Option<int>): (offset: int)
    ensures offset >= 0
    ensures parsed.Some? && parsed.value >= 0 ==> offset == parsed.value
    ensures parsed.None? || parsed.value < 0 ==> offset == 0
  {
    if parsed.None? || parsed.value < 0 then 0 else parsed.value
  }

  /** The limit after clamping: not a finite number or not positive becomes 20, above 100 becomes 100. */
  function PageLimit(parsed: Option<int>): (limit: int)
    ensures 1 <= limit <= 100
    ensures parsed.Some? && 1 <= parsed.value <= 100 ==> limit == parsed.value
    ensures parsed.None? || parsed.value <= 0 ==> limit == 20
    ensures parsed.Some? && parsed.value > 100 ==> limit == 100
  {
    var limit := if parsed.None? || parsed.value <= 0 then 20 else parsed.value;
    if limit > 100 then 100 else limit
  }

  /** Clamping a clamped window changes nothing. */
  lemma PageClampIdempotent(offset: Option<int>, limit: Option<int>)
    ensures PageOffset(Some(PageOffset(offset))) == PageOffset(offset)
    ensures PageLimit(Some(PageLimit(limit))) == PageLimit(limit)
  {
  }

  /** With no `offset` or `limit` in the query, the window is 0 and 20. */
  lemma PageDefaults(q: Fields, p: Primitives)
    requires "offset" !in q && "limit" !in q
    requires p.parseInt("0") == Some(0) && p.parseInt("20") == Some(20)
    ensures PageOffset(p.parseInt(QueryValue(q, "offset").GetOr("0"))) == 0
    ensures PageLimit(p.parseInt(QueryValue(q, "limit").GetOr("20"))) == 20
  {
  }

  /** The upstream listing URL: `${base}/admin?offset=…&limit=…`. */
  function ListUrl(base: string, offset: int, limit: int, p: Primitives): string {
    base + "/admin?offset=" + p.encodeUri(IntText(offset)) + "&limit=" + p.encodeUri(IntText(limit))
  }

  /**
   * The relay rule: the status is the upstream status; a JSON content type
   * relays the text verbatim with that content type, anything else is
   * wrapped as `{ success: upstream.ok, raw: text }`.
   */
  function Relay(u: Upstream): (r: Reply)
    requires u.Answered?
    ensures r.status == u.status
    ensures Contains(u.contentType.GetOr(""), "application/json") ==>
      r == Reply(u.status, map["content-type" := u.contentType.GetOr("")], TextBody(u.text))
    ensures !Contains(u.contentType.GetOr(""), "application/json") ==>
      r.headers == map[] && r.payload == JsonBody(JObj(map["success" := JBool(Ok(u)), "raw" := JStr(u.text)]))
  {
    var ct := u.contentType.GetOr("");
    if Contains(ct, "application/json") then Reply(u.status, map["content-type" := ct], TextBody(u.text))
    else Reply(u.status, map[], JsonBody(JObj(map["success" := JBool(Ok(u)), "raw" := JStr(u.text)])))
  }

  /** After the upstream call: relay its answer, or 500 when `fetch` rejected. */
  function Forwarded(upstream: Upstream): Reply {
    if upstream.Unreachable? then Fail(500, InternalError) else Relay(upstream)
  }

  /** A GET or POST carrying a usable Authorization header. */
  predicate Authorized(req: IncomingRequest) {
    (req.verb == "GET" || req.verb == "POST") && Authorization(req.headers).Some?
  }

  /** What api/admin/index.ts answers, and the upstream request it makes. */
  function AdminExchange(req: IncomingRequest, env: Env, upstream: Upstream, p: Primitives): (e: Exchange)
    // The method is checked before the Authorization header.
    ensures req.verb != "GET" && req.verb != "POST" <==> e == Exchange(Fail(405, MethodNotAllowed), None)
    ensures (req.verb == "GET" || req.verb == "POST") && Authorization(req.headers).None? ==>
      e == Exchange(Fail(401, MissingAuthorization), None)
    // The caller's credential is forwarded as it is.
    ensures e.call.Some? ==>
      && Authorization(req.headers).Some?
      && "Authorization" in e.call.value.headers
      && e.call.value.headers["Authorization"] == Authorization(req.headers).value
    // GET forwards the clamped window.
    ensures e.call.Some? && req.verb == "GET" ==>
      var offset := PageOffset(p.parseInt(QueryValue(req.query, "offset").GetOr("0")));
      var limit := PageLimit(p.parseInt(QueryValue(req.query, "limit").GetOr("20")));
      e.call.value == Call(ListUrl(BaseApi(env.endPointApi, p.isUrl), offset, limit, p), "GET",
                           map["Authorization" := Authorization(req.headers).value], None)
    // An authorized GET, or an authorized POST whose body decodes, always calls the upstream.
    ensures Authorized(req) && !(req.verb == "POST" && RequestBody(req.body, p).None?) ==> e.call.Some?
    // POST forwards the decoded body to `${base}/admin`; a string body that is not JSON is 500 with no call.
    ensures e.call.Some? && req.verb == "POST" ==>
      && RequestBody(req.body, p).Some?
      && e.call.value == CreateCall(BaseApi(env.endPointApi, p.isUrl), Authorization(req.headers).value,
                                    RequestBody(req.body, p).value)
    ensures req.verb == "POST" && Authorization(req.headers).Some? && RequestBody(req.body, p).None? ==>
      e == Exchange(Fail(500, InternalError), None)
    // Once called, the upstream status is relayed.
    ensures e.call.Some? ==> e.reply == Forwarded(upstream)
  {
    if req.verb != "GET" && req.verb != "POST" then Exchange(Fail(405, MethodNotAllowed), None)
    else match Authorization(req.headers)
      case None => Exchange(Fail(401, MissingAuthorization), None)
      case Some(auth) =>
        if req.verb == "GET" then ListExchange(req, env, upstream, p, auth)
        else CreateExchange(req, env, upstream, p, auth)
  }

  /** The GET branch once the Authorization header is known to be usable. */
  function ListExchange(req: IncomingRequest, env: Env, upstream: Upstream, p: Primitives, auth: string): Exchange {
    var offset := PageOffset(p.parseInt(QueryValue(req.query, "offset").GetOr("0")));
    var limit := PageLimit(p.parseInt(QueryValue(req.query, "limit").GetOr("20")));
    var url := ListUrl(BaseApi(env.endPointApi, p.isUrl), offset, limit, p);
    Exchange(Forwarded(upstream), Some(Call(url, "GET", map["Authorization" := auth], None)))
  }

  /** The POST branch once the Authorization header is known to be usable. */
  function CreateExchange(req: IncomingRequest, env: Env, upstream: Upstream, p: Primitives, auth: string): Exchange {
    match RequestBody(req.body, p)
    case None => Exchange(Fail(500, InternalError), None)
    case Some(body) =>
      Exchange(Forwarded(upstream), Some(CreateCall(BaseApi(env.endPointApi, p.isUrl), auth, body)))
  }

  /** The upstream creation request: `POST ${base}/admin` with the caller's credential and the body. */
  function CreateCall(base: string, auth: string, body: Json): Call {
    Call(base + "/admin", "POST", map["Content-Type" := "application/json", "Authorization" := auth], Some(body))
  }

  /** Writes the relayed upstream answer into `res`. */
  method RelayInto(upstream: Upstream, res: Response)
    requires res.Untouched()
    modifies res
    ensures res.Holds(Forwarded(upstream))
  {
    if upstream.Unreachable? {
      res.Status(500);
      res.SendJson(Failure(InternalError));
      return;
    }
    var ct := if upstream.contentType.Some? && upstream.contentType.value != "" then upstream.contentType.value else "";
    res.Status(upstream.status);
    if Contains(ct, "application/json") {
      res.SetHeader("content-type", ct);
      res.SendText(upstream.text);
      return;
    }
    res.SendJson(JObj(map["success" := JBool(Ok(upstream)), "raw" := JStr(upstream.text)]));
  }

  /** `handler` of api/admin/index.ts, writing the response through `res`. */
  method HandleAdmin(req: IncomingRequest, env: Env, upstream: Upstream, p: Primitives, res: Response)
    returns (call: Option<Call>)
    requires res.Untouched()
    modifies res
    ensures res.Holds(AdminExchange(req, env, upstream, p).reply)
    ensures call == AdminExchange(req, env, upstream, p).call
  {
    var auth := Authorization(req.headers);
    if req.verb == "GET" {
      if auth.None? {
        res.Status(401);
        res.SendJson(Failure(MissingAuthorization));
        return None;
      }
      call := List(req, env, upstream, p, auth.value, res);
      return;
    }
    if req.verb == "POST" {
      if auth.None? {
        res.Status(401);
        res.SendJson(Failure(MissingAuthorization));
        return None;
      }
      call := Create(req, env, upstream, p, auth.value, res);
      return;
    }
    res.Status(405);
    res.SendJson(Failure(MethodNotAllowed));
    return None;
  }

  /** The GET branch: clamp the window by reassigning `offset` and `limit`, then relay. */
  method List(req: IncomingRequest, env: Env, upstream: Upstream, p: Primitives, auth: string, res: Response)
    returns (call: Option<Call>)
    requires res.Untouched()
    modifies res
    ensures res.Holds(ListExchange(req, env, upstream, p, auth).reply)
    ensures call == ListExchange(req, env, upstream, p, auth).call
  {
    var base := GetBaseApiFromEnv(env.endPointApi, p.isUrl);
    var offRaw := QueryValue(req.query, "offset");
    var limRaw := QueryValue(req.query, "limit");
    var offset := p.parseInt(if offRaw.Some? then offRaw.value else "0");
    var limit := p.parseInt(if limRaw.Some? then limRaw.value else "20");
    ghost var offParsed, limParsed := offset, limit;
    assert offParsed == p.parseInt(offRaw.GetOr("0")) && limParsed == p.parseInt(limRaw.GetOr("20"));
    if offset.None? || offset.value < 0 {
      offset := Some(0);
    }
    if limit.None? || limit.value <= 0 {
      limit := Some(20);
    }
    if limit.value > 100 {
      limit := Some(100);
    }
    assert offset.value == PageOffset(offParsed) && limit.value == PageLimit(limParsed);
    call := Some(Call(ListUrl(base, offset.value, limit.value, p), "GET", map["Authorization" := auth], None));
    RelayInto(upstream, res);
  }

  /** The POST branch: decode the body, then relay. */
  method Create(req: IncomingRequest, env: Env, upstream: Upstream, p: Primitives, auth: string, res: Response)
    returns (call: Option<Call>)
    requires res.Untouched()
    modifies res
    ensures res.Holds(CreateExchange(req, env, upstream, p, auth).reply)
    ensures call == CreateExchange(req, env, upstream, p, auth).call
  {
    var base := GetBaseApiFromEnv(env.endPointApi, p.isUrl);
    var body := RequestBody(req.body, p);
    if body.None? {
      res.Status(500);
      res.SendJson(Failure(InternalError));
      return None;
    }
    call := Some(CreateCall(base, auth, body.value));
    RelayInto(upstream, res);
  }
}
