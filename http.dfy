/**
 * What the gateway handlers share: the response object they write
 * (`res.status`, `res.setHeader`, `res.json`, `res.send`), the request they
 * send upstream, the upstream reply they read, and the decoding of the
 * request body.
 */
module Http {
  import opened Wrappers
  import opened Json
  import opened Foreign

  /** What a handler sends: a JSON value (`res.json`) or raw text (`res.send`). */
  datatype Payload = JsonBody(value: Json) | TextBody(text: string)

  /** A finished response. */
  datatype Reply = Reply(status: int, headers: map<string, string>, payload: Payload)

  /** A request the gateway sends upstream. */
  datatype Call = Call(url: string, verb: string, headers: map<string, string>, body: Option<Json>)

  /** What the upstream `fetch` gave: a reply, or a rejection (network failure). */
  datatype Upstream =
    | Unreachable
    | Answered(status: int, contentType: Option<string>, text: string)

  /** `upstream.ok`: a status in the range 200-299. */
  predicate Ok(u: Upstream)
    requires u.Answered?
  {
    200 <= u.status <= 299
  }

  /** `await upstream.json().catch(() => ({}))`: the parsed body, or `{}` when it is not JSON. */
  function UpstreamJson(u: Upstream, p: Primitives): (data: Json)
    requires u.Answered?
    ensures p.parseJson(u.text).None? ==> data == EmptyObject
    ensures p.parseJson(u.text).Some? ==> data == p.parseJson(u.text).value
  {
    p.parseJson(u.text).GetOr(EmptyObject)
  }

  /**
   * The request body as the handlers decode it:
   * `typeof req.body === 'object' && req.body ? req.body : JSON.parse(req.body || '{}')`.
   * An object or array is used as it is; a falsy body stands for `{}`; a
   * string is parsed, and `None` means `JSON.parse` threw. `JSON.parse` of
   * `true` or a number gives the value back.
   */
  function RequestBody(body: Option<Json>, p: Primitives): (r: Option<Json>)
    ensures body.None? ==> r == Some(EmptyObject)
    ensures body.Some? && (body.value.JObj? || body.value.JArr?) ==> r == body
    ensures body.Some? && body.value.JStr? && body.value.s != "" ==> r == p.parseJson(body.value.s)
    ensures body.Some? && !Truthy(body.value) ==> r == Some(EmptyObject)
    ensures body.Some? && Truthy(body.value) && (body.value.JBool? || body.value.JNum?) ==> r == body
    ensures r.None? ==> body.Some? && body.value.JStr?
  {
    match body
    case None => Some(EmptyObject)
    case Some(v) =>
      if v.JObj? || v.JArr? then Some(v)
      else if !Truthy(v) then Some(EmptyObject)
      else if v.JStr? then p.parseJson(v.s)
      else Some(v)
  }

  const MethodNotAllowed := "Method Not Allowed"
  const InternalError := "Erro interno"
  const BadAuthReply := "Resposta inválida do servidor de autenticação"

  /** `{ success: false, message }`. */
  function Failure(message: string): (j: Json)
    ensures j.JObj? && j.fields.Keys == {"success", "message"}
    ensures j.fields["success"] == JBool(false) && j.fields["message"] == JStr(message)
  {
    JObj(map["success" := JBool(false), "message" := JStr(message)])
  }

  /** A `{ success: false, message }` reply with no headers. */
  function Fail(status: int, message: string): Reply {
    Reply(status, map[], JsonBody(Failure(message)))
  }

  /** The Vercel response object, as far as the handlers use it. */
  class Response {
    var statusCode: int
    var headers: map<string, string>
    var payload: Option<Payload>

    /** A fresh response: status 200, no headers, nothing sent. */
    constructor ()
      ensures statusCode == 200 && headers == map[] && payload.None?
    {
      statusCode := 200;
      headers := map[];
      payload := None;
    }

    /** `res.status(code)`. */
    method Status(code: int)
      modifies this
      ensures statusCode == code && headers == old(headers) && payload == old(payload)
    {
      statusCode := code;
    }

    /** `res.setHeader(name, value)`: replaces any earlier value of that header. */
    method SetHeader(name: string, value: string)
      modifies this
      ensures headers == old(headers)[name := value]
      ensures statusCode == old(statusCode) && payload == old(payload)
    {
      headers := headers[name := value];
    }

    /** `res.json(value)`. */
    method SendJson(value: Json)
      modifies this
      ensures payload == Some(JsonBody(value))
      ensures statusCode == old(statusCode) && headers == old(headers)
    {
      payload := Some(JsonBody(value));
    }

    /** `res.send(text)`. */
    method SendText(text: string)
      modifies this
      ensures payload == Some(TextBody(text))
      ensures statusCode == old(statusCode) && headers == old(headers)
    {
      payload := Some(TextBody(text));
    }

    /** Nothing has been written yet. */
    predicate Untouched()
      reads this
    {
      headers == map[] && payload.None?
    }

    /** The response holds exactly the reply `r`. */
    predicate Holds(r: Reply)
      reads this
    {
      statusCode == r.status && headers == r.headers && payload == Some(r.payload)
    }
  }
}
