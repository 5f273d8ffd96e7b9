/**
 * The browser side of src/main.ts: the module-level `accessToken` and the
 * operations that change it (`login`, `forceRefresh`, `clearSession`, and
 * `apiFetch`, which retries once after a refresh), plus
 * `decodeJwtPayload`. Every `fetch` is an input: the reply it resolves to,
 * or `None` when it rejects.
 */
module Session {
  import opened Wrappers
  import opened Text
  import opened Json
  import opened Foreign
  import opened Http

  // ---------------------------------------------------------------------
  // Header lists (the `Headers` class of the Fetch standard)

  /** A `Headers` object: lower-cased names to values. */
  type HeaderList = map<string, string>

  function LowerChar(c: char): (d: char)
    ensures 'A' <= c <= 'Z' ==> d as int == c as int + 32
    ensures !('A' <= c <= 'Z') ==> d == c
  {
    if 'A' <= c <= 'Z' then (c as int + 32) as char else c
  }

  /** Byte-lowercasing of a header name. */
  function Lower(s: string): (r: string)
    ensures |r| == |s| && forall i :: 0 <= i < |s| ==> r[i] == LowerChar(s[i])
  {
    if s == [] then [] else [LowerChar(s[0])] + Lower(s[1..])
  }

  /** The name `Authorization` as a `Headers` object stores it. */
  const Authorization := "authorization"

  /** Adding a value under a lower-cased name: a second value is combined with `, `. */
  function Add(h: HeaderList, key: string, value: string): (r: HeaderList)
    ensures key !in h ==> r == h[key := value]
    ensures key in h ==> r == h[key := h[key] + ", " + value]
  {
    if key in h then h[key := h[key] + ", " + value] else h[key := value]
  }

  /** Replacing every earlier value under a lower-cased name. */
  function Put(h: HeaderList, key: string, value: string): (r: HeaderList)
    ensures r.Keys == h.Keys + {key} && r[key] == value
    ensures forall k :: k in h && k != key ==> r[k] == h[k]
  {
    h[key := value]
  }

  /** `headers.append(name, value)`. */
  function Append(h: HeaderList, name: string, value: string): HeaderList {
    Add(h, Lower(name), value)
  }

  /** `new Headers(init)`: the entries appended in order. */
  function FromEntries(entries: seq<(string, string)>): HeaderList
    decreases |entries|
  {
    if entries == [] then map[]
    else
      var last := entries[|entries| - 1];
      Append(FromEntries(entries[..|entries| - 1]), last.0, last.1)
  }

  // ---------------------------------------------------------------------
  // The retry headers

  /**
   * The retry headers as src/main.ts:68 builds them:
   * `new Headers({ ...Object.fromEntries(headers), Authorization: bearer })`.
   * `Object.fromEntries` gives the lower-cased names, so an earlier
   * `authorization` entry and the new `Authorization` key are two distinct
   * properties, and the new `Headers` appends both under `authorization`.
   */
  function RetryHeadersAsWritten(h: HeaderList, bearer: string): HeaderList {
    Add(h, Authorization, bearer)
  }

  /** The retry headers with the credential replaced, as the retry intends. */
  function RetryHeaders(h: HeaderList, bearer: string): (r: HeaderList)
    ensures "authorization" in r && r["authorization"] == bearer
    ensures forall k :: k in h && k != "authorization" ==> k in r && r[k] == h[k]
  {
    Put(h, Authorization, bearer)
  }

  /** As written, a retry after a request that carried a token sends both credentials, joined. */
  lemma RetrySendsBothCredentials(h: HeaderList, bearer: string)
    requires "authorization" in h
    ensures RetryHeadersAsWritten(h, bearer)["authorization"] == h["authorization"] + ", " + bearer
    ensures RetryHeadersAsWritten(h, bearer)["authorization"] != RetryHeaders(h, bearer)["authorization"]
  {
    var combined := h["authorization"] + ", " + bearer;
    assert |combined| > |bearer|;
  }

  /** The concrete case: a stale `Bearer a` and a fresh `Bearer b` reach the server as `Bearer a, Bearer b`. */
  lemma StaleTokenExample()
    ensures RetryHeadersAsWritten(map["authorization" := "Bearer a"], "Bearer b")["authorization"] == "Bearer a, Bearer b"
    ensures RetryHeaders(map["authorization" := "Bearer a"], "Bearer b")["authorization"] == "Bearer b"
  {
    RetrySendsBothCredentials(map["authorization" := "Bearer a"], "Bearer b");
  }

  // ---------------------------------------------------------------------
  // Fetches and their outcomes

  /** What a `fetch` resolves to, as far as the session logic reads it. */
  datatype Answer = Answer(status: int, text: string)

  /** A promise that resolved with a value or rejected. */
  datatype Completion<T> = Resolved(value: T) | Rejected

  /** The request options of `apiFetch`: method, header entries, body. */
  datatype Init = Init(verb: string, headers: seq<(string, string)>, body: Option<Json>)

  /** `Bearer ${token}`. */
  function Bearer(p: Primitives, token: Json): string {
    "Bearer " + JsString(p, token)
  }

  /** The gateway's refresh request as the browser sends it. */
  const RefreshRequest := Call("/api/refresh", "POST", map[], None)

  /** Everything `apiFetch` does: its result, the requests in order, and the token afterwards. */
  datatype Plan = Plan(result: Completion<Answer>, calls: seq<Call>, token: Option<Json>)

  /** The first request: the caller's headers, with the bearer token unless the URL is the refresh endpoint. */
  function FirstCall(token: Option<Json>, url: string, init: Init, p: Primitives): (c: Call)
    ensures c.url == url && c.verb == init.verb && c.body == init.body
    ensures token.Some? && !StartsWith(url, "/api/refresh") ==>
      && c.headers == Put(FromEntries(init.headers), Authorization, Bearer(p, token.value))
      && "authorization" in c.headers && c.headers["authorization"] == Bearer(p, token.value)
    ensures !(token.Some? && !StartsWith(url, "/api/refresh")) ==> c.headers == FromEntries(init.headers)
  {
    var h := FromEntries(init.headers);
    var h := if token.Some? && !StartsWith(url, "/api/refresh") then Put(h, Authorization, Bearer(p, token.value)) else h;
    Call(url, init.verb, h, init.body)
  }

  /** The session token is absent or truthy: `accessToken && …` then means "there is one". */
  predicate TokenValid(token: Option<Json>) {
    token.None? || Truthy(token.value)
  }

  /** `refreshRes.ok`: the refresh resolved with a 2xx status. */
  predicate RefreshOk(refresh: Option<Answer>) {
    refresh.Some? && 200 <= refresh.value.status <= 299
  }

  /** `data?.access_token` of a refresh reply whose body is JSON; `None` when it is not JSON or has no such field. */
  function NewToken(refresh: Answer, p: Primitives): (t: Option<Json>)
    ensures t.Some? ==> p.parseJson(refresh.text).Some? && t == Field(p.parseJson(refresh.text).value, "access_token")
    ensures p.parseJson(refresh.text).Some? ==> t == Field(p.parseJson(refresh.text).value, "access_token")
  {
    match p.parseJson(refresh.text)
    case None => None
    case Some(data) => Field(data, "access_token")
  }

  /** `apiFetch(url, init)` of src/main.ts, starting from the token `token`. */
  function FetchPlan(token: Option<Json>, url: string, init: Init, first: Option<Answer>, refresh: Option<Answer>,
                     retry: Option<Answer>, p: Primitives): (o: Plan)
    ensures 1 <= |o.calls| <= 3 && o.calls[0] == FirstCall(token, url, init, p)
    // Returned as it is after one fetch: any status but 401, and every `/api/` URL.
    ensures first.Some? && (first.value.status != 401 || StartsWith(url, "/api/")) ==>
      o == Plan(Resolved(first.value), [FirstCall(token, url, init, p)], token)
    // A rejected first fetch rejects, after that one request.
    ensures first.None? ==> o == Plan(Rejected, [FirstCall(token, url, init, p)], token)
    // A 401 outside `/api/` always triggers the refresh request.
    ensures first.Some? && first.value.status == 401 && !StartsWith(url, "/api/") ==>
      |o.calls| >= 2 && o.calls[1] == RefreshRequest
    // The second request, when there is one, is the refresh.
    ensures |o.calls| >= 2 ==>
      && first.Some? && first.value.status == 401 && !StartsWith(url, "/api/")
      && o.calls[1] == RefreshRequest
    // A refused refresh returns the original 401 and keeps the token.
    ensures |o.calls| == 2 && o.result.Resolved? ==> o.result == Resolved(first.value) && o.token == token
    ensures |o.calls| < 3 ==> o.token == token
    // A rejected refresh, or a 2xx refresh whose body is not JSON, rejects without a retry.
    ensures |o.calls| >= 2 && (refresh.None? || (RefreshOk(refresh) && p.parseJson(refresh.value.text).None?)) ==>
      o == Plan(Rejected, o.calls[..2], token)
    // A non-2xx refresh, or one whose JSON has no truthy `access_token`, returns the original 401.
    ensures |o.calls| >= 2 && refresh.Some? && !RefreshOk(refresh) ==>
      o == Plan(Resolved(first.value), o.calls[..2], token)
    ensures |o.calls| >= 2 && RefreshOk(refresh) && p.parseJson(refresh.value.text).Some? && !Present(NewToken(refresh.value, p)) ==>
      o == Plan(Resolved(first.value), o.calls[..2], token)
    // A 2xx refresh with a truthy `access_token` stores exactly that token and retries, returning the retry's outcome.
    ensures |o.calls| >= 2 && RefreshOk(refresh) && Present(NewToken(refresh.value, p)) ==>
      && |o.calls| == 3
      && o.token == NewToken(refresh.value, p)
      && o.result == (if retry.Some? then Resolved(retry.value) else Rejected)
    // A third request is the retry, made only after the new token is stored, and carrying it.
    ensures |o.calls| == 3 ==>
      && RefreshOk(refresh)
      && o.token == NewToken(refresh.value, p)
      && o.token.Some? && Truthy(o.token.value)
      && o.calls[2].url == url && o.calls[2].verb == init.verb && o.calls[2].body == init.body
      && o.calls[2].headers == RetryHeaders(o.calls[0].headers, Bearer(p, o.token.value))
      && o.calls[2].headers[Authorization] == Bearer(p, o.token.value)
    ensures TokenValid(token) ==> TokenValid(o.token)
  {
    var c1 := FirstCall(token, url, init, p);
    match first
    case None => Plan(Rejected, [c1], token)
    case Some(res) =>
      if res.status != 401 || StartsWith(url, "/api/") then Plan(Resolved(res), [c1], token)
      else match refresh
        case None => Plan(Rejected, [c1, RefreshRequest], token)
        case Some(rr) =>
          if !(200 <= rr.status <= 299) then Plan(Resolved(res), [c1, RefreshRequest], token)
          else match p.parseJson(rr.text)
            case None => Plan(Rejected, [c1, RefreshRequest], token)
            case Some(data) =>
              var newToken := Field(data, "access_token");
              if !Present(newToken) then Plan(Resolved(res), [c1, RefreshRequest], token)
              else
                var c3 := Call(url, init.verb, RetryHeaders(c1.headers, Bearer(p, newToken.value)), init.body);
                var result := if retry.Some? then Resolved(retry.value) else Rejected;
                Plan(result, [c1, RefreshRequest, c3], Some(newToken.value))
  }

  /** A URL under `/api/` never triggers a refresh, so `apiFetch` never loops on the refresh endpoint. */
  lemma GatewayUrlsFetchOnce(token: Option<Json>, url: string, init: Init, first: Option<Answer>,
                             refresh: Option<Answer>, retry: Option<Answer>, p: Primitives)
    requires StartsWith(url, "/api/")
    ensures |FetchPlan(token, url, init, first, refresh, retry, p).calls| == 1
    ensures FetchPlan(token, url, init, first, refresh, retry, p).token == token
  {
  }

  /** Every URL of the refresh endpoint is a gateway URL. */
  lemma RefreshUrlIsGatewayUrl(url: string)
    requires StartsWith(url, "/api/refresh")
    ensures StartsWith(url, "/api/")
  {
    assert url[..5] == url[..12][..5];
  }

  /**
   * Where the retry happens with a token already held, the headers as
   * src/main.ts:68 builds them would carry the old and the new credential
   * together; the model sends the new one alone.
   */
  lemma RetryAsWrittenResendsStaleToken(token: Option<Json>, url: string, init: Init, first: Option<Answer>,
                                        refresh: Option<Answer>, retry: Option<Answer>, p: Primitives)
    requires token.Some?
    requires |FetchPlan(token, url, init, first, refresh, retry, p).calls| == 3
    ensures var o := FetchPlan(token, url, init, first, refresh, retry, p);
      RetryHeadersAsWritten(o.calls[0].headers, Bearer(p, o.token.value))[Authorization] ==
        Bearer(p, token.value) + ", " + Bearer(p, o.token.value)
  {
    if StartsWith(url, "/api/refresh") {
      RefreshUrlIsGatewayUrl(url);
    }
  }

  // ---------------------------------------------------------------------
  // Login and explicit refresh

  /** How `login` or `forceRefresh` settled: normally, or by throwing (with `Error.message`, unknown for a network failure). */
  datatype Settled = Done | Threw(message: Option<string>)

  /**
   * The shared tail of `login` and `forceRefresh`: read the JSON body
   * (`{}` when it is not JSON); a non-2xx throws `data?.message` or
   * `${what} falhou (${status})` and keeps the token; a 2xx stores
   * `data?.access_token || null`.
   */
  function Settle(token: Option<Json>, reply: Option<Answer>, what: string, p: Primitives): (r: (Settled, Option<Json>))
    ensures reply.None? ==> r == (Threw(None), token)
    // A non-2xx throws `data?.message` when it is truthy, else `<what> falhou (<status>)`, and keeps the token.
    ensures reply.Some? && !(200 <= reply.value.status <= 299) ==>
      var message := Field(p.parseJson(reply.value.text).GetOr(EmptyObject), "message");
      && r.1 == token
      && r.0 == Threw(Some(if Present(message) then JsString(p, message.value)
                           else what + " falhou (" + IntText(reply.value.status) + ")"))
    ensures reply.Some? && 200 <= reply.value.status <= 299 ==>
      var data := p.parseJson(reply.value.text).GetOr(EmptyObject);
      r.0 == Done && r.1 == if Present(Field(data, "access_token")) then Field(data, "access_token") else None
    ensures TokenValid(token) ==> TokenValid(r.1)
  {
    match reply
    case None => (Threw(None), token)
    case Some(res) =>
      var data := p.parseJson(res.text).GetOr(EmptyObject);
      if !(200 <= res.status <= 299) then
        var message := Field(data, "message");
        var text := if Present(message) then JsString(p, message.value) else what + " falhou (" + IntText(res.status) + ")";
        (Threw(Some(text)), token)
      else
        var newToken := Field(data, "access_token");
        (Done, if Present(newToken) then newToken else None)
  }

  /** The request `login` sends. */
  function LoginRequest(username: string, password: string): Call {
    Call("/api/login", "POST", FromEntries([("Content-Type", "application/json")]),
         Some(JObj(map["username" := JStr(username), "password" := JStr(password)])))
  }

  // ---------------------------------------------------------------------
  // The session holder

  /** The module-level state of src/main.ts. */
  class SessionHolder {
    var accessToken: Option<Json>

    predicate Valid()
      reads this
    {
      TokenValid(accessToken)
    }

    /** `let accessToken = null`. */
    constructor ()
      ensures accessToken.None? && Valid()
    {
      accessToken := None;
    }

    /** `clearSession()`. */
    method ClearSession()
      modifies this
      ensures accessToken.None? && Valid()
    {
      accessToken := None;
    }

    /** `login(username, password)`: `reply` is what the POST to /api/login resolved to. */
    method Login(username: string, password: string, reply: Option<Answer>, p: Primitives)
      returns (settled: Settled, call: Call)
      requires Valid()
      modifies this
      ensures Valid()
      ensures (settled, accessToken) == Settle(old(accessToken), reply, "Login", p)
      ensures call == LoginRequest(username, password)
    {
      call := LoginRequest(username, password);
      settled := Store(reply, "Login", p);
    }

    /** `forceRefresh()`: `reply` is what the POST to /api/refresh resolved to. */
    method ForceRefresh(reply: Option<Answer>, p: Primitives) returns (settled: Settled, call: Call)
      requires Valid()
      modifies this
      ensures Valid()
      ensures (settled, accessToken) == Settle(old(accessToken), reply, "Refresh", p)
      ensures call == RefreshRequest
    {
      call := RefreshRequest;
      settled := Store(reply, "Refresh", p);
    }

    /** The common body of `login` and `forceRefresh` after their `fetch`. */
    method Store(reply: Option<Answer>, what: string, p: Primitives) returns (settled: Settled)
      requires Valid()
      modifies this
      ensures Valid()
      ensures (settled, accessToken) == Settle(old(accessToken), reply, what, p)
    {
      if reply.None? {
        return Threw(None);
      }
      var res := reply.value;
      var data := p.parseJson(res.text).GetOr(EmptyObject);
      if !(200 <= res.status <= 299) {
        var message := Field(data, "message");
        var text := if Present(message) then JsString(p, message.value) else what + " falhou (" + IntText(res.status) + ")";
        return Threw(Some(text));
      }
      var newToken := Field(data, "access_token");
      accessToken := if Present(newToken) then newToken else None;
      return Done;
    }

    /**
     * `apiFetch(url, init)`: `first`, `refresh` and `retry` are what the
     * three possible fetches resolve to; `calls` are the requests made.
     */
    method ApiFetch(url: string, init: Init, first: Option<Answer>, refresh: Option<Answer>, retry: Option<Answer>,
                    p: Primitives)
      returns (result: Completion<Answer>, calls: seq<Call>)
      requires Valid()
      modifies this
      ensures Valid()
      ensures Plan(result, calls, accessToken) == FetchPlan(old(accessToken), url, init, first, refresh, retry, p)
    {
      var c1 := FirstCall(accessToken, url, init, p);
      calls := [c1];
      if first.None? {
        return Rejected, calls;
      }
      var res := first.value;
      if res.status != 401 || StartsWith(url, "/api/") {
        return Resolved(res), calls;
      }
      calls := calls + [RefreshRequest];
      if refresh.None? {
        return Rejected, calls;
      }
      var refreshRes := refresh.value;
      if 200 <= refreshRes.status <= 299 {
        var data := p.parseJson(refreshRes.text);
        if data.None? {
          // `refreshRes.json()` has no catch here: the promise rejects.
          return Rejected, calls;
        }
        var newToken := Field(data.value, "access_token");
        if Present(newToken) {
          accessToken := newToken;
          calls := calls + [Call(url, init.verb, RetryHeaders(c1.headers, Bearer(p, accessToken.value)), init.body)];
          result := if retry.Some? then Resolved(retry.value) else Rejected;
          return;
        }
      }
      return Resolved(res), calls;
    }
  }

  // ---------------------------------------------------------------------
  // decodeJwtPayload

  function HexDigit(d: nat): (c: char)
    requires d < 16
  {
    "0123456789abcdef"[d]
  }

  function HexValue(c: char): (v: nat)
    ensures v < 16
  {
    if '0' <= c <= '9' then (c as int - '0' as int) as nat
    else if 'a' <= c <= 'f' then (c as int - 'a' as int + 10) as nat
    else 0
  }

  lemma HexRoundTrip(d: nat)
    requires d < 16
    ensures HexValue(HexDigit(d)) == d
  {
  }

  /** `n.toString(16)`: lower-case hexadecimal without leading zeros. */
  function ToHex(n: nat): (r: string)
    ensures |r| >= 1
    decreases n
  {
    if n < 16 then [HexDigit(n)] else ToHex(n / 16) + [HexDigit(n % 16)]
  }

  /** `("00" + n.toString(16)).slice(-2)`: the last two hexadecimal digits. */
  function LastTwo(n: nat): string {
    var s := "00" + ToHex(n);
    s[|s| - 2..]
  }

  lemma ToHexLastDigit(m: nat)
    ensures ToHex(m)[|ToHex(m)| - 1] == HexDigit(m % 16)
  {
  }

  lemma HighNibble(n: nat)
    ensures (n / 16) % 16 == (n % 256) / 16
  {
    var a, r := n / 256, n % 256;
    assert n == 256 * a + r;
    assert n / 16 == 16 * a + r / 16;
  }

  lemma LastTwoOf(t: string, d: char)
    requires |t| >= 1
    ensures var s := "00" + (t + [d]); s[|s| - 2..] == [t[|t| - 1], d]
  {
  }

  lemma LastTwoOneDigit(n: nat)
    requires n < 16
    ensures LastTwo(n) == [HexDigit(0), HexDigit(n)]
  {
    assert "00" + ToHex(n) == ['0', '0', HexDigit(n)];
  }

  lemma LastTwoManyDigits(n: nat)
    requires n >= 16
    ensures LastTwo(n) == [HexDigit((n / 16) % 16), HexDigit(n % 16)]
  {
    LastTwoOf(ToHex(n / 16), HexDigit(n % 16));
    ToHexLastDigit(n / 16);
  }

  /** The last two hexadecimal digits of `n` are those of `n % 256`, leading zero included. */
  lemma {:induction false} LastTwoDigits(n: nat)
    ensures LastTwo(n) == [HexDigit((n % 256) / 16), HexDigit(n % 16)]
  {
    if n < 16 {
      LastTwoOneDigit(n);
    } else {
      LastTwoManyDigits(n);
      HighNibble(n);
    }
  }

  /** `"%" + ("00" + c.charCodeAt(0).toString(16)).slice(-2)`. */
  function Escape(c: char): (r: string)
    ensures |r| == 3 && r[0] == '%'
  {
    "%" + LastTwo(c as int)
  }

  /** For a byte (what `atob` yields), the two digits encode the byte. */
  lemma EscapeEncodesByte(c: char)
    requires c as int < 256
    ensures 16 * HexValue(Escape(c)[1]) + HexValue(Escape(c)[2]) == c as int
  {
    var n := c as int;
    LastTwoDigits(n);
    assert n % 256 == n;
    var hi, lo := HexDigit(n / 16), HexDigit(n % 16);
    assert Escape(c) == "%" + [hi, lo];
    assert Escape(c)[1] == hi && Escape(c)[2] == lo;
    HexRoundTrip(n / 16);
    HexRoundTrip(n % 16);
  }

  /** `.split("").map(escape).join("")`. */
  function PercentEscaped(s: string): (r: string)
    ensures |r| == 3 * |s|
    ensures forall i :: 0 <= i < |s| ==> r[3 * i..3 * i + 3] == Escape(s[i])
  {
    if s == [] then []
    else
      var rest := PercentEscaped(s[1..]);
      var r := Escape(s[0]) + rest;
      assert forall i :: 1 <= i < |s| ==> r[3 * i..3 * i + 3] == rest[3 * (i - 1)..3 * (i - 1) + 3];
      r
  }

  /** `.replace(/-/g, "+").replace(/_/g, "/")`: the base64url alphabet back to base64. */
  function FromBase64Url(s: string): (r: string)
    ensures |r| == |s| && '-' !in r && '_' !in r
    ensures forall i :: 0 <= i < |s| ==>
      r[i] == (if s[i] == '-' then '+' else if s[i] == '_' then '/' else s[i])
  {
    ReplaceAll(ReplaceAll(s, '-', '+'), '_', '/')
  }

  /** Decoding one payload segment; `null` (JNull) when any step throws. */
  function DecodeSegment(payload: string, p: Primitives): (r: Json)
    ensures p.atob(FromBase64Url(payload)).None? ==> r == JNull
    ensures p.atob(FromBase64Url(payload)).Some? ==>
      var escaped := PercentEscaped(p.atob(FromBase64Url(payload)).value);
      && (p.decodeUri(escaped).None? ==> r == JNull)
      && (p.decodeUri(escaped).Some? && p.parseJson(p.decodeUri(escaped).value).None? ==> r == JNull)
      && (p.decodeUri(escaped).Some? && p.parseJson(p.decodeUri(escaped).value).Some? ==>
            r == p.parseJson(p.decodeUri(escaped).value).value)
  {
    match p.atob(FromBase64Url(payload))
    case None => JNull
    case Some(binary) =>
      match p.decodeUri(PercentEscaped(binary))
      case None => JNull
      case Some(text) => p.parseJson(text).GetOr(JNull)
  }

  /** `decodeJwtPayload(jwt)`: the second `.`-separated segment, decoded; `null` when it is missing or empty. */
  function DecodeJwtPayload(jwt: string, p: Primitives): (r: Json)
    ensures '.' !in jwt ==> r == JNull
    ensures |Split(jwt, '.')| < 2 || Split(jwt, '.')[1] == "" ==> r == JNull
    ensures |Split(jwt, '.')| >= 2 && Split(jwt, '.')[1] != "" ==> r == DecodeSegment(Split(jwt, '.')[1], p)
  {
    var parts := Split(jwt, '.');
    if |parts| < 2 || parts[1] == "" then JNull else DecodeSegment(parts[1], p)
  }

  lemma SecondSegment(header: string, payload: string, signature: string)
    requires '.' !in header && '.' !in payload
    ensures var parts := Split(header + "." + payload + "." + signature, '.');
      |parts| >= 2 && parts[1] == payload
  {
    var rest := payload + "." + signature;
    assert header + "." + payload + "." + signature == header + ['.'] + rest;
    SplitAt(header, '.', rest);
    BeforeSeparator(payload, '.', signature);
  }

  /** An empty payload segment, as in `a.` or `a..b`, gives `null`. */
  lemma EmptyPayloadIsNull(header: string, rest: string, p: Primitives)
    requires '.' !in header && (rest == [] || rest[0] == '.')
    ensures DecodeJwtPayload(header + "." + rest, p) == JNull
  {
    assert header + "." + rest == header + ['.'] + rest;
    SplitAt(header, '.', rest);
    if rest != [] {
      assert IndexOf(rest, '.') == Some(0);
    }
  }

  /** Only the payload of a `header.payload.signature` token is read. */
  lemma PayloadSegmentOnly(header: string, payload: string, signature: string, p: Primitives)
    requires '.' !in header && '.' !in payload && payload != ""
    ensures DecodeJwtPayload(header + "." + payload + "." + signature, p) == DecodeSegment(payload, p)
  {
    SecondSegment(header, payload, signature);
  }
}
