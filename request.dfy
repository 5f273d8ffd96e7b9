/**
 * The incoming request as the handlers see it, and the helpers of
 * api/_lib/request.ts that read it: the client IP chosen through the
 * proxy headers, and the geolocation and client-hint headers copied into
 * a JSON object.
 */
module Request {
  import opened Wrappers
  import opened Text
  import opened Json

  /** A header or query value: Node gives a string, or an array of strings for a repeated field. */
  datatype FieldValue = One(s: string) | Many(xs: seq<string>)

  /** Header names as Node delivers them (lower case) to their values. */
  type Fields = map<string, FieldValue>

  datatype IncomingRequest = IncomingRequest(
    verb: string,
    headers: Fields,
    /** The parsed body: a JSON value, a string for text bodies, `None` when there is none. */
    body: Option<Json>,
    query: Fields,
    /** `req.socket.remoteAddress`, `None` when the socket has none. */
    remoteAddress: Option<string>)

  // ---------------------------------------------------------------------
  // Client IP

  /** The IP named by X-Forwarded-For: the first comma-separated entry of a string, or the first element of an array, trimmed. */
  function ForwardedIp(h: Fields): (ip: string)
    ensures "x-forwarded-for" !in h ==> ip == ""
    ensures "x-forwarded-for" in h && h["x-forwarded-for"].One? && h["x-forwarded-for"].s != "" ==>
      ip == Trim(BeforeFirst(h["x-forwarded-for"].s, ','))
    ensures "x-forwarded-for" in h && h["x-forwarded-for"].Many? && h["x-forwarded-for"].xs != [] ==>
      ip == Trim(h["x-forwarded-for"].xs[0])
  {
    if "x-forwarded-for" !in h then ""
    else match h["x-forwarded-for"]
      case One(s) => if s != "" then Trim(BeforeFirst(s, ',')) else ""
      case Many(xs) => if xs != [] then Trim(xs[0]) else ""
  }

  /** The IP named by X-Real-IP, trimmed; only a single string counts. */
  function RealIp(h: Fields): (ip: string)
    ensures "x-real-ip" in h && h["x-real-ip"].One? ==> ip == Trim(h["x-real-ip"].s)
    ensures !("x-real-ip" in h && h["x-real-ip"].One?) ==> ip == ""
  {
    if "x-real-ip" in h && h["x-real-ip"].One? then Trim(h["x-real-ip"].s) else ""
  }

  /** The first non-empty entry of a list, or `""`. */
  function FirstNonEmpty(xs: seq<string>): (r: string)
    ensures r == "" <==> forall i :: 0 <= i < |xs| ==> xs[i] == ""
    ensures r != "" ==> exists i :: 0 <= i < |xs| && xs[i] == r && forall j :: 0 <= j < i ==> xs[j] == ""
  {
    if xs == [] then ""
    else if xs[0] != "" then xs[0]
    else
      var r := FirstNonEmpty(xs[1..]);
      assert forall i :: 1 <= i < |xs| ==> xs[i] == xs[1..][i - 1];
      if r != "" then
        var k :| 0 <= k < |xs[1..]| && xs[1..][k] == r && forall j :: 0 <= j < k ==> xs[1..][j] == "";
        assert xs[k + 1] == r && forall j :: 0 <= j < k + 1 ==> xs[j] == "";
        r
      else r
  }

  /** The precedence the gateway gives the sources of a client IP. */
  function IpCandidates(h: Fields, remoteAddress: Option<string>): seq<string> {
    [ForwardedIp(h), RealIp(h), remoteAddress.GetOr("")]
  }

  /**
   * `getClientIp` of api/_lib/request.ts (and the inline chain of
   * api/whoami.ts): `ip` starts empty and each source is consulted only
   * while it is still empty.
   */
  method GetClientIp(req: IncomingRequest) returns (ip: string)
    ensures ip == FirstNonEmpty(IpCandidates(req.headers, req.remoteAddress))
  {
    var h := req.headers;
    ip := "";
    if "x-forwarded-for" in h && h["x-forwarded-for"].One? && h["x-forwarded-for"].s != "" {
      ip := Trim(Split(h["x-forwarded-for"].s, ',')[0]);
    } else if "x-forwarded-for" in h && h["x-forwarded-for"].Many? && |h["x-forwarded-for"].xs| > 0 {
      ip := Trim(h["x-forwarded-for"].xs[0]);
    }
    if ip == "" && "x-real-ip" in h && h["x-real-ip"].One? {
      ip := Trim(h["x-real-ip"].s);
    }
    if ip == "" {
      ip := if req.remoteAddress.Some? && req.remoteAddress.value != "" then req.remoteAddress.value else "";
    }
    FirstOfThree(ForwardedIp(h), RealIp(h), req.remoteAddress.GetOr(""));
  }

  /** The first non-empty of three candidates. */
  lemma FirstOfThree(a: string, b: string, c: string)
    ensures FirstNonEmpty([a, b, c]) == if a != "" then a else if b != "" then b else c
  {
    var xs := [a, b, c];
    assert [c][1..] == [];
    assert FirstNonEmpty([c]) == c;
    assert [b, c][1..] == [c];
    assert FirstNonEmpty([b, c]) == if b != "" then b else c;
    assert xs[1..] == [b, c];
  }

  /** The client IP of a request, as `getClientIp` computes it. */
  function ClientIp(h: Fields, remoteAddress: Option<string>): string {
    FirstNonEmpty(IpCandidates(h, remoteAddress))
  }

  /** X-Forwarded-For wins whenever it yields a non-empty IP. */
  lemma ForwardedIpFirst(h: Fields, remoteAddress: Option<string>)
    requires ForwardedIp(h) != ""
    ensures ClientIp(h, remoteAddress) == ForwardedIp(h)
  {
    FirstOfThree(ForwardedIp(h), RealIp(h), remoteAddress.GetOr(""));
  }

  /** X-Real-IP is consulted exactly when X-Forwarded-For yields nothing. */
  lemma RealIpSecond(h: Fields, remoteAddress: Option<string>)
    requires ForwardedIp(h) == "" && RealIp(h) != ""
    ensures ClientIp(h, remoteAddress) == RealIp(h)
  {
    FirstOfThree(ForwardedIp(h), RealIp(h), remoteAddress.GetOr(""));
  }

  /** The socket address is the last resort, and the result is `""` when every source is empty. */
  lemma RemoteAddressLast(h: Fields, remoteAddress: Option<string>)
    requires ForwardedIp(h) == "" && RealIp(h) == ""
    ensures ClientIp(h, remoteAddress) == remoteAddress.GetOr("")
  {
    FirstOfThree(ForwardedIp(h), RealIp(h), remoteAddress.GetOr(""));
  }

  /**
   * An X-Forwarded-For whose first entry is blank, such as `" , 1.2.3.4"`,
   * yields no IP, so X-Real-IP is used.
   */
  lemma BlankForwardedEntryFallsThrough(h: Fields, blank: string, rest: string, realIp: string, remoteAddress: Option<string>)
    requires AllSpace(blank) && ',' !in blank
    requires "x-forwarded-for" in h && h["x-forwarded-for"] == One(blank + "," + rest)
    requires "x-real-ip" in h && h["x-real-ip"] == One(realIp) && Trim(realIp) != ""
    ensures ClientIp(h, remoteAddress) == Trim(realIp)
  {
    var s := blank + "," + rest;
    assert s != "" && s == blank + [','] + rest;
    BeforeSeparator(blank, ',', rest);
    assert ForwardedIp(h) == Trim(blank) == "";
    RealIpSecond(h, remoteAddress);
  }

  // ---------------------------------------------------------------------
  // Header fields copied into JSON

  /**
   * `(req.headers[name] as string) || ''`: an absent or empty header gives
   * `''`; an array, being truthy, is kept as it is.
   */
  function HeaderField(h: Fields, name: string): (v: Json)
    ensures name !in h ==> v == JStr("")
    ensures name in h && h[name].One? ==> v == JStr(h[name].s)
    ensures v.JStr? || v.JArr?
  {
    if name !in h then JStr("")
    else match h[name]
      case One(s) => JStr(s)
      case Many(xs) => JArr(Strings(xs))
  }

  /** An array of strings as JSON. */
  function Strings(xs: seq<string>): (r: seq<Json>)
    ensures |r| == |xs| && forall i :: 0 <= i < |xs| ==> r[i] == JStr(xs[i])
  {
    if xs == [] then [] else [JStr(xs[0])] + Strings(xs[1..])
  }

  /** A table of (output key, header name) pairs with no key repeated. */
  predicate DistinctKeys(table: seq<(string, string)>) {
    forall i, j :: 0 <= i < j < |table| ==> table[i].0 != table[j].0
  }

  /** The object literal `{ key: (req.headers[name] as string) || '', … }` over a table. */
  function Project(h: Fields, table: seq<(string, string)>): (r: map<string, Json>)
    ensures r.Keys == set i | 0 <= i < |table| :: table[i].0
  {
    if table == [] then map[]
    else
      var init := table[..|table| - 1];
      var last := table[|table| - 1];
      var r := Project(h, init)[last.0 := HeaderField(h, last.1)];
      assert forall i :: 0 <= i < |init| ==> table[i] == init[i];
      r
  }

  /** Each key of a projection holds its own header's field. */
  lemma {:induction false} ProjectField(h: Fields, table: seq<(string, string)>, i: nat)
    requires DistinctKeys(table) && i < |table|
    ensures Project(h, table)[table[i].0] == HeaderField(h, table[i].1)
    decreases |table|
  {
    if i < |table| - 1 {
      var init := table[..|table| - 1];
      assert init[i] == table[i];
      assert DistinctKeys(init);
      ProjectField(h, init, i);
    }
  }

  /** The geolocation headers Vercel adds, under the keys the gateway reports them. */
  const GeoTable: seq<(string, string)> := [
    ("country", "x-vercel-ip-country"),
    ("region", "x-vercel-ip-country-region"),
    ("city", "x-vercel-ip-city"),
    ("timezone", "x-vercel-ip-timezone"),
    ("latitude", "x-vercel-ip-latitude"),
    ("longitude", "x-vercel-ip-longitude")]

  /** The client-hint headers, under the keys the gateway reports them. */
  const ClientTable: seq<(string, string)> := [
    ("ua", "user-agent"),
    ("acceptLanguage", "accept-language"),
    ("referer", "referer"),
    ("origin", "origin"),
    ("secChUa", "sec-ch-ua"),
    ("secChUaMobile", "sec-ch-ua-mobile"),
    ("secChUaPlatform", "sec-ch-ua-platform")]

  lemma GeoTableDistinct()
    ensures DistinctKeys(GeoTable)
  {
    var ks := seq(|GeoTable|, i requires 0 <= i < |GeoTable| => GeoTable[i].0);
    assert ks == ["country", "region", "city", "timezone", "latitude", "longitude"];
  }

  lemma ClientTableDistinct()
    ensures DistinctKeys(ClientTable)
  {
    var ks := seq(|ClientTable|, i requires 0 <= i < |ClientTable| => ClientTable[i].0);
    assert ks == ["ua", "acceptLanguage", "referer", "origin", "secChUa", "secChUaMobile", "secChUaPlatform"];
  }

  /** `getGeoFromHeaders`: one key per geolocation header, each the header's value or `''`. */
  function GeoFromHeaders(h: Fields): (r: map<string, Json>)
    ensures r.Keys == set i | 0 <= i < |GeoTable| :: GeoTable[i].0
    ensures forall i :: 0 <= i < |GeoTable| ==> r[GeoTable[i].0] == HeaderField(h, GeoTable[i].1)
  {
    GeoTableDistinct();
    var r := Project(h, GeoTable);
    forall i | 0 <= i < |GeoTable| ensures r[GeoTable[i].0] == HeaderField(h, GeoTable[i].1) {
      ProjectField(h, GeoTable, i);
    }
    r
  }

  /** `getClientHeaders`: one key per client-hint header, each the header's value or `''`. */
  function ClientHeaders(h: Fields): (r: map<string, Json>)
    ensures r.Keys == set i | 0 <= i < |ClientTable| :: ClientTable[i].0
    ensures forall i :: 0 <= i < |ClientTable| ==> r[ClientTable[i].0] == HeaderField(h, ClientTable[i].1)
  {
    ClientTableDistinct();
    var r := Project(h, ClientTable);
    forall i | 0 <= i < |ClientTable| ensures r[ClientTable[i].0] == HeaderField(h, ClientTable[i].1) {
      ProjectField(h, ClientTable, i);
    }
    r
  }
}
