/**
 * The diagnostic endpoint of api/whoami.ts: the client IP, chosen through
 * the same precedence as `getClientIp`, with the user agent, language and
 * Vercel geolocation headers, never cached.
 */
module Whoami {
  import opened Wrappers
  import opened Text
  import opened Json
  import opened Request
  import opened Http

  /** The header-copied keys of the whoami object, after `ip`. */
  const WhoamiTable: seq<(string, string)> := [("ua", "user-agent"), ("acceptLanguage", "accept-language")] + GeoTable

  lemma WhoamiTableDistinct()
    ensures DistinctKeys(WhoamiTable)
    ensures forall i :: 0 <= i < |WhoamiTable| ==> WhoamiTable[i].0 != "ip"
  {
    var ks := seq(|WhoamiTable|, i requires 0 <= i < |WhoamiTable| => WhoamiTable[i].0);
    assert ks == ["ua", "acceptLanguage", "country", "region", "city", "timezone", "latitude", "longitude"];
  }

  /** The object api/whoami.ts reports. */
  function WhoamiFields(req: IncomingRequest): (out: map<string, Json>)
    ensures out.Keys == {"ip"} + set i | 0 <= i < |WhoamiTable| :: WhoamiTable[i].0
    ensures out["ip"] == JStr(ClientIp(req.headers, req.remoteAddress))
    ensures "ua" in out && out["ua"] == HeaderField(req.headers, "user-agent")
    ensures "acceptLanguage" in out && out["acceptLanguage"] == HeaderField(req.headers, "accept-language")
  {
    var h := req.headers;
    assert WhoamiTable[0] == ("ua", "user-agent") && WhoamiTable[1] == ("acceptLanguage", "accept-language");
    WhoamiTableDistinct();
    ProjectField(h, WhoamiTable, 0);
    ProjectField(h, WhoamiTable, 1);
    Project(h, WhoamiTable)["ip" := JStr(ClientIp(h, req.remoteAddress))]
  }

  /** The geolocation fields agree with `getGeoFromHeaders`. */
  lemma WhoamiAgreesWithHelpers(req: IncomingRequest)
    ensures forall i :: 0 <= i < |GeoTable| ==>
      && GeoTable[i].0 in WhoamiFields(req)
      && WhoamiFields(req)[GeoTable[i].0] == GeoFromHeaders(req.headers)[GeoTable[i].0]
  {
    var h := req.headers;
    WhoamiTableDistinct();
    forall i | 0 <= i < |GeoTable|
      ensures GeoTable[i].0 in WhoamiFields(req) && WhoamiFields(req)[GeoTable[i].0] == GeoFromHeaders(h)[GeoTable[i].0]
    {
      assert WhoamiTable[i + 2] == GeoTable[i];
      ProjectField(h, WhoamiTable, i + 2);
    }
  }

  /** The reply: always 200, never cached. */
  function WhoamiReply(req: IncomingRequest): (r: Reply)
    ensures r.status == 200 && r.headers == map["Cache-Control" := "no-store"]
    ensures r.payload == JsonBody(JObj(WhoamiFields(req)))
  {
    Reply(200, map["Cache-Control" := "no-store"], JsonBody(JObj(WhoamiFields(req))))
  }

  /** `handler` of api/whoami.ts: the inline IP chain, then the response. */
  method HandleWhoami(req: IncomingRequest, res: Response)
    requires res.Untouched()
    modifies res
    ensures res.Holds(WhoamiReply(req))
  {
    var h := req.headers;
    var ip := "";
    if "x-forwarded-for" in h && h["x-forwarded-for"].One? && h["x-forwarded-for"].s != "" {
      ip := Trim(Split(h["x-forwarded-for"].s, ',')[0]);
    } else if "x-forwarded-for" in h && h["x-forwarded-for"].Many? && |h["x-forwarded-for"].xs| > 0 {
      ip := Trim(h["x-forwarded-for"].xs[0]);
    }
    if ip == "" && "x-real-ip" in h && h["x-real-ip"].One? {
      ip := Trim(h["x-real-ip"].s);
    }
    if ip == "" {
      ip := if req.remoteAddress.Some? && req.remoteAddress.value != "" then req.remoteAddress.value else "";
    }
    FirstOfThree(ForwardedIp(h), RealIp(h), req.remoteAddress.GetOr(""));
    var out := Project(h, WhoamiTable)["ip" := JStr(ip)];
    res.SetHeader("Cache-Control", "no-store");
    res.Status(200);
    res.SendJson(JObj(out));
  }
}
