/**
 * The refresh-token cookie: the `Set-Cookie` attribute builders of
 * api/_lib/cookies.ts (repeated in api/_shared.ts) and of the legacy
 * api/login.ts and api/refresh.ts, and the `Cookie` request-header parser.
 *
 * The request header is the cookie-string of section 4.2.1 of RFC 6265
 * (`name=value; name=value`); the attributes are Path, HttpOnly and Max-Age
 * of section 4.1.1 of RFC 6265, plus SameSite and, in production, Secure.
 */
module Cookies {
  import opened Wrappers
  import opened Text
  import opened Foreign

  /** The default lifetime of the refresh cookie: 30 days, in seconds. */
  const DefaultMaxAge: int := 2592000

  /** The name the gateway stores the refresh token under. */
  const RefreshCookie := "refresh_token"

  lemma JoinCons(x: string, rest: seq<string>, sep: string)
    requires rest != []
    ensures Join([x] + rest, sep) == x + sep + Join(rest, sep)
  {
    assert ([x] + rest)[1..] == rest;
  }

  /**
   * `attrs.join('; ')` after an optional `attrs.push('Secure')`, for the
   * four-entry lists the builders start from.
   */
  lemma JoinFour(a: string, b: string, c: string, d: string, secure: bool)
    ensures Join([a, b, c, d] + (if secure then ["Secure"] else []), "; ")
         == a + "; " + b + "; " + c + "; " + d + (if secure then "; Secure" else "")
  {
    var tail := if secure then ["Secure"] else [];
    assert [a, b, c, d] + tail == [a] + ([b, c, d] + tail);
    JoinCons(a, [b, c, d] + tail, "; ");
    assert [b, c, d] + tail == [b] + ([c, d] + tail);
    JoinCons(b, [c, d] + tail, "; ");
    assert [c, d] + tail == [c] + ([d] + tail);
    JoinCons(c, [d] + tail, "; ");
    if secure {
      JoinCons(d, tail, "; ");
    }
  }

  /** The string every attribute builder produces, given its path, SameSite mode and lifetime. */
  function AttrLine(path: string, sameSite: string, maxAge: string, secure: bool): string {
    ("Path=" + path) + "; " + "HttpOnly" + "; " + ("SameSite=" + sameSite) + "; " + ("Max-Age=" + maxAge)
      + (if secure then "; Secure" else "")
  }

  /**
   * The builder shared by all four attribute functions: the list
   * `[Path=…, HttpOnly, SameSite=…, Max-Age=…]`, `Secure` pushed when asked
   * for, joined with `"; "`.
   */
  function Attributes(path: string, sameSite: string, maxAge: string, secure: bool): (r: string)
    ensures r == AttrLine(path, sameSite, maxAge, secure)
  {
    JoinFour("Path=" + path, "HttpOnly", "SameSite=" + sameSite, "Max-Age=" + maxAge, secure);
    Join(["Path=" + path, "HttpOnly", "SameSite=" + sameSite, "Max-Age=" + maxAge]
         + (if secure then ["Secure"] else []), "; ")
  }

  /** `cookieAttrs(maxAgeSeconds)` of api/_lib/cookies.ts: the modern (Path=/, SameSite=Lax) attributes. */
  function CookieAttrs(maxAge: int, isProd: bool): (r: string)
    ensures r == AttrLine("/", "Lax", IntText(maxAge), isProd)
  {
    Attributes("/", "Lax", IntText(maxAge), isProd)
  }

  /** `clearCookieAttrs()` of api/_lib/cookies.ts: its own list with `Max-Age=0`. */
  function ClearCookieAttrs(isProd: bool): (r: string)
    ensures r == CookieAttrs(0, isProd)
  {
    Attributes("/", "Lax", "0", isProd)
  }

  /** `cookieAttrs(maxAgeSeconds)` of the legacy api/login.ts and api/refresh.ts (Path=/api, SameSite=Strict). */
  function LegacyCookieAttrs(maxAge: int, isProd: bool): (r: string)
    ensures r == AttrLine("/api", "Strict", IntText(maxAge), isProd)
  {
    Attributes("/api", "Strict", IntText(maxAge), isProd)
  }

  /** `clearCookie()` of api/refresh.ts: its own list with `Max-Age=0`. */
  function LegacyClearCookie(isProd: bool): (r: string)
    ensures r == LegacyCookieAttrs(0, isProd)
  {
    Attributes("/api", "Strict", "0", isProd)
  }

  /** The modern and the legacy attributes name different paths and SameSite modes. */
  lemma CookieStylesDiffer(maxAge: int, isProd: bool)
    ensures StartsWith(CookieAttrs(maxAge, isProd), "Path=/;")
    ensures StartsWith(LegacyCookieAttrs(maxAge, isProd), "Path=/api;")
    ensures CookieAttrs(maxAge, isProd) != LegacyCookieAttrs(maxAge, isProd)
  {
    var m := CookieAttrs(maxAge, isProd);
    var l := LegacyCookieAttrs(maxAge, isProd);
    assert m[..7] == "Path=/;";
    assert l[..10] == "Path=/api;";
    assert m[6] != l[6];
  }

  // ---------------------------------------------------------------------
  // Parsing the Cookie request header

  /** `header.split(/;\s*\/)`: cut at every `;` and drop the white space that follows it. */
  function SplitPairs(s: string): (parts: seq<string>)
    ensures |parts| >= 1
    ensures forall i :: 0 <= i < |parts| ==> ';' !in parts[i]
    ensures ';' !in s ==> parts == [s]
    decreases |s|
  {
    match IndexOf(s, ';')
    case None => [s]
    case Some(i) => [s[..i]] + SplitPairs(TrimStart(s[i + 1..]))
  }

  /** What one segment contributes: the text before its first `=` and the still-encoded text after it. */
  datatype Segment = NoPair | Pair(name: string, raw: string)

  function SegmentOf(part: string): (e: Segment)
    ensures e.NoPair? <==> '=' !in part
    ensures e.Pair? ==> part == e.name + "=" + e.raw && '=' !in e.name
  {
    match IndexOf(part, '=')
    case None => NoPair
    case Some(i) =>
      assert part == part[..i] + "=" + part[i + 1..];
      Pair(part[..i], part[i + 1..])
  }

  /**
   * `out[name] = value` on a plain object: assigning a string to `__proto__`
   * goes to the inherited setter, which ignores it, so no entry appears.
   */
  function Assign(out: map<string, string>, name: string, value: string): map<string, string> {
    if name == "__proto__" then out else out[name := value]
  }

  /** One iteration of the parsing loop; `None` when `decodeURIComponent` throws. */
  function Step(out: map<string, string>, part: string, decode: string -> Option<string>): Option<map<string, string>> {
    match SegmentOf(part)
    case NoPair => Some(out)
    case Pair(name, raw) =>
      match decode(raw)
      case None => None
      case Some(value) => Some(Assign(out, name, value))
  }

  /** The parsing loop over the segments, from left to right. */
  function Fill(out: map<string, string>, parts: seq<string>, decode: string -> Option<string>): Option<map<string, string>>
    decreases |parts|
  {
    if parts == [] then Some(out)
    else
      match Step(out, parts[0], decode)
      case None => None
      case Some(next) => Fill(next, parts[1..], decode)
  }

  /** `parseCookies(cookieHeader)`: `None` stands for the URIError it lets escape. */
  function ParsedCookies(header: Option<string>, decode: string -> Option<string>): (r: Option<map<string, string>>)
    ensures header.None? || header == Some("") ==> r == Some(map[])
  {
    if header.None? || header.value == "" then Some(map[])
    else Fill(map[], SplitPairs(header.value), decode)
  }

  /** The loop of `parseCookies`, filling the `out` record segment by segment. */
  method ParseCookies(header: Option<string>, decode: string -> Option<string>) returns (r: Option<map<string, string>>)
    ensures r == ParsedCookies(header, decode)
    ensures header.None? || header == Some("") ==> r == Some(map[])
  {
    var out: map<string, string> := map[];
    if header.None? || header.value == "" {
      return Some(out);
    }
    var parts := SplitPairs(header.value);
    for k := 0 to |parts|
      invariant Fill(out, parts[k..], decode) == Fill(map[], parts, decode)
    {
      var part := parts[k];
      assert parts[k..][0] == part && parts[k..][1..] == parts[k + 1..];
      ghost var before := out;
      match IndexOf(part, '=') {
        case None =>
          assert Step(before, part, decode) == Some(out);
        case Some(i) =>
          assert SegmentOf(part) == Pair(part[..i], part[i + 1..]);
          var value := decode(part[i + 1..]);
          if value.None? {
            assert Step(before, part, decode).None?;
            return None;
          }
          if part[..i] != "__proto__" {
            out := out[part[..i] := value.value];
          }
          assert Step(before, part, decode) == Some(out);
      }
    }
    assert parts[|parts|..] == [];
    return Some(out);
  }

  // ---------------------------------------------------------------------
  // Properties of the parser

  /** Appending a segment applies it last: a later duplicate name overwrites an earlier one. */
  lemma {:induction false} FillAppend(out: map<string, string>, parts: seq<string>, part: string, decode: string -> Option<string>)
    ensures Fill(out, parts + [part], decode) ==
      match Fill(out, parts, decode)
      case None => None
      case Some(m) => Step(m, part, decode)
    decreases |parts|
  {
    if parts == [] {
      assert [] + [part] == [part];
      assert [part][1..] == [];
    } else {
      assert (parts + [part])[0] == parts[0];
      assert (parts + [part])[1..] == parts[1..] + [part];
      match Step(out, parts[0], decode)
      case None =>
      case Some(next) => FillAppend(next, parts[1..], part, decode);
    }
  }

  /** A segment without `=` contributes nothing: removing it does not change the result. */
  lemma {:induction false} FillSkipsNoPair(out: map<string, string>, parts: seq<string>, i: nat, decode: string -> Option<string>)
    requires i < |parts| && '=' !in parts[i]
    ensures Fill(out, parts[..i] + parts[i + 1..], decode) == Fill(out, parts, decode)
    decreases i
  {
    if i == 0 {
      assert parts[..0] + parts[1..] == parts[1..];
    } else {
      var rest := parts[..i] + parts[i + 1..];
      assert rest[0] == parts[0];
      assert rest[1..] == parts[1..][..i - 1] + parts[1..][i..];
      match Step(out, parts[0], decode)
      case None =>
      case Some(next) => FillSkipsNoPair(next, parts[1..], i - 1, decode);
    }
  }

  /** One segment whose value is not valid percent-encoding makes the whole parse fail. */
  lemma {:induction false} FillFailsOnMalformed(out: map<string, string>, parts: seq<string>, i: nat, decode: string -> Option<string>)
    requires i < |parts| && SegmentOf(parts[i]).Pair? && decode(SegmentOf(parts[i]).raw).None?
    ensures Fill(out, parts, decode).None?
    decreases i
  {
    if i > 0 {
      match Step(out, parts[0], decode)
      case None =>
      case Some(next) => FillFailsOnMalformed(next, parts[1..], i - 1, decode);
    }
  }

  /** Trimming the front of `x + y` when `y` starts with a non-space. */
  lemma {:induction false} TrimStartAppend(x: string, y: string)
    requires y != [] && !IsSpace(y[0])
    ensures TrimStart(x + y) == TrimStart(x) + y
  {
    if x != [] {
      assert (x + y)[0] == x[0];
      if IsSpace(x[0]) {
        assert (x + y)[1..] == x[1..] + y;
        TrimStartAppend(x[1..], y);
      }
    } else {
      assert x + y == y;
    }
  }

  /** A text without `;`, then `;`: the split yields that text first, then splits what follows after dropping its leading white space. */
  lemma SplitAfterPrefix(a: string, rest: string)
    requires ';' !in a
    ensures SplitPairs(a + ";" + rest) == [a] + SplitPairs(TrimStart(rest))
  {
    var s := a + ";" + rest;
    assert s == a + (";" + rest);
    IndexOfAfterPrefix(a, ';', ";" + rest);
    assert s[..|a|] == a;
    assert s[|a| + 1..] == rest;
  }

  lemma Associative<T>(x: seq<T>, y: seq<T>, z: seq<T>)
    ensures x + y + z == x + (y + z)
  {
  }

  /** Leading white space is trimmed from `t` alone when `; ` follows it. */
  lemma TrimStartBeforeSeparator(t: string, seg: string)
    ensures TrimStart(t + "; " + seg) == TrimStart(t) + "; " + seg
  {
    Associative(t, "; ", seg);
    TrimStartAppend(t, "; " + seg);
    Associative(TrimStart(t), "; ", seg);
  }

  /** Splitting past a leading segment `a` and its `;`. */
  lemma SplitPastFirst(a: string, t: string, seg: string)
    requires ';' !in a
    ensures SplitPairs(a + ";" + t + "; " + seg) == [a] + SplitPairs(TrimStart(t) + "; " + seg)
  {
    var rest := t + "; " + seg;
    Associative(a + ";", t, "; " + seg);
    Associative(a + ";" + t, "; ", seg);
    Associative(t, "; ", seg);
    SplitAfterPrefix(a, rest);
    TrimStartBeforeSeparator(t, seg);
  }

  /** One step of `SplitAppend`: a leading segment `a` and `;` do not disturb the appended segment. */
  lemma SplitAppendStep(a: string, t: string, seg: string)
    requires ';' !in a
    requires seg == [] || !IsSpace(seg[0])
    requires SplitPairs(TrimStart(t) + "; " + seg) == SplitPairs(TrimStart(t)) + [seg]
    ensures SplitPairs(a + ";" + t + "; " + seg) == SplitPairs(a + ";" + t) + [seg]
  {
    SplitPastFirst(a, t, seg);
    SplitAfterPrefix(a, t);
    Associative([a], SplitPairs(TrimStart(t)), [seg]);
  }

  /** Splitting `h + "; " + seg` gives the segments of `h` followed by `seg`. */
  lemma {:induction false} SplitAppend(h: string, seg: string)
    requires ';' !in seg && (seg == [] || !IsSpace(seg[0]))
    ensures SplitPairs(h + "; " + seg) == SplitPairs(h) + [seg]
    decreases |h|
  {
    var i := IndexOf(h, ';');
    if i.None? {
      assert h + "; " + seg == h + ";" + (" " + seg);
      SplitAfterPrefix(h, " " + seg);
      assert AllSpace(" ");
      TrimStartPadded(" ", seg);
    } else {
      var k := i.value;
      var a, t := h[..k], h[k + 1..];
      assert h == a + ";" + t;
      SplitAppend(TrimStart(t), seg);
      SplitAppendStep(a, t, seg);
    }
  }

  /** A header made of exactly one `name=value` pair yields exactly that cookie, with the value decoded. */
  lemma SinglePair(name: string, raw: string, decode: string -> Option<string>)
    requires ';' !in name && ';' !in raw && '=' !in name && name != "__proto__"
    ensures ParsedCookies(Some(name + "=" + raw), decode) ==
      match decode(raw)
      case None => None
      case Some(value) => Some(map[name := value])
  {
    var part := name + "=" + raw;
    assert ';' !in part;
    assert SplitPairs(part) == [part];
    SinglePairSegment(name, raw);
    var parts: seq<string> := [part];
    assert parts[1..] == [];
    assert part != "";
    assert ParsedCookies(Some(part), decode) == Fill(map[], parts, decode);
    match decode(raw)
    case None =>
      assert Step(map[], part, decode) == None;
    case Some(value) =>
      assert Step(map[], part, decode) == Some(map[name := value]);
      assert Fill(map[name := value], parts[1..], decode) == Some(map[name := value]);
  }

  /**
   * A later `name=value` pair overrides whatever an earlier one of the same
   * name gave, and leaves the other names alone.
   */
  lemma LaterPairWins(h: string, name: string, raw: string, decode: string -> Option<string>, earlier: map<string, string>, value: string)
    requires h != ""
    requires ';' !in name && ';' !in raw && '=' !in name && name != "__proto__"
    requires name == [] || !IsSpace(name[0])
    requires ParsedCookies(Some(h), decode) == Some(earlier)
    requires decode(raw) == Some(value)
    ensures ParsedCookies(Some(h + "; " + name + "=" + raw), decode) == Some(earlier[name := value])
  {
    var seg := name + "=" + raw;
    assert h + "; " + name + "=" + raw == h + "; " + seg;
    SegmentStart(name, raw);
    SplitAppend(h, seg);
    var whole := h + "; " + seg;
    assert whole != "";
    assert ParsedCookies(Some(whole), decode) == Fill(map[], SplitPairs(h) + [seg], decode);
    FillAppend(map[], SplitPairs(h), seg, decode);
    assert Fill(map[], SplitPairs(h), decode) == Some(earlier);
    SinglePairSegment(name, raw);
    assert Step(earlier, seg, decode) == Some(earlier[name := value]);
  }

  /** A `name=value` segment has no `;` and, when the name does not, starts with no white space. */
  lemma SegmentStart(name: string, raw: string)
    requires ';' !in name && ';' !in raw
    requires name == [] || !IsSpace(name[0])
    ensures var seg := name + "=" + raw; ';' !in seg && (seg == [] || !IsSpace(seg[0]))
  {
    var seg := name + "=" + raw;
    if name == [] { assert seg[0] == '='; } else { assert seg[0] == name[0]; }
  }

  /** The segment `name=raw` names `name` and carries `raw`. */
  lemma SinglePairSegment(name: string, raw: string)
    requires '=' !in name
    ensures SegmentOf(name + "=" + raw) == Pair(name, raw)
  {
    var rest := "=" + raw;
    var seg := name + rest;
    assert rest[0] == '=' && IndexOf(rest, '=') == Some(0);
    IndexOfAfterPrefix(name, '=', rest);
    assert IndexOf(seg, '=') == Some(|name|);
    assert seg[..|name|] == name && seg[|name| + 1..] == raw;
    assert name + "=" + raw == seg;
  }

  /**
   * The cookie the gateway writes, `refresh_token=` + encodeURIComponent(t),
   * parses back to `t` under `refresh_token`.
   */
  lemma RefreshTokenRoundTrip(p: Primitives, t: string)
    requires UriCodecSound(p)
    ensures ParsedCookies(Some(RefreshCookie + "=" + p.encodeUri(t)), p.decodeUri) == Some(map[RefreshCookie := t])
  {
    assert ';' !in p.encodeUri(t) && p.decodeUri(p.encodeUri(t)) == Some(t);
    SinglePair(RefreshCookie, p.encodeUri(t), p.decodeUri);
  }
}
