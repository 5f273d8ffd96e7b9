/**
 * The environment the gateway reads: the upstream base URL (END_POINT_API)
 * and the production flag (NODE_ENV, VERCEL_ENV).
 *
 * `getBaseApiFromEnv` of api/_lib/env.ts (repeated in api/_shared.ts)
 * normalises the configured URL step by step; the legacy `getBaseApi` of
 * api/login.ts and api/refresh.ts only drops one trailing slash.
 */
module Env {
  import opened Wrappers
  import opened Text

  /** The three environment variables the core reads; `None` when unset. */
  datatype Env = Env(endPointApi: Option<string>, nodeEnv: Option<string>, vercelEnv: Option<string>)

  /** `process.env.NODE_ENV === 'production' || !!process.env.VERCEL_ENV`. */
  predicate IsProd(e: Env) {
    e.nodeEnv == Some("production") || (e.vercelEnv.Some? && e.vercelEnv.value != "")
  }

  /** The value used when END_POINT_API is unset or empty. */
  const DefaultBase := "http://localhost:8080/"

  /** The value used when the normalised candidate is not a URL. */
  const Fallback := "http://localhost:8080"

  /** `typeof raw === 'string' && raw ? raw : default`. */
  function Configured(raw: Option<string>): (v: string)
    ensures v != ""
    ensures raw.Some? && raw.value != "" ==> v == raw.value
  {
    if raw.Some? && raw.value != "" then raw.value else DefaultBase
  }

  /** The text is wrapped in one pair of matching double or single quotes. */
  predicate QuoteWrapped(v: string) {
    |v| >= 2 && ((v[0] == '"' && v[|v| - 1] == '"') || (v[0] == '\'' && v[|v| - 1] == '\''))
  }

  /** Removes one pair of matching outer quotes, and nothing else. */
  function StripQuotes(v: string): (r: string)
    ensures QuoteWrapped(v) ==> r == v[1..|v| - 1]
    ensures !QuoteWrapped(v) ==> r == v
  {
    if QuoteWrapped(v) then v[1..|v| - 1] else v
  }

  /** Removes one trailing `/`, and nothing else. */
  function StripSlash(v: string): (r: string)
    ensures EndsWith(v, '/') ==> r + "/" == v
    ensures !EndsWith(v, '/') ==> r == v
  {
    if EndsWith(v, '/') then v[..|v| - 1] else v
  }

  /** The base URL `getBaseApiFromEnv` returns for a given END_POINT_API. */
  function BaseApi(raw: Option<string>, isUrl: string -> bool): (r: string)
    ensures r == Fallback || isUrl(r)
  {
    var v := StripSlash(StripQuotes(Trim(Configured(raw))));
    if isUrl(v) then v else Fallback
  }

  /** `getBaseApiFromEnv` of api/_lib/env.ts and api/_shared.ts: trim, unquote, drop a slash, fall back. */
  method GetBaseApiFromEnv(raw: Option<string>, isUrl: string -> bool) returns (v: string)
    ensures v == BaseApi(raw, isUrl)
  {
    v := Configured(raw);
    v := Trim(v);
    ghost var trimmed := v;
    if |v| >= 2 {
      var first, last := v[0], v[|v| - 1];
      if (first == '"' && last == '"') || (first == '\'' && last == '\'') {
        v := v[1..|v| - 1];
      }
    }
    UnquoteStep(trimmed, v);
    ghost var unquoted := v;
    if EndsWith(v, '/') {
      v := v[..|v| - 1];
    }
    assert v == StripSlash(unquoted);
    if !isUrl(v) {
      v := Fallback;
    }
  }

  /** The inline quote test of `getBaseApiFromEnv` is `QuoteWrapped`. */
  lemma UnquoteStep(t: string, v: string)
    requires v == if |t| >= 2 && ((t[0] == '"' && t[|t| - 1] == '"') || (t[0] == '\'' && t[|t| - 1] == '\'')) then t[1..|t| - 1] else t
    ensures v == StripQuotes(t)
  {
  }

  /** A configured value with no white space at its ends is only unquoted and stripped of a slash. */
  lemma BaseApiOfTrimmed(v: string, isUrl: string -> bool)
    requires v != "" && Trimmed(v)
    ensures var w := StripSlash(StripQuotes(v)); BaseApi(Some(v), isUrl) == if isUrl(w) then w else Fallback
  {
    assert Trim(v) == v;
  }

  /** With END_POINT_API unset or empty the result is the local default, whatever `new URL` accepts. */
  lemma BaseApiUnset(raw: Option<string>, isUrl: string -> bool)
    requires raw.None? || raw.value == ""
    ensures BaseApi(raw, isUrl) == Fallback
  {
    assert Configured(raw) == DefaultBase;
    DefaultBaseShape();
    BaseApiOfTrimmed(DefaultBase, isUrl);
  }

  /** The default base is a clean URL with one trailing slash. */
  lemma DefaultBaseShape()
    ensures Trimmed(DefaultBase) && !QuoteWrapped(DefaultBase) && StripSlash(DefaultBase) == Fallback
  {
    assert DefaultBase[0] == 'h' && DefaultBase[|DefaultBase| - 1] == '/';
    assert DefaultBase[..|DefaultBase| - 1] == Fallback;
  }

  /** Surrounding white space is removed before the quotes are looked at. */
  lemma {:induction false} BaseApiTrimsFirst(front: string, core: string, back: string, isUrl: string -> bool)
    requires AllSpace(front) && AllSpace(back) && Trimmed(core) && core != ""
    ensures BaseApi(Some(front + core + back), isUrl) == BaseApi(Some(core), isUrl)
  {
    TrimPadded(front, core, back);
    var raw := front + core + back;
    assert raw != "" by { assert |raw| >= |core|; }
    assert Configured(Some(raw)) == raw;
    assert Trim(Configured(Some(raw))) == core;
    BaseApiOfTrimmed(core, isUrl);
  }

  /**
   * One pair of matching quotes is removed after trimming, and trimming is
   * not repeated: white space inside the quotes stays.
   */
  lemma BaseApiUnquotes(q: char, inner: string, isUrl: string -> bool)
    requires q == '"' || q == '\''
    requires !EndsWith(inner, '/')
    ensures BaseApi(Some([q] + inner + [q]), isUrl) == if isUrl(inner) then inner else Fallback
  {
    var v := [q] + inner + [q];
    assert v[0] == q && v[|v| - 1] == q;
    assert Trimmed(v) && QuoteWrapped(v);
    assert StripQuotes(v) == inner by { assert v[1..|v| - 1] == inner; }
    assert StripSlash(inner) == inner;
    BaseApiOfTrimmed(v, isUrl);
  }

  /** Quotes that do not match, or a lone quote, are kept. */
  lemma BaseApiKeepsUnmatchedQuotes(v: string, isUrl: string -> bool)
    requires v != [] && Trimmed(v) && !QuoteWrapped(v) && !EndsWith(v, '/')
    ensures BaseApi(Some(v), isUrl) == if isUrl(v) then v else Fallback
  {
  }

  /** Exactly one trailing slash is removed: `http://h//` becomes `http://h/`. */
  lemma BaseApiDropsOneSlash(u: string, isUrl: string -> bool)
    requires u != [] && !IsSpace(u[0]) && !(u[0] == '"' || u[0] == '\'')
    ensures BaseApi(Some(u + "/"), isUrl) == if isUrl(u) then u else Fallback
  {
    var v := u + "/";
    assert v[0] == u[0] && v[|v| - 1] == '/';
    assert Trimmed(v) && !QuoteWrapped(v);
    assert StripQuotes(v) == v;
    assert StripSlash(v) == u by { assert v[..|v| - 1] == u; }
    BaseApiOfTrimmed(v, isUrl);
  }

  /** A valid URL without surrounding white space, quotes or trailing slash comes back unchanged. */
  lemma BaseApiKeepsCleanUrl(u: string, isUrl: string -> bool)
    requires u != [] && Trimmed(u) && !QuoteWrapped(u) && !EndsWith(u, '/') && isUrl(u)
    ensures BaseApi(Some(u), isUrl) == u
  {
  }

  /** `getBaseApi` of api/login.ts and api/refresh.ts: `raw || default`, minus one trailing slash. */
  function LegacyBaseApi(raw: Option<string>): (r: string)
    ensures raw.None? || raw.value == "" ==> r == Fallback
    ensures raw.Some? && raw.value != "" ==> r == StripSlash(raw.value)
  {
    var v := if raw.Some? && raw.value != "" then raw.value else DefaultBase;
    assert DefaultBase[..|DefaultBase| - 1] == Fallback;
    if EndsWith(v, '/') then v[..|v| - 1] else v
  }

  /** The legacy form does no trimming: a padded value keeps its padding. */
  lemma LegacyBaseApiKeepsPadding(u: string)
    requires u != [] && !EndsWith(u, '/')
    ensures LegacyBaseApi(Some(" " + u)) == " " + u
  {
  }

  /** On a clean URL, with or without one trailing slash, the two forms agree. */
  lemma BaseApisAgreeOnCleanUrls(u: string, isUrl: string -> bool)
    requires u != [] && Trimmed(u) && !(u[0] == '"' || u[0] == '\'') && !EndsWith(u, '/') && isUrl(u)
    ensures LegacyBaseApi(Some(u)) == BaseApi(Some(u), isUrl) == u
    ensures LegacyBaseApi(Some(u + "/")) == BaseApi(Some(u + "/"), isUrl) == u
  {
    BaseApiKeepsCleanUrl(u, isUrl);
    BaseApiDropsOneSlash(u, isUrl);
    LegacyDropsOneSlash(u);
  }

  /** The legacy form drops the one trailing slash of `u + "/"`. */
  lemma LegacyDropsOneSlash(u: string)
    requires u != []
    ensures LegacyBaseApi(Some(u + "/")) == u
  {
    var v := u + "/";
    assert EndsWith(v, '/') && v[..|v| - 1] == u;
  }
}
