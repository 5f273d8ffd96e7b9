/**
 * The platform primitives the core calls but does not define. They are
 * parameters of the model; the lemmas that need a property of one of them
 * state it as a precondition.
 */
module Foreign {
  import opened Wrappers
  import opened Json

  datatype Primitives = Primitives(
    /** `encodeURIComponent` applied to a string. */
    encodeUri: string -> string,
    /** `decodeURIComponent`; `None` when it throws a URIError on malformed percent-encoding. */
    decodeUri: string -> Option<string>,
    /** `JSON.parse` (also `Response.json()` on the body text); `None` when it throws. */
    parseJson: string -> Option<Json>,
    /** `String(x)` for a value that is not a string. */
    toText: Json -> string,
    /** Whether `new URL(v)` succeeds. */
    isUrl: string -> bool,
    /** `Number.parseInt(s, 10)`; `None` for NaN and the infinities. */
    parseInt: string -> Option<int>,
    /** `atob`; `None` when it throws. */
    atob: string -> Option<string>
  )

  /** `String(x)`, used by template literals and by `encodeURIComponent` on a non-string. */
  function JsString(p: Primitives, j: Json): (r: string)
    ensures j.JStr? ==> r == j.s
  {
    if j.JStr? then j.s else p.toText(j)
  }

  /**
   * What the round-trip lemmas require of the URI codec: decoding inverts
   * encoding, and an encoded component contains no `;` (encodeURIComponent
   * escapes it as %3B), so it cannot split a cookie header.
   */
  ghost predicate UriCodecSound(p: Primitives) {
    forall t :: p.decodeUri(p.encodeUri(t)) == Some(t) && ';' !in p.encodeUri(t)
  }
}
