/**
 * The string built-ins of ECMAScript that the core relies on: `trim`, `split`,
 * `indexOf`, `startsWith`, `endsWith`, `includes`, `replace` with a global
 * pattern, `join`, and the decimal rendering of an integer.
 */
module Text {
  import opened Wrappers

  /** The code points ECMAScript counts as WhiteSpace or LineTerminator: what `\s` matches and `trim` removes. */
  predicate IsSpace(c: char) {
    var n := c as int;
    n == 0x09 || n == 0x0A || n == 0x0B || n == 0x0C || n == 0x0D || n == 0x20 ||
    n == 0xA0 || n == 0x1680 || (0x2000 <= n <= 0x200A) || n == 0x2028 || n == 0x2029 ||
    n == 0x202F || n == 0x205F || n == 0x3000 || n == 0xFEFF
  }

  predicate AllSpace(s: string) {
    forall i :: 0 <= i < |s| ==> IsSpace(s[i])
  }

  /** Neither end of `s` is white space: what `trim` leaves. */
  predicate Trimmed(s: string) {
    s == [] || (!IsSpace(s[0]) && !IsSpace(s[|s| - 1]))
  }

  /** Drops the leading white space (`trimStart`, and the `\s*` of a regular expression). */
  function TrimStart(s: string): (r: string)
    ensures |r| <= |s| && r == s[|s| - |r|..]
    ensures r == [] || !IsSpace(r[0])
  {
    if s != [] && IsSpace(s[0]) then TrimStart(s[1..]) else s
  }

  /** Drops the trailing white space. */
  function TrimEnd(s: string): (r: string)
    ensures |r| <= |s| && r == s[..|r|]
    ensures r == [] || !IsSpace(r[|r| - 1])
  {
    if s != [] && IsSpace(s[|s| - 1]) then TrimEnd(s[..|s| - 1]) else s
  }

  /** `String.prototype.trim`. */
  function Trim(s: string): (r: string)
    ensures Trimmed(r) && |r| <= |s|
    ensures Trimmed(s) ==> r == s
    ensures AllSpace(s) <==> r == []
  {
    TrimBothEnds(s);
    TrimEnd(TrimStart(s))
  }

  lemma {:induction false} TrimBothEnds(s: string)
    ensures var r := TrimEnd(TrimStart(s));
      && Trimmed(r)
      && (Trimmed(s) ==> r == s)
      && (AllSpace(s) <==> r == [])
  {
    var t := TrimStart(s);
    var r := TrimEnd(t);
    TrimStartDropsSpace(s);
    TrimEndDropsSpace(t);
    if r != [] {
      assert r[0] == t[0];
    }
    if Trimmed(s) {
      TrimStartKeepsTrimmed(s);
      TrimEndKeepsTrimmed(s);
    }
    assert t != [] ==> t[0] == s[|s| - |t|];
    assert r == [] ==> t == [];
    assert s[..|s|] == s;
  }

  /** What `TrimStart` drops is white space. */
  lemma {:induction false} TrimStartDropsSpace(s: string)
    ensures AllSpace(s[..|s| - |TrimStart(s)|])
  {
    if s != [] && IsSpace(s[0]) {
      TrimStartDropsSpace(s[1..]);
      var k := |s| - |TrimStart(s)|;
      assert s[..k] == [s[0]] + s[1..][..k - 1];
    }
  }

  /** What `TrimEnd` drops is white space. */
  lemma {:induction false} TrimEndDropsSpace(s: string)
    ensures AllSpace(s[|TrimEnd(s)|..])
  {
    if s != [] && IsSpace(s[|s| - 1]) {
      var t := s[..|s| - 1];
      TrimEndDropsSpace(t);
      assert s[|TrimEnd(s)|..] == t[|TrimEnd(t)|..] + [s[|s| - 1]];
    }
  }

  lemma TrimStartKeepsTrimmed(s: string)
    requires Trimmed(s)
    ensures TrimStart(s) == s
  {
    var t := TrimStart(s);
    TrimStartDropsSpace(s);
  }

  lemma TrimEndKeepsTrimmed(s: string)
    requires Trimmed(s)
    ensures TrimEnd(s) == s
  {
    var t := TrimEnd(s);
    TrimEndDropsSpace(s);
  }

  /** Trimming surrounding white space off a text without white space at its edges gives that text back. */
  lemma {:induction false} TrimPadded(front: string, core: string, back: string)
    requires AllSpace(front) && AllSpace(back) && Trimmed(core)
    ensures Trim(front + core + back) == core
  {
    var s := front + core + back;
    if core == [] {
      assert s == front + back;
      AllSpaceConcat(front, back);
    } else {
      assert s == front + (core + back) && (core + back)[0] == core[0];
      TrimStartPadded(front, core + back);
      TrimEndPadded(core, back);
    }
  }

  lemma AllSpaceConcat(a: string, b: string)
    requires AllSpace(a) && AllSpace(b)
    ensures AllSpace(a + b)
  {
    var s := a + b;
    forall i | 0 <= i < |s| ensures IsSpace(s[i]) {
      if i < |a| { assert s[i] == a[i]; } else { assert s[i] == b[i - |a|]; }
    }
  }

  lemma {:induction false} TrimStartPadded(front: string, rest: string)
    requires AllSpace(front) && (rest == [] || !IsSpace(rest[0]))
    ensures TrimStart(front + rest) == rest
  {
    if front != [] {
      assert (front + rest)[1..] == front[1..] + rest;
      TrimStartPadded(front[1..], rest);
    }
  }

  lemma {:induction false} TrimEndPadded(core: string, back: string)
    requires AllSpace(back) && (core == [] || !IsSpace(core[|core| - 1]))
    ensures TrimEnd(core + back) == core
  {
    if back != [] {
      var s := core + back;
      assert s[..|s| - 1] == core + back[..|back| - 1];
      TrimEndPadded(core, back[..|back| - 1]);
    } else {
      assert core + back == core;
    }
  }

  /** `s.indexOf(c)`, with `None` for -1. */
  function IndexOf(s: string, c: char): (r: Option<nat>)
    ensures r.None? <==> c !in s
    ensures r.Some? ==> r.value < |s| && s[r.value] == c && c !in s[..r.value]
  {
    if s == [] then None
    else if s[0] == c then Some(0)
    else
      var t := IndexOf(s[1..], c);
      assert s == [s[0]] + s[1..];
      if t.None? then None
      else
        assert s[..t.value + 1] == [s[0]] + s[1..][..t.value];
        Some(t.value + 1)
  }

  /** The first index of `c` in a text that starts with a prefix not containing `c`. */
  lemma {:induction false} IndexOfAfterPrefix(prefix: string, c: char, rest: string)
    requires c !in prefix && c in rest
    ensures IndexOf(prefix + rest, c) == Some(|prefix| + IndexOf(rest, c).value)
  {
    var s := prefix + rest;
    var j := IndexOf(rest, c).value;
    var k := |prefix| + j;
    assert s[k] == c;
    assert s[..k] == prefix + rest[..j];
    assert c !in s[..k];
    assert forall i :: 0 <= i < k ==> s[i] != c by {
      forall i | 0 <= i < k ensures s[i] != c { assert s[i] == s[..k][i]; }
    }
  }

  /** `s.split(c)[0]`: the text before the first `c`, or all of it. */
  function BeforeFirst(s: string, c: char): (r: string)
    ensures |r| <= |s| && r == s[..|r|] && c !in r
    ensures |r| < |s| ==> s[|r|] == c
  {
    match IndexOf(s, c)
    case None => s
    case Some(i) => s[..i]
  }

  /** `s.split(c)` with a one-character separator. */
  function Split(s: string, c: char): (parts: seq<string>)
    ensures |parts| >= 1 && parts[0] == BeforeFirst(s, c)
    ensures forall i :: 0 <= i < |parts| ==> c !in parts[i]
    decreases |s|
  {
    match IndexOf(s, c)
    case None => [s]
    case Some(i) => [s[..i]] + Split(s[i + 1..], c)
  }

  /** The text before the first `c` of `a` + `c` + `b`, when `a` has no `c`, is `a`. */
  lemma BeforeSeparator(a: string, c: char, b: string)
    requires c !in a
    ensures BeforeFirst(a + [c] + b, c) == a
  {
    var s := a + [c] + b;
    assert s[|a|] == c && s[..|a|] == a;
  }

  /** Splitting at the first separator. */
  lemma SplitAt(a: string, c: char, b: string)
    requires c !in a
    ensures Split(a + [c] + b, c) == [a] + Split(b, c)
  {
    var s := a + [c] + b;
    assert s[|a|] == c && s[..|a|] == a && s[|a| + 1..] == b;
    assert IndexOf(s, c) == Some(|a|);
  }

  function StartsWith(s: string, prefix: string): bool {
    |prefix| <= |s| && s[..|prefix|] == prefix
  }

  function EndsWith(s: string, c: char): bool {
    |s| > 0 && s[|s| - 1] == c
  }

  /** `s.includes(sub)`. */
  function Contains(s: string, sub: string): (b: bool)
    ensures b <==> exists i :: 0 <= i <= |s| - |sub| && StartsWith(s[i..], sub)
    decreases |s|
  {
    ContainsShift(s, sub);
    if StartsWith(s, sub) then true
    else if s == [] then false
    else Contains(s[1..], sub)
  }

  lemma ContainsShift(s: string, sub: string)
    ensures StartsWith(s, sub) ==> StartsWith(s[0..], sub)
    ensures s != [] && !StartsWith(s, sub) ==>
      ((exists i :: 0 <= i <= |s| - |sub| && StartsWith(s[i..], sub)) <==>
       (exists i :: 0 <= i <= |s[1..]| - |sub| && StartsWith(s[1..][i..], sub)))
  {
    assert s[0..] == s;
    if s != [] && !StartsWith(s, sub) {
      forall i | 1 <= i <= |s| ensures s[1..][i - 1..] == s[i..] { }
      if exists i :: 0 <= i <= |s| - |sub| && StartsWith(s[i..], sub) {
        var i :| 0 <= i <= |s| - |sub| && StartsWith(s[i..], sub);
        assert i > 0;
        assert StartsWith(s[1..][i - 1..], sub);
      }
    }
  }

  /** `s.replace(/a/g, b)` for one-character `a` and `b`. */
  function ReplaceAll(s: string, a: char, b: char): (r: string)
    ensures |r| == |s|
    ensures forall i :: 0 <= i < |s| ==> r[i] == (if s[i] == a then b else s[i])
  {
    if s == [] then [] else [if s[0] == a then b else s[0]] + ReplaceAll(s[1..], a, b)
  }

  /** `xs.join(sep)`. */
  function Join(xs: seq<string>, sep: string): string {
    if xs == [] then ""
    else if |xs| == 1 then xs[0]
    else xs[0] + sep + Join(xs[1..], sep)
  }

  function Digit(d: nat): (c: char)
    requires d < 10
    ensures '0' <= c <= '9'
  {
    "0123456789"[d]
  }

  /** Decimal rendering of a natural number, as `String(n)` gives for safe integers. */
  function NatText(n: nat): (r: string)
    ensures |r| >= 1
    ensures forall i :: 0 <= i < |r| ==> '0' <= r[i] <= '9'
    ensures n < 10 ==> r == [Digit(n)]
  {
    if n < 10 then [Digit(n)] else NatText(n / 10) + [Digit(n % 10)]
  }

  /** Decimal rendering of an integer, with a leading `-` when negative. */
  function IntText(n: int): (r: string)
    ensures |r| >= 1
    ensures n >= 0 <==> r[0] != '-'
  {
    if n < 0 then "-" + NatText(-n) else NatText(n)
  }
}
