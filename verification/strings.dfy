/**
  The few JavaScript string operations the service relies on: `includes`,
  `startsWith`, `endsWith`, `replace` with a string pattern, `join`, `trim`,
  the `\s` character class, and the decimal rendering of integers inside
  template literals. Strings are sequences of characters.
 */
module Strings {
  import opened Wrappers

  /** `pat` occurs in `s` starting at index `i`. */
  predicate OccursAt(s: string, pat: string, i: nat) {
    i + |pat| <= |s| && s[i..i + |pat|] == pat
  }

  /** JavaScript `s.indexOf(pat, from)`: the first occurrence at or after `from`. */
  function IndexOf(s: string, pat: string, from: nat): (r: Option<nat>)
    ensures r.Some? ==> from <= r.value && OccursAt(s, pat, r.value)
    ensures r.Some? ==> forall j :: from <= j < r.value ==> !OccursAt(s, pat, j)
    ensures r.None? ==> forall j :: from <= j ==> !OccursAt(s, pat, j)
    decreases |s| - from
  {
    if from + |pat| > |s| then None
    else if s[from..from + |pat|] == pat then Some(from)
    else IndexOf(s, pat, from + 1)
  }

  /** JavaScript `s.includes(pat)`. */
  predicate Contains(s: string, pat: string) {
    IndexOf(s, pat, 0).Some?
  }

  /** An occurrence anywhere makes `includes` true, and only an occurrence does. */
  lemma ContainsIff(s: string, pat: string)
    ensures Contains(s, pat) <==> exists i: nat :: OccursAt(s, pat, i)
  {
  }

  /** Text that contains `pat` still contains it after something is put in front of it. */
  lemma ContainsAfterPrefix(p: string, s: string, pat: string)
    requires Contains(s, pat)
    ensures Contains(p + s, pat)
  {
    var i := IndexOf(s, pat, 0).value;
    assert (p + s)[|p| + i..|p| + i + |pat|] == s[i..i + |pat|];
    assert OccursAt(p + s, pat, |p| + i);
  }

  /** Text whose tail contains `pat` still contains it after something is put in front of it. */
  lemma ContainsWhenPrefixed(p: string, s: string, pat: string)
    requires Contains(p, pat)
    ensures Contains(p + s, pat)
  {
    var i := IndexOf(p, pat, 0).value;
    assert (p + s)[i..i + |pat|] == p[i..i + |pat|];
    assert OccursAt(p + s, pat, i);
  }

  /** JavaScript `s.startsWith(p)`. */
  predicate StartsWith(s: string, p: string) {
    |p| <= |s| && s[..|p|] == p
  }

  /** JavaScript `s.endsWith(p)`. */
  predicate EndsWith(s: string, p: string) {
    |p| <= |s| && s[|s| - |p|..] == p
  }

  /** JavaScript `s.replace(pat, rep)` with a plain string pattern: only the first occurrence is replaced. */
  function ReplaceFirst(s: string, pat: string, rep: string): (r: string)
    ensures IndexOf(s, pat, 0).None? ==> r == s
    ensures IndexOf(s, pat, 0).Some? ==>
      var i := IndexOf(s, pat, 0).value; r == s[..i] + rep + s[i + |pat|..]
  {
    match IndexOf(s, pat, 0)
    case None => s
    case Some(i) => s[..i] + rep + s[i + |pat|..]
  }

  /** JavaScript `xs.join(sep)`. */
  function Join(xs: seq<string>, sep: string): string {
    if |xs| == 0 then ""
    else if |xs| == 1 then xs[0]
    else xs[0] + sep + Join(xs[1..], sep)
  }

  /**
    The characters JavaScript's `\s` and `String.prototype.trim` treat as white
    space: the WhiteSpace and LineTerminator code points of ECMA-262.
   */
  predicate IsJsWhitespace(c: char) {
    var n := c as int;
    n == 0x09 || n == 0x0A || n == 0x0B || n == 0x0C || n == 0x0D || n == 0x20
    || n == 0xA0 || n == 0x1680 || (0x2000 <= n <= 0x200A) || n == 0x2028 || n == 0x2029
    || n == 0x202F || n == 0x205F || n == 0x3000 || n == 0xFEFF
  }

  /** The first index at or after `from` that is not white space (`|s|` when there is none): what `\s*` consumes greedily. */
  function SkipWhitespace(s: string, from: nat): (r: nat)
    requires from <= |s|
    ensures from <= r <= |s|
    ensures forall j :: from <= j < r ==> IsJsWhitespace(s[j])
    ensures r < |s| ==> !IsJsWhitespace(s[r])
    decreases |s| - from
  {
    if from == |s| || !IsJsWhitespace(s[from]) then from else SkipWhitespace(s, from + 1)
  }

  /** The end of `s` once trailing white space is dropped. */
  function TrimEndIndex(s: string, to: nat): (r: nat)
    requires to <= |s|
    ensures r <= to
    ensures forall j :: r <= j < to ==> IsJsWhitespace(s[j])
    ensures r > 0 ==> !IsJsWhitespace(s[r - 1])
  {
    if to == 0 || !IsJsWhitespace(s[to - 1]) then to else TrimEndIndex(s, to - 1)
  }

  /** JavaScript `s.trim()`: white space removed from both ends. */
  function Trim(s: string): (r: string)
    ensures |r| <= |s|
    ensures r != [] ==> !IsJsWhitespace(r[0]) && !IsJsWhitespace(r[|r| - 1])
    ensures s != [] && !IsJsWhitespace(s[0]) ==> r != [] && r[0] == s[0]
  {
    var b := SkipWhitespace(s, 0);
    var e := TrimEndIndex(s, |s|);
    if b < e then s[b..e] else ""
  }

  /** The decimal digit for `d`. */
  function DigitChar(d: nat): (c: char)
    requires d < 10
    ensures c as int == '0' as int + d
  {
    ('0' as int + d) as char
  }

  /** The decimal rendering of a natural number, as a template literal writes it. */
  function NatToString(n: nat): (r: string)
    ensures |r| >= 1
    ensures forall i :: 0 <= i < |r| ==> '0' as int <= r[i] as int <= '9' as int
  {
    if n < 10 then [DigitChar(n)] else NatToString(n / 10) + [DigitChar(n % 10)]
  }

  /** The decimal rendering of an integer, with a leading '-' when it is negative. */
  function IntToString(n: int): (r: string)
    ensures |r| >= 1
    ensures (r[0] == '-') == (n < 0)
  {
    if n < 0 then "-" + NatToString(-n) else NatToString(n)
  }
}
