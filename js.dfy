/**
 * The JavaScript string built-ins the core relies on, with their ECMAScript meaning:
 * `String.prototype.trim`, `indexOf`/`lastIndexOf` of one character, a substring test,
 * and the decimal text of a non-negative integer (template literals such as `${status}`).
 */
module Js {

  import opened Common

  /** WhiteSpace and LineTerminator code points, the set `String.prototype.trim` strips. */
  predicate IsWhitespace(c: char) {
    c == '\t' || c == '\n' || c == '\U{B}' || c == '\U{C}' || c == '\r' || c == ' '
    || c == '\U{A0}' || c == '\U{1680}' || ('\U{2000}' <= c <= '\U{200A}')
    || c == '\U{2028}' || c == '\U{2029}' || c == '\U{202F}' || c == '\U{205F}'
    || c == '\U{3000}' || c == '\U{FEFF}'
  }

  function TrimStart(s: string): (r: string)
    ensures |r| <= |s| && r == s[|s| - |r|..]
    ensures r == [] || !IsWhitespace(r[0])
    ensures forall i :: 0 <= i < |s| - |r| ==> IsWhitespace(s[i])
  {
    if s != [] && IsWhitespace(s[0]) then TrimStart(s[1..]) else s
  }

  function TrimEnd(s: string): (r: string)
    ensures |r| <= |s| && r == s[..|r|]
    ensures r == [] || !IsWhitespace(r[|r| - 1])
    ensures forall i :: |r| <= i < |s| ==> IsWhitespace(s[i])
  {
    if s != [] && IsWhitespace(s[|s| - 1]) then TrimEnd(s[..|s| - 1]) else s
  }

  /** `s.trim()`: drops the leading and the trailing whitespace, nothing else. */
  function Trim(s: string): (r: string)
    ensures |r| <= |s|
    ensures r == [] || (!IsWhitespace(r[0]) && !IsWhitespace(r[|r| - 1]))
  {
    TrimEnd(TrimStart(s))
  }

  /** What `trim` keeps is one contiguous slice of its input, and only whitespace lies outside it. */
  lemma TrimIsSlice(s: string)
    ensures exists a, b :: 0 <= a <= b <= |s| && Trim(s) == s[a..b] && WhitespaceOutside(s, a, b)
  {
    var t := TrimStart(s);
    var a := |s| - |t|;
    var u := TrimEnd(t);
    var b := a + |u|;
    assert Trim(s) == u == t[..|u|] && t == s[a..];
    SliceOfSuffix(s, a, |u|);
    assert Trim(s) == s[a..b];
    TrimEndOfSuffixWhitespace(s, t, u, a);
  }

  lemma SliceOfSuffix(s: string, a: nat, n: nat)
    requires a + n <= |s|
    ensures s[a..][..n] == s[a..a + n]
  {
  }

  lemma TrimEndOfSuffixWhitespace(s: string, t: string, u: string, a: nat)
    requires a <= |s| && t == s[a..] && t == TrimStart(s) && u == TrimEnd(t)
    ensures a + |u| <= |s| && WhitespaceOutside(s, a, a + |u|)
  {
    assert forall i :: a + |u| <= i < |s| ==> s[i] == t[i - a];
  }

  /** Only whitespace lies before position `a` and from position `b` on. */
  predicate WhitespaceOutside(s: string, a: nat, b: nat)
    requires a <= b <= |s|
  {
    && (forall i :: 0 <= i < a ==> IsWhitespace(s[i]))
    && (forall i :: b <= i < |s| ==> IsWhitespace(s[i]))
  }

  /** A string with no whitespace at either end is its own trim. */
  lemma TrimUnchanged(s: string)
    requires s == [] || (!IsWhitespace(s[0]) && !IsWhitespace(s[|s| - 1]))
    ensures Trim(s) == s
  {
  }

  /** Trailing whitespace after a last non-whitespace character is exactly what `trimEnd` drops. */
  lemma TrimEndDropsWhitespaceSuffix(x: string, w: string)
    requires x != [] && !IsWhitespace(x[|x| - 1])
    requires forall i :: 0 <= i < |w| ==> IsWhitespace(w[i])
    ensures TrimEnd(x + w) == x
  {
    assert forall i :: |x| <= i < |x| + |w| ==> (x + w)[i] == w[i - |x|];
    assert (x + w)[|x| - 1] == x[|x| - 1];
    assert (x + w)[..|x|] == x;
  }

  /** `trimEnd` keeps exactly the prefix that ends in a visible character (or is empty) and has only
      whitespace after it: no other prefix has both properties. */
  lemma TrimEndUnique(s: string, u: string)
    requires |u| <= |s| && u == s[..|u|]
    requires u == [] || !IsWhitespace(u[|u| - 1])
    requires forall i :: |u| <= i < |s| ==> IsWhitespace(s[i])
    ensures TrimEnd(s) == u
  {
  }

  /** Whitespace appended to a text does not change what `trimEnd` keeps of it. */
  lemma TrimEndIgnoresWhitespaceSuffix(x: string, w: string)
    requires forall i :: 0 <= i < |w| ==> IsWhitespace(w[i])
    ensures TrimEnd(x + w) == TrimEnd(x)
  {
    var u := TrimEnd(x);
    assert (x + w)[..|u|] == u;
    assert forall i :: |u| <= i < |x| ==> (x + w)[i] == x[i];
    assert forall i :: |x| <= i < |x| + |w| ==> (x + w)[i] == w[i - |x|];
    TrimEndUnique(x + w, u);
  }

  /** Trimming twice is trimming once. */
  lemma TrimIdempotent(s: string)
    ensures Trim(Trim(s)) == Trim(s)
  {
    TrimUnchanged(Trim(s));
  }

  predicate IsDigit(c: char) {
    '0' <= c <= '9'
  }

  predicate AllDigits(s: string) {
    forall i :: 0 <= i < |s| ==> IsDigit(s[i])
  }

  function DigitChar(d: nat): (c: char)
    requires d < 10
    ensures IsDigit(c) && (c as int) - ('0' as int) == d
  {
    (('0' as int) + d) as char
  }

  /** The decimal text of a non-negative integer, as `String(n)` writes it. */
  function NatToString(n: nat): (s: string)
    ensures |s| >= 1 && AllDigits(s)
    ensures s[0] == '0' ==> n == 0
  {
    if n < 10 then [DigitChar(n)] else NatToString(n / 10) + [DigitChar(n % 10)]
  }

  /** The value of a string of decimal digits. */
  function DecimalValue(s: string): nat
    requires AllDigits(s)
  {
    if s == [] then 0 else 10 * DecimalValue(s[..|s| - 1]) + ((s[|s| - 1] as int) - ('0' as int))
  }

  /** Reading back the decimal text of `n` gives `n`: the rendering loses nothing. */
  lemma {:induction false} DecimalRoundTrip(n: nat)
    ensures DecimalValue(NatToString(n)) == n
  {
    var s := NatToString(n);
    if n >= 10 {
      DecimalRoundTrip(n / 10);
      assert s[..|s| - 1] == NatToString(n / 10);
    }
  }

  /** Distinct numbers have distinct decimal texts. */
  lemma NatToStringInjective(m: nat, n: nat)
    requires NatToString(m) == NatToString(n)
    ensures m == n
  {
    DecimalRoundTrip(m);
    DecimalRoundTrip(n);
  }

  /** `s.indexOf(c)`, with `None` for -1. */
  function IndexOf(s: string, c: char): (r: Option<nat>)
    ensures r.None? <==> c !in s
    ensures r.Some? ==> r.value < |s| && s[r.value] == c && c !in s[..r.value]
  {
    if s == [] then None
    else if s[0] == c then Some(0)
    else
      match IndexOf(s[1..], c)
      case None => assert s == [s[0]] + s[1..]; None
      case Some(k) => assert s[..k + 1] == [s[0]] + s[1..][..k]; Some(k + 1)
  }

  /** `indexOf` reports the first occurrence: a position holding `c` with no `c` before it. */
  lemma IndexOfFirst(s: string, c: char, k: nat)
    requires k < |s| && s[k] == c && c !in s[..k]
    ensures IndexOf(s, c) == Some(k)
  {
    assert s[k] in s;
    var r := IndexOf(s, c).value;
    assert forall j :: 0 <= j < r ==> s[..r][j] == s[j];
    assert forall j :: 0 <= j < k ==> s[..k][j] == s[j];
  }

  /** Any occurrence of `c` bounds the position `indexOf` reports from above. */
  lemma IndexOfAtMost(s: string, c: char, k: nat)
    requires k < |s| && s[k] == c
    ensures IndexOf(s, c).Some? && IndexOf(s, c).value <= k
  {
    assert s[k] in s;
    var r := IndexOf(s, c).value;
    assert forall m :: 0 <= m < r ==> s[..r][m] == s[m];
  }

  /** `s.lastIndexOf(c)`, with `None` for -1. */
  function LastIndexOf(s: string, c: char): (r: Option<nat>)
    ensures r.None? <==> c !in s
    ensures r.Some? ==> r.value < |s| && s[r.value] == c && c !in s[r.value + 1..]
  {
    if s == [] then None
    else if s[|s| - 1] == c then Some(|s| - 1)
    else
      assert s == s[..|s| - 1] + [s[|s| - 1]];
      LastIndexOf(s[..|s| - 1], c)
  }

  /** `text.startsWith(pat, i)`: `pat` occurs in `text` at position `i`. */
  predicate OccursAt(text: string, pat: string, i: nat) {
    i + |pat| <= |text| && text[i..i + |pat|] == pat
  }

  /** Any occurrence of `c` bounds the position `lastIndexOf` reports from below. */
  lemma LastIndexOfAtLeast(s: string, c: char, k: nat)
    requires k < |s| && s[k] == c
    ensures LastIndexOf(s, c).Some? && LastIndexOf(s, c).value >= k
  {
    assert s[k] in s;
    var r := LastIndexOf(s, c).value;
    assert forall m :: r < m < |s| ==> s[r + 1..][m - r - 1] == s[m];
  }
}
