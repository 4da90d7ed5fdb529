/** String helpers standing in for the JavaScript string methods the application
    uses (`startsWith`, `endsWith`, `includes`), JavaScript truthiness of an
    optional string, and the decimal rendering of a numeric record id. */
module Strings {
  import opened Wrappers

  predicate StartsWith(s: string, prefix: string) {
    |prefix| <= |s| && s[..|prefix|] == prefix
  }

  predicate EndsWith(s: string, suffix: string) {
    |suffix| <= |s| && s[|s| - |suffix|..] == suffix
  }

  /** `s.includes(t)`, which is also what an ORM `contains` filter tests. */
  predicate Contains(s: string, t: string) {
    exists i | 0 <= i <= |s| - |t| :: OccursAt(s, t, i)
  }

  predicate OccursAt(s: string, t: string, i: int) {
    0 <= i && i + |t| <= |s| && s[i..i + |t|] == t
  }

  /** A JavaScript value `v` taken as a condition (`if (v)`): an absent value and
      the empty string are false. */
  predicate Truthy(v: Option<string>) {
    v.Some? && v.value != ""
  }

  lemma StartsWithAppend(a: string, b: string)
    ensures StartsWith(a + b, a)
  {
    assert (a + b)[..|a|] == a;
  }

  lemma EndsWithAppend(a: string, b: string)
    ensures EndsWith(a + b, b)
  {
    assert (a + b)[|a + b| - |b|..] == b;
  }

  lemma StartsWithTransitive(s: string, p: string, q: string)
    requires StartsWith(s, p) && StartsWith(p, q)
    ensures StartsWith(s, q)
  {
    assert s[..|q|] == s[..|p|][..|q|];
  }

  predicate IsDigit(c: char) {
    '0' <= c <= '9'
  }

  function DigitChar(d: nat): (c: char)
    requires d < 10
    ensures IsDigit(c) && c as int - '0' as int == d
  {
    ('0' as int + d) as char
  }

  function DigitValue(c: char): (d: nat)
    requires IsDigit(c)
    ensures d < 10 && DigitChar(d) == c
  {
    c as int - '0' as int
  }

  /** The decimal text of a record id, as string interpolation prints it. */
  function NatToDecimal(n: nat): (s: string)
    ensures |s| > 0
    ensures forall i | 0 <= i < |s| :: IsDigit(s[i])
    decreases n
  {
    if n < 10 then [DigitChar(n)] else NatToDecimal(n / 10) + [DigitChar(n % 10)]
  }

  /** The value of a non-empty string of decimal digits. */
  function DecimalValue(s: string): nat
    requires forall i | 0 <= i < |s| :: IsDigit(s[i])
    decreases |s|
  {
    if s == [] then 0
    else DecimalValue(s[..|s| - 1]) * 10 + DigitValue(s[|s| - 1])
  }

  /** Reading an id back from its decimal text; `None` for anything that is not
      the printed form of some id. */
  function ParseId(s: string): (r: Option<nat>)
    ensures r.Some? ==> NatToDecimal(r.value) == s
  {
    if s != [] && (forall i | 0 <= i < |s| :: IsDigit(s[i])) && NatToDecimal(DecimalValue(s)) == s
    then Some(DecimalValue(s))
    else None
  }

  lemma {:induction false} DecimalRoundTrip(n: nat)
    ensures DecimalValue(NatToDecimal(n)) == n
    decreases n
  {
    if n >= 10 {
      var s := NatToDecimal(n);
      assert s[..|s| - 1] == NatToDecimal(n / 10);
      DecimalRoundTrip(n / 10);
    }
  }

  /** Printing and parsing ids are inverse: every id is read back as itself. */
  lemma ParseIdRoundTrip(n: nat)
    ensures ParseId(NatToDecimal(n)) == Some(n)
  {
    DecimalRoundTrip(n);
  }

  /** The characters JavaScript counts as white space or line terminators: what
      `\s` matches in a regular expression and what `parseInt` skips. */
  predicate IsJsSpace(c: char) {
    c in {'\t', '\n', '\U{000B}', '\U{000C}', '\r', ' ', '\U{00A0}', '\U{1680}', '\U{2028}', '\U{2029}',
          '\U{202F}', '\U{205F}', '\U{3000}', '\U{FEFF}'}
    || '\U{2000}' <= c <= '\U{200A}'
  }

  /** The number of leading characters of `s` that satisfy `IsJsSpace`. */
  function LeadingSpace(s: string): (n: nat)
    ensures n <= |s|
    ensures forall i | 0 <= i < n :: IsJsSpace(s[i])
    ensures n < |s| ==> !IsJsSpace(s[n])
    decreases |s|
  {
    if s != [] && IsJsSpace(s[0]) then 1 + LeadingSpace(s[1..]) else 0
  }

  /** The number of leading decimal digits of `s`. */
  function DigitPrefix(s: string): (n: nat)
    ensures n <= |s|
    ensures forall i | 0 <= i < n :: IsDigit(s[i])
    ensures n < |s| ==> !IsDigit(s[n])
    decreases |s|
  {
    if s != [] && IsDigit(s[0]) then 1 + DigitPrefix(s[1..]) else 0
  }

  /** `parseInt(s)` with the default radix, for decimal text: leading white
      space is skipped, a sign is read, and then as many digits as follow;
      `None` stands for `NaN`, when there is no digit. */
  function ParseInt(s: string): (r: Option<int>)
    ensures r.Some? <==> exists k | 0 <= k < |s| :: IsDigit(s[k]) && JsNumberStart(s, k)
  {
    var t := s[LeadingSpace(s)..];
    var negative := |t| > 0 && t[0] == '-';
    var rest := if |t| > 0 && (t[0] == '-' || t[0] == '+') then t[1..] else t;
    var n := DigitPrefix(rest);
    if n == 0 then None
    else
      var v: int := DecimalValue(rest[..n]);
      Some(if negative then -v else v)
  }

  /** Position `k` is where the digits of `parseInt` begin: after the leading
      white space and at most one sign. */
  predicate JsNumberStart(s: string, k: int) {
    var w := LeadingSpace(s);
    k == w || (k == w + 1 && w < |s| && (s[w] == '-' || s[w] == '+'))
  }

  lemma DigitPrefixOfDigits(s: string)
    requires forall i | 0 <= i < |s| :: IsDigit(s[i])
    ensures DigitPrefix(s) == |s|
  {
  }

  /** `parseInt` reads the decimal text of a number back as that number. */
  lemma ParseIntDecimal(n: nat)
    ensures ParseInt(NatToDecimal(n)) == Some(n)
  {
    var s := NatToDecimal(n);
    assert !IsJsSpace(s[0]);
    assert LeadingSpace(s) == 0;
    assert s[0..] == s;
    DigitPrefixOfDigits(s);
    assert s[..|s|] == s;
    DecimalRoundTrip(n);
  }
}
