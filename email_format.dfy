/** The email check `/^[^\s@]+@[^\s@]+\.[^\s@]+$/` shared by registration, the
    profile update route and the profile dialog. */
module EmailFormat {
  import opened Wrappers
  import opened Strings

  /** `[^\s@]`: neither whitespace nor `@`. */
  predicate IsPlain(c: char) {
    !IsJsSpace(c) && c != '@'
  }

  predicate AllPlain(s: string) {
    forall i | 0 <= i < |s| :: IsPlain(s[i])
  }

  /** What the pattern matches: a non-empty plain part, `@`, a non-empty plain
      part, `.`, a non-empty plain part. `p` is the position of the `@` and `k`
      that of the `.` the pattern's `\.` matched. */
  ghost predicate MatchesPattern(s: string) {
    exists p, k | 0 < p && p + 1 < k && k + 1 < |s| ::
      s[p] == '@' && s[k] == '.' && AllPlain(s[..p]) && AllPlain(s[p + 1..k]) && AllPlain(s[k + 1..])
  }

  /** The position of the first `@`. */
  function FirstAt(s: string): (r: Option<nat>)
    ensures r.Some? ==> r.value < |s| && s[r.value] == '@' && forall i | 0 <= i < r.value :: s[i] != '@'
    ensures r.None? ==> forall i | 0 <= i < |s| :: s[i] != '@'
    decreases |s|
  {
    if s == [] then None
    else if s[0] == '@' then Some(0)
    else match FirstAt(s[1..]) {
      case None => None
      case Some(p) => Some(p + 1)
    }
  }

  /** The check as the application runs it: one `@` after a non-empty local
      part, no whitespace, and a `.` that is neither the first nor the last
      character of the domain. */
  predicate IsValidEmail(s: string) {
    match FirstAt(s)
    case None => false
    case Some(p) =>
      var domain := s[p + 1..];
      p > 0 && AllPlain(s[..p]) && AllPlain(domain) && |domain| >= 3 && '.' in domain[1..|domain| - 1]
  }

  lemma AllPlainSlice(s: string, i: int, j: int)
    requires AllPlain(s) && 0 <= i <= j <= |s|
    ensures AllPlain(s[i..j])
  {
    assert forall m | 0 <= m < j - i :: s[i..j][m] == s[i + m];
  }

  lemma AllPlainJoin(a: string, b: string)
    requires AllPlain(a) && AllPlain(b)
    ensures AllPlain(a + ['.'] + b)
  {
    var d := a + ['.'] + b;
    forall m | 0 <= m < |d| ensures IsPlain(d[m]) {
      if m < |a| {
        assert d[m] == a[m];
      } else if m > |a| {
        assert d[m] == b[m - |a| - 1];
      }
    }
  }

  /** The check accepts exactly the strings the pattern matches. */
  lemma IsValidEmailMatchesPattern(s: string)
    ensures IsValidEmail(s) <==> MatchesPattern(s)
  {
    if IsValidEmail(s) {
      ValidEmailMatches(s);
    }
    if MatchesPattern(s) {
      var p, k :| 0 < p && p + 1 < k && k + 1 < |s| &&
        s[p] == '@' && s[k] == '.' && AllPlain(s[..p]) && AllPlain(s[p + 1..k]) && AllPlain(s[k + 1..]);
      PatternIsValid(s, p, k);
    }
  }

  lemma ValidEmailMatches(s: string)
    requires IsValidEmail(s)
    ensures MatchesPattern(s)
  {
    var p := FirstAt(s).value;
    var domain := s[p + 1..];
    var inner := domain[1..|domain| - 1];
    var m :| 0 <= m < |inner| && inner[m] == '.';
    var k := p + 2 + m;
    assert s[k] == '.';
    assert s[p + 1..k] == domain[..k - p - 1];
    AllPlainSlice(domain, 0, k - p - 1);
    assert s[k + 1..] == domain[k - p..];
    AllPlainSlice(domain, k - p, |domain|);
    assert 0 < p && p + 1 < k && k + 1 < |s| &&
      s[p] == '@' && s[k] == '.' && AllPlain(s[..p]) && AllPlain(s[p + 1..k]) && AllPlain(s[k + 1..]);
  }

  lemma PatternIsValid(s: string, p: int, k: int)
    requires 0 < p && p + 1 < k && k + 1 < |s|
    requires s[p] == '@' && s[k] == '.' && AllPlain(s[..p]) && AllPlain(s[p + 1..k]) && AllPlain(s[k + 1..])
    ensures IsValidEmail(s)
  {
    assert forall i | 0 <= i < p :: s[..p][i] == s[i];
    assert FirstAt(s) == Some(p);
    var domain := s[p + 1..];
    assert domain == s[p + 1..k] + ['.'] + s[k + 1..];
    AllPlainJoin(s[p + 1..k], s[k + 1..]);
    assert domain[1..|domain| - 1][k - p - 2] == '.';
  }

  /** Every accepted address has exactly one `@` and no whitespace. */
  lemma ValidEmailShape(s: string)
    requires IsValidEmail(s)
    ensures |s| >= 5
    ensures forall i | 0 <= i < |s| :: !IsJsSpace(s[i])
    ensures forall i, j | 0 <= i < |s| && 0 <= j < |s| && s[i] == '@' && s[j] == '@' :: i == j
  {
    var p := FirstAt(s).value;
    assert s == s[..p] + [s[p]] + s[p + 1..];
    forall i | 0 <= i < |s| && i != p ensures IsPlain(s[i]) {
      if i < p {
        assert s[..p][i] == s[i];
      } else {
        assert s[p + 1..][i - p - 1] == s[i];
      }
    }
  }
}
