/** The rules the login and registration forms check their fields against.
    Each rule is written twice: as the set of strings its regular expression
    matches (a ghost predicate that follows the pattern's structure) and as a
    plain check on the string, and a lemma shows the two agree. */
module Validators {
  import opened JsText

  const USERNAME_ERROR := "Username must be 3-15 alphanumeric characters."
  const EMAIL_ERROR := "Invalid email format."
  const PASSWORD_ERROR := "Password must be at least 8 characters and include uppercase, lowercase, number, and symbol."

  // ---------------------------------------------------------------------------
  // E-mail: /^[^\s@]+@[^\s@]+\.[^\s@]+$/

  /** `[^\s@]`. */
  predicate EmailChar(c: char) { c != '@' && !IsJsWhitespace(c) }

  /** The pattern matches with its `@` at `i` and its `\.` at `j`: three
      non-empty runs of `[^\s@]` around them. A `.` is itself in `[^\s@]`, so
      the runs may hold more dots. */
  ghost predicate EmailMatchAt(s: string, i: int, j: int) {
    0 < i && i + 1 < j < |s| - 1 && s[i] == '@' && s[j] == '.' &&
    forall k :: 0 <= k < |s| && k != i ==> EmailChar(s[k])
  }

  ghost predicate EmailPattern(s: string) {
    exists i, j :: EmailMatchAt(s, i, j)
  }

  predicate NoWhitespace(s: string) {
    forall k :: 0 <= k < |s| ==> !IsJsWhitespace(s[k])
  }

  /** A dot somewhere other than the first or last place. */
  predicate HasInnerDot(d: string) {
    |d| >= 3 && '.' in d[1..|d| - 1]
  }

  /** The e-mail check: exactly one `@`, something before it, no whitespace, and
      a dot strictly inside the part after it. */
  predicate IsValidEmail(s: string) {
    var parts := Split(s, '@');
    |parts| == 2 && |parts[0]| > 0 && NoWhitespace(s) && HasInnerDot(parts[1])
  }

  lemma EmailRule(s: string)
    ensures IsValidEmail(s) <==> EmailPattern(s)
  {
    if IsValidEmail(s) {
      ValidEmailMatches(s);
    }
    if EmailPattern(s) {
      var i, j :| EmailMatchAt(s, i, j);
      MatchIsValidEmail(s, i, j);
    }
  }

  lemma ValidEmailMatches(s: string)
    requires IsValidEmail(s)
    ensures EmailPattern(s)
  {
    var parts := Split(s, '@');
    SplitJoin(s, '@');
    var local, domain := parts[0], parts[1];
    assert parts[1..] == [domain];
    assert s == local + ['@'] + domain;
    var k' :| 0 <= k' < |domain| - 2 && domain[1..|domain| - 1][k'] == '.';
    var i, j := |local|, |local| + 2 + k';
    assert s[j] == domain[k' + 1];
    forall k | 0 <= k < |s| && k != i
      ensures EmailChar(s[k])
    {
      if k < i {
        assert s[k] == local[k];
      } else {
        assert s[k] == domain[k - i - 1];
      }
    }
    assert EmailMatchAt(s, i, j);
  }

  lemma MatchIsValidEmail(s: string, i: int, j: int)
    requires EmailMatchAt(s, i, j)
    ensures IsValidEmail(s)
  {
    var local, domain := s[..i], s[i + 1..];
    assert s == local + ['@'] + domain;
    assert '@' !in local by {
      forall k | 0 <= k < |local| ensures local[k] != '@' { assert local[k] == s[k]; }
    }
    assert '@' !in domain by {
      forall k | 0 <= k < |domain| ensures domain[k] != '@' { assert domain[k] == s[i + 1 + k]; }
    }
    SplitAtFirst(local, domain, '@');
    SplitNoSeparator(domain, '@');
    assert domain[1..|domain| - 1][j - i - 2] == s[j];
  }

  // ---------------------------------------------------------------------------
  // Password:
  // /^(?=.*[a-z])(?=.*[A-Z])(?=.*\d)(?=.*[@$!%*?&#^()_+=-])[A-Za-z\d@$!%*?&#^()_+=-]{8,}$/

  /** The four classes the lookaheads ask for. */
  datatype Requirement = Lower | Upper | Digit | Symbol

  /** `[@$!%*?&#^()_+=-]`: inside the class `^` is not first and `-` is last, so
      both are literal. */
  predicate IsPasswordSymbol(c: char) { c in "@$!%*?&#^()_+=-" }

  predicate Meets(c: char, req: Requirement) {
    match req
    case Lower => 'a' <= c <= 'z'
    case Upper => 'A' <= c <= 'Z'
    case Digit => IsDecimalDigit(c)
    case Symbol => IsPasswordSymbol(c)
  }

  /** `[A-Za-z\d@$!%*?&#^()_+=-]`. */
  predicate IsPasswordChar(c: char) {
    Meets(c, Lower) || Meets(c, Upper) || Meets(c, Digit) || Meets(c, Symbol)
  }

  /** `(?=.*X)` at the start: some character of class X is reached across
      characters that `.` matches, i.e. before any line terminator. */
  ghost predicate LookaheadFinds(p: string, req: Requirement) {
    exists k :: 0 <= k < |p| && Meets(p[k], req) && forall m :: 0 <= m < k ==> !IsLineTerminator(p[m])
  }

  ghost predicate PasswordPattern(p: string) {
    LookaheadFinds(p, Lower) && LookaheadFinds(p, Upper) &&
    LookaheadFinds(p, Digit) && LookaheadFinds(p, Symbol) &&
    |p| >= 8 && forall k :: 0 <= k < |p| ==> IsPasswordChar(p[k])
  }

  /** Whether some character meets the requirement, scanning from the front. */
  predicate Has(p: string, req: Requirement) {
    |p| > 0 && (Meets(p[0], req) || Has(p[1..], req))
  }

  lemma {:induction false} HasIff(p: string, req: Requirement)
    ensures Has(p, req) <==> exists k :: 0 <= k < |p| && Meets(p[k], req)
  {
    if |p| > 0 {
      HasIff(p[1..], req);
      if exists k :: 0 <= k < |p| && Meets(p[k], req) {
        var k :| 0 <= k < |p| && Meets(p[k], req);
        if k > 0 {
          assert p[1..][k - 1] == p[k];
        }
      }
      if Has(p[1..], req) {
        var k :| 0 <= k < |p[1..]| && Meets(p[1..][k], req);
        assert p[k + 1] == p[1..][k];
      }
    }
  }

  /** The password check: long enough, only allowed characters, and one of
      each of the four kinds. */
  predicate IsValidPassword(p: string) {
    |p| >= 8 && (forall k :: 0 <= k < |p| ==> IsPasswordChar(p[k])) &&
    Has(p, Lower) && Has(p, Upper) && Has(p, Digit) && Has(p, Symbol)
  }

  /** No allowed character ends a line, so the lookaheads only ask for one
      character of each kind anywhere. */
  lemma PasswordCharNotLineTerminator(c: char)
    requires IsPasswordChar(c)
    ensures !IsLineTerminator(c)
  {
  }

  lemma LookaheadOverAllowed(p: string, req: Requirement)
    requires forall k :: 0 <= k < |p| ==> IsPasswordChar(p[k])
    ensures LookaheadFinds(p, req) <==> Has(p, req)
  {
    HasIff(p, req);
    if Has(p, req) {
      var k :| 0 <= k < |p| && Meets(p[k], req);
      forall m | 0 <= m < k ensures !IsLineTerminator(p[m]) {
        PasswordCharNotLineTerminator(p[m]);
      }
    }
  }

  lemma PasswordRule(p: string)
    ensures IsValidPassword(p) <==> PasswordPattern(p)
  {
    if forall k :: 0 <= k < |p| ==> IsPasswordChar(p[k]) {
      LookaheadOverAllowed(p, Lower);
      LookaheadOverAllowed(p, Upper);
      LookaheadOverAllowed(p, Digit);
      LookaheadOverAllowed(p, Symbol);
    }
  }

  // ---------------------------------------------------------------------------
  // User name: /^[a-zA-Z0-9]{3,15}$/

  predicate IsAsciiAlnum(c: char) {
    'a' <= c <= 'z' || 'A' <= c <= 'Z' || '0' <= c <= '9'
  }

  predicate IsValidUsername(u: string) {
    3 <= |u| <= 15 && forall k :: 0 <= k < |u| ==> IsAsciiAlnum(u[k])
  }
}
