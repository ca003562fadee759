/** The contact endpoint's e-mail shape test, the regular expression
    `^[^\s@]+@[^\s@]+\.[^\s@]+$` (app/api/contact/route.ts:23-24).

    `IsValidEmail` is the executable test the endpoint performs;
    `MatchesPattern` is the language of the regular expression, written
    as its three `[^\s@]+` runs around a literal `@` and `.`.
    `PatternAgreement` proves the two accept exactly the same strings.
    The shape is far weaker than the addr-spec grammar of section 3.4.1 of
    RFC 5322: quoted local parts, comments and domain literals are not
    recognised, and a local part such as `.` is accepted. */
module EmailFormat {
  import opened JsValues

  /** ECMAScript `\s`: the WhiteSpace and LineTerminator code points. */
  predicate IsSpace(c: char)
  {
    || c == '\t' || c == '\n' || c == '\U{B}' || c == '\U{C}' || c == '\r'
    || c == ' ' || c == '\U{A0}' || c == '\U{1680}'
    || ('\U{2000}' <= c <= '\U{200A}')
    || c == '\U{2028}' || c == '\U{2029}' || c == '\U{202F}' || c == '\U{205F}'
    || c == '\U{3000}' || c == '\U{FEFF}'
  }

  /** The character class `[^\s@]`. */
  predicate IsRunChar(c: char)
  {
    !IsSpace(c) && c != '@'
  }

  /** `[^\s@]+`: one or more characters of the class. */
  predicate IsRun(s: string)
  {
    |s| > 0 && forall k :: 0 <= k < |s| ==> IsRunChar(s[k])
  }

  predicate NoSpace(s: string)
  {
    forall k :: 0 <= k < |s| ==> !IsSpace(s[k])
  }

  /** `s` split at `i` (the `@`) and `j` (the `.`) into the regular
      expression's five parts. */
  ghost predicate SplitsAt(s: string, i: int, j: int)
  {
    && 0 <= i < j < |s|
    && IsRun(s[..i]) && s[i] == '@' && IsRun(s[i + 1..j]) && s[j] == '.' && IsRun(s[j + 1..])
  }

  /** The language of `^[^\s@]+@[^\s@]+\.[^\s@]+$`. */
  ghost predicate MatchesPattern(s: string)
  {
    exists i, j :: SplitsAt(s, i, j)
  }

  /** Position of the first occurrence of `c`, if any. */
  function IndexOf(s: string, c: char): (r: Option<nat>)
    ensures r.None? ==> c !in s
    ensures r.Some? ==> r.value < |s| && s[r.value] == c && c !in s[..r.value]
  {
    if |s| == 0 then None
    else if s[0] == c then Some(0)
    else
      match IndexOf(s[1..], c)
      case None => None
      case Some(k) =>
        assert s[..k + 1] == [s[0]] + s[1..][..k];
        Some(k + 1)
  }

  /** A `.` with at least one character on each side. */
  predicate HasInnerDot(d: string)
  {
    |d| >= 2 && '.' in d[1..|d| - 1]
  }

  /** The endpoint's test: no whitespace, a first `@` that is not the
      first character, no second `@`, and a dot inside the domain. */
  predicate IsValidEmail(s: string): (ok: bool)
    ensures ok ==> NoSpace(s) && '@' in s && |s| >= 5
  {
    && NoSpace(s)
    && match IndexOf(s, '@')
       case None => false
       case Some(a) => a > 0 && '@' !in s[a + 1..] && HasInnerDot(s[a + 1..])
  }

  lemma AcceptedMatches(s: string)
    requires IsValidEmail(s)
    ensures MatchesPattern(s)
  {
    var a := IndexOf(s, '@').value;
    var d := s[a + 1..];
    var m := d[1..|d| - 1];
    var k :| 0 <= k < |m| && m[k] == '.';
    var j := a + 2 + k;
    assert d[k + 1] == '.';
    forall p | 0 <= p < a
      ensures IsRunChar(s[..a][p])
    {
      assert s[..a][p] in s[..a];
    }
    var domain, tld := s[a + 1..j], s[j + 1..];
    assert domain == d[..k + 1];
    forall p | 0 <= p < |domain|
      ensures IsRunChar(domain[p])
    {
      assert d[p] in d;
    }
    assert tld == d[k + 2..];
    forall p | 0 <= p < |tld|
      ensures IsRunChar(tld[p])
    {
      assert d[k + 2 + p] in d;
    }
    assert SplitsAt(s, a, j);
  }

  lemma MatchAccepted(s: string, i: int, j: int)
    requires SplitsAt(s, i, j)
    ensures IsValidEmail(s)
  {
    forall k | 0 <= k < |s|
      ensures !IsSpace(s[k])
    {
      if k < i {
        assert s[k] == s[..i][k];
      } else if i < k < j {
        assert s[k] == s[i + 1..j][k - i - 1];
      } else if j < k {
        assert s[k] == s[j + 1..][k - j - 1];
      }
    }
    var r := IndexOf(s, '@');
    assert s[i] in s;
    var a := r.value;
    assert a == i;
    var d := s[i + 1..];
    assert d[j - i - 1] == '.';
    assert d[1..|d| - 1][j - i - 2] == '.';
    forall p | 0 <= p < |d|
      ensures d[p] != '@'
    {
      if i + 1 + p < j {
        assert d[p] == s[i + 1..j][p];
      } else if i + 1 + p > j {
        assert d[p] == s[j + 1..][p - (j - i)];
      }
    }
  }

  /** The endpoint's test accepts exactly the strings of the regular
      expression's language. */
  lemma PatternAgreement(s: string)
    ensures IsValidEmail(s) <==> MatchesPattern(s)
  {
    if IsValidEmail(s) {
      AcceptedMatches(s);
    }
    if MatchesPattern(s) {
      var i, j :| SplitsAt(s, i, j);
      MatchAccepted(s, i, j);
    }
  }

  /** An accepted address has no whitespace, exactly one `@`, a non-empty
      part before it, and a dot with a character on each side after it. */
  lemma AcceptedShape(s: string)
    requires IsValidEmail(s)
    ensures NoSpace(s)
    ensures multiset(s)['@'] == 1
    ensures exists a :: 0 < a < |s| && s[a] == '@' && HasInnerDot(s[a + 1..])
  {
    var a := IndexOf(s, '@').value;
    assert s == s[..a] + [s[a]] + s[a + 1..];
    assert '@' !in multiset(s[..a]);
    assert '@' !in multiset(s[a + 1..]);
  }
}
