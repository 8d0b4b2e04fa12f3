/** The two regular expressions the storefront's forms share: the phone
    pattern `^\+?[0-9\s-()]{10,15}$` (applied after removing white space) and
    the e-mail pattern `^[^\s@]+@[^\s@]+\.[^\s@]+$`. Each is written as a
    scanning check, and the e-mail check is proved equal to a declarative
    reading of its pattern. */
module Forms {
  import opened Common

  /** A character of the class `[0-9\s-()]`. */
  predicate PhoneChar(c: char) {
    ('0' <= c <= '9') || IsWhitespace(c) || c == '-' || c == '(' || c == ')'
  }

  predicate AllPhoneChars(u: string)
    decreases |u|
  {
    |u| == 0 || (PhoneChar(u[0]) && AllPhoneChars(u[1..]))
  }

  lemma {:induction false} AllPhoneCharsIff(u: string)
    ensures AllPhoneChars(u) <==> forall i :: 0 <= i < |u| ==> PhoneChar(u[i])
    decreases |u|
  {
    if |u| > 0 {
      AllPhoneCharsIff(u[1..]);
      assert forall i :: 1 <= i < |u| ==> u[i] == u[1..][i - 1];
    }
  }

  /** `[0-9\s-()]{10,15}` matching a whole string. */
  predicate PhoneBody(u: string) {
    10 <= |u| <= 15 && AllPhoneChars(u)
  }

  /** `^\+?[0-9\s-()]{10,15}$`: the optional '+' may be consumed or not. */
  predicate PhonePattern(t: string) {
    PhoneBody(t) || (|t| > 0 && t[0] == '+' && PhoneBody(t[1..]))
  }

  /** The phone test the checkout and address forms run on the raw input. */
  predicate PhoneValid(phone: string) {
    PhonePattern(RemoveWhitespace(phone))
  }

  /** A valid phone has 10 to 15 characters of the class, after an optional '+'. */
  lemma PhoneValidLength(phone: string)
    requires PhoneValid(phone)
    ensures 10 <= |RemoveWhitespace(phone)| <= 16
    ensures forall i :: 1 <= i < |RemoveWhitespace(phone)| ==> PhoneChar(RemoveWhitespace(phone)[i])
  {
    var t := RemoveWhitespace(phone);
    if PhoneBody(t) {
      AllPhoneCharsIff(t);
    } else {
      AllPhoneCharsIff(t[1..]);
      assert forall i :: 1 <= i < |t| ==> t[i] == t[1..][i - 1];
    }
  }

  /** A valid phone number is never blank, so its format check subsumes the
      required check. */
  lemma PhoneValidNotBlank(phone: string)
    requires PhoneValid(phone)
    ensures !IsBlank(phone)
  {
    TrimEmptyIffBlank(phone);
    if AllWhitespace(phone) {
      RemoveWhitespaceOfBlank(phone);
    }
  }

  /** `[^\s@]*` over a whole string. */
  predicate NoSpaceOrAt(s: string)
    decreases |s|
  {
    |s| == 0 || (!IsWhitespace(s[0]) && s[0] != '@' && NoSpaceOrAt(s[1..]))
  }

  lemma {:induction false} NoSpaceOrAtIff(s: string)
    ensures NoSpaceOrAt(s) <==> forall i :: 0 <= i < |s| ==> !IsWhitespace(s[i]) && s[i] != '@'
    decreases |s|
  {
    if |s| > 0 {
      NoSpaceOrAtIff(s[1..]);
      assert forall i :: 1 <= i < |s| ==> s[i] == s[1..][i - 1];
    }
  }

  /** The string holds a '.' somewhere. */
  predicate HasDot(u: string)
    decreases |u|
  {
    |u| > 0 && (u[0] == '.' || HasDot(u[1..]))
  }

  lemma {:induction false} HasDotIff(u: string)
    ensures HasDot(u) <==> exists k :: 0 <= k < |u| && u[k] == '.'
    decreases |u|
  {
    if |u| > 0 {
      HasDotIff(u[1..]);
      if !HasDot(u) {
        forall k | 0 <= k < |u| ensures u[k] != '.' {
          if k > 0 { assert u[k] == u[1..][k - 1]; }
        }
      } else if u[0] != '.' {
        var k :| 0 <= k < |u[1..]| && u[1..][k] == '.';
        assert u[k + 1] == '.';
      }
    }
  }

  /** The position of the first `c`, or the length when there is none. */
  function FirstIndexOf(s: string, c: char): (r: nat)
    ensures r <= |s|
    ensures r < |s| ==> s[r] == c
    ensures forall i :: 0 <= i < r ==> s[i] != c
    decreases |s|
  {
    if |s| == 0 then 0 else if s[0] == c then 0 else FirstIndexOf(s[1..], c) + 1
  }

  /** The e-mail check: text without white space or '@' before the first '@',
      and after it text without white space or '@' holding a '.' that is
      neither its first nor its last character. */
  predicate EmailShape(s: string) {
    var at := FirstIndexOf(s, '@');
    && 0 < at && at + 4 <= |s|
    && NoSpaceOrAt(s[..at]) && NoSpaceOrAt(s[at + 1..])
    && HasDot(s[at + 2..|s| - 1])
  }

  /** `^[^\s@]+@[^\s@]+\.[^\s@]+$` read declaratively: an '@' after at least
      one character, a later '.' with characters on both sides, and no white
      space or other '@' anywhere. */
  ghost predicate EmailPattern(s: string) {
    exists at, dot | 0 < at && at + 1 < dot < |s| - 1 ::
      && s[at] == '@' && s[dot] == '.'
      && forall i :: 0 <= i < |s| && i != at ==> !IsWhitespace(s[i]) && s[i] != '@'
  }

  /** The scanning check accepts exactly the strings the pattern describes. */
  lemma EmailShapeIffPattern(s: string)
    ensures EmailShape(s) <==> EmailPattern(s)
  {
    var at := FirstIndexOf(s, '@');
    if EmailShape(s) {
      var u := s[at + 2..|s| - 1];
      HasDotIff(u);
      var k :| 0 <= k < |u| && u[k] == '.';
      var dot := at + 2 + k;
      assert s[dot] == u[k];
      NoSpaceOrAtIff(s[..at]);
      NoSpaceOrAtIff(s[at + 1..]);
      forall i | 0 <= i < |s| && i != at ensures !IsWhitespace(s[i]) && s[i] != '@' {
        if i < at { assert s[i] == s[..at][i]; } else { assert s[i] == s[at + 1..][i - at - 1]; }
      }
      assert EmailPattern(s);
    }
    if EmailPattern(s) {
      var a, d :| 0 < a && a + 1 < d < |s| - 1 && s[a] == '@' && s[d] == '.'
        && forall i :: 0 <= i < |s| && i != a ==> !IsWhitespace(s[i]) && s[i] != '@';
      assert at == a;
      NoSpaceOrAtIff(s[..at]);
      NoSpaceOrAtIff(s[at + 1..]);
      assert forall i :: at + 1 <= i < |s| ==> s[i] == s[at + 1..][i - at - 1];
      var u := s[at + 2..|s| - 1];
      assert u[d - at - 2] == '.';
      HasDotIff(u);
    }
  }

  /** A well-formed address has no white space and exactly one '@'. */
  lemma EmailShapeHasOneAt(s: string, at: nat, other: nat)
    requires EmailShape(s)
    requires at < |s| && other < |s| && s[at] == '@' && s[other] == '@'
    ensures at == other
    ensures forall i :: 0 <= i < |s| ==> !IsWhitespace(s[i])
  {
    EmailShapeIffPattern(s);
  }

  /** A well-formed address is never blank. */
  lemma EmailShapeNotBlank(s: string)
    requires EmailShape(s)
    ensures !IsBlank(s)
  {
    EmailShapeIffPattern(s);
    assert !IsWhitespace(s[0]);
    TrimEmptyIffBlank(s);
  }
}
