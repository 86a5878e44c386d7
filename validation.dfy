/**
 * The field rules both the register endpoint and the registration form apply,
 * written as predicates over strings in place of the regular expressions.
 */
module Validation {
  import opened Wrappers
  import opened Text

  /** `/^[6-9]\d{9}$/`: ten digits, the first one 6, 7, 8 or 9. */
  predicate IsMobile(d: string)
  {
    |d| == 10 && '6' <= d[0] <= '9' && AllDigits(d)
  }

  /** `/^[a-zA-Z\s]+$/` */
  predicate IsNameText(s: string)
  {
    |s| > 0 && forall i :: 0 <= i < |s| ==> IsLetter(s[i]) || IsSpace(s[i])
  }

  /** `[^\s@]+`, the character class each of the three parts of an e-mail address uses. */
  predicate IsAddressPart(s: string)
  {
    |s| > 0 && forall i :: 0 <= i < |s| ==> !IsSpace(s[i]) && s[i] != '@'
  }

  /**
   * `/^[^\s@]+@[^\s@]+\.[^\s@]+$/` as the regular expression reads: some '@' at `at`
   * and some '.' at `dot` split `s` into three non-empty parts without whitespace or '@'.
   */
  ghost predicate EmailMatchesAt(s: string, at: int, dot: int)
  {
    && 0 < at < dot < |s|
    && s[at] == '@' && s[dot] == '.'
    && IsAddressPart(s[..at]) && IsAddressPart(s[at + 1..dot]) && IsAddressPart(s[dot + 1..])
  }

  ghost predicate EmailMatches(s: string)
  {
    exists at, dot :: EmailMatchesAt(s, at, dot)
  }

  /**
   * The e-mail test without backtracking: no whitespace, exactly one '@', not first,
   * and a '.' after it with at least one character on each side.
   */
  function IsEmail(s: string): (r: bool)
    ensures r <==> EmailMatches(s)
  {
    if '@' !in s then
      EmailHasAt(s);
      false
    else
      var at := IndexOf(s, '@');
      var r := && (forall i :: 0 <= i < |s| ==> !IsSpace(s[i]))
               && 0 < at
               && '@' !in s[at + 1..]
               && at + 2 < |s|
               && '.' in s[at + 2..|s| - 1];
      EmailTestCorrect(s, at, r);
      r
  }

  lemma {:induction false} EmailHasAt(s: string)
    ensures EmailMatches(s) ==> '@' in s
  {
    if EmailMatches(s) {
      var at, dot :| EmailMatchesAt(s, at, dot);
      assert s[at] in s;
    }
  }

  lemma {:induction false} EmailTestCorrect(s: string, at: nat, r: bool)
    requires at < |s| && s[at] == '@' && '@' !in s[..at]
    requires r == (&& (forall i :: 0 <= i < |s| ==> !IsSpace(s[i]))
                   && 0 < at
                   && '@' !in s[at + 1..]
                   && at + 2 < |s|
                   && '.' in s[at + 2..|s| - 1])
    ensures r <==> EmailMatches(s)
  {
    if r {
      var k := IndexOf(s[at + 2..|s| - 1], '.');
      var dot := at + 2 + k;
      assert s[dot] == '.';
      assert forall i :: at + 1 <= i < |s| ==> s[i] != '@' by {
        forall i | at + 1 <= i < |s| ensures s[i] != '@' {
          assert s[i] == s[at + 1..][i - at - 1];
        }
      }
      assert forall i :: 0 <= i < at ==> s[i] != '@' by {
        forall i | 0 <= i < at ensures s[i] != '@' {
          assert s[i] == s[..at][i];
        }
      }
      assert EmailMatchesAt(s, at, dot);
    }
    if EmailMatches(s) {
      var at', dot' :| EmailMatchesAt(s, at', dot');
      assert forall i :: 0 <= i < at' ==> s[i] == s[..at'][i];
      assert forall i :: at' < i < dot' ==> s[i] == s[at' + 1..dot'][i - at' - 1];
      assert forall i :: dot' < i < |s| ==> s[i] == s[dot' + 1..][i - dot' - 1];
      assert forall i :: 0 <= i < |s| ==> !IsSpace(s[i]);
      assert forall i :: 0 <= i < |s| && s[i] == '@' ==> i == at';
      assert at == at';
      var tail := s[at + 1..];
      assert '@' !in tail by {
        forall i | 0 <= i < |tail| ensures tail[i] != '@' {
          assert tail[i] == s[at + 1 + i];
        }
      }
      assert s[at + 2..|s| - 1][dot' - at - 2] == '.';
    }
  }

  /**
   * The optional e-mail rule: an absent or blank address passes, any other must have
   * the shape of an address.
   */
  predicate EmailAcceptable(email: Option<string>)
  {
    email.None? || AllSpace(email.value) || IsEmail(email.value)
  }
}
