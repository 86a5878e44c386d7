/**
 * The string operations the registration code leans on: the regular-expression
 * character classes, `trim`, `replace(/\D/g, '')`, ASCII `toLowerCase`,
 * `includes`, `join` / `split` on one character, and decimal conversion of
 * integers (`${n}` and `parseInt`).
 */
module Text {
  import opened Wrappers
  import opened Sequences

  /** `[a-zA-Z]` */
  predicate IsLetter(c: char) { 'a' <= c <= 'z' || 'A' <= c <= 'Z' }

  /** `\d` */
  predicate IsDigit(c: char) { '0' <= c <= '9' }

  /**
   * `\s`: the WhiteSpace and LineTerminator characters of ECMAScript, which are also
   * the characters `String.prototype.trim` removes.
   */
  predicate IsSpace(c: char)
  {
    if c <= '\U{A0}' then '\t' <= c <= '\r' || c == ' ' || c == '\U{A0}'
    else (c == '\U{1680}' || '\U{2000}' <= c <= '\U{200A}' || c == '\U{2028}' || c == '\U{2029}'
          || c == '\U{202F}' || c == '\U{205F}' || c == '\U{3000}' || c == '\U{FEFF}')
  }

  predicate AllDigits(s: string) { forall i :: 0 <= i < |s| ==> IsDigit(s[i]) }

  predicate AllSpace(s: string) { forall i :: 0 <= i < |s| ==> IsSpace(s[i]) }

  // ---------------------------------------------------------------- trim

  /** The first index at or after `k` that does not hold whitespace, or `|s|`. */
  function SkipSpaces(s: string, k: nat): (n: nat)
    requires k <= |s|
    ensures k <= n <= |s|
    ensures forall i :: k <= i < n ==> IsSpace(s[i])
    ensures n < |s| ==> !IsSpace(s[n])
    decreases |s| - k
  {
    if k < |s| && IsSpace(s[k]) then SkipSpaces(s, k + 1) else k
  }

  /** The end of `s[lo..k]` once its trailing whitespace is dropped. */
  function SkipSpacesBack(s: string, lo: nat, k: nat): (n: nat)
    requires lo <= k <= |s|
    ensures lo <= n <= k
    ensures forall i :: n <= i < k ==> IsSpace(s[i])
    ensures n > lo ==> !IsSpace(s[n - 1])
    decreases k
  {
    if k > lo && IsSpace(s[k - 1]) then SkipSpacesBack(s, lo, k - 1) else k
  }

  /** `s.trimStart()`, as `parseInt` applies it: drops the leading whitespace. */
  function TrimStart(s: string): string
  {
    s[SkipSpaces(s, 0)..]
  }

  /** `s.trim()`: empty exactly when `s` is all whitespace, and otherwise neither end is whitespace. */
  function Trim(s: string): (r: string)
    ensures r != [] ==> !IsSpace(r[0]) && !IsSpace(r[|r| - 1])
    ensures r == [] <==> AllSpace(s)
  {
    var a := SkipSpaces(s, 0);
    var e := SkipSpacesBack(s, a, |s|);
    assert a < e ==> !IsSpace(s[a]);
    s[a..e]
  }

  /**
   * What `trim` keeps is a contiguous window of `s`, starting at offset `a`, and only
   * whitespace lies outside it.
   */
  lemma {:induction false} TrimWindow(s: string) returns (a: nat)
    ensures a + |Trim(s)| <= |s| && forall i :: 0 <= i < |Trim(s)| ==> Trim(s)[i] == s[a + i]
    ensures forall i :: 0 <= i < |s| && !(a <= i < a + |Trim(s)|) ==> IsSpace(s[i])
  {
    a := SkipSpaces(s, 0);
    var e := SkipSpacesBack(s, a, |s|);
    assert Trim(s) == s[a..e];
  }

  // ---------------------------------------------------------------- digits

  /** `s.replace(/\D/g, '')`: the digits of `s`, in order. */
  function DigitsOnly(s: string): (r: string)
    ensures AllDigits(r)
    ensures AllDigits(s) ==> r == s
  {
    if AllDigits(s) then
      FilterKeepsAll(s, IsDigit);
      Filter(s, IsDigit)
    else
      Filter(s, IsDigit)
  }

  lemma {:induction false} DigitsOnlyAppend(s: string, t: string)
    ensures DigitsOnly(s + t) == DigitsOnly(s) + DigitsOnly(t)
  {
    FilterAppend(s, t, IsDigit);
  }

  lemma {:induction false} DigitsOnlyIdempotent(s: string)
    ensures DigitsOnly(DigitsOnly(s)) == DigitsOnly(s)
  {
  }

  /** Every digit of `s` is kept as often as it occurs, and nothing else is. */
  lemma {:induction false} DigitsOnlyMultiset(s: string)
    ensures forall c :: multiset(DigitsOnly(s))[c] == if IsDigit(c) then multiset(s)[c] else 0
  {
    FilterMultiset(s, IsDigit);
  }

  // ---------------------------------------------------------------- case and search

  /** ASCII `toLowerCase` of one character. */
  function LowerChar(c: char): char
  {
    if 'A' <= c <= 'Z' then (c as int - 'A' as int + 'a' as int) as char else c
  }

  /**
   * ASCII `toLowerCase`: no upper-case letter is left, each upper-case letter becomes
   * its lower-case partner, and every other character stays where it was.
   */
  function Lower(s: string): (r: string)
    ensures |r| == |s|
    ensures forall i :: 0 <= i < |r| ==> !('A' <= r[i] <= 'Z')
    ensures forall i :: 0 <= i < |s| && !('A' <= s[i] <= 'Z') ==> r[i] == s[i]
    ensures forall i :: 0 <= i < |s| && 'A' <= s[i] <= 'Z' ==> r[i] as int == s[i] as int + 32
  {
    seq(|s|, i requires 0 <= i < |s| => LowerChar(s[i]))
  }

  /** Lower-casing twice is lower-casing once, so comparing lower-cased texts is stable. */
  lemma {:induction false} LowerIdempotent(s: string)
    ensures Lower(Lower(s)) == Lower(s)
  {
    var l := Lower(s);
    forall i | 0 <= i < |l| ensures Lower(l)[i] == l[i] {
      assert !('A' <= l[i] <= 'Z');
    }
  }

  /** `needle` occurs in `hay` starting at index `i`. */
  ghost predicate OccursAt(hay: string, needle: string, i: int)
  {
    0 <= i && i + |needle| <= |hay| && hay[i..i + |needle|] == needle
  }

  /** `hay.includes(needle)`. */
  function Includes(hay: string, needle: string): (r: bool)
    ensures r <==> exists i :: OccursAt(hay, needle, i)
  {
    if needle <= hay then
      assert OccursAt(hay, needle, 0);
      true
    else if hay == [] then
      false
    else
      var r := Includes(hay[1..], needle);
      assert forall i :: OccursAt(hay[1..], needle, i) ==> OccursAt(hay, needle, i + 1);
      assert forall i :: OccursAt(hay, needle, i) ==> i == 0 || OccursAt(hay[1..], needle, i - 1);
      r
  }

  /** `s.includes(t)` after lower-casing both sides. */
  predicate IncludesIgnoringCase(s: string, t: string)
  {
    Includes(Lower(s), Lower(t))
  }

  // ---------------------------------------------------------------- join and split

  /** `parts.join(sep)`. */
  function Join(sep: char, parts: seq<string>): string
  {
    if |parts| == 0 then ""
    else if |parts| == 1 then parts[0]
    else parts[0] + [sep] + Join(sep, parts[1..])
  }

  /** The first position of `c` in `s`. */
  function IndexOf(s: string, c: char): (i: nat)
    requires c in s
    ensures i < |s| && s[i] == c && c !in s[..i]
  {
    if s[0] == c then 0 else 1 + IndexOf(s[1..], c)
  }

  /** `s.split(sep)`: the pieces between the occurrences of `sep`. */
  function Split(sep: char, s: string): (r: seq<string>)
    ensures |r| >= 1
    ensures forall k :: 0 <= k < |r| ==> sep !in r[k]
    decreases |s|
  {
    if sep !in s then [s]
    else
      var i := IndexOf(s, sep);
      [s[..i]] + Split(sep, s[i + 1..])
  }

  /** Splitting undoes joining when no part contains the separator. */
  lemma {:induction false} SplitJoin(sep: char, parts: seq<string>)
    requires |parts| >= 1
    requires forall k :: 0 <= k < |parts| ==> sep !in parts[k]
    ensures Split(sep, Join(sep, parts)) == parts
  {
    if |parts| > 1 {
      var s := Join(sep, parts);
      var rest := Join(sep, parts[1..]);
      assert s == parts[0] + [sep] + rest;
      assert s[|parts[0]|] == sep;
      assert s[..|parts[0]|] == parts[0];
      assert IndexOf(s, sep) == |parts[0]|;
      assert s[|parts[0]| + 1..] == rest;
      SplitJoin(sep, parts[1..]);
      assert [parts[0]] + parts[1..] == parts;
    }
  }

  /** Joining undoes splitting, for every string. */
  lemma {:induction false} JoinSplit(sep: char, s: string)
    ensures Join(sep, Split(sep, s)) == s
    decreases |s|
  {
    if sep in s {
      var i := IndexOf(s, sep);
      var tail := Split(sep, s[i + 1..]);
      JoinSplit(sep, s[i + 1..]);
      assert Split(sep, s) == [s[..i]] + tail;
      assert ([s[..i]] + tail)[1..] == tail;
      assert s == s[..i] + [sep] + s[i + 1..];
    }
  }

  /** How often `c` occurs in all of `parts` together. */
  function CountIn(parts: seq<string>, c: char): nat
  {
    if parts == [] then 0 else multiset(parts[0])[c] + CountIn(parts[1..], c)
  }

  /** A join holds the characters of its parts plus one separator between each two. */
  lemma {:induction false} JoinCount(sep: char, parts: seq<string>, c: char)
    requires |parts| >= 1
    ensures multiset(Join(sep, parts))[c] == (if c == sep then |parts| - 1 else 0) + CountIn(parts, c)
  {
    if |parts| > 1 {
      JoinCount(sep, parts[1..], c);
      assert Join(sep, parts) == parts[0] + [sep] + Join(sep, parts[1..]);
      assert multiset(Join(sep, parts)) == multiset(parts[0]) + multiset([sep]) + multiset(Join(sep, parts[1..]));
    } else {
      assert CountIn(parts, c) == multiset(parts[0])[c] + CountIn(parts[1..], c);
    }
  }

  /** Splitting gives one piece more than there are separators. */
  lemma {:induction false} SplitLength(sep: char, s: string)
    ensures |Split(sep, s)| == multiset(s)[sep] + 1
    decreases |s|
  {
    if sep in s {
      var i := IndexOf(s, sep);
      SplitLength(sep, s[i + 1..]);
      assert s == s[..i] + [sep] + s[i + 1..];
      assert multiset(s) == multiset(s[..i]) + multiset([sep]) + multiset(s[i + 1..]);
      assert multiset(s[..i])[sep] == 0;
    } else {
      assert multiset(s)[sep] == 0;
    }
  }

  // ---------------------------------------------------------------- numbers

  function DigitChar(d: nat): char
    requires d < 10
  {
    ('0' as int + d) as char
  }

  /** The decimal digits of `n`, without leading zeros. */
  function NatToString(n: nat): (r: string)
    ensures |r| >= 1 && AllDigits(r)
    ensures r[0] == '0' ==> n == 0
  {
    if n < 10 then [DigitChar(n)] else NatToString(n / 10) + [DigitChar(n % 10)]
  }

  /** `${n}` for an integer `n`. */
  function IntToString(n: int): (r: string)
    ensures r != []
  {
    if n < 0 then "-" + NatToString(-n) else NatToString(n)
  }

  /** The number a string of decimal digits denotes. */
  function DigitsValue(s: string): nat
    requires AllDigits(s)
  {
    if s == [] then 0 else 10 * DigitsValue(s[..|s| - 1]) + (s[|s| - 1] as int - '0' as int)
  }

  /** The longest prefix of `s` made of digits. */
  function LeadingDigits(s: string): (r: string)
    ensures r <= s && AllDigits(r)
    ensures |r| < |s| ==> !IsDigit(s[|r|])
  {
    if s != [] && IsDigit(s[0]) then [s[0]] + LeadingDigits(s[1..]) else []
  }

  /**
   * `parseInt(s)` in base ten: leading whitespace is skipped, one sign is read,
   * then the longest run of digits; `None` stands for `NaN`, when there is no digit.
   */
  function ParseInt(s: string): (r: Option<int>)
    ensures r.None? <==> LeadingDigits(DropSign(TrimStart(s))) == []
  {
    var t := TrimStart(s);
    var digits := LeadingDigits(DropSign(t));
    if digits == [] then None
    else
      var magnitude: int := DigitsValue(digits);
      Some(if t[0] == '-' then -magnitude else magnitude)
  }

  function DropSign(t: string): string
  {
    if t != [] && (t[0] == '-' || t[0] == '+') then t[1..] else t
  }

  lemma {:induction false} DigitsValueOfNat(n: nat)
    ensures DigitsValue(NatToString(n)) == n
  {
    if n >= 10 {
      DigitsValueOfNat(n / 10);
      var r := NatToString(n);
      assert r[..|r| - 1] == NatToString(n / 10);
    }
  }

  lemma {:induction false} LeadingDigitsOfDigits(s: string)
    requires AllDigits(s)
    ensures LeadingDigits(s) == s
  {
    if s != [] {
      LeadingDigitsOfDigits(s[1..]);
      assert [s[0]] + s[1..] == s;
    }
  }

  /**
   * `parseInt` over its grammar: leading whitespace, an optional sign, a run of digits,
   * then anything that does not start with a digit, reads as the signed value of the run.
   */
  lemma {:induction false} ParseIntReads(w: string, g: string, d: string, rest: string)
    requires AllSpace(w) && g in {"", "+", "-"}
    requires d != [] && AllDigits(d)
    requires rest == [] || !IsDigit(rest[0])
    ensures ParseInt(w + g + d + rest) == Some(if g == "-" then -(DigitsValue(d) as int) else DigitsValue(d))
  {
    var t := g + d + rest;
    assert w + g + d + rest == w + t;
    SignedRun(g, d, rest);
    TrimStartAfterSpaces(w, t);
    LeadingDigitsPrefix(d, rest);
    ParseIntOfTrimmed(w + t, t, d);
  }

  /** An optional sign before a digit run: the text starts with no space, and dropping the sign leaves the run. */
  lemma {:induction false} SignedRun(g: string, d: string, rest: string)
    requires g in {"", "+", "-"} && d != [] && AllDigits(d)
    ensures var t := g + d + rest;
      t != [] && !IsSpace(t[0]) && DropSign(t) == d + rest && (t[0] == '-' <==> g == "-")
  {
    var t := g + d + rest;
    if g == "" {
      assert t == d + rest;
    } else {
      assert t == [g[0]] + (d + rest);
    }
  }

  /** `parseInt` once the front is trimmed to `t` and the digit run after the sign is `d`. */
  lemma {:induction false} ParseIntOfTrimmed(s: string, t: string, d: string)
    requires TrimStart(s) == t && t != []
    requires d != [] && AllDigits(d) && LeadingDigits(DropSign(t)) == d
    ensures ParseInt(s) == Some(if t[0] == '-' then -(DigitsValue(d) as int) else DigitsValue(d))
  {
  }

  /** Trimming the front skips exactly a whitespace prefix that ends before a non-space. */
  lemma {:induction false} TrimStartAfterSpaces(w: string, t: string)
    requires AllSpace(w) && t != [] && !IsSpace(t[0])
    ensures TrimStart(w + t) == t
  {
    var s := w + t;
    var n := SkipSpaces(s, 0);
    assert s[|w|..] == t;
  }

  /** The leading digits of a digit run followed by a non-digit are the run. */
  lemma {:induction false} LeadingDigitsPrefix(d: string, rest: string)
    requires AllDigits(d)
    requires rest == [] || !IsDigit(rest[0])
    ensures LeadingDigits(d + rest) == d
  {
    var s := d + rest;
    var lead := LeadingDigits(s);
    assert lead == s[..|lead|];
    assert s[..|d|] == d;
  }

  /** `parseInt` reads back what `${n}` writes. */
  lemma {:induction false} ParseIntRoundTrip(n: int)
    ensures ParseInt(IntToString(n)) == Some(n)
  {
    var s := IntToString(n);
    var m: nat := if n < 0 then -n else n;
    var digits := NatToString(m);
    assert !IsSpace(s[0]);
    assert TrimStart(s) == s;
    assert DropSign(s) == digits;
    LeadingDigitsOfDigits(digits);
    DigitsValueOfNat(m);
  }
}

