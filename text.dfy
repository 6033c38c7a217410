/**
 * The string operations the controllers apply to user input and record fields:
 * `toLowerCase`, `trim`, `includes` and the decimal rendering of numbers.
 * Lower-casing is ASCII only; trimming removes the ASCII white-space and
 * line-terminator characters plus U+00A0 and U+FEFF.
 */
module Text {

  predicate IsSpace(c: char) {
    c == ' ' || c == '\t' || c == '\n' || c == '\r' || c == '\U{000B}' || c == '\U{000C}'
    || c == '\U{00A0}' || c == '\U{FEFF}'
  }

  function LowerChar(c: char): char {
    if 'A' <= c <= 'Z' then (c as int + 32) as char else c
  }

  /** A string that lower-casing leaves alone. */
  predicate IsLower(s: string) {
    forall i :: 0 <= i < |s| ==> LowerChar(s[i]) == s[i]
  }

  /**
   * `s.toLowerCase()`, for ASCII letters: the result is lower-case, each
   * capital becomes its own small letter and every other character stays.
   */
  function ToLower(s: string): (r: string)
    ensures |r| == |s|
    ensures IsLower(r)
    ensures forall i | 0 <= i < |s| && !('A' <= s[i] <= 'Z') :: r[i] == s[i]
    ensures forall i | 0 <= i < |s| && 'A' <= s[i] <= 'Z' ::
              'a' <= r[i] <= 'z' && r[i] as int - 'a' as int == s[i] as int - 'A' as int
  {
    seq(|s|, i requires 0 <= i < |s| => LowerChar(s[i]))
  }

  /** Number of white-space characters at the start of `s`. */
  function LeadingSpaces(s: string): (k: nat)
    ensures k <= |s|
    ensures forall i :: 0 <= i < k ==> IsSpace(s[i])
    ensures k < |s| ==> !IsSpace(s[k])
  {
    if s == [] || !IsSpace(s[0]) then 0 else 1 + LeadingSpaces(s[1..])
  }

  /** Number of white-space characters at the end of `s`. */
  function TrailingSpaces(s: string): (k: nat)
    ensures k <= |s|
    ensures forall i :: |s| - k <= i < |s| ==> IsSpace(s[i])
    ensures k < |s| ==> !IsSpace(s[|s| - 1 - k])
  {
    if s == [] || !IsSpace(s[|s| - 1]) then 0 else 1 + TrailingSpaces(s[..|s| - 1])
  }

  /** A string with no white-space at either end. */
  predicate IsTrimmed(s: string) {
    s == [] || (!IsSpace(s[0]) && !IsSpace(s[|s| - 1]))
  }

  /** `s.trim()` */
  function Trim(s: string): (r: string)
    ensures IsTrimmed(r)
  {
    var a := LeadingSpaces(s);
    var t := s[a..];
    var b := |s| - TrailingSpaces(t);
    assert a < b ==> !IsSpace(s[a]) && !IsSpace(s[b - 1]) by {
      if a < b {
        assert s[b - 1] == t[|t| - 1 - TrailingSpaces(t)];
      }
    }
    assert IsTrimmed(s[a..b]);
    s[a..b]
  }

  /** Trimming cuts only white-space, and only at the two ends. */
  lemma TrimCutsOnlySpaces(s: string)
    ensures exists a, b :: (0 <= a <= b <= |s| && Trim(s) == s[a..b]
                            && (forall i :: 0 <= i < a ==> IsSpace(s[i]))
                            && (forall i :: b <= i < |s| ==> IsSpace(s[i])))
  {
    var a := LeadingSpaces(s);
    var t := s[a..];
    var b := |s| - TrailingSpaces(t);
    forall i | b <= i < |s| ensures IsSpace(s[i]) {
      assert s[i] == t[i - a];
    }
    assert Trim(s) == s[a..b];
  }

  /** A string that is already trimmed is its own trim. */
  lemma {:induction false} TrimOfTrimmed(s: string)
    requires IsTrimmed(s)
    ensures Trim(s) == s
  {
    assert LeadingSpaces(s) == 0;
    if s != [] {
      assert TrailingSpaces(s) == 0;
    }
  }

  /** Trimming twice is trimming once. */
  lemma TrimIdempotent(s: string)
    ensures Trim(Trim(s)) == Trim(s)
  {
    TrimOfTrimmed(Trim(s));
  }

  /** A string of white-space only trims to the empty string. */
  lemma TrimBlank(s: string)
    requires forall i :: 0 <= i < |s| ==> IsSpace(s[i])
    ensures Trim(s) == ""
  {
  }

  /** The query the list views search for: `(searchTerm || '').toLowerCase().trim()`. */
  function SearchQuery(term: string): (q: string)
    ensures IsTrimmed(q) && IsLower(q)
  {
    TrimKeepsLower(ToLower(term));
    Trim(ToLower(term))
  }

  /** The query is blank exactly when the search term holds only white-space. */
  lemma BlankQuery(term: string)
    ensures SearchQuery(term) == "" <==> forall i :: 0 <= i < |term| ==> IsSpace(term[i])
  {
    var t := ToLower(term);
    assert forall i :: 0 <= i < |term| ==> (IsSpace(t[i]) <==> IsSpace(term[i]));
    if SearchQuery(term) == "" {
      TrimCutsOnlySpaces(t);
      var a, b :| 0 <= a <= b <= |t| && Trim(t) == t[a..b]
                  && (forall i :: 0 <= i < a ==> IsSpace(t[i]))
                  && (forall i :: b <= i < |t| ==> IsSpace(t[i]));
      assert |t[a..b]| == 0;
    }
    if forall i :: 0 <= i < |term| ==> IsSpace(term[i]) {
      TrimBlank(t);
    }
  }

  /** Lower-casing a trimmed string keeps it trimmed. */
  lemma LowerKeepsTrimmed(s: string)
    requires IsTrimmed(s)
    ensures IsTrimmed(ToLower(s))
  {
  }

  lemma LowerOfLower(s: string)
    requires IsLower(s)
    ensures ToLower(s) == s
  {
  }

  lemma TrimKeepsLower(s: string)
    requires IsLower(s)
    ensures IsLower(Trim(s))
  {
    var r := Trim(s);
    var a, b :| 0 <= a <= b <= |s| && r == s[a..b];
    assert forall i :: 0 <= i < |r| ==> r[i] == s[a + i];
  }

  /** A query that is already in search form is searched for as typed. */
  lemma SearchQueryIdempotent(term: string)
    ensures SearchQuery(SearchQuery(term)) == SearchQuery(term)
  {
    var t := ToLower(term);
    assert IsLower(t);
    TrimKeepsLower(t);
    LowerOfLower(Trim(t));
    TrimOfTrimmed(Trim(t));
  }

  /** `xs.join(sep)` */
  function Join(xs: seq<string>, sep: string): string {
    if xs == [] then "" else if |xs| == 1 then xs[0] else xs[0] + sep + Join(xs[1..], sep)
  }

  /** `s.includes(q)`: `q` occurs in `s` as a contiguous substring. */
  predicate Contains(s: string, q: string) {
    exists i | 0 <= i <= |s| :: q <= s[i..]
  }

  /** Every string contains the empty string and itself. */
  lemma ContainsEmptyAndSelf(s: string)
    ensures Contains(s, "") && Contains(s, s)
  {
    assert "" <= s[0..];
    assert s <= s[0..];
  }

  /** Every string contains each of its infixes. */
  lemma ContainsInfix(s: string, i: nat, j: nat)
    requires i <= j <= |s|
    ensures Contains(s, s[i..j])
  {
    assert s[i..j] <= s[i..];
  }

  function DigitChar(d: nat): (c: char)
    requires d < 10
    ensures '0' <= c <= '9'
  {
    ('0' as int + d) as char
  }

  /** Every character of `s` is a decimal digit. */
  predicate AllDigits(s: string) {
    forall i :: 0 <= i < |s| ==> '0' <= s[i] <= '9'
  }

  /** Decimal digits of `n`, most significant first, without leading zeros. */
  function NatToString(n: nat): (r: string)
    ensures |r| > 0
    ensures AllDigits(r)
    ensures |r| > 1 ==> r[0] != '0'
  {
    if n < 10 then [DigitChar(n)] else NatToString(n / 10) + [DigitChar(n % 10)]
  }

  /** `String(n)` for an integer: a minus sign before the digits of a negative number. */
  function IntToString(n: int): (r: string)
    ensures |r| > 0
    ensures (r[0] == '-') <==> n < 0
  {
    if n < 0 then "-" + NatToString(-n) else NatToString(n)
  }

  /** Reading a string of decimal digits back as a number. */
  function DigitsValue(s: string): nat
    requires AllDigits(s)
  {
    if s == [] then 0 else DigitsValue(s[..|s| - 1]) * 10 + (s[|s| - 1] as int - '0' as int)
  }

  /** The decimal rendering is read back as the number it renders. */
  lemma {:induction false} NatToStringRoundTrip(n: nat)
    ensures DigitsValue(NatToString(n)) == n
  {
    if n >= 10 {
      NatToStringRoundTrip(n / 10);
      var s := NatToString(n);
      assert s[..|s| - 1] == NatToString(n / 10);
    }
  }

  /** Reading an optionally signed decimal back as a number. */
  function SignedValue(s: string): int
    requires |s| > 0
    requires if s[0] == '-' then AllDigits(s[1..]) else AllDigits(s)
  {
    if s[0] == '-' then -(DigitsValue(s[1..]) as int) else DigitsValue(s)
  }

  /** A minus sign before a run of digits reads back as the negated digits. */
  lemma SignedValueOfMinus(t: string)
    requires AllDigits(t)
    ensures SignedValue(['-'] + t) == -(DigitsValue(t) as int)
  {
    assert (['-'] + t)[1..] == t;
  }

  /** A negative number is read back from its minus sign and digits. */
  lemma NegativeRoundTrip(n: int)
    requires n < 0
    ensures SignedValue(IntToString(n)) == n
  {
    var t := NatToString(-n);
    assert IntToString(n) == ['-'] + t;
    SignedValueOfMinus(t);
    NatToStringRoundTrip(-n);
  }

  /** The signed rendering is read back as the number it renders. */
  lemma IntToStringRoundTrip(n: int)
    ensures SignedValue(IntToString(n)) == n
  {
    if n < 0 {
      NegativeRoundTrip(n);
    } else {
      var r := IntToString(n);
      var t := NatToString(n);
      assert r == t && r[0] != '-';
      NatToStringRoundTrip(n);
      assert SignedValue(r) == DigitsValue(t);
    }
  }

}
