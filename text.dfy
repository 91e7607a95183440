/** String comparison ignoring case (`StringComparison.OrdinalIgnoreCase`),
    restricted to the ASCII letters. */
module Text {

  function UpperChar(c: char): char {
    if 'a' <= c <= 'z' then (c as int - ('a' as int - 'A' as int)) as char else c
  }

  function Upper(s: string): (r: string)
    ensures |r| == |s|
    ensures forall i :: 0 <= i < |s| ==> r[i] == UpperChar(s[i])
  {
    if s == [] then [] else [UpperChar(s[0])] + Upper(s[1..])
  }

  /** `a.Equals(b, StringComparison.OrdinalIgnoreCase)`. */
  predicate SameIgnoringCase(a: string, b: string) {
    Upper(a) == Upper(b)
  }

  /** Two strings are equal ignoring case exactly when they have the same
      length and agree character by character once upper-cased. */
  lemma SameIgnoringCaseCharwise(a: string, b: string)
    ensures SameIgnoringCase(a, b) <==>
            |a| == |b| && forall i :: 0 <= i < |a| ==> UpperChar(a[i]) == UpperChar(b[i])
  {
    if |a| == |b| && forall i :: 0 <= i < |a| ==> UpperChar(a[i]) == UpperChar(b[i]) {
      assert forall i :: 0 <= i < |a| ==> Upper(a)[i] == Upper(b)[i];
    }
  }

  /** Upper-casing twice is upper-casing once, so a string and its capitals
      are equal ignoring case. */
  lemma UpperIdempotent(s: string)
    ensures Upper(Upper(s)) == Upper(s)
    ensures SameIgnoringCase(s, Upper(s))
  {
    assert forall i :: 0 <= i < |s| ==> Upper(Upper(s))[i] == Upper(s)[i];
  }

  /** Equal strings are equal ignoring case; case alone does not tell two
      strings apart. */
  lemma SameIgnoringCaseExamples()
    ensures forall s: string :: SameIgnoringCase(s, s)
    ensures SameIgnoringCase("Ana@Mail.com", "ana@MAIL.COM")
    ensures !SameIgnoringCase("ana@mail.com", "ana@mail.co")
  {
    SameIgnoringCaseCharwise("Ana@Mail.com", "ana@MAIL.COM");
  }

  function DigitChar(d: int): char
    requires 0 <= d < 10
  {
    ('0' as int + d) as char
  }

  /** The decimal digits of `n`, as string interpolation writes an `int`. */
  function NatToString(n: nat): (s: string)
    ensures |s| >= 1
    ensures forall i :: 0 <= i < |s| ==> '0' <= s[i] <= '9'
  {
    if n < 10 then [DigitChar(n)] else NatToString(n / 10) + [DigitChar(n % 10)]
  }

  /** An `int` as string interpolation writes it: a minus sign for a negative value. */
  function IntToString(i: int): (s: string)
    ensures |s| >= 1
    ensures s[0] == '-' <==> i < 0
  {
    if i < 0 then "-" + NatToString(-i) else NatToString(i)
  }

  /** Reads a string of decimal digits back as a number. */
  function ParseNat(s: string): nat
    requires forall i :: 0 <= i < |s| ==> '0' <= s[i] <= '9'
  {
    if s == [] then 0 else 10 * ParseNat(s[..|s| - 1]) + (s[|s| - 1] as int - '0' as int)
  }

  /** Writing a number and reading it back gives the number: distinct ids
      make distinct messages. */
  lemma {:induction false} NatToStringRoundTrip(n: nat)
    ensures ParseNat(NatToString(n)) == n
  {
    if n >= 10 {
      var s := NatToString(n);
      assert s[..|s| - 1] == NatToString(n / 10);
      NatToStringRoundTrip(n / 10);
    }
  }
}
