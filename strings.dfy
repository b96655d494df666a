/** The pieces of .NET string handling that the backup layer relies on:
    decimal formatting (Int32.ToString(), ToString("D2")), String.Replace
    with single characters, and case-insensitive comparison. */
module Strings {

  /** ASCII lower-casing, the folding the model uses for ignore-case comparison. */
  function Lower(c: char): char
  {
    if 'A' <= c <= 'Z' then (c as int + 32) as char else c
  }

  /** Every character of `s` lower-cased. */
  function LowerAll(s: string): (r: string)
    ensures |r| == |s|
  {
    if s == [] then [] else LowerAll(s[..|s| - 1]) + [Lower(s[|s| - 1])]
  }

  /** `a.Equals(b, StringComparison.InvariantCultureIgnoreCase)`, restricted to ASCII folding:
      the culture-sensitive comparison also folds other letters and ignores zero-weight
      characters such as the soft hyphen, which this predicate does not. */
  predicate EqualsIgnoreCase(a: string, b: string)
  {
    LowerAll(a) == LowerAll(b)
  }

  lemma {:induction false} LowerAllAt(s: string)
    ensures forall i :: 0 <= i < |s| ==> LowerAll(s)[i] == Lower(s[i])
  {
    if s != [] {
      LowerAllAt(s[..|s| - 1]);
    }
  }

  /** Two strings are equal ignoring case exactly when they have the same length and agree
      character by character after folding. */
  lemma EqualsIgnoreCaseMeaning(a: string, b: string)
    ensures EqualsIgnoreCase(a, b) <==> |a| == |b| && forall i :: 0 <= i < |a| ==> Lower(a[i]) == Lower(b[i])
  {
    LowerAllAt(a);
    LowerAllAt(b);
  }

  predicate IsDigit(c: char)
  {
    '0' <= c <= '9'
  }

  function Digit(d: nat): (c: char)
    requires d < 10
    ensures IsDigit(c) && DigitValue(c) == d
  {
    (48 + d) as char
  }

  function DigitValue(c: char): nat
  {
    if IsDigit(c) then c as int - 48 else 0
  }

  /** `n.ToString()`: the shortest decimal numeral of n. */
  function NatToString(n: nat): (s: string)
    ensures |s| >= 1 && forall i :: 0 <= i < |s| ==> IsDigit(s[i])
    ensures n >= 10 ==> |s| >= 2
    ensures |s| == 1 || s[0] != '0'
  {
    if n < 10 then [Digit(n)] else NatToString(n / 10) + [Digit(n % 10)]
  }

  /** The value of a decimal numeral, most significant digit first. */
  function ParseDecimal(s: string): nat
  {
    if s == [] then 0 else ParseDecimal(s[..|s| - 1]) * 10 + DigitValue(s[|s| - 1])
  }

  /** The numeral written for a pid can be read back as the same number. */
  lemma {:induction false} ParseNatToString(n: nat)
    ensures ParseDecimal(NatToString(n)) == n
  {
    if n >= 10 {
      var s := NatToString(n);
      assert s[..|s| - 1] == NatToString(n / 10);
      ParseNatToString(n / 10);
    }
  }

  /** `n.ToString("D2")`: decimal, left-padded with zeros to at least two digits. */
  function Pad2(n: nat): (s: string)
    ensures |s| >= 2 && forall i :: 0 <= i < |s| ==> IsDigit(s[i])
    ensures n < 10 ==> s == ['0', Digit(n)]
    ensures n >= 10 ==> s == NatToString(n)
  {
    if n < 10 then "0" + NatToString(n) else NatToString(n)
  }

  lemma ParsePad2(n: nat)
    ensures ParseDecimal(Pad2(n)) == n
  {
    ParseNatToString(n);
    if n < 10 {
      assert Pad2(n)[..1] == "0";
    }
  }

  /** Distinct numbers give distinct two-digit suffixes. */
  lemma Pad2Injective(m: nat, n: nat)
    requires Pad2(m) == Pad2(n)
    ensures m == n
  {
    ParsePad2(m);
    ParsePad2(n);
  }

  /** `s.Replace(from, to)` for one-character strings. */
  function ReplaceChar(s: string, from: char, to: char): (r: string)
    ensures |r| == |s|
    ensures forall i :: 0 <= i < |s| ==> r[i] == (if s[i] == from then to else s[i])
    ensures from != to ==> from !in r
  {
    if s == [] then []
    else [if s[0] == from then to else s[0]] + ReplaceChar(s[1..], from, to)
  }
}
