/** Decimal numerals: printing, fixed-width printing, and the scanning that the parsers build on. */
module Decimal {
  import opened Basics

  predicate IsDigit(c: char) {
    '0' <= c <= '9'
  }

  function DigitOf(n: nat): (c: char)
    requires n < 10
    ensures IsDigit(c) && ValueOf(c) == n
  {
    '0' + n as char
  }

  function ValueOf(c: char): (n: nat)
    requires IsDigit(c)
    ensures n < 10
  {
    c as int - '0' as int
  }

  predicate AllDigits(s: string) {
    forall i :: 0 <= i < |s| ==> IsDigit(s[i])
  }

  function Numeral(s: string): nat
    requires AllDigits(s)
  {
    if s == "" then 0 else 10 * Numeral(s[..|s| - 1]) + ValueOf(s[|s| - 1])
  }

  function Pow10(w: nat): (p: nat)
    ensures p >= 1
  {
    if w == 0 then 1 else 10 * Pow10(w - 1)
  }

  /** `%d` of a non-negative number. */
  function Print(n: nat): (s: string)
    ensures s != "" && AllDigits(s)
  {
    if n < 10 then [DigitOf(n)] else Print(n / 10) + [DigitOf(n % 10)]
  }

  /** The last `w` digits of `n`, padded with zeros on the left. */
  function Fixed(n: nat, w: nat): (s: string)
    ensures |s| == w && AllDigits(s)
  {
    if w == 0 then "" else Fixed(n / 10, w - 1) + [DigitOf(n % 10)]
  }

  lemma {:induction false} PrintNumeral(n: nat)
    ensures Numeral(Print(n)) == n
  {
    if n >= 10 {
      PrintNumeral(n / 10);
      assert Print(n)[..|Print(n)| - 1] == Print(n / 10);
    } else {
      assert Numeral("") == 0;
      assert Print(n)[..0] == "";
    }
  }

  lemma {:induction false} FixedNumeral(n: nat, w: nat)
    requires n < Pow10(w)
    ensures Numeral(Fixed(n, w)) == n
  {
    if w > 0 {
      FixedNumeral(n / 10, w - 1);
      assert Fixed(n, w)[..w - 1] == Fixed(n / 10, w - 1);
    }
  }

  /** How many digits a string starts with. */
  function Span(s: string): (n: nat)
    ensures n <= |s| && AllDigits(s[..n])
    ensures n < |s| ==> !IsDigit(s[n])
  {
    if s == "" || !IsDigit(s[0]) then 0
    else 1 + Span(s[1..])
  }

  lemma {:induction false} SpanUnique(s: string, n: nat)
    requires n <= |s| && AllDigits(s[..n]) && (n < |s| ==> !IsDigit(s[n]))
    ensures Span(s) == n
  {
    if n > 0 {
      assert s[..n][0] == s[0];
      assert s[1..][..n - 1] == s[..n][1..];
      SpanUnique(s[1..], n - 1);
    }
  }

  /** Reads a run of digits as an unsigned number of a given width; overflow and no digit are errors. */
  function ScanUint(s: string, limit: nat): Option<(nat, string)> {
    var n := Span(s);
    if n == 0 || Numeral(s[..n]) >= limit then None else Some((Numeral(s[..n]), s[n..]))
  }

  lemma ScanPrinted(n: nat, rest: string, limit: nat)
    requires n < limit && (rest != "" ==> !IsDigit(rest[0]))
    ensures ScanUint(Print(n) + rest, limit) == Some((n, rest))
  {
    var p := Print(n);
    assert (p + rest)[..|p|] == p && (p + rest)[|p|..] == rest;
    SpanUnique(p + rest, |p|);
    PrintNumeral(n);
  }

  /** No leading zeros. */
  lemma {:induction false} PrintIsShort(n: nat)
    ensures Print(n)[0] == '0' <==> n == 0
    ensures n == 0 ==> Print(n) == "0"
  {
    if n >= 10 {
      PrintIsShort(n / 10);
    }
  }
}
