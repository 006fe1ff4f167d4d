/** Splitting, trimming and formatted scanning of strings, as the Go standard library does them. */
module Text {
  import opened Basics
  import opened Decimal

  /** Unicode white space. */
  predicate IsSpace(c: char) {
    c in {'\t', '\n', '\U{000B}', '\U{000C}', '\r', ' ', '\U{0085}', '\U{00A0}', '\U{1680}',
          '\U{2028}', '\U{2029}', '\U{202F}', '\U{205F}', '\U{3000}'}
    || '\U{2000}' <= c <= '\U{200A}'
  }

  /** White space inside ASCII. */
  lemma AsciiSpaces(c: char)
    requires c < '\U{0080}'
    ensures IsSpace(c) <==> c in {' ', '\t', '\n', '\U{000B}', '\U{000C}', '\r'}
  {}

  function TrimLeft(s: string): string {
    if s != "" && IsSpace(s[0]) then TrimLeft(s[1..]) else s
  }

  function TrimRight(s: string): string {
    if s != "" && IsSpace(s[|s| - 1]) then TrimRight(s[..|s| - 1]) else s
  }

  function TrimSpace(s: string): string {
    TrimRight(TrimLeft(s))
  }

  // ---------------------------------------------------------------- splitting

  function Split(s: string, sep: char): (parts: seq<string>)
    ensures |parts| >= 1
  {
    if s == "" then [""]
    else
      var rest := Split(s[1..], sep);
      if s[0] == sep then [""] + rest else [[s[0]] + rest[0]] + rest[1..]
  }

  lemma {:induction false} SplitFirst(a: string, sep: char, rest: string)
    requires sep !in a
    ensures Split(a + [sep] + rest, sep) == [a] + Split(rest, sep)
  {
    var s := a + [sep] + rest;
    if a == "" {
      assert s[1..] == rest;
    } else {
      assert s[1..] == a[1..] + [sep] + rest;
      SplitFirst(a[1..], sep, rest);
      assert a == [a[0]] + a[1..];
    }
  }

  lemma {:induction false} SplitLast(a: string, sep: char)
    requires sep !in a
    ensures Split(a, sep) == [a]
  {
    if a != "" {
      SplitLast(a[1..], sep);
      assert a == [a[0]] + a[1..];
    }
  }

  function Join(parts: seq<string>, sep: char): string
    requires |parts| >= 1
  {
    if |parts| == 1 then parts[0] else parts[0] + [sep] + Join(parts[1..], sep)
  }

  /** Splitting undoes joining when no part contains the separator. */
  lemma {:induction false} SplitJoin(parts: seq<string>, sep: char)
    requires |parts| >= 1 && forall i :: 0 <= i < |parts| ==> sep !in parts[i]
    ensures Split(Join(parts, sep), sep) == parts
  {
    if |parts| == 1 {
      SplitLast(parts[0], sep);
    } else {
      SplitJoin(parts[1..], sep);
      SplitFirst(parts[0], sep, Join(parts[1..], sep));
    }
  }

  // ---------------------------------------------------------------- formatted scanning

  /** A literal of the format must come next. */
  function ScanLiteral(s: string, literal: string): Option<string> {
    if literal <= s then Some(s[|literal|..]) else None
  }

  /** Blanks before a number are skipped; a line break there is an error. */
  function SkipBlanks(s: string): Option<string> {
    if s == "" || !IsSpace(s[0]) then Some(s)
    else if s[0] == '\n' then None
    else SkipBlanks(s[1..])
  }

  /** `%d` into an unsigned variable that holds values below `limit`. */
  function ScanUnsigned(s: string, limit: nat): Option<(nat, string)> {
    match SkipBlanks(s)
    case None => None
    case Some(rest) => ScanUint(rest, limit)
  }

  const INT_LIMIT := 0x8000_0000_0000_0000

  /** `%d` into a 64-bit signed variable. */
  function ScanSigned(s: string): Option<(int, string)> {
    match SkipBlanks(s)
    case None => None
    case Some(rest) =>
      if rest != "" && rest[0] == '-' then
        match ScanUint(rest[1..], INT_LIMIT + 1) {
          case None => None
          case Some((n, tail)) => var value: int := n; Some((0 - value, tail))
        }
      else ScanUint(if rest != "" && rest[0] == '+' then rest[1..] else rest, INT_LIMIT)
  }

  lemma ScanUnsignedPrinted(n: nat, rest: string, limit: nat)
    requires n < limit && (rest != "" ==> !IsDigit(rest[0]))
    ensures ScanUnsigned(Print(n) + rest, limit) == Some((n, rest))
  {
    assert IsDigit((Print(n) + rest)[0]);
    ScanPrinted(n, rest, limit);
  }

  lemma ScanSignedPrinted(n: nat, rest: string)
    requires n < INT_LIMIT && (rest != "" ==> !IsDigit(rest[0]))
    ensures ScanSigned(Print(n) + rest) == Some((n as int, rest))
  {
    assert IsDigit((Print(n) + rest)[0]);
    ScanPrinted(n, rest, INT_LIMIT);
  }
}
