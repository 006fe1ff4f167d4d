/** Text forms of byte strings: hexadecimal, and base64 without padding. */
module Binary {
  import opened Basics

  // ---------------------------------------------------------------- hexadecimal

  function HexDigit(n: nat): char
    requires n < 16
  {
    if n < 10 then '0' + n as char else 'a' + (n - 10) as char
  }

  /** Both letter cases are read; anything else is not a digit. */
  function HexValue(c: char): Option<nat> {
    if '0' <= c <= '9' then Some(c as int - '0' as int)
    else if 'a' <= c <= 'f' then Some(c as int - 'a' as int + 10)
    else if 'A' <= c <= 'F' then Some(c as int - 'A' as int + 10)
    else None
  }

  lemma HexDigitValue(n: nat)
    requires n < 16
    ensures HexValue(HexDigit(n)) == Some(n)
  {}

  function EncodeHex(b: Bytes): (s: string)
    ensures |s| == 2 * |b|
  {
    if b == [] then "" else [HexDigit(b[0] / 16), HexDigit(b[0] % 16)] + EncodeHex(b[1..])
  }

  function DecodeHex(s: string): Option<Bytes> {
    if s == "" then Some([])
    else if |s| == 1 then None
    else
      match (HexValue(s[0]), HexValue(s[1]), DecodeHex(s[2..]))
      case (Some(h), Some(l), Some(rest)) => if h < 16 && l < 16 then Some([16 * h + l] + rest) else None
      case _ => None
  }

  lemma {:induction false} HexRoundTrip(b: Bytes)
    ensures DecodeHex(EncodeHex(b)) == Some(b)
  {
    if b != [] {
      HexRoundTrip(b[1..]);
      HexDigitValue(b[0] / 16);
      HexDigitValue(b[0] % 16);
      assert EncodeHex(b)[2..] == EncodeHex(b[1..]);
      assert b == [b[0]] + b[1..];
    }
  }

  lemma HexInjective(a: Bytes, b: Bytes)
    requires EncodeHex(a) == EncodeHex(b)
    ensures a == b
  {
    HexRoundTrip(a);
    HexRoundTrip(b);
  }

  /** Two lower-case digits per byte, the high one first. */
  lemma {:induction false} EncodeHexAt(b: Bytes, i: nat)
    requires i < |b|
    ensures EncodeHex(b)[2 * i] == "0123456789abcdef"[b[i] / 16]
    ensures EncodeHex(b)[2 * i + 1] == "0123456789abcdef"[b[i] % 16]
  {
    if i == 0 {
      HexDigitIs(b[0] / 16);
      HexDigitIs(b[0] % 16);
    } else {
      EncodeHexAt(b[1..], i - 1);
    }
  }

  lemma HexDigitIs(n: nat)
    requires n < 16
    ensures HexDigit(n) == "0123456789abcdef"[n]
  {}

  predicate SameLetter(c: char, d: char) {
    c == d || ('a' <= d <= 'z' && c as int == d as int - 32)
  }

  /** The same text up to the case of the letters of `t`. */
  predicate AnyCase(s: string, t: string) {
    |s| == |t| && forall i :: 0 <= i < |s| ==> SameLetter(s[i], t[i])
  }

  lemma HexValueIff(c: char, n: nat)
    requires n < 16
    ensures HexValue(c) == Some(n) <==> SameLetter(c, HexDigit(n))
  {
    assert HexDigit(n) as int == if n < 10 then 48 + n else 87 + n;
  }

  lemma AnyCaseCons(c: char, d: char, s: string, t: string)
    ensures AnyCase([c] + s, [d] + t) <==> SameLetter(c, d) && AnyCase(s, t)
  {
    if AnyCase([c] + s, [d] + t) {
      assert SameLetter(([c] + s)[0], ([d] + t)[0]);
      forall i | 0 <= i < |s| ensures SameLetter(s[i], t[i]) {
        assert SameLetter(([c] + s)[i + 1], ([d] + t)[i + 1]);
      }
    }
  }

  lemma SplitByte(h: nat, l: nat, x: Byte)
    requires h < 16 && l < 16
    ensures 16 * h + l == x <==> h == x / 16 && l == x % 16
  {}

  /** Exactly the digits of the bytes are read as the bytes, each in either case. */
  lemma {:induction false} DecodeHexIff(s: string, b: Bytes)
    ensures DecodeHex(s) == Some(b) <==> AnyCase(s, EncodeHex(b))
  {
    if |s| >= 2 && b != [] {
      DecodeHexIff(s[2..], b[1..]);
      var h, l := HexDigit(b[0] / 16), HexDigit(b[0] % 16);
      AnyCaseCons(s[0], h, [s[1]] + s[2..], [l] + EncodeHex(b[1..]));
      AnyCaseCons(s[1], l, s[2..], EncodeHex(b[1..]));
      assert s == [s[0]] + ([s[1]] + s[2..]) && EncodeHex(b) == [h] + ([l] + EncodeHex(b[1..]));
      HexValueIff(s[0], b[0] / 16);
      HexValueIff(s[1], b[0] % 16);
      DecodePair(s, b);
    }
  }

  lemma DecodePair(s: string, b: Bytes)
    requires |s| >= 2 && b != []
    ensures DecodeHex(s) == Some(b) <==>
      HexValue(s[0]) == Some(b[0] / 16) && HexValue(s[1]) == Some(b[0] % 16) && DecodeHex(s[2..]) == Some(b[1..])
  {
    match (HexValue(s[0]), HexValue(s[1]), DecodeHex(s[2..]))
    case (Some(h), Some(l), Some(rest)) =>
      if h < 16 && l < 16 {
        SplitByte(h, l, b[0]);
        assert ([16 * h + l] + rest)[0] == 16 * h + l && ([16 * h + l] + rest)[1..] == rest;
        assert b == [b[0]] + b[1..];
      }
    case _ =>
  }

  predicate HexText(s: string) {
    forall i :: 0 <= i < |s| ==> '0' <= s[i] <= '9' || 'a' <= s[i] <= 'f'
  }

  lemma {:induction false} EncodeHexText(b: Bytes)
    ensures HexText(EncodeHex(b))
  {
    if b != [] {
      EncodeHexText(b[1..]);
    }
  }

  // ---------------------------------------------------------------- base64, sections 3.2, 4 and 5 of RFC 4648

  /** The two alphabets differ in their last two characters. */
  datatype Alphabet = Standard | Url

  function Symbol(a: Alphabet, n: nat): char
    requires n < 64
  {
    if n < 26 then 'A' + n as char
    else if n < 52 then 'a' + (n - 26) as char
    else if n < 62 then '0' + (n - 52) as char
    else if n == 62 then (if a.Standard? then '+' else '-')
    else (if a.Standard? then '/' else '_')
  }

  const CAPITALS := "ABCDEFGHIJKLMNOPQRSTUVWXYZ"
  const SMALLS := "abcdefghijklmnopqrstuvwxyz"
  const DIGITS := "0123456789"

  lemma CapitalIs(n: nat)
    requires n < 26
    ensures CAPITALS[n] == 'A' + n as char
  {}

  lemma SmallIs(n: nat)
    requires n < 26
    ensures SMALLS[n] == 'a' + n as char
  {}

  /** The tables of sections 4 and 5, from which the numbers of the symbols are read off. */
  lemma SymbolIs(a: Alphabet, n: nat)
    requires n < 64
    ensures Symbol(a, n) == (CAPITALS + SMALLS + DIGITS + if a.Standard? then "+/" else "-_")[n]
  {
    if n < 26 {
      CapitalIs(n);
    } else if n < 52 {
      SmallIs(n - 26);
    } else if n < 62 {
      assert DIGITS[n - 52] == '0' + (n - 52) as char;
    }
  }

  function SymbolValue(a: Alphabet, c: char): Option<nat> {
    if 'A' <= c <= 'Z' then Some(c as int - 'A' as int)
    else if 'a' <= c <= 'z' then Some(c as int - 'a' as int + 26)
    else if '0' <= c <= '9' then Some(c as int - '0' as int + 52)
    else if c == (if a.Standard? then '+' else '-') then Some(62)
    else if c == (if a.Standard? then '/' else '_') then Some(63)
    else None
  }

  lemma SymbolRoundTrip(a: Alphabet, n: nat)
    requires n < 64
    ensures SymbolValue(a, Symbol(a, n)) == Some(n)
  {}

  function Encode64(a: Alphabet, b: Bytes): string {
    match |b|
    case 0 => ""
    case 1 => [Symbol(a, b[0] / 4), Symbol(a, b[0] % 4 * 16)]
    case 2 => [Symbol(a, b[0] / 4), Symbol(a, b[0] % 4 * 16 + b[1] / 16), Symbol(a, b[1] % 16 * 4)]
    case _ =>
      [Symbol(a, b[0] / 4), Symbol(a, b[0] % 4 * 16 + b[1] / 16),
       Symbol(a, b[1] % 16 * 4 + b[2] / 64), Symbol(a, b[2] % 64)] + Encode64(a, b[3..])
  }

  function Values64(a: Alphabet, s: string): Option<seq<nat>> {
    if s == "" then Some([])
    else
      match (SymbolValue(a, s[0]), Values64(a, s[1..]))
      case (Some(v), Some(rest)) => Some([v] + rest)
      case _ => None
  }

  /** The bytes a run of sextets stands for; a lone last sextet is an error, surplus low bits are dropped. */
  function Pack(v: seq<nat>): Option<Bytes> {
    match |v|
    case 0 => Some([])
    case 1 => None
    case 2 => Some([(v[0] * 4 + v[1] / 16) % 256])
    case 3 => Some([(v[0] * 4 + v[1] / 16) % 256, (v[1] % 16 * 16 + v[2] / 4) % 256])
    case _ =>
      match Pack(v[4..])
      case None => None
      case Some(rest) =>
        Some([(v[0] * 4 + v[1] / 16) % 256, (v[1] % 16 * 16 + v[2] / 4) % 256, (v[2] % 4 * 64 + v[3]) % 256] + rest)
  }

  /** Line breaks inside the text are skipped. */
  function WithoutBreaks(s: string): string {
    if s == "" then ""
    else (if s[0] == '\r' || s[0] == '\n' then "" else [s[0]]) + WithoutBreaks(s[1..])
  }

  function Decode64(a: Alphabet, s: string): Option<Bytes> {
    match Values64(a, WithoutBreaks(s))
    case None => None
    case Some(v) => Pack(v)
  }

  predicate Text64(a: Alphabet, s: string) {
    forall i :: 0 <= i < |s| ==> SymbolValue(a, s[i]).Some?
  }

  lemma {:induction false} EncodedText(a: Alphabet, b: Bytes)
    ensures Text64(a, Encode64(a, b))
    ensures |Encode64(a, b)| == (8 * |b| + 5) / 6
  {
    if |b| >= 3 {
      EncodedText(a, b[3..]);
    }
  }

  lemma {:induction false} TextHasNoBreaks(a: Alphabet, s: string)
    requires Text64(a, s)
    ensures WithoutBreaks(s) == s
  {
    if s != "" {
      TextHasNoBreaks(a, s[1..]);
      assert SymbolValue(a, s[0]).Some?;
    }
  }

  lemma Values64Cons(a: Alphabet, n: nat, s: string)
    requires n < 64
    ensures Values64(a, [Symbol(a, n)] + s) ==
      match Values64(a, s) { case None => None case Some(v) => Some([n] + v) }
  {
    SymbolRoundTrip(a, n);
    assert ([Symbol(a, n)] + s)[1..] == s;
  }

  /** The sextets of a byte string. */
  function Sextets(b: Bytes): seq<nat> {
    match |b|
    case 0 => []
    case 1 => [b[0] / 4, b[0] % 4 * 16]
    case 2 => [b[0] / 4, b[0] % 4 * 16 + b[1] / 16, b[1] % 16 * 4]
    case _ => [b[0] / 4, b[0] % 4 * 16 + b[1] / 16, b[1] % 16 * 4 + b[2] / 64, b[2] % 64] + Sextets(b[3..])
  }

  function Symbols(a: Alphabet, v: seq<nat>): string
    requires forall i :: 0 <= i < |v| ==> v[i] < 64
  {
    seq(|v|, i requires 0 <= i < |v| => Symbol(a, v[i]))
  }

  lemma {:induction false} SextetsSmall(b: Bytes)
    ensures forall i :: 0 <= i < |Sextets(b)| ==> Sextets(b)[i] < 64
  {
    if |b| >= 3 {
      SextetsSmall(b[3..]);
    }
  }

  lemma {:induction false} SymbolsValues(a: Alphabet, v: seq<nat>)
    requires forall i :: 0 <= i < |v| ==> v[i] < 64
    ensures Values64(a, Symbols(a, v)) == Some(v)
  {
    if v != [] {
      SymbolsValues(a, v[1..]);
      Values64Cons(a, v[0], Symbols(a, v[1..]));
      assert Symbols(a, v) == [Symbol(a, v[0])] + Symbols(a, v[1..]);
      assert v == [v[0]] + v[1..];
    }
  }

  lemma {:induction false} EncodeIsSymbols(a: Alphabet, b: Bytes)
    requires forall i :: 0 <= i < |Sextets(b)| ==> Sextets(b)[i] < 64
    ensures Encode64(a, b) == Symbols(a, Sextets(b))
  {
    if |b| >= 3 {
      forall i | 0 <= i < |Sextets(b[3..])| ensures Sextets(b[3..])[i] < 64 {
        assert Sextets(b)[4 + i] < 64;
      }
      EncodeIsSymbols(a, b[3..]);
    }
  }

  lemma LowDigit(a: nat, h: nat)
    requires h < 16
    ensures (a * 16 + h) % 16 == h && (a * 16 + h) / 16 == a
  {}

  lemma HighDigit(l: nat, z: nat)
    requires z < 4
    ensures (l * 4 + z) / 4 == l && (l * 4 + z) % 4 == z
  {}

  lemma FirstByte(x: Byte, y: nat)
    requires y < 16
    ensures (x / 4 * 4 + (x % 4 * 16 + y) / 16) % 256 == x
  {
    LowDigit(x % 4, y);
  }

  lemma SecondByte(x: Byte, y: Byte, z: nat)
    requires z < 4
    ensures ((x % 4 * 16 + y / 16) % 16 * 16 + (y % 16 * 4 + z) / 4) % 256 == y
  {
    LowDigit(x % 4, y / 16);
    HighDigit(y % 16, z);
  }

  lemma ThirdByte(y: Byte, z: Byte)
    ensures ((y % 16 * 4 + z / 64) % 4 * 64 + z % 64) % 256 == z
  {
    HighDigit(y % 16, z / 64);
  }

  /** One full group: four sextets stand for their three bytes, in front of whatever follows. */
  lemma PackGroup(x: Byte, y: Byte, z: Byte, v: seq<nat>, b: Bytes)
    requires Pack(v) == Some(b)
    ensures Pack([x / 4, x % 4 * 16 + y / 16, y % 16 * 4 + z / 64, z % 64] + v) == Some([x, y, z] + b)
  {
    var group: seq<nat> := [x / 4, x % 4 * 16 + y / 16, y % 16 * 4 + z / 64, z % 64];
    assert (group + v)[4..] == v;
    FirstByte(x, y / 16);
    SecondByte(x, y, z / 64);
    ThirdByte(y, z);
  }

  lemma PackTwo(x: Byte, y: Byte)
    ensures Pack([x / 4, x % 4 * 16 + y / 16, y % 16 * 4]) == Some([x, y])
  {
    FirstByte(x, y / 16);
    SecondByte(x, y, 0);
    assert y % 16 * 4 + 0 == y % 16 * 4;
  }

  lemma PackOne(x: Byte)
    ensures Pack([x / 4, x % 4 * 16]) == Some([x])
  {
    FirstByte(x, 0);
    assert x % 4 * 16 + 0 == x % 4 * 16;
  }

  lemma {:induction false} PackSextets(b: Bytes)
    ensures Pack(Sextets(b)) == Some(b)
  {
    if |b| == 0 {
    } else if |b| == 1 {
      PackOne(b[0]);
      assert b == [b[0]];
    } else if |b| == 2 {
      PackTwo(b[0], b[1]);
      assert b == [b[0], b[1]];
    } else {
      PackSextets(b[3..]);
      PackGroup(b[0], b[1], b[2], Sextets(b[3..]), b[3..]);
      assert b == [b[0], b[1], b[2]] + b[3..];
    }
  }

  /** Decoding undoes encoding, for every length and in both alphabets. */
  lemma Base64RoundTrip(a: Alphabet, b: Bytes)
    ensures Decode64(a, Encode64(a, b)) == Some(b)
  {
    EncodedText(a, b);
    TextHasNoBreaks(a, Encode64(a, b));
    SextetsSmall(b);
    EncodeIsSymbols(a, b);
    SymbolsValues(a, Sextets(b));
    PackSextets(b);
  }

  predicate Small(v: seq<nat>) {
    forall i :: 0 <= i < |v| ==> v[i] < 64
  }

  /** Equal but for the last element, which may differ when the bytes do not fill it. */
  predicate Almost<T(==)>(v: seq<T>, w: seq<T>, full: bool) {
    |v| == |w| && (forall i :: 0 <= i < |v| - 1 ==> v[i] == w[i]) && (full ==> v == w)
  }

  lemma FirstSextets(v0: nat, v1: nat)
    requires v0 < 64 && v1 < 64
    ensures var x := (v0 * 4 + v1 / 16) % 256; x / 4 == v0 && x % 4 == v1 / 16
  {}

  lemma SecondSextets(v1: nat, v2: nat)
    requires v1 < 64 && v2 < 64
    ensures var y := (v1 % 16 * 16 + v2 / 4) % 256; y / 16 == v1 % 16 && y % 16 == v2 / 4
  {}

  lemma ThirdSextets(v2: nat, v3: nat)
    requires v2 < 64 && v3 < 64
    ensures var z := (v2 % 4 * 64 + v3) % 256; z / 64 == v2 % 4 && z % 64 == v3
  {}

  lemma FourSextets(v0: nat, v1: nat, v2: nat, v3: nat, rest: Bytes)
    requires v0 < 64 && v1 < 64 && v2 < 64 && v3 < 64
    ensures Sextets(
      [(v0 * 4 + v1 / 16) % 256, (v1 % 16 * 16 + v2 / 4) % 256, (v2 % 4 * 64 + v3) % 256] + rest) ==
      [v0, v1, v2, v3] + Sextets(rest)
  {
    var b := [(v0 * 4 + v1 / 16) % 256, (v1 % 16 * 16 + v2 / 4) % 256, (v2 % 4 * 64 + v3) % 256] + rest;
    FirstSextets(v0, v1);
    SecondSextets(v1, v2);
    ThirdSextets(v2, v3);
    assert b[3..] == rest;
    assert b[0] % 4 * 16 + b[1] / 16 == v1 && b[1] % 16 * 4 + b[2] / 64 == v2;
  }

  lemma PackInverseTwo(v0: nat, v1: nat)
    requires v0 < 64 && v1 < 64
    ensures Almost([v0, v1], Sextets([(v0 * 4 + v1 / 16) % 256]), false)
  {
    FirstSextets(v0, v1);
  }

  lemma PackInverseThree(v0: nat, v1: nat, v2: nat)
    requires v0 < 64 && v1 < 64 && v2 < 64
    ensures Almost([v0, v1, v2], Sextets([(v0 * 4 + v1 / 16) % 256, (v1 % 16 * 16 + v2 / 4) % 256]), false)
  {
    FirstSextets(v0, v1);
    SecondSextets(v1, v2);
  }

  lemma PackTwoIs(v: seq<nat>)
    requires |v| == 2
    ensures Pack(v) == Some([(v[0] * 4 + v[1] / 16) % 256]) && v == [v[0], v[1]]
  {}

  lemma PackThreeIs(v: seq<nat>)
    requires |v| == 3
    ensures Pack(v) == Some([(v[0] * 4 + v[1] / 16) % 256, (v[1] % 16 * 16 + v[2] / 4) % 256])
    ensures v == [v[0], v[1], v[2]]
  {}

  lemma PackInverseShort(v: seq<nat>) returns (b: Bytes)
    requires Small(v) && 1 < |v| < 4
    ensures Pack(v) == Some(b) && |b| == |v| - 1 && Almost(v, Sextets(b), false)
  {
    if |v| == 2 {
      b := [(v[0] * 4 + v[1] / 16) % 256];
      PackTwoIs(v);
      PackInverseTwo(v[0], v[1]);
    } else {
      b := [(v[0] * 4 + v[1] / 16) % 256, (v[1] % 16 * 16 + v[2] / 4) % 256];
      PackThreeIs(v);
      PackInverseThree(v[0], v[1], v[2]);
    }
  }

  lemma ThreeMore(n: nat)
    ensures (3 + n) % 3 == n % 3
  {}

  lemma {:induction false} PackInverse(v: seq<nat>, b: Bytes)
    requires Small(v) && Pack(v) == Some(b)
    ensures Almost(v, Sextets(b), |b| % 3 == 0)
    decreases v, 1
  {
    if |v| >= 4 {
      var rest := Pack(v[4..]).value;
      PackInverseGroup(v, rest);
      ThreeMore(|rest|);
    } else if |v| > 1 {
      var b' := PackInverseShort(v);
      assert b == b';
    }
  }

  lemma PackInverseGroup(v: seq<nat>, rest: Bytes)
    requires Small(v) && |v| >= 4 && Pack(v[4..]) == Some(rest)
    ensures Pack(v).Some? && |Pack(v).value| == 3 + |rest|
    ensures Almost(v, Sextets(Pack(v).value), |rest| % 3 == 0)
    decreases v, 0
  {
    PackInverse(v[4..], rest);
    FourSextets(v[0], v[1], v[2], v[3], rest);
    AlmostBehind([v[0], v[1], v[2], v[3]], v[4..], Sextets(rest), |rest| % 3 == 0);
    assert v == [v[0], v[1], v[2], v[3]] + v[4..];
  }

  lemma AlmostBehind<T>(head: seq<T>, v: seq<T>, w: seq<T>, full: bool)
    requires Almost(v, w, full) && (v == [] ==> full)
    ensures Almost(head + v, head + w, full)
  {}

  lemma SymbolInverse(a: Alphabet, c: char)
    requires SymbolValue(a, c).Some?
    ensures SymbolValue(a, c).value < 64 && Symbol(a, SymbolValue(a, c).value) == c
  {}

  lemma {:induction false} ValuesInverse(a: Alphabet, s: string)
    requires Values64(a, s).Some?
    ensures Small(Values64(a, s).value) && Symbols(a, Values64(a, s).value) == s
  {
    if s != "" {
      SymbolInverse(a, s[0]);
      ValuesInverse(a, s[1..]);
      assert s == [s[0]] + s[1..];
    }
  }

  lemma {:induction false} ValuesIff(a: Alphabet, s: string)
    ensures Values64(a, s).Some? <==> Text64(a, s)
    ensures Values64(a, s).Some? ==> |Values64(a, s).value| == |s|
  {
    if s != "" {
      ValuesIff(a, s[1..]);
      assert Text64(a, s) <==> SymbolValue(a, s[0]).Some? && Text64(a, s[1..]) by {
        assert forall i :: 0 <= i < |s| - 1 ==> s[1..][i] == s[i + 1];
        assert forall i :: 0 < i < |s| ==> s[i] == s[1..][i - 1];
      }
    }
  }

  lemma {:induction false} PackIff(v: seq<nat>)
    ensures Pack(v).Some? <==> |v| % 4 != 1
  {
    if |v| >= 4 {
      PackIff(v[4..]);
      assert |v| == 4 + |v[4..]|;
      FourMore(|v[4..]|);
      PackSome(v);
    }
  }

  lemma PackSome(v: seq<nat>)
    requires |v| >= 4
    ensures Pack(v).Some? <==> Pack(v[4..]).Some?
  {}

  lemma FourMore(n: nat)
    ensures (4 + n) % 4 == n % 4
  {}

  /** Line breaks aside, exactly the texts of symbols whose number is not one more than a multiple of four. */
  lemma DecodableIff(a: Alphabet, s: string)
    ensures Decode64(a, s).Some? <==> Text64(a, WithoutBreaks(s)) && |WithoutBreaks(s)| % 4 != 1
  {
    ValuesIff(a, WithoutBreaks(s));
    if Text64(a, WithoutBreaks(s)) {
      PackIff(Values64(a, WithoutBreaks(s)).value);
    }
  }

  /** Whatever is decoded is, line breaks aside, the encoding of the result, but for surplus bits of its last
      symbol. */
  lemma Base64Converse(a: Alphabet, s: string, b: Bytes)
    requires Decode64(a, s) == Some(b)
    ensures Almost(WithoutBreaks(s), Encode64(a, b), |b| % 3 == 0)
  {
    var v := Values64(a, WithoutBreaks(s)).value;
    ValuesInverse(a, WithoutBreaks(s));
    PackInverse(v, b);
    SextetsSmall(b);
    EncodeIsSymbols(a, b);
  }

  lemma GroupValue(x: nat, y: nat, z: nat)
    requires x < 256 && y < 256 && z < 256
    ensures 65_536 * x + 256 * y + z ==
      262_144 * (x / 4) + 4_096 * (x % 4 * 16 + y / 16) + 64 * (y % 16 * 4 + z / 64) + z % 64
  {}

  /** A full group of three bytes becomes the four symbols whose numbers, most significant first, make up its 24
      bits; sections 4 and 5 of RFC 4648. */
  lemma EncodeGroup(a: Alphabet, x: Byte, y: Byte, z: Byte, rest: Bytes) returns (n0: nat, n1: nat, n2: nat, n3: nat)
    ensures n0 < 64 && n1 < 64 && n2 < 64 && n3 < 64
    ensures var xi: nat, yi: nat, zi: nat := x, y, z;
      65_536 * xi + 256 * yi + zi == 262_144 * n0 + 4_096 * n1 + 64 * n2 + n3
    ensures Encode64(a, [x, y, z] + rest) ==
      [Symbol(a, n0), Symbol(a, n1), Symbol(a, n2), Symbol(a, n3)] + Encode64(a, rest)
  {
    n0, n1, n2, n3 := x / 4, x % 4 * 16 + y / 16, y % 16 * 4 + z / 64, z % 64;
    GroupValue(x, y, z);
    assert ([x, y, z] + rest)[3..] == rest;
  }

  /** A last group of one or two bytes is encoded as if zeros followed, without padding characters. */
  lemma EncodeTail(a: Alphabet, x: Byte, y: Byte)
    ensures Encode64(a, [x]) == Encode64(a, [x, 0, 0])[..2]
    ensures Encode64(a, [x, y]) == Encode64(a, [x, y, 0])[..3]
  {}
}
