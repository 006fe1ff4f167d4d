/** Password hashes as PHC strings: printing, parsing and verification around an abstract KDF. */
module Phc {
  import opened Basics
  import opened Decimal
  import opened Binary
  import opened Text
  import Domain

  const UINT32 := 0x1_0000_0000
  const UINT8 := 0x100
  const VERSION := 19

  datatype Params = Params(memoryKiB: nat, time: nat, parallelism: nat, saltLen: nat, keyLen: nat)

  /** The parameters fit the widths of their fields, and the KDF accepts them. */
  predicate ParamsOk(p: Params) {
    p.memoryKiB < UINT32 && 1 <= p.time < UINT32 && 1 <= p.parallelism < UINT8
    && p.saltLen < UINT32 && p.keyLen < UINT32
  }

  /** password, salt, time, memory, parallelism, key length */
  type Kdf = (Bytes, Bytes, nat, nat, nat, nat) -> Bytes

  ghost predicate KdfOk(kdf: Kdf) {
    forall pw, salt, t, m, p, n :: |kdf(pw, salt, t, m, p, n)| == n
  }

  datatype Parsed = Parsed(memoryKiB: nat, time: nat, parallelism: nat, salt: Bytes, key: Bytes)

  function ParamText(m: nat, t: nat, p: nat): string {
    "m=" + Print(m) + ",t=" + Print(t) + ",p=" + Print(p)
  }

  /** The parts of `$argon2id$v=%d$m=%d,t=%d,p=%d$%s$%s` between the dollar signs. */
  function Parts(x: Parsed): seq<string> {
    AnyParts("argon2id", VERSION, x)
  }

  /** The six parts with any algorithm, version and costs. */
  function AnyParts(algorithm: string, version: nat, x: Parsed): seq<string> {
    ["", algorithm, "v=" + Print(version), ParamText(x.memoryKiB, x.time, x.parallelism),
     Encode64(Standard, x.salt), Encode64(Standard, x.key)]
  }

  function Format(x: Parsed): string {
    Join(Parts(x), '$')
  }

  function Hash(kdf: Kdf, p: Params, salt: Bytes, raw: Bytes): Option<string> {
    if |raw| > Domain.PASSWORD_MAX_LEN then None
    else
      var key := kdf(raw, salt, p.time, p.memoryKiB, p.parallelism, p.keyLen);
      Some(Format(Parsed(p.memoryKiB, p.time, p.parallelism, salt, key)))
  }

  function ScanVersion(s: string): Option<int> {
    match ScanLiteral(s, "v=")
    case None => None
    case Some(rest) =>
      match ScanSigned(rest)
      case None => None
      case Some((n, _)) => Some(n)
  }

  function ScanField(s: string, literal: string, limit: nat): Option<(nat, string)> {
    match ScanLiteral(s, literal)
    case None => None
    case Some(rest) => ScanUnsigned(rest, limit)
  }

  /** The three cost parameters; what follows the last number is not looked at. */
  function ScanParams(s: string): Option<(nat, nat, nat)> {
    match ScanField(s, "m=", UINT32)
    case None => None
    case Some((m, s1)) =>
      match ScanField(s1, ",t=", UINT32)
      case None => None
      case Some((t, s2)) =>
        match ScanField(s2, ",p=", UINT8)
        case None => None
        case Some((p, _)) => Some((m, t, p))
  }

  function Parse(h: string): Option<Parsed> {
    var parts := Split(h, '$');
    if |parts| != 6 || parts[1] != "argon2id" then None
    else if ScanVersion(parts[2]) != Some(VERSION) then None
    else
      match (ScanParams(parts[3]), Decode64(Standard, parts[4]), Decode64(Standard, parts[5]))
      case (Some((m, t, p)), Some(salt), Some(key)) => Some(Parsed(m, t, p, salt, key))
      case _ => None
  }

  /** An overlong password is refused before the hash is looked at; a malformed hash is an error. */
  function Verify(kdf: Kdf, h: string, raw: Bytes): Option<bool> {
    if |raw| > Domain.PASSWORD_MAX_LEN then Some(false)
    else
      match Parse(h)
      case None => None
      case Some(x) => Some(Derives(kdf, x, raw))
  }

  predicate Derives(kdf: Kdf, x: Parsed, raw: Bytes) {
    kdf(raw, x.salt, x.time, x.memoryKiB, x.parallelism, |x.key| % UINT32) == x.key
  }

  // ---------------------------------------------------------------- what was printed is parsed again

  lemma ScanFieldPrinted(literal: string, n: nat, rest: string, limit: nat)
    requires n < limit && (rest != "" ==> !IsDigit(rest[0]))
    ensures ScanField(literal + Print(n) + rest, literal, limit) == Some((n, rest))
  {
    var s := literal + Print(n) + rest;
    assert s[|literal|..] == Print(n) + rest;
    ScanUnsignedPrinted(n, rest, limit);
  }

  lemma ScanFieldTooLarge(literal: string, n: nat, rest: string, limit: nat)
    requires n >= limit && (rest != "" ==> !IsDigit(rest[0]))
    ensures ScanField(literal + Print(n) + rest, literal, limit).None?
  {
    var s := Print(n) + rest;
    assert (literal + Print(n) + rest)[|literal|..] == s;
    assert IsDigit(s[0]) && s[..|Print(n)|] == Print(n);
    SpanUnique(s, |Print(n)|);
    PrintNumeral(n);
  }

  /** The costs are read if each of them fits its field. */
  lemma ParamsParse(m: nat, t: nat, p: nat)
    ensures ScanParams(ParamText(m, t, p)) ==
      if m < 0x1_0000_0000 && t < 0x1_0000_0000 && p < 0x100 then Some((m, t, p)) else None
  {
    var s2 := ",p=" + Print(p);
    var s1 := ",t=" + Print(t) + s2;
    assert ParamText(m, t, p) == "m=" + Print(m) + s1 && s2 == ",p=" + Print(p) + "";
    if m >= UINT32 {
      ScanFieldTooLarge("m=", m, s1, UINT32);
    } else {
      ScanFieldPrinted("m=", m, s1, UINT32);
      if t >= UINT32 {
        ScanFieldTooLarge(",t=", t, s2, UINT32);
      } else {
        ScanFieldPrinted(",t=", t, s2, UINT32);
        if p >= UINT8 {
          ScanFieldTooLarge(",p=", p, "", UINT8);
        } else {
          ScanFieldPrinted(",p=", p, "", UINT8);
        }
      }
    }
  }

  lemma VersionParse(n: nat)
    ensures ScanVersion("v=" + Print(n)) == if n < INT_LIMIT then Some(n as int) else None
  {
    var s := "v=" + Print(n);
    assert s[2..] == Print(n) + "";
    if n < INT_LIMIT {
      ScanSignedPrinted(n, "");
    } else {
      assert IsDigit(s[2..][0]) && s[2..][..|Print(n)|] == Print(n);
      SpanUnique(s[2..], |Print(n)|);
      PrintNumeral(n);
    }
  }

  lemma DigitsHaveNoDollar(s: string)
    requires AllDigits(s)
    ensures '$' !in s
  {}

  lemma TextHasNoDollar(a: Alphabet, s: string)
    requires Text64(a, s)
    ensures '$' !in s
  {
    assert SymbolValue(a, '$').None?;
  }

  lemma AnyPartsSplit(algorithm: string, version: nat, x: Parsed)
    requires '$' !in algorithm
    ensures Split(Join(AnyParts(algorithm, version, x), '$'), '$') == AnyParts(algorithm, version, x)
  {
    EncodedText(Standard, x.salt);
    EncodedText(Standard, x.key);
    TextHasNoDollar(Standard, Encode64(Standard, x.salt));
    TextHasNoDollar(Standard, Encode64(Standard, x.key));
    forall n: nat ensures '$' !in Print(n) {
      DigitsHaveNoDollar(Print(n));
    }
    SplitJoin(AnyParts(algorithm, version, x), '$');
  }

  /** The printed string splits into exactly its six parts. */
  lemma FormatSplits(x: Parsed)
    ensures Split(Format(x), '$') == Parts(x)
  {
    AnyPartsSplit("argon2id", VERSION, x);
  }

  /** Of the strings of this form exactly those of the algorithm, the version and costs that fit are parsed. */
  lemma ParseIff(algorithm: string, version: nat, x: Parsed)
    requires '$' !in algorithm
    ensures Parse(Join(AnyParts(algorithm, version, x), '$')) ==
      if algorithm == "argon2id" && version == 19
         && x.memoryKiB < 0x1_0000_0000 && x.time < 0x1_0000_0000 && x.parallelism < 0x100
      then Some(x) else None
  {
    AnyPartsSplit(algorithm, version, x);
    VersionParse(version);
    ParamsParse(x.memoryKiB, x.time, x.parallelism);
    Base64RoundTrip(Standard, x.salt);
    Base64RoundTrip(Standard, x.key);
  }

  /** Nor is a string with fewer or more parts. */
  lemma OtherParts(parts: seq<string>)
    requires |parts| >= 1 && |parts| != 6 && forall i :: 0 <= i < |parts| ==> '$' !in parts[i]
    ensures Parse(Join(parts, '$')).None?
  {
    SplitJoin(parts, '$');
  }

  lemma ParseFormat(x: Parsed)
    requires x.memoryKiB < UINT32 && x.time < UINT32 && x.parallelism < UINT8
    ensures Parse(Format(x)) == Some(x)
  {
    ParseIff("argon2id", VERSION, x);
  }

  lemma VerifyParsed(kdf: Kdf, h: string, x: Parsed, raw: Bytes)
    requires Parse(h) == Some(x)
    ensures Verify(kdf, h, raw) == Some(|raw| <= Domain.PASSWORD_MAX_LEN && Derives(kdf, x, raw))
  {}

  lemma KeyFits(kdf: Kdf, x: Parsed, raw: Bytes)
    requires |x.key| < UINT32
    ensures Derives(kdf, x, raw) <==> kdf(raw, x.salt, x.time, x.memoryKiB, x.parallelism, |x.key|) == x.key
  {}

  /** A hash that `Hash` produced verifies without error against every password, and positively exactly
      against those whose KDF output agrees - for every salt, key length and parameters in range. */
  lemma VerifyHash(kdf: Kdf, p: Params, salt: Bytes, raw: Bytes, raw': Bytes)
    requires KdfOk(kdf) && ParamsOk(p) && |raw| <= Domain.PASSWORD_MAX_LEN
    ensures Hash(kdf, p, salt, raw).Some?
    ensures Verify(kdf, Hash(kdf, p, salt, raw).value, raw') ==
      Some(|raw'| <= Domain.PASSWORD_MAX_LEN &&
           kdf(raw', salt, p.time, p.memoryKiB, p.parallelism, p.keyLen) ==
             kdf(raw, salt, p.time, p.memoryKiB, p.parallelism, p.keyLen))
  {
    var key := kdf(raw, salt, p.time, p.memoryKiB, p.parallelism, p.keyLen);
    var x := Parsed(p.memoryKiB, p.time, p.parallelism, salt, key);
    ParseFormat(x);
    VerifyParsed(kdf, Format(x), x, raw');
    KeyFits(kdf, x, raw');
  }

  lemma JoinFrom(first: string, rest: seq<string>, sep: char)
    requires rest != []
    ensures Join([first] + rest, sep) == first + [sep] + Join(rest, sep)
  {
    assert ([first] + rest)[1..] == rest;
  }

  lemma JoinSix(a: string, b: string, d: string, e: string, f: string, g: string, sep: char)
    ensures Join([a, b, d, e, f, g], sep) == a + [sep] + (b + [sep] + (d + [sep] + (e + [sep] + (f + [sep] + g))))
  {
    JoinFrom(f, [g], sep);
    JoinFrom(e, [f, g], sep);
    JoinFrom(d, [e, f, g], sep);
    JoinFrom(b, [d, e, f, g], sep);
    JoinFrom(a, [b, d, e, f, g], sep);
    assert [f] + [g] == [f, g] && [e] + [f, g] == [e, f, g] && [d] + [e, f, g] == [d, e, f, g];
    assert [b] + [d, e, f, g] == [b, d, e, f, g] && [a] + [b, d, e, f, g] == [a, b, d, e, f, g];
  }

  lemma VersionText()
    ensures "v=" + Print(VERSION) == "v=19"
  {
    assert Print(1) == "1" && Print(VERSION) == Print(1) + "9";
  }

  /** The text of a hash, part by part. */
  lemma FormatText(x: Parsed)
    ensures Format(x) ==
      "" + "$" + ("argon2id" + "$" + ("v=19" + "$" +
      (("m=" + Print(x.memoryKiB) + ",t=" + Print(x.time) + ",p=" + Print(x.parallelism)) + "$" +
      (Encode64(Standard, x.salt) + "$" + Encode64(Standard, x.key)))))
  {
    VersionText();
    JoinSix("", "argon2id", "v=19", ParamText(x.memoryKiB, x.time, x.parallelism),
            Encode64(Standard, x.salt), Encode64(Standard, x.key), '$');
  }
}
