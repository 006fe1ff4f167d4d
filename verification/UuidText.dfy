/** The text form of a UUID, section 4 of RFC 9562, and the spellings the parser reads. */
module UuidText {
  import opened Basics
  import opened Binary
  import opened Domain

  function Show(u: Uuid): string {
    var h := EncodeHex(u.bytes);
    h[..8] + "-" + h[8..12] + "-" + h[12..16] + "-" + h[16..20] + "-" + h[20..]
  }

  predicate IsAscii(s: string) {
    forall i :: 0 <= i < |s| ==> s[i] < '\U{0080}'
  }

  function LowerAscii(c: char): char {
    if 'A' <= c <= 'Z' then c + 32 as char else c
  }

  predicate UrnPrefix(s: string)
    requires |s| == 9
  {
    forall i :: 0 <= i < 9 ==> LowerAscii(s[i]) == "urn:uuid:"[i]
  }

  function FromHex(h: string): Option<Uuid> {
    match DecodeHex(h)
    case None => None
    case Some(b) => if |b| == 16 then Some(Uuid(b)) else None
  }

  /** The 36 characters with dashes at 8, 13, 18 and 23. */
  function ParseDashed(s: string): Option<Uuid>
    requires |s| >= 36
  {
    if s[8] != '-' || s[13] != '-' || s[18] != '-' || s[23] != '-' then None
    else FromHex(s[..8] + s[9..13] + s[14..18] + s[19..23] + s[24..36])
  }

  /** Dashed, as a URN, between braces (the outer characters themselves are not looked at), or bare hex. */
  function Parse(s: string): Option<Uuid> {
    if !IsAscii(s) then None
    else if |s| == 36 then ParseDashed(s)
    else if |s| == 45 then (if UrnPrefix(s[..9]) then ParseDashed(s[9..]) else None)
    else if |s| == 38 then ParseDashed(s[1..])
    else if |s| == 32 then FromHex(s)
    else None
  }

  lemma ShowIsHexOrDash(u: Uuid)
    ensures |Show(u)| == 36
    ensures forall i :: 0 <= i < 36 ==> Show(u)[i] == '-' || '0' <= Show(u)[i] <= '9' || 'a' <= Show(u)[i] <= 'f'
  {
    EncodeHexText(u.bytes);
  }

  lemma UuidRoundTrip(u: Uuid)
    ensures Parse(Show(u)) == Some(u)
  {
    var h, s := EncodeHex(u.bytes), Show(u);
    ShowIsHexOrDash(u);
    assert s[..8] == h[..8] && s[9..13] == h[8..12] && s[14..18] == h[12..16]
      && s[19..23] == h[16..20] && s[24..36] == h[20..];
    assert h[..8] + h[8..12] + h[12..16] + h[16..20] + h[20..] == h;
    HexRoundTrip(u.bytes);
  }

  /** The digits of the sixteen bytes in order, with dashes at 8, 13, 18 and 23. */
  lemma ShowForm(u: Uuid)
    ensures |Show(u)| == 36
    ensures forall i :: 0 <= i < 36 ==> (Show(u)[i] == '-' <==> i in {8, 13, 18, 23})
    ensures Show(u)[..8] + Show(u)[9..13] + Show(u)[14..18] + Show(u)[19..23] + Show(u)[24..] == EncodeHex(u.bytes)
  {
    var h, s := EncodeHex(u.bytes), Show(u);
    EncodeHexText(u.bytes);
    assert s[..8] == h[..8] && s[9..13] == h[8..12] && s[14..18] == h[12..16];
    assert s[19..23] == h[16..20] && s[24..] == h[20..];
    assert h[..8] + h[8..12] + h[12..16] + h[16..20] + h[20..] == h;
  }

  function Digits(s: string): string
    requires |s| >= 36
  {
    s[..8] + s[9..13] + s[14..18] + s[19..23] + s[24..36]
  }

  predicate Dashes(s: string)
    requires |s| >= 36
  {
    s[8] == '-' && s[13] == '-' && s[18] == '-' && s[23] == '-'
  }

  lemma ShowDigits(u: Uuid)
    ensures |Show(u)| == 36 && Dashes(Show(u)) && Digits(Show(u)) == EncodeHex(u.bytes)
  {
    ShowForm(u);
    assert Show(u)[24..36] == Show(u)[24..];
  }

  /** Where a digit stands among the dashes, and back. */
  function Place(i: nat): nat {
    if i < 8 then i else if i < 12 then i + 1 else if i < 16 then i + 2 else if i < 20 then i + 3 else i + 4
  }

  function Back(j: nat): nat
    requires j !in {8, 13, 18, 23}
  {
    if j < 8 then j else if j < 13 then j - 1 else if j < 18 then j - 2 else if j < 23 then j - 3 else j - 4
  }

  lemma DigitAt(s: string, i: nat)
    requires |s| >= 36 && i < 32
    ensures Digits(s)[i] == s[Place(i)]
  {}

  lemma DigitsSame(s: string, t: string)
    requires |s| == 36 && |t| == 36 && AnyCase(s, t)
    ensures AnyCase(Digits(s), Digits(t))
  {
    forall i | 0 <= i < 32 ensures SameLetter(Digits(s)[i], Digits(t)[i]) {
      DigitAt(s, i);
      DigitAt(t, i);
      assert SameLetter(s[Place(i)], t[Place(i)]);
    }
  }

  lemma TextSame(s: string, t: string)
    requires |s| == 36 && |t| == 36 && Dashes(s) && Dashes(t) && AnyCase(Digits(s), Digits(t))
    ensures AnyCase(s, t)
  {
    forall j | 0 <= j < 36 ensures SameLetter(s[j], t[j]) {
      if j !in {8, 13, 18, 23} {
        DigitAt(s, Back(j));
        DigitAt(t, Back(j));
        assert SameLetter(Digits(s)[Back(j)], Digits(t)[Back(j)]);
      }
    }
  }

  lemma FromHexIff(h: string, u: Uuid)
    ensures FromHex(h) == Some(u) <==> AnyCase(h, EncodeHex(u.bytes))
  {
    DecodeHexIff(h, u.bytes);
  }

  /** The first 36 characters are read as the UUID whose text they are up to the case of the digits. */
  lemma ParseDashedIff(s: string, u: Uuid)
    requires |s| >= 36
    ensures ParseDashed(s) == Some(u) <==> AnyCase(s[..36], Show(u))
  {
    var head, t := s[..36], Show(u);
    ShowDigits(u);
    assert Digits(s) == Digits(head) && (Dashes(s) <==> Dashes(head));
    FromHexIff(Digits(s), u);
    if AnyCase(head, t) {
      DigitsSame(head, t);
    }
    if Dashes(head) && AnyCase(Digits(head), Digits(t)) {
      TextSame(head, t);
    }
  }

  lemma PrefixIff(s: string)
    requires |s| == 9
    ensures UrnPrefix(s) <==> AnyCase(s, "urn:uuid:")
  {
    var t := "urn:uuid:";
    forall i | 0 <= i < 9 ensures LowerAscii(s[i]) == t[i] <==> SameLetter(s[i], t[i]) {
    }
  }

  /** The four spellings: the text itself, as a URN, with any character on both sides, and without dashes. */
  lemma ParseIff(s: string, u: Uuid)
    ensures Parse(s) == Some(u) <==>
      IsAscii(s)
      && (AnyCase(s, Show(u)) || AnyCase(s, EncodeHex(u.bytes))
          || (|s| == 45 && AnyCase(s[..9], "urn:uuid:") && AnyCase(s[9..], Show(u)))
          || (|s| == 38 && AnyCase(s[1..37], Show(u))))
  {
    ShowDigits(u);
    if |s| == 36 {
      ParseDashedIff(s, u);
      assert s[..36] == s;
    } else if |s| == 45 {
      PrefixIff(s[..9]);
      ParseDashedIff(s[9..], u);
      assert s[9..][..36] == s[9..];
    } else if |s| == 38 {
      ParseDashedIff(s[1..], u);
      assert s[1..][..36] == s[1..37];
    } else if |s| == 32 {
      DecodeHexIff(s, u.bytes);
    }
  }
}
