/** Email addresses: normalisation, the pattern they must match, and a scan that decides it. */
module Email {
  import opened Basics
  import Text

  const MAX_LEN := 254

  /** Lower-casing of one character.  Two letters outside ASCII have an ASCII lower case; every other
      letter outside ASCII stays outside ASCII and is left as it is here, for the pattern admits none. */
  function LowerChar(c: char): char {
    if 'A' <= c <= 'Z' then c + 32 as char
    else if c == '\U{0130}' then 'i'
    else if c == '\U{212A}' then 'k'
    else c
  }

  function ToLower(s: string): string {
    seq(|s|, i requires 0 <= i < |s| => LowerChar(s[i]))
  }

  function CharLength(c: char): nat {
    if c < '\U{0080}' then 1 else if c < '\U{0800}' then 2 else if c < '\U{10000}' then 3 else 4
  }

  /** The number of bytes of the UTF-8 form. */
  function ByteLength(s: string): nat {
    if s == "" then 0 else CharLength(s[0]) + ByteLength(s[1..])
  }

  // ---------------------------------------------------------------- the pattern

  predicate Letter(c: char) { 'a' <= c <= 'z' }

  predicate DomainChar(c: char) { Letter(c) || '0' <= c <= '9' || c in {'.', '-'} }

  predicate LocalChar(c: char) { DomainChar(c) || c in {'_', '%', '+'} }

  datatype Regex =
    | One(c: char)
    | Many(least: nat, member: char -> bool)
    | Then(first: Regex, second: Regex)

  predicate All(s: string, member: char -> bool) {
    forall i :: 0 <= i < |s| ==> member(s[i])
  }

  /** Is the whole string in the language of the expression? */
  predicate Matches(r: Regex, s: string) {
    match r
    case One(c) => s == [c]
    case Many(least, member) => |s| >= least && All(s, member)
    case Then(first, second) => exists i :: 0 <= i <= |s| && Matches(first, s[..i]) && Matches(second, s[i..])
  }

  /** `[a-z0-9.\-]+\.[a-z]{2,}` */
  const DOMAIN := Then(Many(1, DomainChar), Then(One('.'), Many(2, Letter)))

  /** `[a-z0-9._%+\-]+@` followed by the domain; it has to match the whole string. */
  const PATTERN := Then(Many(1, LocalChar), Then(One('@'), DOMAIN))

  /** An address is kept trimmed and in lower case; anything else is an invalid email. */
  function NewEmail(s: string): Option<string> {
    var v := Text.TrimSpace(ToLower(s));
    if v == "" || ByteLength(v) > MAX_LEN then None
    else if !Matches(PATTERN, v) then None
    else Some(v)
  }

  // ---------------------------------------------------------------- the scan

  /** The position of the first `c`, or the length when there is none. */
  function First(s: string, c: char): (i: nat)
    ensures i <= |s| && c !in s[..i] && (i < |s| ==> s[i] == c)
  {
    if s == "" || s[0] == c then 0 else 1 + First(s[1..], c)
  }

  /** The number of characters up to and including the last `c`, zero when there is none. */
  function Last(s: string, c: char): (n: nat)
    ensures n <= |s| && c !in s[n..] && (n > 0 ==> s[n - 1] == c)
  {
    if s == "" || s[|s| - 1] == c then |s| else Last(s[..|s| - 1], c)
  }

  predicate ScanDomain(d: string) {
    var n := Last(d, '.');
    n >= 2 && All(d[..n - 1], DomainChar) && |d| - n >= 2 && All(d[n..], Letter)
  }

  /** One pass: the local part ends at the first at sign, the last label starts behind the last dot. */
  predicate Scan(v: string) {
    var at := First(v, '@');
    1 <= at < |v| && All(v[..at], LocalChar) && ScanDomain(v[at + 1..])
  }

  // ---------------------------------------------------------------- the scan decides the pattern

  lemma {:induction false} LastLabel(d: string, i: nat)
    requires i < |d| && d[i] == '.' && All(d[i + 1..], Letter)
    ensures Last(d, '.') == i + 1
  {
    var init := d[..|d| - 1];
    if i < |d| - 1 {
      assert d[i + 1..][|d| - i - 2] == d[|d| - 1];
      assert init[i + 1..] == d[i + 1..][..|d| - i - 2];
      LastLabel(init, i);
    }
  }

  lemma OneThen(c: char, r: Regex, s: string)
    ensures Matches(Then(One(c), r), s) <==> s != "" && s[0] == c && Matches(r, s[1..])
  {
    if s != "" && s[0] == c && Matches(r, s[1..]) {
      assert s[..1] == [c];
      assert Matches(One(c), s[..1]);
    }
    if i :| 0 <= i <= |s| && Matches(One(c), s[..i]) && Matches(r, s[i..]) {
      assert s[0] == s[..i][0];
    }
  }

  /** The string cut at one of its separators. */
  predicate CutAt(least: nat, member: char -> bool, c: char, r: Regex, s: string, i: nat) {
    least <= i < |s| && All(s[..i], member) && s[i] == c && Matches(r, s[i + 1..])
  }

  lemma ManyThen(least: nat, member: char -> bool, c: char, r: Regex, s: string)
    ensures Matches(Then(Many(least, member), Then(One(c), r)), s) <==>
      exists i: nat :: CutAt(least, member, c, r, s, i)
  {
    forall i | 0 <= i <= |s|
      ensures Matches(Many(least, member), s[..i]) && Matches(Then(One(c), r), s[i..]) <==>
        CutAt(least, member, c, r, s, i)
    {
      OneThen(c, r, s[i..]);
      assert i < |s| ==> s[i..][1..] == s[i + 1..];
    }
    if i: nat :| CutAt(least, member, c, r, s, i) {
      assert Matches(Many(least, member), s[..i]) && Matches(Then(One(c), r), s[i..]);
    }
  }

  lemma DomainScan(d: string)
    ensures Matches(DOMAIN, d) <==> ScanDomain(d)
  {
    ManyThen(1, DomainChar, '.', Many(2, Letter), d);
    if i: nat :| CutAt(1, DomainChar, '.', Many(2, Letter), d, i) {
      LastLabel(d, i);
    }
    if ScanDomain(d) {
      assert CutAt(1, DomainChar, '.', Many(2, Letter), d, Last(d, '.') - 1);
    }
  }

  lemma {:induction false} FirstAt(v: string, i: nat)
    requires i < |v| && v[i] == '@' && All(v[..i], LocalChar)
    ensures First(v, '@') == i
  {
    if i > 0 {
      assert v[..i][0] == v[0] && v[1..][..i - 1] == v[..i][1..];
      FirstAt(v[1..], i - 1);
    }
  }

  lemma MatchedScans(v: string, i: nat)
    requires CutAt(1, LocalChar, '@', DOMAIN, v, i)
    ensures Scan(v)
  {
    FirstAt(v, i);
    DomainScan(v[i + 1..]);
  }

  lemma ScannedMatches(v: string)
    requires Scan(v)
    ensures CutAt(1, LocalChar, '@', DOMAIN, v, First(v, '@'))
  {
    DomainScan(v[First(v, '@') + 1..]);
  }

  lemma ScanDecides(v: string)
    ensures Matches(PATTERN, v) <==> Scan(v)
  {
    ManyThen(1, LocalChar, '@', DOMAIN, v);
    if Scan(v) {
      ScannedMatches(v);
    } else if i: nat :| CutAt(1, LocalChar, '@', DOMAIN, v, i) {
      MatchedScans(v, i);
    }
  }

  // ---------------------------------------------------------------- what is accepted

  predicate AddressChar(c: char) { LocalChar(c) || c == '@' }

  lemma ScannedText(v: string)
    requires Scan(v)
    ensures |v| >= 6 && All(v, AddressChar)
  {
    var at := First(v, '@');
    var d := v[at + 1..];
    var n := Last(d, '.');
    forall k | 0 <= k < |v| ensures AddressChar(v[k]) {
      if k < at {
        assert v[k] == v[..at][k];
      } else if at < k < at + n {
        assert v[k] == d[..n - 1][k - at - 1];
      } else if k > at + n {
        assert v[k] == d[n..][k - at - 1 - n];
      }
    }
  }

  lemma {:induction false} PlainLength(s: string)
    requires All(s, AddressChar)
    ensures ByteLength(s) == |s|
  {
    if s != "" {
      PlainLength(s[1..]);
    }
  }

  lemma PlainNormal(s: string)
    requires All(s, AddressChar)
    ensures Text.TrimSpace(ToLower(s)) == s
  {
    assert ToLower(s) == s;
  }

  /** An email is accepted exactly when its trimmed lower-case form has at most 254 characters and the scan
      admits it; what is stored is that form. */
  lemma AcceptedIff(s: string, e: string)
    ensures NewEmail(s) == Some(e) <==> e == Text.TrimSpace(ToLower(s)) && |e| <= MAX_LEN && Scan(e)
  {
    ScanDecides(e);
    if Scan(e) {
      ScannedText(e);
      PlainLength(e);
    }
  }

  /** An accepted email normalises to itself, so every stored email validates again when it is loaded. */
  lemma Idempotent(s: string)
    requires NewEmail(s).Some?
    ensures NewEmail(NewEmail(s).value) == NewEmail(s)
  {
    var e := NewEmail(s).value;
    AcceptedIff(s, e);
    ScannedText(e);
    PlainNormal(e);
    AcceptedIff(e, e);
  }

  // ---------------------------------------------------------------- the spellings of an address

  /** The characters of the two parts, one by one. */
  lemma AddressCharacters(c: char)
    ensures Letter(c) <==> c in "abcdefghijklmnopqrstuvwxyz"
    ensures DomainChar(c) <==> c in "abcdefghijklmnopqrstuvwxyz0123456789.-"
    ensures LocalChar(c) <==> c in "abcdefghijklmnopqrstuvwxyz0123456789._%+-"
  {}

  predicate White(s: string) {
    forall i :: 0 <= i < |s| ==> Text.IsSpace(s[i])
  }

  /** The character, or the capital of a letter. */
  predicate Spells(x: char, c: char) {
    x == c || ('a' <= c <= 'z' && 'A' <= x <= 'Z' && c as int - 'a' as int == x as int - 'A' as int)
  }

  predicate Spelling(x: string, e: string) {
    |x| == |e| && forall i :: 0 <= i < |x| ==> Spells(x[i], e[i])
  }

  lemma {:induction false} TrimLeftWhite(p: string, rest: string)
    requires White(p) && rest != "" && !Text.IsSpace(rest[0])
    ensures Text.TrimLeft(p + rest) == rest
  {
    if p == "" {
      assert p + rest == rest;
    } else {
      assert (p + rest)[1..] == p[1..] + rest;
      TrimLeftWhite(p[1..], rest);
    }
  }

  lemma {:induction false} TrimRightWhite(rest: string, q: string)
    requires White(q) && rest != "" && !Text.IsSpace(rest[|rest| - 1])
    ensures Text.TrimRight(rest + q) == rest
  {
    if q == "" {
      assert rest + q == rest;
    } else {
      assert (rest + q)[..|rest + q| - 1] == rest + q[..|q| - 1];
      TrimRightWhite(rest, q[..|q| - 1]);
    }
  }

  lemma LowerOfSpelling(x: string, e: string)
    requires Spelling(x, e) && All(e, AddressChar)
    ensures ToLower(x) == e
  {
    forall i | 0 <= i < |x| ensures LowerChar(x[i]) == e[i] {
      assert Spells(x[i], e[i]) && AddressChar(e[i]);
    }
  }

  lemma LowerOfWhite(p: string)
    requires White(p)
    ensures ToLower(p) == p
  {}

  /** An address in any mixture of capitals, with white space around it, is accepted as the address. */
  lemma SpellingAccepted(p: string, x: string, q: string, e: string)
    requires Scan(e) && |e| <= 254 && White(p) && White(q) && Spelling(x, e)
    ensures NewEmail(p + x + q) == Some(e)
  {
    ScannedText(e);
    LowerOfSpelling(x, e);
    LowerOfWhite(p);
    LowerOfWhite(q);
    assert ToLower(p + x + q) == p + (e + q);
    assert AddressChar(e[0]) && AddressChar(e[|e| - 1]);
    TrimLeftWhite(p, e + q);
    TrimRightWhite(e, q);
    AcceptedIff(p + x + q, e);
  }

  lemma {:induction false} LeftPart(v: string) returns (p: string)
    ensures White(p) && v == p + Text.TrimLeft(v)
  {
    p := "";
    if v != "" && Text.IsSpace(v[0]) {
      var rest := LeftPart(v[1..]);
      p := [v[0]] + rest;
      assert v == [v[0]] + v[1..];
    }
  }

  lemma {:induction false} RightPart(v: string) returns (q: string)
    ensures White(q) && v == Text.TrimRight(v) + q
  {
    q := "";
    if v != "" && Text.IsSpace(v[|v| - 1]) {
      var rest := RightPart(v[..|v| - 1]);
      q := rest + [v[|v| - 1]];
      assert v == v[..|v| - 1] + [v[|v| - 1]];
    }
  }

  predicate AsciiOrWhite(s: string) {
    forall i :: 0 <= i < |s| ==> s[i] < '\U{0080}' || Text.IsSpace(s[i])
  }

  lemma WhiteBeforeLower(p: string)
    requires White(ToLower(p))
    ensures White(p)
  {
    forall i | 0 <= i < |p| ensures Text.IsSpace(p[i]) {
      assert Text.IsSpace(ToLower(p)[i]);
    }
  }

  lemma SpellingBeforeLower(x: string)
    requires AsciiOrWhite(x) && All(ToLower(x), AddressChar)
    ensures Spelling(x, ToLower(x))
  {
    forall i | 0 <= i < |x| ensures Spells(x[i], ToLower(x)[i]) {
      assert AddressChar(ToLower(x)[i]);
    }
  }

  lemma CutAlike(s: string, v: string, left: nat, middle: nat)
    requires v == ToLower(s) && left + middle <= |v|
    ensures |s| == |v|
    ensures ToLower(s[..left]) == v[..left] && ToLower(s[left..left + middle]) == v[left..left + middle]
    ensures ToLower(s[left + middle..]) == v[left + middle..]
  {}

  lemma TrimmedParts(v: string) returns (left: string, right: string)
    ensures White(left) && White(right) && v == left + Text.TrimSpace(v) + right
  {
    left := LeftPart(v);
    right := RightPart(Text.TrimLeft(v));
  }

  lemma SplitAlike(s: string, left: string, e: string, right: string) returns (p: string, x: string, q: string)
    requires ToLower(s) == left + e + right
    ensures s == p + x + q && ToLower(p) == left && ToLower(x) == e && ToLower(q) == right
  {
    CutAlike(s, ToLower(s), |left|, |e|);
    p, x, q := s[..|left|], s[|left|..|left| + |e|], s[|left| + |e|..];
  }

  lemma SpellingOf(s: string, e: string) returns (p: string, x: string, q: string)
    requires e == Text.TrimSpace(ToLower(s)) && All(e, AddressChar) && AsciiOrWhite(s)
    ensures s == p + x + q && White(p) && White(q) && Spelling(x, e)
  {
    var left, right := TrimmedParts(ToLower(s));
    p, x, q := SplitAlike(s, left, e, right);
    WhiteBeforeLower(p);
    WhiteBeforeLower(q);
    forall i | 0 <= i < |x| ensures x[i] < '\U{0080}' || Text.IsSpace(x[i]) {
      assert s[|p| + i] == x[i];
    }
    SpellingBeforeLower(x);
  }

  /** Letters outside ASCII apart: nothing else is accepted. */
  lemma AcceptedIsSpelling(s: string, e: string) returns (p: string, x: string, q: string)
    requires NewEmail(s) == Some(e) && AsciiOrWhite(s)
    ensures s == p + x + q && White(p) && White(q) && Spelling(x, e) && Scan(e) && |e| <= 254
  {
    AcceptedIff(s, e);
    ScannedText(e);
    p, x, q := SpellingOf(s, e);
  }
}
