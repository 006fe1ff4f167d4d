/** What the reader of cache values accepts, as a grammar: exactly the objects whose members are strings, with
    white space between the tokens and any spelling of the characters. */
module JsonReading {
  import opened Basics
  import opened Binary
  import opened CachePayload

  // ---------------------------------------------------------------- characters of a string

  /** A character of a string literal: itself, a backslash and a letter, or `\u` and four digits. */
  datatype Unit = Raw(c: char) | Escaped(letter: char) | Coded(digits: string)

  const SHORT_ESCAPES: map<char, char> :=
    map['"' := '"', '\\' := '\\', '/' := '/',
        'b' := '\U{0008}', 'f' := '\U{000C}', 'n' := '\n', 'r' := '\r', 't' := '\t']

  function UnitText(u: Unit): string {
    match u
    case Raw(c) => [c]
    case Escaped(letter) => ['\\', letter]
    case Coded(digits) => ['\\', 'u'] + digits
  }

  predicate FourDigits(s: string) {
    |s| == 4 && forall i :: 0 <= i < 4 ==> HexValue(s[i]).Some?
  }

  lemma HexValueSmall(c: char)
    requires HexValue(c).Some?
    ensures HexValue(c).value < 16
  {}

  function CodeOf(s: string): (n: nat)
    requires FourDigits(s)
    ensures n < 0x1_0000
  {
    HexValueSmall(s[0]);
    HexValueSmall(s[1]);
    HexValueSmall(s[2]);
    HexValueSmall(s[3]);
    4096 * HexValue(s[0]).value + 256 * HexValue(s[1]).value + 16 * HexValue(s[2]).value + HexValue(s[3]).value
  }

  predicate UnitOk(u: Unit) {
    match u
    case Raw(c) => ' ' <= c && c != '"' && c != '\\'
    case Escaped(letter) => letter in SHORT_ESCAPES
    case Coded(digits) => FourDigits(digits)
  }

  /** Halves of surrogate pairs read as the replacement character. */
  function Meaning(u: Unit): char
    requires UnitOk(u)
  {
    match u
    case Raw(c) => c
    case Escaped(letter) => SHORT_ESCAPES[letter]
    case Coded(digits) => if 0xD800 <= CodeOf(digits) < 0xE000 then '\U{FFFD}' else CodeOf(digits) as char
  }

  predicate UnitsOk(us: seq<Unit>) {
    forall i :: 0 <= i < |us| ==> UnitOk(us[i])
  }

  /** The text of the characters, in front of the rest of the input; so are all texts below. */
  function Texts(us: seq<Unit>, rest: string): string {
    if us == [] then rest else UnitText(us[0]) + Texts(us[1..], rest)
  }

  function Literal(us: seq<Unit>, rest: string): string {
    ['"'] + Texts(us, ['"'] + rest)
  }

  function Meanings(us: seq<Unit>): string
    requires UnitsOk(us)
  {
    if us == [] then "" else [Meaning(us[0])] + Meanings(us[1..])
  }

  lemma DecodeDigits(s: string, h: nat, l: nat, rest: Bytes)
    requires |s| >= 2 && HexValue(s[0]) == Some(h) && HexValue(s[1]) == Some(l) && DecodeHex(s[2..]) == Some(rest)
    requires h < 16 && l < 16
    ensures DecodeHex(s) == Some([16 * h + l] + rest)
  {}

  lemma DecodesDigits(s: string)
    requires |s| >= 2 && DecodeHex(s).Some?
    ensures HexValue(s[0]).Some? && HexValue(s[1]).Some? && DecodeHex(s[2..]).Some?
  {}

  lemma CodePointIs(s: string)
    requires |s| == 4
    ensures CodePoint(s).Some? <==> FourDigits(s)
    ensures FourDigits(s) ==> CodePoint(s) == Some(Meaning(Coded(s)))
  {
    assert s[2..][2..] == "" && s[2..][0] == s[2] && s[2..][1] == s[3];
    if FourDigits(s) {
      var h0, h1, h2, h3 := HexValue(s[0]).value, HexValue(s[1]).value, HexValue(s[2]).value, HexValue(s[3]).value;
      HexValueSmall(s[0]);
      HexValueSmall(s[1]);
      HexValueSmall(s[2]);
      HexValueSmall(s[3]);
      DecodeDigits(s[2..], h2, h3, []);
      assert [16 * h2 + h3] + [] == [16 * h2 + h3];
      DecodeDigits(s, h0, h1, [16 * h2 + h3]);
      assert [16 * h0 + h1] + [16 * h2 + h3] == [16 * h0 + h1, 16 * h2 + h3];
    } else if DecodeHex(s).Some? {
      DecodesDigits(s);
      DecodesDigits(s[2..]);
    }
  }

  /** One more character in front. */
  lemma TakeUnit(u: Unit, rest: string)
    requires UnitOk(u)
    ensures TakeString(UnitText(u) + rest) ==
      match TakeString(rest) { case None => None case Some((tail, after)) => Some(([Meaning(u)] + tail, after)) }
  {
    var s := UnitText(u) + rest;
    match u
    case Raw(c) => assert s[1..] == rest;
    case Escaped(letter) => assert s[2..] == rest && Escape(letter) == Some(SHORT_ESCAPES[letter]);
    case Coded(digits) =>
      assert s[2..6] == digits && s[6..] == rest;
      CodePointIs(digits);
  }

  /** Every spelling of a string is read as that string. */
  lemma {:induction false} SpellingRead(us: seq<Unit>, rest: string)
    requires UnitsOk(us)
    ensures TakeString(Texts(us, ['"'] + rest)) == Some((Meanings(us), rest))
  {
    if us != [] {
      SpellingRead(us[1..], rest);
      TakeUnit(us[0], Texts(us[1..], ['"'] + rest));
    }
  }

  /** The first character of a string literal that can be read. */
  lemma FirstUnit(s: string) returns (u: Unit, rest: string)
    requires TakeString(s).Some? && s[0] != '"'
    ensures UnitOk(u) && s == UnitText(u) + rest && |rest| < |s| && TakeString(rest).Some?
    ensures TakeString(s).value == ([Meaning(u)] + TakeString(rest).value.0, TakeString(rest).value.1)
  {
    if s[0] != '\\' {
      u, rest := Raw(s[0]), s[1..];
    } else if |s| >= 6 && s[1] == 'u' {
      u, rest := Coded(s[2..6]), s[6..];
      CodePointIs(s[2..6]);
      assert s == ['\\', 'u'] + s[2..6] + s[6..];
    } else {
      u, rest := Escaped(s[1]), s[2..];
    }
  }

  /** What is read as a string is a spelling of it. */
  lemma {:induction false} ReadIsSpelling(s: string) returns (us: seq<Unit>)
    requires TakeString(s).Some?
    ensures UnitsOk(us)
    ensures var (value, rest) := TakeString(s).value; s == Texts(us, ['"'] + rest) && value == Meanings(us)
    decreases |s|
  {
    us := [];
    if s[0] != '"' {
      var u, rest := FirstUnit(s);
      var more := ReadIsSpelling(rest);
      us := [u] + more;
      assert us[1..] == more;
    }
  }

  // ---------------------------------------------------------------- white space

  predicate IsBlank(c: char) {
    c in {' ', '\t', '\n', '\r'}
  }

  predicate Blank(s: string) {
    forall i :: 0 <= i < |s| ==> IsBlank(s[i])
  }

  predicate StartsToken(s: string) {
    s == "" || !IsBlank(s[0])
  }

  lemma {:induction false} GapSkipped(gap: string, rest: string)
    requires Blank(gap) && StartsToken(rest)
    ensures SkipSpaces(gap + rest) == rest
  {
    if gap == "" {
      assert gap + rest == rest;
    } else {
      GapSkipped(gap[1..], rest);
      assert (gap + rest)[1..] == gap[1..] + rest;
    }
  }

  lemma {:induction false} SkippedIsGap(s: string) returns (gap: string)
    ensures Blank(gap) && s == gap + SkipSpaces(s) && StartsToken(SkipSpaces(s))
  {
    gap := "";
    if s != "" && IsBlank(s[0]) {
      var more := SkippedIsGap(s[1..]);
      gap := [s[0]] + more;
      assert s == [s[0]] + s[1..];
    }
  }

  // ---------------------------------------------------------------- members

  /** `"key" : "value"` with the white space in front, on both sides of the colon and behind. */
  datatype Item = Item(lead: string, key: seq<Unit>, before: string, behind: string, value: seq<Unit>, trail: string)

  predicate ItemOk(x: Item) {
    Blank(x.lead) && UnitsOk(x.key) && Blank(x.before) && Blank(x.behind) && UnitsOk(x.value) && Blank(x.trail)
  }

  function ValueText(x: Item, rest: string): string {
    Literal(x.value, x.trail + rest)
  }

  /** The member without the white space in front. */
  function ItemText(x: Item, rest: string): string {
    Literal(x.key, x.before + ([':'] + (x.behind + ValueText(x, rest))))
  }

  lemma ValueRead(x: Item, rest: string)
    requires ItemOk(x) && StartsToken(rest)
    ensures var s := ValueText(x, rest);
      s[0] == '"' && TakeString(s[1..]) == Some((Meanings(x.value), x.trail + rest))
      && SkipSpaces(x.trail + rest) == rest
  {
    SpellingRead(x.value, x.trail + rest);
    GapSkipped(x.trail, rest);
  }

  lemma ItemRead(x: Item, rest: string, w: Wire)
    requires ItemOk(x) && StartsToken(rest)
    ensures TakeMember(ItemText(x, rest), w) == Some((Assign(w, Meanings(x.key), Meanings(x.value)), rest))
  {
    var s3 := ValueText(x, rest);
    var s2 := [':'] + (x.behind + s3);
    SpellingRead(x.key, x.before + s2);
    GapSkipped(x.before, s2);
    assert s2[1..] == x.behind + s3;
    GapSkipped(x.behind, s3);
    ValueRead(x, rest);
  }

  lemma ReadIsLiteral(s: string) returns (us: seq<Unit>)
    requires s != "" && s[0] == '"' && TakeString(s[1..]).Some?
    ensures UnitsOk(us) && TakeString(s[1..]).value.0 == Meanings(us)
    ensures s == Literal(us, TakeString(s[1..]).value.1)
  {
    us := ReadIsSpelling(s[1..]);
    assert s == ['"'] + s[1..];
  }

  lemma ReadIsItem(s: string, w: Wire) returns (x: Item)
    requires TakeMember(s, w).Some?
    ensures ItemOk(x) && x.lead == ""
    ensures var (w', rest) := TakeMember(s, w).value;
      s == ItemText(x, rest) && StartsToken(rest) && w' == Assign(w, Meanings(x.key), Meanings(x.value))
  {
    var key := ReadIsLiteral(s);
    var s1 := TakeString(s[1..]).value.1;
    var before := SkippedIsGap(s1);
    var s2 := SkipSpaces(s1);
    var behind := SkippedIsGap(s2[1..]);
    var s3 := SkipSpaces(s2[1..]);
    var value := ReadIsLiteral(s3);
    var trail := SkippedIsGap(TakeString(s3[1..]).value.1);
    x := Item("", key, before, behind, value, trail);
    assert s2 == [':'] + s2[1..];
  }

  // ---------------------------------------------------------------- objects

  predicate ItemsOk(items: seq<Item>) {
    forall i :: 0 <= i < |items| ==> ItemOk(items[i])
  }

  /** The members up to the closing brace, without the white space in front. */
  function ItemsText(items: seq<Item>, rest: string): string
    requires items != []
    decreases |items|, 1
  {
    ItemText(items[0], Following(items, rest))
  }

  function Following(items: seq<Item>, rest: string): string
    requires items != []
    decreases |items|, 0
  {
    if |items| == 1 then ['}'] + rest else [','] + (items[1].lead + ItemsText(items[1..], rest))
  }

  /** What the members say, one after the other. */
  function Told(w: Wire, items: seq<Item>): Wire
    requires ItemsOk(items)
    decreases |items|
  {
    if items == [] then w else Told(Assign(w, Meanings(items[0].key), Meanings(items[0].value)), items[1..])
  }

  lemma {:induction false} ItemsRead(items: seq<Item>, rest: string, w: Wire)
    requires items != [] && ItemsOk(items)
    ensures TakeMembers(ItemsText(items, rest), w) == Some((Told(w, items), rest))
    decreases |items|
  {
    var tail := Following(items, rest);
    var w1 := Assign(w, Meanings(items[0].key), Meanings(items[0].value));
    ItemRead(items[0], tail, w);
    if |items| == 1 {
      assert tail[1..] == rest && items[1..] == [];
    } else {
      ItemsRead(items[1..], rest, w1);
      assert tail[1..] == items[1].lead + ItemsText(items[1..], rest);
      GapSkipped(items[1].lead, ItemsText(items[1..], rest));
    }
  }

  lemma {:induction false} ReadIsItems(s: string, w: Wire) returns (items: seq<Item>)
    requires TakeMembers(s, w).Some?
    ensures items != [] && ItemsOk(items)
    ensures var (w', rest) := TakeMembers(s, w).value; s == ItemsText(items, rest) && w' == Told(w, items)
    decreases |s|
  {
    var x := ReadIsItem(s, w);
    var (w1, rest) := TakeMember(s, w).value;
    if rest[0] == '}' {
      items := [x];
      assert rest == ['}'] + rest[1..] && items[1..] == [];
    } else {
      var lead := SkippedIsGap(rest[1..]);
      var more := ReadIsItems(SkipSpaces(rest[1..]), w1);
      items := [x] + With(more, lead);
      MembersBehind(x, more, lead, TakeMembers(s, w).value.1, w);
      assert rest == [','] + rest[1..];
    }
  }

  /** A member in front of others. */
  lemma MembersBehind(x: Item, more: seq<Item>, lead: string, rest: string, w: Wire)
    requires ItemOk(x) && more != [] && ItemsOk(more) && Blank(lead)
    ensures var items := [x] + With(more, lead);
      ItemsOk(items) && ItemsText(items, rest) == ItemText(x, [','] + (lead + ItemsText(more, rest)))
      && Told(w, items) == Told(Assign(w, Meanings(x.key), Meanings(x.value)), more)
  {
    var items := [x] + With(more, lead);
    WithText(more, lead, rest, Assign(w, Meanings(x.key), Meanings(x.value)));
    assert items[1..] == With(more, lead) && items[1] == With(more, lead)[0];
  }

  /** The members with other white space in front of the first. */
  function With(items: seq<Item>, lead: string): seq<Item>
    requires items != []
  {
    [items[0].(lead := lead)] + items[1..]
  }

  lemma WithText(items: seq<Item>, lead: string, rest: string, w: Wire)
    requires items != [] && ItemsOk(items) && Blank(lead)
    ensures ItemsOk(With(items, lead)) && With(items, lead)[0].lead == lead
    ensures ItemsText(With(items, lead), rest) == ItemsText(items, rest) && Told(w, With(items, lead)) == Told(w, items)
  {
    assert With(items, lead)[1..] == items[1..];
    if |items| > 1 {
      assert With(items, lead)[1] == items[1];
    }
  }

  /** An object; `inner` is the white space of one without members. */
  datatype Object = Object(before: string, inner: string, items: seq<Item>, after: string)

  predicate ObjectOk(x: Object) {
    Blank(x.before) && Blank(x.inner) && ItemsOk(x.items) && Blank(x.after)
  }

  function BodyText(x: Object): string {
    if x.items == [] then x.inner + (['}'] + x.after) else x.items[0].lead + ItemsText(x.items, x.after)
  }

  function ObjectText(x: Object): string {
    x.before + (['{'] + BodyText(x))
  }

  lemma BlankRead(s: string)
    requires Blank(s)
    ensures SkipSpaces(s) == ""
  {
    GapSkipped(s, "");
    assert s + "" == s;
  }

  lemma ObjectRead(x: Object)
    requires ObjectOk(x)
    ensures Unmarshal(ObjectText(x)) == Some(Told(EMPTY, x.items))
  {
    var body := BodyText(x);
    GapSkipped(x.before, ['{'] + body);
    assert (['{'] + body)[1..] == body;
    BlankRead(x.after);
    if x.items == [] {
      assert (['}'] + x.after)[1..] == x.after;
      GapSkipped(x.inner, ['}'] + x.after);
    } else {
      GapSkipped(x.items[0].lead, ItemsText(x.items, x.after));
      ItemsRead(x.items, x.after, EMPTY);
    }
  }

  lemma ReadIsBlank(s: string)
    requires SkipSpaces(s) == ""
    ensures Blank(s)
  {
    var gap := SkippedIsGap(s);
    assert gap + "" == gap;
  }

  /** What follows the opening brace. */
  lemma ReadIsBody(s: string) returns (x: Object)
    requires Unmarshal(s).Some?
    ensures ObjectOk(x) && x.before == "" && SkipSpaces(s) == ['{'] + BodyText(x)
    ensures Unmarshal(s) == Some(Told(EMPTY, x.items))
  {
    var s0 := SkipSpaces(s);
    var inner := SkippedIsGap(s0[1..]);
    var s1 := SkipSpaces(s0[1..]);
    assert s0 == ['{'] + s0[1..];
    if s1[0] == '}' {
      ReadIsBlank(s1[1..]);
      assert s1 == ['}'] + s1[1..];
      x := Object("", inner, [], s1[1..]);
    } else {
      var items := ReadIsItems(s1, EMPTY);
      var rest := TakeMembers(s1, EMPTY).value.1;
      ReadIsBlank(rest);
      WithText(items, inner, rest, EMPTY);
      x := Object("", "", With(items, inner), rest);
    }
  }

  lemma ReadIsObject(s: string) returns (x: Object)
    requires Unmarshal(s).Some?
    ensures ObjectOk(x) && s == ObjectText(x) && Unmarshal(s) == Some(Told(EMPTY, x.items))
  {
    var before := SkippedIsGap(s);
    var body := ReadIsBody(s);
    x := body.(before := before);
    assert BodyText(x) == BodyText(body);
  }

  // ---------------------------------------------------------------- the members by name

  /** The same name, whatever the case of its letters. */
  predicate Names(key: string, name: string) {
    |key| == |name|
    && forall i :: 0 <= i < |name| ==>
         key[i] == name[i] || ('a' <= name[i] <= 'z' && key[i] as int == name[i] as int - 32)
         || (name[i] == 's' && key[i] == '\U{017F}')
  }

  /** The value of the last member with this name. */
  function LastNamed(items: seq<Item>, name: string, default: string): string
    requires ItemsOk(items)
    decreases |items|
  {
    if items == [] then default
    else LastNamed(items[1..], name, if Names(Meanings(items[0].key), name) then Meanings(items[0].value) else default)
  }

  lemma NamesIff(key: string, name: string)
    requires forall i :: 0 <= i < |name| ==> name[i] == '_' || ('a' <= name[i] <= 'z' && name[i] != 'k')
    ensures Lower(key) == name <==> Names(key, name)
  {
    if Lower(key) == name {
      forall i | 0 <= i < |name|
        ensures key[i] == name[i] || ('a' <= name[i] <= 'z' && key[i] as int == name[i] as int - 32)
                || (name[i] == 's' && key[i] == '\U{017F}')
      {
        assert Lower(key)[i] == Fold(key[i]);
      }
    }
  }

  lemma AssignIs(w: Wire, key: string, value: string)
    ensures Assign(w, key, value) == Wire(
      if Names(key, "session_id") then value else w.sessionId, if Names(key, "user_id") then value else w.userId,
      if Names(key, "tenant_id") then value else w.tenantId, if Names(key, "expires_at") then value else w.expiresAt)
  {
    NamesIff(key, "session_id");
    NamesIff(key, "user_id");
    NamesIff(key, "tenant_id");
    NamesIff(key, "expires_at");
  }

  lemma {:induction false} ToldByName(w: Wire, items: seq<Item>)
    requires ItemsOk(items)
    ensures Told(w, items) == Wire(
      LastNamed(items, "session_id", w.sessionId), LastNamed(items, "user_id", w.userId),
      LastNamed(items, "tenant_id", w.tenantId), LastNamed(items, "expires_at", w.expiresAt))
    decreases |items|
  {
    if items != [] {
      AssignIs(w, Meanings(items[0].key), Meanings(items[0].value));
      ToldByName(Assign(w, Meanings(items[0].key), Meanings(items[0].value)), items[1..]);
    }
  }

  /** `s` is an object of this grammar that says `w`. */
  ghost predicate Says(s: string, w: Wire) {
    exists x: Object ::
      ObjectOk(x) && s == ObjectText(x)
      && w == Wire(
           LastNamed(x.items, "session_id", ""), LastNamed(x.items, "user_id", ""),
           LastNamed(x.items, "tenant_id", ""), LastNamed(x.items, "expires_at", ""))
  }

  /** A cache value is read exactly as what some object of the grammar says; everything else is not read. */
  lemma UnmarshalIff(s: string, w: Wire)
    ensures Unmarshal(s) == Some(w) <==> Says(s, w)
  {
    if Unmarshal(s) == Some(w) {
      var x := ReadIsObject(s);
      ToldByName(EMPTY, x.items);
    }
    if Says(s, w) {
      var x: Object :| ObjectOk(x) && s == ObjectText(x)
        && w == Wire(
             LastNamed(x.items, "session_id", ""), LastNamed(x.items, "user_id", ""),
             LastNamed(x.items, "tenant_id", ""), LastNamed(x.items, "expires_at", ""));
      ObjectRead(x);
      ToldByName(EMPTY, x.items);
    }
  }
}
