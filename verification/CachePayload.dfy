/** The JSON value the session cache stores, and the keys it stores it under. */
module CachePayload {
  import opened Basics
  import opened Binary
  import opened Domain
  import UuidText
  import Timestamp

  const KEY_PREFIX := "identity:session:"

  function Key(tokenHashHex: string): string {
    KEY_PREFIX + tokenHashHex
  }

  datatype Wire = Wire(sessionId: string, userId: string, tenantId: string, expiresAt: string)

  const EMPTY := Wire("", "", "", "")

  // ---------------------------------------------------------------- writing

  /** Characters that stand for themselves inside a JSON string as the encoder writes it. */
  predicate Plain(s: string) {
    forall i :: 0 <= i < |s| ==> ' ' <= s[i] < '\U{007F}' && s[i] !in {'"', '\\', '<', '>', '&'}
  }

  function Member(key: string, value: string): string {
    "\"" + (key + "\"" + (":\"" + (value + "\"")))
  }

  function FourMembers(
      k1: string, v1: string, k2: string, v2: string, k3: string, v3: string, k4: string, v4: string): string {
    Member(k1, v1) + "," + (Member(k2, v2) + "," + (Member(k3, v3) + "," + (Member(k4, v4) + "}")))
  }

  function Marshal(w: Wire): string {
    "{" + FourMembers(
      "session_id", w.sessionId, "user_id", w.userId, "tenant_id", w.tenantId, "expires_at", w.expiresAt)
  }

  // ---------------------------------------------------------------- reading

  function SkipSpaces(s: string): (rest: string)
    ensures |rest| <= |s|
  {
    if s != "" && s[0] in {' ', '\t', '\n', '\r'} then SkipSpaces(s[1..]) else s
  }

  function Escape(c: char): Option<char> {
    if c in {'"', '\\', '/'} then Some(c)
    else if c == 'b' then Some('\U{0008}')
    else if c == 'f' then Some('\U{000C}')
    else if c == 'n' then Some('\n')
    else if c == 'r' then Some('\r')
    else if c == 't' then Some('\t')
    else None
  }

  /** Four hexadecimal digits; a surrogate reads as the replacement character. */
  function CodePoint(s: string): Option<char>
    requires |s| == 4
  {
    match DecodeHex(s)
    case None => None
    case Some(b) =>
      if |b| != 2 then None
      else
        var high: int, low: int := b[0], b[1];
        var n := 256 * high + low;
        Some(if 0xD800 <= n < 0xE000 then '\U{FFFD}' else n as char)
  }

  /** The rest of a string literal after its opening quote, and what follows its closing quote. */
  function TakeString(s: string): (r: Option<(string, string)>)
    ensures r.Some? ==> |r.value.1| < |s|
  {
    if s == "" || s[0] < ' ' then None
    else if s[0] == '"' then Some(("", s[1..]))
    else
      var head: Option<(char, string)> :=
        if s[0] != '\\' then Some((s[0], s[1..]))
        else if |s| >= 6 && s[1] == 'u' then
          match CodePoint(s[2..6]) { case None => None case Some(c) => Some((c, s[6..])) }
        else if |s| >= 2 && Escape(s[1]).Some? then Some((Escape(s[1]).value, s[2..]))
        else None;
      match head
      case None => None
      case Some((c, rest)) =>
        match TakeString(rest)
        case None => None
        case Some((tail, after)) => Some(([c] + tail, after))
  }

  /** Simple case folding as far as ASCII letters are concerned: the long s and the Kelvin sign fold too. */
  function Fold(c: char): char {
    if c == '\U{017F}' then 's' else if c == '\U{212A}' then 'k' else UuidText.LowerAscii(c)
  }

  function Lower(s: string): string {
    seq(|s|, i requires 0 <= i < |s| => Fold(s[i]))
  }

  /** Names are matched without regard to letter case; unknown names are ignored and the last value wins. */
  function Assign(w: Wire, key: string, value: string): Wire {
    var k := Lower(key);
    if k == "session_id" then w.(sessionId := value)
    else if k == "user_id" then w.(userId := value)
    else if k == "tenant_id" then w.(tenantId := value)
    else if k == "expires_at" then w.(expiresAt := value)
    else w
  }

  /** One `"name": "value"`, and what follows it. */
  function TakeMember(s: string, w: Wire): (r: Option<(Wire, string)>)
    ensures r.Some? ==> |r.value.1| < |s|
  {
    if s == "" || s[0] != '"' then None
    else
      match TakeString(s[1..])
      case None => None
      case Some((key, s1)) =>
        var s2 := SkipSpaces(s1);
        if s2 == "" || s2[0] != ':' then None
        else
          var s3 := SkipSpaces(s2[1..]);
          if s3 == "" || s3[0] != '"' then None
          else
            match TakeString(s3[1..])
            case None => None
            case Some((value, s4)) => Some((Assign(w, key, value), SkipSpaces(s4)))
  }

  /** The members of an object up to and including its closing brace. */
  function TakeMembers(s: string, w: Wire): Option<(Wire, string)>
    decreases |s|
  {
    match TakeMember(s, w)
    case None => None
    case Some((w', rest)) =>
      if rest == "" then None
      else if rest[0] == '}' then Some((w', rest[1..]))
      else if rest[0] == ',' then TakeMembers(SkipSpaces(rest[1..]), w')
      else None
  }

  function Unmarshal(s: string): Option<Wire> {
    var s0 := SkipSpaces(s);
    if s0 == "" || s0[0] != '{' then None
    else
      var s1 := SkipSpaces(s0[1..]);
      if s1 != "" && s1[0] == '}' then (if SkipSpaces(s1[1..]) == "" then Some(EMPTY) else None)
      else
        match TakeMembers(s1, EMPTY)
        case None => None
        case Some((w, rest)) => if SkipSpaces(rest) == "" then Some(w) else None
  }

  // ---------------------------------------------------------------- the payload

  function WireOf(p: CachedSession): Wire {
    Wire(UuidText.Show(p.session), UuidText.Show(p.user), UuidText.Show(p.tenant.value), Timestamp.Show(p.expiresAt))
  }

  function Encode(p: CachedSession): string {
    Marshal(WireOf(p))
  }

  /** Any value that does not decode is a cache miss. */
  function Decode(b: string): Option<CachedSession> {
    match Unmarshal(b)
    case None => None
    case Some(w) => FromWire(w)
  }

  function FromWire(w: Wire): Option<CachedSession> {
    match (UuidText.Parse(w.sessionId), UuidText.Parse(w.userId), UuidText.Parse(w.tenantId),
      Timestamp.Parse(w.expiresAt))
    case (Some(sid), Some(uid), Some(tid), Some(exp)) => Some(CachedSession(sid, uid, TenantId(tid), exp))
    case _ => None
  }

  // ---------------------------------------------------------------- what was written is read again

  lemma {:induction false} TakePlain(body: string, rest: string)
    requires Plain(body)
    ensures TakeString(body + "\"" + rest) == Some((body, rest))
  {
    var s := body + "\"" + rest;
    if body != "" {
      assert s[1..] == body[1..] + "\"" + rest;
      TakePlain(body[1..], rest);
      assert [body[0]] + body[1..] == body;
    }
  }

  lemma TakeWritten(key: string, value: string, rest: string, w: Wire)
    requires Plain(key) && Plain(value) && (rest == "" || rest[0] !in {' ', '\t', '\n', '\r'})
    ensures TakeMember(Member(key, value) + rest, w) == Some((Assign(w, key, value), rest))
  {
    var s := Member(key, value) + rest;
    var s1 := ":\"" + value + "\"" + rest;
    assert s[1..] == key + "\"" + s1;
    TakePlain(key, s1);
    assert s1[1..] == "\"" + value + "\"" + rest;
    assert s1[1..][1..] == value + "\"" + rest;
    TakePlain(value, rest);
  }

  lemma TakeMore(key: string, value: string, rest: string, w: Wire)
    requires Plain(key) && Plain(value) && rest != "" && rest[0] == '"'
    ensures TakeMembers(Member(key, value) + "," + rest, w) == TakeMembers(rest, Assign(w, key, value))
  {
    TakeWritten(key, value, "," + rest, w);
    assert Member(key, value) + "," + rest == Member(key, value) + ("," + rest);
    assert ("," + rest)[1..] == rest;
  }

  lemma TakeEnd(key: string, value: string, w: Wire)
    requires Plain(key) && Plain(value)
    ensures TakeMembers(Member(key, value) + "}", w) == Some((Assign(w, key, value), ""))
  {
    TakeWritten(key, value, "}", w);
    assert "}"[1..] == "";
  }

  lemma AssignNamed(w: Wire, v: string)
    ensures Assign(w, "session_id", v) == w.(sessionId := v) && Assign(w, "user_id", v) == w.(userId := v)
    ensures Assign(w, "tenant_id", v) == w.(tenantId := v) && Assign(w, "expires_at", v) == w.(expiresAt := v)
  {
    assert Lower("session_id") == "session_id" && Lower("user_id") == "user_id";
    assert Lower("tenant_id") == "tenant_id" && Lower("expires_at") == "expires_at";
  }

  predicate PlainWire(w: Wire) {
    Plain(w.sessionId) && Plain(w.userId) && Plain(w.tenantId) && Plain(w.expiresAt)
  }

  lemma TakeFour(
      k1: string, v1: string, k2: string, v2: string, k3: string, v3: string, k4: string, v4: string, w: Wire)
    requires Plain(k1) && Plain(v1) && Plain(k2) && Plain(v2) && Plain(k3) && Plain(v3) && Plain(k4) && Plain(v4)
    ensures TakeMembers(FourMembers(k1, v1, k2, v2, k3, v3, k4, v4), w) ==
      Some((Assign(Assign(Assign(Assign(w, k1, v1), k2, v2), k3, v3), k4, v4), ""))
  {
    var s4 := Member(k4, v4) + "}";
    var s3 := Member(k3, v3) + "," + s4;
    var s2 := Member(k2, v2) + "," + s3;
    var w1 := Assign(w, k1, v1);
    var w2 := Assign(w1, k2, v2);
    var w3 := Assign(w2, k3, v3);
    TakeMore(k1, v1, s2, w);
    TakeMore(k2, v2, s3, w1);
    TakeMore(k3, v3, s4, w2);
    TakeEnd(k4, v4, w3);
  }

  lemma AssignAll(w: Wire)
    ensures Assign(Assign(Assign(Assign(EMPTY, "session_id", w.sessionId), "user_id", w.userId),
                          "tenant_id", w.tenantId), "expires_at", w.expiresAt) == w
  {
    AssignNamed(EMPTY, w.sessionId);
    var w1 := Wire(w.sessionId, "", "", "");
    AssignNamed(w1, w.userId);
    var w2 := w1.(userId := w.userId);
    AssignNamed(w2, w.tenantId);
    AssignNamed(w2.(tenantId := w.tenantId), w.expiresAt);
  }

  lemma TakeWire(w: Wire)
    requires PlainWire(w)
    ensures |Marshal(w)| >= 2 && Marshal(w)[0] == '{' && Marshal(w)[1] == '"'
    ensures TakeMembers(Marshal(w)[1..], EMPTY) == Some((w, ""))
  {
    TakeFour("session_id", w.sessionId, "user_id", w.userId, "tenant_id", w.tenantId, "expires_at", w.expiresAt, EMPTY);
    AssignAll(w);
    assert Marshal(w)[1..] ==
      FourMembers("session_id", w.sessionId, "user_id", w.userId, "tenant_id", w.tenantId, "expires_at", w.expiresAt);
  }

  lemma UnmarshalMembers(s: string, w: Wire)
    requires |s| >= 2 && s[0] == '{' && s[1] == '"' && TakeMembers(s[1..], EMPTY) == Some((w, ""))
    ensures Unmarshal(s) == Some(w)
  {}

  lemma UnmarshalMarshal(w: Wire)
    requires PlainWire(w)
    ensures Unmarshal(Marshal(w)) == Some(w)
  {
    TakeWire(w);
    UnmarshalMembers(Marshal(w), w);
  }

  lemma UuidPlain(u: Uuid)
    ensures Plain(UuidText.Show(u))
  {
    UuidText.ShowIsHexOrDash(u);
  }

  lemma StampPlain(s: string)
    requires Timestamp.StampText(s)
    ensures Plain(s)
  {}

  lemma WirePlain(p: CachedSession)
    ensures PlainWire(WireOf(p))
  {
    UuidPlain(p.session);
    UuidPlain(p.user);
    UuidPlain(p.tenant.value);
    Timestamp.ShowIsStampText(p.expiresAt);
    StampPlain(Timestamp.Show(p.expiresAt));
  }

  lemma FromWireOf(p: CachedSession)
    ensures FromWire(WireOf(p)) == if Timestamp.YearInRange(p.expiresAt) then Some(p) else None
  {
    UuidText.UuidRoundTrip(p.session);
    UuidText.UuidRoundTrip(p.user);
    UuidText.UuidRoundTrip(p.tenant.value);
    Timestamp.TimestampRoundTrip(p.expiresAt);
  }

  lemma DecodeWire(s: string, w: Wire)
    requires Unmarshal(s) == Some(w)
    ensures Decode(s) == FromWire(w)
  {}

  /** Reading back what was stored gives the same session, user, tenant and instant exactly when the
      expiry lies in the years 0000 to 9999; any other payload reads as a cache miss. */
  lemma PayloadRoundTrip(p: CachedSession)
    ensures Decode(Encode(p)) == if Timestamp.YearInRange(p.expiresAt) then Some(p) else None
  {
    WirePlain(p);
    UnmarshalMarshal(WireOf(p));
    DecodeWire(Encode(p), WireOf(p));
    FromWireOf(p);
  }

  /** Different hashes live under different keys. */
  lemma KeysInjective(a: Bytes, b: Bytes)
    requires Key(EncodeHex(a)) == Key(EncodeHex(b))
    ensures a == b
  {
    assert Key(EncodeHex(a))[|KEY_PREFIX|..] == EncodeHex(a);
    assert Key(EncodeHex(b))[|KEY_PREFIX|..] == EncodeHex(b);
    HexInjective(a, b);
  }

  lemma MemberThen(key: string, value: string, rest: string)
    ensures Member(key, value) + rest == "\"" + key + "\":\"" + (value + ("\"" + rest))
  {}

  lemma MembersText(k1: string, v1: string, k2: string, v2: string, k3: string, v3: string, k4: string, v4: string)
    ensures FourMembers(k1, v1, k2, v2, k3, v3, k4, v4) ==
      "\"" + k1 + "\":\"" + (v1 + ("\"" + ("," + ("\"" + k2 + "\":\"" + (v2 + ("\"" + ("," +
      ("\"" + k3 + "\":\"" + (v3 + ("\"" + ("," + ("\"" + k4 + "\":\"" + (v4 + ("\"" + "}"))))))))))))))
  {
    var s4 := Member(k4, v4) + "}";
    var s3 := Member(k3, v3) + ("," + s4);
    var s2 := Member(k2, v2) + ("," + s3);
    MemberThen(k4, v4, "}");
    MemberThen(k3, v3, "," + s4);
    assert Member(k3, v3) + "," + s4 == s3;
    MemberThen(k2, v2, "," + s3);
    assert Member(k2, v2) + "," + s3 == s2;
    MemberThen(k1, v1, "," + s2);
    assert Member(k1, v1) + "," + s2 == Member(k1, v1) + ("," + s2);
  }

  /** The text of a stored value and of its key: the four members, in this order, and nothing else. */
  lemma StoredText(p: CachedSession, tokenHash: Bytes)
    ensures Key(EncodeHex(tokenHash)) == "identity:session:" + EncodeHex(tokenHash)
    ensures Encode(p) == "{" + (
      "\"" + "session_id" + "\":\"" + (UuidText.Show(p.session) + ("\"" + ("," +
      ("\"" + "user_id" + "\":\"" + (UuidText.Show(p.user) + ("\"" + ("," +
      ("\"" + "tenant_id" + "\":\"" + (UuidText.Show(p.tenant.value) + ("\"" + ("," +
      ("\"" + "expires_at" + "\":\"" + (Timestamp.Show(p.expiresAt) + ("\"" + "}")))))))))))))))
  {
    MembersText("session_id", UuidText.Show(p.session), "user_id", UuidText.Show(p.user),
                "tenant_id", UuidText.Show(p.tenant.value), "expires_at", Timestamp.Show(p.expiresAt));
  }
}
