/** The in-memory doubles the use-case tests run against, and how far they agree with the database. */
module TestKit {
  import opened Basics
  import opened Decimal
  import opened Domain
  import opened Postgres
  import UuidText

  // ---------------------------------------------------------------- deterministic tokens

  function Leading(n: int): string {
    if n > 0 then Print(n) else ""
  }

  lemma LastDigit(n: nat)
    requires n > 0
    ensures Leading(n) == Leading(n / 10) + [DigitOf(n % 10)]
  {}

  /** Digits are put in front one by one; a negative number has none. */
  method IntToString(number: int) returns (s: string)
    ensures s == if number < 0 then "" else Print(number)
  {
    if number == 0 {
      return "0";
    }
    var n := number;
    s := "";
    while n > 0
      invariant n < 0 <==> number < 0
      invariant Leading(number) == Leading(n) + s
    {
      LastDigit(n);
      s := [DigitOf(n % 10)] + s;
      n := n / 10;
    }
  }

  const PAD_SIZE := 40

  function FakeToken(n: nat): string {
    seq(PAD_SIZE, _ => 'a') + "-" + Print(n)
  }

  /** No two numbers share a token. */
  lemma FakeTokensDiffer(m: nat, n: nat)
    requires FakeToken(m) == FakeToken(n)
    ensures m == n
  {
    assert FakeToken(m)[PAD_SIZE + 1..] == Print(m) && FakeToken(n)[PAD_SIZE + 1..] == Print(n);
    PrintNumeral(m);
    PrintNumeral(n);
  }

  class FakeTokenGen {
    var next: nat

    constructor ()
      ensures next == 0
    {
      next := 0;
    }

    method NewToken() returns (r: Option<string>)
      modifies this
      ensures next == old(next) + 1
      ensures r == if TokenValid(FakeToken(next)) then Some(FakeToken(next)) else None
    {
      next := next + 1;
      var pad := new char[PAD_SIZE](_ => 'b');
      var i := 0;
      while i < pad.Length
        invariant next == old(next) + 1
        invariant 0 <= i <= pad.Length && forall k :: 0 <= k < i ==> pad[k] == 'a'
      {
        pad[i] := 'a';
        i := i + 1;
      }
      var digits := IntToString(next);
      var token := pad[..] + "-" + digits;
      assert token == FakeToken(next);
      r := if TokenValid(token) then Some(token) else None;
    }
  }

  // ---------------------------------------------------------------- users

  function MailKey(tenant: TenantId, email: string): string {
    UuidText.Show(tenant.value) + "|" + email
  }

  lemma MailKeyInjective(t1: TenantId, e1: string, t2: TenantId, e2: string)
    ensures MailKey(t1, e1) == MailKey(t2, e2) <==> t1 == t2 && e1 == e2
  {
    UuidText.ShowIsHexOrDash(t1.value);
    UuidText.ShowIsHexOrDash(t2.value);
    UuidText.UuidRoundTrip(t1.value);
    UuidText.UuidRoundTrip(t2.value);
    var k1, k2 := MailKey(t1, e1), MailKey(t2, e2);
    assert k1[..36] == UuidText.Show(t1.value) && k2[..36] == UuidText.Show(t2.value);
    assert k1[37..] == e1 && k2[37..] == e2;
  }

  predicate HasEmail(u: User, tenant: TenantId, email: string) {
    u.tenant == tenant && u.email == email
  }

  class FakeUsers {
    var byId: map<Uuid, User>
    var byMail: map<string, Uuid>

    constructor ()
      ensures Valid() && byId == map[]
    {
      byId, byMail := map[], map[];
    }

    /** The two maps describe the same users. */
    ghost predicate Valid()
      reads this
    {
      && (forall id :: id in byId ==>
            byId[id].id == id && MailKey(byId[id].tenant, byId[id].email) in byMail
            && byMail[MailKey(byId[id].tenant, byId[id].email)] == id)
      && (forall k :: k in byMail ==> byMail[k] in byId && MailKey(byId[byMail[k]].tenant, byId[byMail[k]].email) == k)
    }

    lemma Indexed(tenant: TenantId, email: string)
      requires Valid()
      ensures MailKey(tenant, email) in byMail <==> exists id :: id in byId && HasEmail(byId[id], tenant, email)
      ensures MailKey(tenant, email) in byMail ==>
        var id := byMail[MailKey(tenant, email)]; id in byId && HasEmail(byId[id], tenant, email)
      ensures forall id :: id in byId && HasEmail(byId[id], tenant, email) ==> byMail[MailKey(tenant, email)] == id
    {
      if MailKey(tenant, email) in byMail {
        var u := byId[byMail[MailKey(tenant, email)]];
        MailKeyInjective(u.tenant, u.email, tenant, email);
        assert HasEmail(byId[byMail[MailKey(tenant, email)]], tenant, email);
      }
    }

    /** Refuses exactly a taken email.  Unlike the database it does not look at the id: the index stays sound
        exactly when the id was new. */
    method SaveTx(u: User) returns (taken: bool)
      requires Valid()
      modifies this
      ensures taken <==> exists id :: id in old(byId) && HasEmail(old(byId)[id], u.tenant, u.email)
      ensures byId == if taken then old(byId) else old(byId)[u.id := u]
      ensures Valid() <==> taken || u.id !in old(byId)
    {
      Indexed(u.tenant, u.email);
      var key := MailKey(u.tenant, u.email);
      taken := key in byMail;
      if !taken {
        ghost var stale := if u.id in byId then MailKey(byId[u.id].tenant, byId[u.id].email) else key;
        byId := byId[u.id := u];
        byMail := byMail[key := u.id];
        assert u.id in old(byId) ==> stale in byMail && byMail[stale] == u.id && stale != key;
      }
    }

    method FindByEmail(tenant: TenantId, email: string) returns (r: Option<User>)
      requires Valid()
      ensures r.Some? ==> r.value.id in byId && byId[r.value.id] == r.value && HasEmail(r.value, tenant, email)
      ensures r.None? ==> forall id :: id in byId ==> !HasEmail(byId[id], tenant, email)
    {
      Indexed(tenant, email);
      var key := MailKey(tenant, email);
      if key !in byMail {
        return None;
      }
      return Some(byId[byMail[key]]);
    }

    method FindById(tenant: TenantId, id: Uuid) returns (r: Option<User>)
      ensures r == if id in byId && byId[id].tenant == tenant then Some(byId[id]) else None
    {
      if id !in byId {
        return None;
      }
      var u := byId[id];
      UuidText.UuidRoundTrip(u.tenant.value);
      UuidText.UuidRoundTrip(tenant.value);
      if UuidText.Show(u.tenant.value) != UuidText.Show(tenant.value) {
        return None;
      }
      return Some(u);
    }
  }

  // ---------------------------------------------------------------- sessions

  /** The two maps describe the same sessions. */
  ghost predicate Paired(byId: map<Uuid, Session>, byHash: map<Bytes, Uuid>) {
    && (forall id :: id in byId ==>
          byId[id].id == id && byId[id].tokenHash in byHash && byHash[byId[id].tokenHash] == id)
    && (forall h :: h in byHash ==> byHash[h] in byId && byId[byHash[h]].tokenHash == h)
  }

  /** No other row has the id with another hash, or the hash with another id. */
  ghost predicate Unshared(byId: map<Uuid, Session>, s: Session) {
    forall id :: id in byId && SameSessionKey(byId[id], s) ==> id == s.id && byId[id].tokenHash == s.tokenHash
  }

  lemma UnsharedStaysPaired(byId: map<Uuid, Session>, byHash: map<Bytes, Uuid>, s: Session)
    requires Paired(byId, byHash) && Unshared(byId, s)
    ensures Paired(byId[s.id := s], byHash[s.tokenHash := s.id])
  {
    forall id | id in byId && id != s.id ensures byId[id].tokenHash != s.tokenHash {
      assert SameSessionKey(byId[id], s) <==> byId[id].id == s.id || byId[id].tokenHash == s.tokenHash;
    }
    if s.id in byId {
      assert SameSessionKey(byId[s.id], s);
    }
  }

  lemma SharedBreaksPairing(byId: map<Uuid, Session>, byHash: map<Bytes, Uuid>, s: Session, id: Uuid)
    requires Paired(byId, byHash) && id in byId && SameSessionKey(byId[id], s)
    requires !(id == s.id && byId[id].tokenHash == s.tokenHash)
    ensures !Paired(byId[s.id := s], byHash[s.tokenHash := s.id])
  {
    assert byId[id].tokenHash in byHash[s.tokenHash := s.id] && id in byId[s.id := s];
  }

  class FakeSessions {
    var byId: map<Uuid, Session>
    var byHash: map<Bytes, Uuid>

    constructor ()
      ensures Valid() && byId == map[]
    {
      byId, byHash := map[], map[];
    }

    ghost predicate Valid()
      reads this
    {
      Paired(byId, byHash)
    }

    /** Overwrites where the database would report a unique violation: the two maps stay paired exactly when
        no other row shares the id or the hash. */
    method SaveTx(s: Session)
      requires Valid()
      modifies this
      ensures byId == old(byId)[s.id := s]
      ensures Valid() <==> Unshared(old(byId), s)
    {
      if Unshared(byId, s) {
        UnsharedStaysPaired(byId, byHash, s);
      } else {
        ghost var id :| id in byId && SameSessionKey(byId[id], s) && !(id == s.id && byId[id].tokenHash == s.tokenHash);
        SharedBreaksPairing(byId, byHash, s, id);
      }
      byId := byId[s.id := s];
      byHash := byHash[s.tokenHash := s.id];
    }

    method FindByTokenHash(hash: Bytes) returns (r: Option<Session>)
      requires Valid()
      ensures r.Some? ==> r.value.id in byId && byId[r.value.id] == r.value && r.value.tokenHash == hash
      ensures r.None? ==> forall id :: id in byId ==> byId[id].tokenHash != hash
    {
      if hash !in byHash {
        return None;
      }
      return Some(byId[byHash[hash]]);
    }

    /** Finds its row exactly when the database does, and keeps the first revocation as COALESCE does. */
    method RevokeTx(tenant: TenantId, id: Uuid, now: int) returns (found: bool)
      requires Valid()
      modifies this
      ensures Valid()
      ensures found <==> id in old(byId) && old(byId)[id].tenant == tenant
      ensures byId == if found
        then old(byId)[id := old(byId)[id].(revokedAt := Some(Coalesce(old(byId)[id].revokedAt, now)))]
        else old(byId)
    {
      if id !in byId {
        return false;
      }
      var s := byId[id];
      UuidText.UuidRoundTrip(s.tenant.value);
      UuidText.UuidRoundTrip(tenant.value);
      if UuidText.Show(s.tenant.value) != UuidText.Show(tenant.value) {
        return false;
      }
      if s.revokedAt.None? {
        byId := byId[id := s.(revokedAt := Some(now))];
      }
      return true;
    }
  }
}
