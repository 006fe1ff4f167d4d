/** The protocol with the encodings the service uses, and what the two together guarantee end to end. */
module Service {
  import opened Basics
  import opened Domain
  import opened Protocol
  import opened Invariant
  import Binary
  import CachePayload
  import Email
  import Phc
  import Timestamp
  import Witness
  import Accounts

  /** What is left abstract: SHA-256, the key derivation function, and the configuration values. */
  datatype Env = Env(
    cacheOn: bool, sessionTtl: int, sha: string -> Bytes, kdf: Phc.Kdf, params: Phc.Params)

  const SHA256_SIZE := 32

  ghost predicate EnvOk(e: Env) {
    e.sessionTtl > 0 && (forall raw :: |e.sha(raw)| == SHA256_SIZE) && Phc.KdfOk(e.kdf) && Phc.ParamsOk(e.params)
  }

  function ConfigOf(e: Env): Config {
    Config(
      e.cacheOn, e.sessionTtl, e.sha,
      Binary.EncodeHex, CachePayload.Encode, CachePayload.Decode, Email.NewEmail,
      (salt: Bytes, raw: Bytes) => Phc.Hash(e.kdf, e.params, salt, raw),
      (h: string, raw: Bytes) => Phc.Verify(e.kdf, h, raw))
  }

  lemma HashesOk(e: Env)
    requires EnvOk(e)
    ensures HashOk(ConfigOf(e))
  {
    var c := ConfigOf(e);
    forall salt, raw | c.hash(salt, raw).Some?
      ensures Parses(c, c.hash(salt, raw).value) && c.verify(c.hash(salt, raw).value, raw) == Some(true)
    {
      forall other ensures c.verify(c.hash(salt, raw).value, other).Some? {
        Phc.VerifyHash(e.kdf, e.params, salt, raw, other);
      }
      Phc.VerifyHash(e.kdf, e.params, salt, raw, raw);
    }
  }

  /** The encodings meet everything the protocol relies on, so every theorem about runs holds for the service. */
  lemma ServiceConfigOk(e: Env)
    requires EnvOk(e)
    ensures ConfigOk(ConfigOf(e))
  {
    var c := ConfigOf(e);
    forall a, b | c.hex(a) == c.hex(b) ensures a == b {
      Binary.HexInjective(a, b);
    }
    forall p ensures c.dec(c.enc(p)).None? || c.dec(c.enc(p)) == Some(p) {
      CachePayload.PayloadRoundTrip(p);
    }
    forall s | c.normalise(s).Some? ensures c.normalise(c.normalise(s).value) == c.normalise(s) {
      Email.Idempotent(s);
    }
    HashesOk(e);
    assert forall raw :: |c.hex(c.sha(raw))| == 2 * SHA256_SIZE;
  }

  /** A hash that verifies without error against every password is a well-formed PHC string: verifying any
      password of at most 256 bytes against it runs the key derivation function. */
  lemma ParsesIsWellFormed(e: Env, h: string)
    ensures Parses(ConfigOf(e), h) <==> Phc.Parse(h).Some?
  {
    assert ConfigOf(e).verify(h, []).Some? <==> Phc.Parse(h).Some?;
  }

  /** After a sign-up has committed, in every later state a sign-in to that tenant with any spelling of the
      email that normalises alike passes the credential check, bound to that user, exactly when the password
      has at most 256 bytes and derives the same key; any other password is refused as invalid. */
  lemma SignInAgain(
      e: Env, states: seq<State>, labels: seq<Label>, i: nat, j: nat, job: Job, again: Credentials, a: Answer)
    returns (salt: Bytes)
    requires EnvOk(e) && Run(ConfigOf(e), states, labels) && i < j < |states|
    requires CommitsNow(labels[i]) && labels[i].t in states[i].threads
    requires states[i].threads[labels[i].t].AtExec? && states[i].threads[labels[i].t].job == job && job.SignUpJob?
    requires again.tenant == job.input.tenant && Email.NewEmail(again.email) == Email.NewEmail(job.input.email)
    requires EmailAnswer(states[j].pg, again.tenant, job.newUser.email, a) && !a.Fault?
    ensures Phc.Hash(e.kdf, e.params, salt, job.input.password) == Some(job.newUser.passwordHash)
    ensures SignInStart(ConfigOf(e), again) == AtLookup(again, job.newUser.email)
    ensures a == Row(job.newUser.id) && job.newUser.id in states[j].pg.users
    ensures var p := e.params;
      CredentialCheck(ConfigOf(e), again, states[j].pg.users[job.newUser.id]) ==
      if |again.password| <= PASSWORD_MAX_LEN
         && e.kdf(again.password, salt, p.time, p.memoryKiB, p.parallelism, p.keyLen) ==
              e.kdf(job.input.password, salt, p.time, p.memoryKiB, p.parallelism, p.keyLen)
      then AtToken(again, job.newUser) else Done(Failed(InvalidCredentials))
  {
    ServiceConfigOk(e);
    var k := Accounts.SignUpOrigin(ConfigOf(e), states, labels, i, labels[i].t);
    salt := labels[k].salt;
    Accounts.AccountRecoverable(ConfigOf(e), states, labels, i, j, job, again.email, again.password, a);
    Phc.VerifyHash(e.kdf, e.params, salt, job.input.password, again.password);
  }

  /** An entry that was stored before its deadline answers a probe with what was stored, exactly when the
      session expires in a year of four digits. */
  lemma StoredEntryAnswers(e: Env, s: State, key: string, p: CachedSession, ttl: int, later: int)
    requires 0 < ttl && s.now <= later < s.now + ttl
    ensures var c := ConfigOf(e);
      Cached(c, s.(now := later, cache := Put(c, s.cache, s.now, key, p, ttl)), key) ==
        if Timestamp.YearInRange(p.expiresAt) then Some(p) else None
  {
    CachePayload.PayloadRoundTrip(p);
  }

  // ---------------------------------------------------------------- a delete that is not enough

  const SOME_EMAIL := "a@b.cd"

  lemma SomeEmailAccepted()
    ensures Email.NewEmail(SOME_EMAIL) == Some(SOME_EMAIL)
  {
    var s := SOME_EMAIL;
    assert Email.First(s, '@') == 1 by {
      assert s[0] == 'a' && s[1] == '@';
      Email.FirstAt(s, 1);
    }
    var d := s[2..];
    assert d == "b.cd" && d[2..] == "cd";
    Email.LastLabel(d, 1);
    assert Email.Scan(s);
    Email.PlainNormal(s);
    Email.AcceptedIff(s, s);
  }

  const SOME_ID := Uuid([1, 0, 0, 0, 0, 0, 0, 0, 0, 0, 0, 0, 0, 0, 0, 0])

  /** A sign-up at the epoch that every configuration accepts. */
  function SomeSignUp(): Label {
    ArriveSignUp(
      0, Credentials(TenantId(SOME_ID), SOME_EMAIL, seq(PASSWORD_MIN_LEN, _ => 0)), [], seq(TOKEN_MIN_LEN, _ => 'a'),
      SOME_ID, SOME_ID, false)
  }

  lemma SomeSignUpFits(e: Env) returns (job: Job)
    requires EnvOk(e)
    ensures Witness.Fits(ConfigOf(e), 0, SomeSignUp(), job)
    ensures job.SignUpJob? && job.session.expiresAt == e.sessionTtl
  {
    SomeEmailAccepted();
    assert SOME_ID.bytes[0] != NIL.bytes[0];
    job := Witness.FitsWhenValid(ConfigOf(e), 0, SomeSignUp());
  }

  /** With the service's own encodings: a session is signed out, its entry is deleted without error, and a
      request that arrives afterwards is let through. */
  lemma SignedOutYetServed(e: Env)
    requires EnvOk(e) && e.cacheOn && Timestamp.YearInRange(e.sessionTtl)
    ensures exists id, token, xs, ls :: Witness.ServedAfterDelete(ConfigOf(e), xs, ls, id, token)
  {
    var job := SomeSignUpFits(e);
    ServiceConfigOk(e);
    CachePayload.PayloadRoundTrip(PayloadOf(job.session));
    Witness.DeleteIsNotEnough(ConfigOf(e), 0, SomeSignUp(), job);
  }
}
