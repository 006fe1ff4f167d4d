/** The use cases, statement by statement.

    A request is one thread of the protocol: every contract says that the execution, with whatever other
    requests did between its calls, is a run of the protocol that ends with the reply the caller gets. */
module UseCases {
  import opened Basics
  import opened Domain
  import opened Protocol
  import opened Invariant
  import Runs
  import opened Runtime
  import opened Adapters
  import Hasher
  import Tokens

  datatype Output = Output(user: Uuid, token: string, expiresAt: int)

  function ReplyOf(r: Result<Output, Error>): Reply {
    match r
    case Ok(out) => Issued(out.user, out.token, out.expiresAt)
    case Err(e) => Failed(e)
  }

  const ANY_ID := Uuid([1, 0, 0, 0, 0, 0, 0, 0, 0, 0, 0, 0, 0, 0, 0, 0])

  /** A fresh version 4 UUID; it is never nil. */
  method NewUuid() returns (u: Uuid)
    ensures u != NIL
  {
    assert ANY_ID.bytes[0] != NIL.bytes[0];
    u :| u != NIL;
  }

  /** The session begins between the two clock values and lasts for the configured time. */
  predicate Timed(s: Session, ttl: int, earliest: int, latest: int) {
    earliest <= s.createdAt <= latest && s.expiresAt == s.createdAt + ttl
  }

  /** What a caller can tell of an issued session: its token was drawn for it, and it lasts for the configured
      time from a moment between the call and the reply. */
  predicate Granted(out: Output, ttl: int, earliest: int, latest: int, before: seq<Bytes>, after: seq<Bytes>) {
    earliest + ttl <= out.expiresAt <= latest + ttl && Tokens.Drawn(before, after, out.token)
  }

  /** The sign-up is valid and everything it will write has been prepared; the clock is read here. */
  method AcceptSignUp(
      ledger: Ledger, t: nat, input: Credentials, email: string, hash: string, salt: Bytes, token: string)
    returns (u: User, session: Session)
    requires ledger.Valid() && t !in ledger.last.threads && !input.tenant.IsZero()
    requires ledger.c.normalise(input.email) == Some(email) && PasswordPolicy(input.password) && TokenValid(token)
    requires ledger.c.hash(salt, input.password) == Some(hash)
    modifies ledger
    ensures ledger.Valid() && ledger.Grown() && ledger.CameIn(t, input)
    ensures ledger.At(t, AtBegin(SignUpJob(input, u, session, token)))
    ensures Timed(session, ledger.c.sessionTtl, old(ledger.now), ledger.now)
  {
    ledger.Others(t);
    var now := ledger.now;
    var userId := NewUuid();
    u := NewUser(userId, input.tenant, email, hash, now);
    var sessionId := NewUuid();
    session := NewSession(sessionId, input.tenant, userId, ledger.c.sha(token), now, now + ledger.c.sessionTtl);
    ledger.Record(ArriveSignUp(t, input, salt, token, userId, sessionId, false));
  }

  class SignUp {
    const ledger: Ledger
    const uow: UnitOfWork
    const users: UserRepository
    const sessions: SessionRepository
    const outbox: OutboxRepository
    const cache: SessionCache?
    const hasher: Hasher.PasswordHasher
    const tokens: Tokens.OpaqueGenerator

    constructor (ledger: Ledger, cache: SessionCache?, hasher: Hasher.PasswordHasher)
      requires ledger.Valid() && hasher.Valid() && hasher.c == ledger.c
      requires (cache != null <==> ledger.c.cacheOn) && (cache != null ==> cache.ledger == ledger)
      ensures Valid() && this.ledger == ledger && this.cache == cache && this.hasher == hasher
    {
      this.ledger, this.cache, this.hasher := ledger, cache, hasher;
      uow := new UnitOfWork(ledger);
      users := new UserRepository(ledger);
      sessions := new SessionRepository(ledger);
      outbox := new OutboxRepository(ledger);
      tokens := new Tokens.OpaqueGenerator(hasher.source);
    }

    ghost predicate Valid()
      reads ledger
    {
      && ledger.Valid() && hasher.Valid() && hasher.c == ledger.c
      && uow.ledger == ledger && users.ledger == ledger && sessions.ledger == ledger && outbox.ledger == ledger
      && tokens.source == hasher.source
      && (cache != null <==> ledger.c.cacheOn) && (cache != null ==> cache.ledger == ledger)
    }

    /** The request ends before it has opened a transaction. */
    method Reject(t: nat, input: Credentials)
      requires Valid() && t !in ledger.last.threads
      modifies ledger
      ensures Valid() && ledger.Grown()
      ensures ledger.CameIn(t, input)
      ensures ledger.At(t, Done(Failed(
        if input.tenant.IsZero() then Internal
        else if ledger.c.normalise(input.email).None? then InvalidEmail
        else if !PasswordPolicy(input.password) then WeakPassword
        else Internal)))
    {
      assert ANY_ID.bytes[0] != NIL.bytes[0];
      ledger.Record(ArriveSignUp(t, input, [], "", ANY_ID, ANY_ID, true));
    }

    /** The two rows of a sign-up. */
    method Insert(t: nat, u: User, session: Session, ghost job: Job) returns (failure: Option<Error>)
      requires Valid() && ledger.At(t, AtExec(job, 0))
      requires job.SignUpJob? && job.newUser == u && job.session == session
      modifies ledger
      ensures Valid() && ledger.Grown()
      ensures ledger.At(t, match failure case None => AtExec(job, 2) case Some(error) => AtRollback(job, error))
    {
      ghost var answered;
      failure, answered := users.SaveTx(t, u, job, 0);
      if failure.Some? {
        return;
      }
      var ok;
      ok, answered := sessions.SaveTx(t, session, job, 1);
      failure := if ok then None else Some(Internal);
    }

    /** The two events of a sign-up. */
    method Announce(t: nat, u: User, session: Session, ghost job: Job) returns (failure: Option<Error>)
      requires Valid() && ledger.At(t, AtExec(job, 2))
      requires job.SignUpJob? && job.newUser == u && job.session == session
      modifies ledger
      ensures Valid() && ledger.Grown()
      ensures ledger.At(t, match failure case None => AtExec(job, 4) case Some(error) => AtRollback(job, error))
    {
      var ok;
      ghost var answered;
      ok, answered := outbox.WriteTx(t, UserCreatedEvent(u), job, 2);
      if !ok {
        return Some(Internal);
      }
      ok, answered := outbox.WriteTx(t, SessionCreatedEvent(session), job, 3);
      if !ok {
        return Some(Internal);
      }
      return None;
    }

    /** The statements of the transaction, up to the first that fails. */
    method Stage(t: nat, u: User, session: Session, ghost job: Job) returns (failure: Option<Error>)
      requires Valid() && ledger.At(t, AtExec(job, 0))
      requires job.SignUpJob? && job.newUser == u && job.session == session
      modifies ledger
      ensures Valid() && ledger.Grown()
      ensures ledger.At(t, match failure case None => AtExec(job, 4) case Some(error) => AtRollback(job, error))
    {
      failure := Insert(t, u, session, job);
      if failure.None? {
        failure := Announce(t, u, session, job);
      }
    }

    /** The statements and the commit. */
    method Work(t: nat, u: User, session: Session, ghost job: Job) returns (failure: Option<Error>)
      requires Valid() && ledger.At(t, AtExec(job, 0))
      requires job.SignUpJob? && job.newUser == u && job.session == session
      modifies ledger
      ensures Valid() && ledger.Grown()
      ensures ledger.At(t, match failure
        case None => AfterCommit(ledger.c, job)
        case Some(error) => AtRollback(job, error))
    {
      failure := Stage(t, u, session, job);
      if failure.None? {
        var ok := uow.Commit(t, job);
        failure := if ok then None else Some(Internal);
      }
    }

    /** The transaction: whatever fails after it was begun, it is rolled back. */
    method Persist(t: nat, u: User, session: Session, ghost job: Job) returns (failure: Option<Error>)
      requires Valid() && ledger.At(t, AtBegin(job))
      requires job.SignUpJob? && job.newUser == u && job.session == session
      modifies ledger
      ensures Valid() && ledger.Grown()
      ensures ledger.At(t, match failure
        case None => AfterCommit(ledger.c, job)
        case Some(error) => Done(Failed(error)))
    {
      var open := uow.Begin(t, job);
      if !open {
        return Some(Internal);
      }
      failure := Work(t, u, session, job);
      var committed := failure.None?;
      if !committed {
        var _ := uow.Rollback(t, job, failure.value);
      }
    }

    /** Everything before the transaction: the input is checked, the password hashed and a token drawn. */
    method Prepare(t: nat, input: Credentials) returns (r: Result<(User, Session, string), Error>)
      requires Valid() && t !in ledger.last.threads
      modifies ledger, hasher, hasher.source
      ensures Valid() && ledger.Grown()
      ensures ledger.CameIn(t, input)
      ensures ledger.At(t, match r
        case Ok((u, session, token)) => AtBegin(SignUpJob(input, u, session, token))
        case Err(error) => Done(Failed(error)))
      ensures r.Ok? ==> Timed(r.value.1, ledger.c.sessionTtl, old(ledger.now), ledger.now)
      ensures r.Ok? ==> Tokens.Drawn(old(hasher.source.delivered), hasher.source.delivered, r.value.2)
    {
      if input.tenant.IsZero() {
        Reject(t, input);
        return Err(Internal);
      }
      var email := ledger.c.normalise(input.email);
      if email.None? {
        Reject(t, input);
        return Err(InvalidEmail);
      }
      if !PasswordPolicy(input.password) {
        Reject(t, input);
        return Err(WeakPassword);
      }
      var hash, salt := hasher.Hash(input.password);
      if hash.None? {
        Reject(t, input);
        return Err(Internal);
      }
      var token, _ := tokens.NewToken();
      if token.None? {
        Reject(t, input);
        return Err(Internal);
      }
      var u, session := AcceptSignUp(ledger, t, input, email.value, hash.value, salt, token.value);
      return Ok((u, session, token.value));
    }

    /** The error is the one the failing step calls for; success issues the token of the committed session. */
    method Execute(t: nat, input: Credentials) returns (r: Result<Output, Error>)
      requires Valid() && t !in ledger.last.threads
      modifies ledger, hasher, hasher.source
      ensures Valid() && ledger.Grown()
      ensures ledger.CameIn(t, input)
      ensures ledger.At(t, Done(ReplyOf(r)))
      ensures r.Ok? ==> Granted(r.value, ledger.c.sessionTtl, old(ledger.now), ledger.now,
        old(hasher.source.delivered), hasher.source.delivered)
    {
      var prepared := Prepare(t, input);
      if prepared.Err? {
        return Err(prepared.error);
      }
      var (u, session, token) := prepared.value;
      ghost var job := SignUpJob(input, u, session, token);
      var failure := Persist(t, u, session, job);
      if failure.Some? {
        return Err(failure.value);
      }
      if cache != null {
        WriteThrough(ledger, cache, t, session, job);
      }
      return Ok(Output(u.id, token, session.expiresAt));
    }
  }

  /** The session of a finished transaction goes into the cache with its remaining lifetime; a failure to
      store it changes nothing for the caller. */
  method WriteThrough(ledger: Ledger, cache: SessionCache, t: nat, session: Session, ghost job: Job)
    requires ledger.Valid() && cache.ledger == ledger
    requires !job.SignOutJob? && job.session == session && ledger.At(t, AtTtl(job))
    modifies ledger
    ensures ledger.Valid() && ledger.Grown()
    ensures ledger.At(t, Done(Success(job)))
  {
    ledger.Others(t);
    var now := ledger.now;
    ledger.Record(ReadTtl(t));
    var _ := cache.Set(t, ledger.c.hex(session.tokenHash), PayloadOf(session), session.expiresAt - now,
      AtSet(job, now));
  }

  // ---------------------------------------------------------------- sign-in

  function Ascii(s: string): Bytes {
    seq(|s|, i requires 0 <= i < |s| => if s[i] < '\U{0080}' then s[i] as int else 0)
  }

  const DUMMY_PASSWORD := "dummy-password-for-timing-safety-only"

  /** The key derivation function ran once, on this password, unless the password is too long to be tried. */
  predicate DerivedOnce(before: seq<Bytes>, after: seq<Bytes>, password: Bytes) {
    after == before + if |password| <= PASSWORD_MAX_LEN then [password] else []
  }

  /** A session for an authenticated account, under the token that was drawn; the clock is read here. */
  method AcceptSignIn(ledger: Ledger, t: nat, input: Credentials, u: User, token: Option<string>)
    returns (session: Option<Session>)
    requires ledger.Valid() && ledger.At(t, AtToken(input, u)) && (token.Some? ==> TokenValid(token.value))
    modifies ledger
    ensures ledger.Valid() && ledger.Grown() && (session.Some? <==> token.Some?)
    ensures ledger.At(t, if session.Some? then
      AtBegin(SignInJob(input, u, session.value, token.value)) else Done(Failed(Internal)))
    ensures session.Some? ==> Timed(session.value, ledger.c.sessionTtl, old(ledger.now), ledger.now)
  {
    ledger.Others(t);
    if token.None? {
      assert ANY_ID.bytes[0] != NIL.bytes[0];
      ledger.Record(NewToken(t, "", ANY_ID, true));
      return None;
    }
    var now := ledger.now;
    var sessionId := NewUuid();
    session := Some(
      NewSession(sessionId, input.tenant, u.id, ledger.c.sha(token.value), now, now + ledger.c.sessionTtl));
    ledger.Record(NewToken(t, token.value, sessionId, false));
  }

  class SignIn {
    const ledger: Ledger
    const uow: UnitOfWork
    const users: UserRepository
    const sessions: SessionRepository
    const outbox: OutboxRepository
    const cache: SessionCache?
    const hasher: Hasher.PasswordHasher
    const tokens: Tokens.OpaqueGenerator
    /** Verified against when there is no account to verify against. */
    const dummy: string

    constructor (ledger: Ledger, cache: SessionCache?, hasher: Hasher.PasswordHasher, dummy: string)
      requires ledger.Valid() && hasher.Valid() && hasher.c == ledger.c && Parses(ledger.c, dummy)
      requires (cache != null <==> ledger.c.cacheOn) && (cache != null ==> cache.ledger == ledger)
      ensures Valid() && this.ledger == ledger && this.hasher == hasher
    {
      this.ledger, this.cache, this.hasher, this.dummy := ledger, cache, hasher, dummy;
      uow := new UnitOfWork(ledger);
      users := new UserRepository(ledger);
      sessions := new SessionRepository(ledger);
      outbox := new OutboxRepository(ledger);
      tokens := new Tokens.OpaqueGenerator(hasher.source);
    }

    /** The dummy hash is made once, when the service starts; without it there is no use case. */
    static method New(ledger: Ledger, cache: SessionCache?, hasher: Hasher.PasswordHasher) returns (r: Option<SignIn>)
      requires ledger.Valid() && hasher.Valid() && hasher.c == ledger.c
      requires (cache != null <==> ledger.c.cacheOn) && (cache != null ==> cache.ledger == ledger)
      modifies hasher, hasher.source
      ensures r.Some? ==> r.value.Valid() && r.value.ledger == ledger && r.value.hasher == hasher
    {
      var hash, _ := hasher.Hash(Ascii(DUMMY_PASSWORD));
      if hash.None? {
        return None;
      }
      var useCase := new SignIn(ledger, cache, hasher, hash.value);
      return Some(useCase);
    }

    ghost predicate Valid()
      reads ledger
    {
      && ledger.Valid() && hasher.Valid() && hasher.c == ledger.c && Parses(ledger.c, dummy)
      && uow.ledger == ledger && users.ledger == ledger && sessions.ledger == ledger && outbox.ledger == ledger
      && tokens.source == hasher.source
      && (cache != null <==> ledger.c.cacheOn) && (cache != null ==> cache.ledger == ledger)
    }

    /** The account the credentials belong to; every way of not having one costs one verification. */
    method Authenticate(t: nat, input: Credentials) returns (r: Result<User, Error>)
      requires Valid() && t !in ledger.last.threads
      modifies ledger, hasher
      ensures Valid() && ledger.Grown()
      ensures ledger.CameIn(t, input)
      ensures ledger.At(t, match r case Ok(u) => AtToken(input, u) case Err(error) => Done(Failed(error)))
      ensures r == Err(InvalidCredentials) ==>
        DerivedOnce(old(hasher.derived), hasher.derived, input.password)
    {
      ledger.Record(ArriveSignIn(t, input));
      if input.tenant.IsZero() {
        return Err(Internal);
      }
      var email := ledger.c.normalise(input.email);
      if email.None? {
        var _ := hasher.Verify(dummy, input.password);
        return Err(InvalidCredentials);
      }
      var found := users.FindByEmail(t, input, email.value);
      if found.Err? {
        if found.error.NotThere? {
          var _ := hasher.Verify(dummy, input.password);
          return Err(InvalidCredentials);
        }
        return Err(Internal);
      }
      var u := found.value;
      StoredHashParses(ledger, u);
      var ok := hasher.Verify(u.passwordHash, input.password);
      if ok.None? {
        return Err(Internal);
      }
      if !ok.value {
        return Err(InvalidCredentials);
      }
      return Ok(u);
    }

    method Stage(t: nat, session: Session, ghost job: Job) returns (ok: bool)
      requires Valid() && ledger.At(t, AtExec(job, 0)) && job.SignInJob? && job.session == session
      modifies ledger
      ensures Valid() && ledger.Grown()
      ensures ledger.At(t, if ok then AtExec(job, 2) else AtRollback(job, Internal))
    {
      ghost var answered;
      ok, answered := sessions.SaveTx(t, session, job, 0);
      if ok {
        ok, answered := outbox.WriteTx(t, SessionCreatedEvent(session), job, 1);
      }
    }

    /** The statements and the commit. */
    method Work(t: nat, session: Session, ghost job: Job) returns (ok: bool)
      requires Valid() && ledger.At(t, AtExec(job, 0)) && job.SignInJob? && job.session == session
      modifies ledger
      ensures Valid() && ledger.Grown()
      ensures ledger.At(t, if ok then AfterCommit(ledger.c, job) else AtRollback(job, Internal))
    {
      ok := Stage(t, session, job);
      if ok {
        ok := uow.Commit(t, job);
      }
    }

    method Persist(t: nat, session: Session, ghost job: Job) returns (committed: bool)
      requires Valid() && ledger.At(t, AtBegin(job)) && job.SignInJob? && job.session == session
      modifies ledger
      ensures Valid() && ledger.Grown()
      ensures ledger.At(t, if committed then AfterCommit(ledger.c, job) else Done(Failed(Internal)))
    {
      var open := uow.Begin(t, job);
      if !open {
        return false;
      }
      committed := Work(t, session, job);
      if !committed {
        var _ := uow.Rollback(t, job, Internal);
      }
    }

    /** A token and the session it opens. */
    method Draw(t: nat, input: Credentials, u: User) returns (r: Option<(Session, string)>)
      requires Valid() && ledger.At(t, AtToken(input, u))
      modifies ledger, hasher.source
      ensures Valid() && ledger.Grown()
      ensures ledger.At(t, match r
        case Some((session, token)) => AtBegin(SignInJob(input, u, session, token))
        case None => Done(Failed(Internal)))
      ensures r.Some? ==> Timed(r.value.0, ledger.c.sessionTtl, old(ledger.now), ledger.now)
      ensures r.Some? ==> Tokens.Drawn(old(hasher.source.delivered), hasher.source.delivered, r.value.1)
    {
      var token, _ := tokens.NewToken();
      var session := AcceptSignIn(ledger, t, input, u, token);
      return if session.None? then None else Some((session.value, token.value));
    }

    /** One transaction, then the cache. */
    method Complete(t: nat, session: Session, ghost job: Job) returns (committed: bool)
      requires Valid() && ledger.At(t, AtBegin(job)) && job.SignInJob? && job.session == session
      modifies ledger
      ensures Valid() && ledger.Grown()
      ensures ledger.At(t, Done(if committed then Success(job) else Failed(Internal)))
    {
      committed := Persist(t, session, job);
      if committed && cache != null {
        WriteThrough(ledger, cache, t, session, job);
      }
    }

    /** A session for the authenticated account. */
    method Issue(t: nat, input: Credentials, u: User) returns (r: Result<Output, Error>)
      requires Valid() && ledger.At(t, AtToken(input, u))
      modifies ledger, hasher.source
      ensures Valid() && ledger.Grown()
      ensures ledger.At(t, Done(ReplyOf(r))) && r != Err(InvalidCredentials)
      ensures r.Ok? ==> Granted(r.value, ledger.c.sessionTtl, old(ledger.now), ledger.now,
        old(hasher.source.delivered), hasher.source.delivered)
    {
      var drawn := Draw(t, input, u);
      if drawn.None? {
        return Err(Internal);
      }
      var (session, token) := drawn.value;
      ghost var job := SignInJob(input, u, session, token);
      var committed := Complete(t, session, job);
      if !committed {
        return Err(Internal);
      }
      return Ok(Output(u.id, token, session.expiresAt));
    }

    /** Failing for invalid credentials looks alike whatever the reason: one error, one verification. */
    method Execute(t: nat, input: Credentials) returns (r: Result<Output, Error>)
      requires Valid() && t !in ledger.last.threads
      modifies ledger, hasher, hasher.source
      ensures Valid() && ledger.Grown()
      ensures ledger.CameIn(t, input)
      ensures ledger.At(t, Done(ReplyOf(r)))
      ensures r.Ok? ==> Granted(r.value, ledger.c.sessionTtl, old(ledger.now), ledger.now,
        old(hasher.source.delivered), hasher.source.delivered)
      ensures r == Err(InvalidCredentials) ==>
        DerivedOnce(old(hasher.derived), hasher.derived, input.password)
    {
      var account := Authenticate(t, input);
      if account.Err? {
        return Err(account.error);
      }
      r := Issue(t, input, account.value);
    }
  }

  lemma StoredHashParses(ledger: Ledger, u: User)
    requires ledger.Valid() && u.id in ledger.pg.users && ledger.pg.users[u.id] == u
    ensures Parses(ledger.c, u.passwordHash)
  {
    Runs.RunInv(ledger.c, ledger.states, ledger.labels, |ledger.labels|);
    assert UserOk(ledger.c, ledger.pg.users[u.id]);
  }

  // ---------------------------------------------------------------- sign-out

  class SignOut {
    const ledger: Ledger
    const uow: UnitOfWork
    const sessions: SessionRepository
    const outbox: OutboxRepository
    const cache: SessionCache?

    constructor (ledger: Ledger, cache: SessionCache?)
      requires ledger.Valid()
      requires (cache != null <==> ledger.c.cacheOn) && (cache != null ==> cache.ledger == ledger)
      ensures Valid() && this.ledger == ledger
    {
      this.ledger, this.cache := ledger, cache;
      uow := new UnitOfWork(ledger);
      sessions := new SessionRepository(ledger);
      outbox := new OutboxRepository(ledger);
    }

    ghost predicate Valid()
      reads ledger
    {
      && ledger.Valid()
      && uow.ledger == ledger && sessions.ledger == ledger && outbox.ledger == ledger
      && (cache != null <==> ledger.c.cacheOn) && (cache != null ==> cache.ledger == ledger)
    }

    method Stage(t: nat, ctx: Ctx, now: int, ghost job: Job) returns (ok: bool)
      requires Valid() && ledger.At(t, AtExec(job, 0)) && job == SignOutJob(ctx, now)
      modifies ledger
      ensures Valid() && ledger.Grown()
      ensures ledger.At(t, if ok then AtExec(job, 2) else AtRollback(job, Internal))
    {
      ghost var answered;
      ok, answered := sessions.RevokeTx(t, ctx.tenant, ctx.session, job, 0);
      if ok {
        ok, answered := outbox.WriteTx(t, SessionRevokedEvent(ctx, now), job, 1);
      }
    }

    /** The statements and the commit. */
    method Work(t: nat, ctx: Ctx, now: int, ghost job: Job) returns (ok: bool)
      requires Valid() && ledger.At(t, AtExec(job, 0)) && job == SignOutJob(ctx, now)
      modifies ledger
      ensures Valid() && ledger.Grown()
      ensures ledger.At(t, if ok then AfterCommit(ledger.c, job) else AtRollback(job, Internal))
    {
      ok := Stage(t, ctx, now, job);
      if ok {
        ok := uow.Commit(t, job);
      }
    }

    method Persist(t: nat, ctx: Ctx, now: int, ghost job: Job) returns (committed: bool)
      requires Valid() && ledger.At(t, AtBegin(job)) && job == SignOutJob(ctx, now)
      modifies ledger
      ensures Valid() && ledger.Grown()
      ensures ledger.At(t, if committed then AfterCommit(ledger.c, job) else Done(Failed(Internal)))
    {
      var open := uow.Begin(t, job);
      if !open {
        return false;
      }
      committed := Work(t, ctx, now, job);
      if !committed {
        var _ := uow.Rollback(t, job, Internal);
      }
    }

    /** Success means that the revocation has committed; deleting the cache entry is only attempted. */
    method Execute(t: nat, ctx: Ctx, ghost evidence: Evidence) returns (r: Option<Error>)
      requires Valid() && ledger.At(t, Passed(ctx, Route.SignOut, evidence))
      modifies ledger
      ensures Valid() && ledger.Grown()
      ensures ledger.At(t, Done(match r case None => SignedOut case Some(error) => Failed(error)))
    {
      ledger.Others(t);
      var now := ledger.now;
      ledger.Record(Origin(t, true));
      if ctx.tenant.IsZero() || ctx.session == NIL {
        return Some(Internal);
      }
      ghost var job := SignOutJob(ctx, now);
      var committed := Persist(t, ctx, now, job);
      if !committed {
        return Some(Internal);
      }
      if cache != null && ctx.tokenHashHex != "" {
        var _ := cache.Delete(t, ctx.tokenHashHex, job);
      }
      return None;
    }
  }

  // ---------------------------------------------------------------- get-me

  class GetMe {
    const ledger: Ledger
    const users: UserRepository

    constructor (ledger: Ledger)
      requires ledger.Valid()
      ensures Valid() && this.ledger == ledger
    {
      this.ledger := ledger;
      users := new UserRepository(ledger);
    }

    ghost predicate Valid()
      reads ledger
    {
      ledger.Valid() && users.ledger == ledger
    }

    method Execute(t: nat, ctx: Ctx, ghost evidence: Evidence) returns (r: Result<User, Error>)
      requires Valid() && ledger.At(t, Passed(ctx, Route.GetMe, evidence))
      modifies ledger
      ensures Valid() && ledger.Grown()
      ensures ledger.At(t, Done(match r case Ok(u) => Profile(u) case Err(error) => Failed(error)))
    {
      if ctx.tenant.IsZero() {
        ledger.Others(t);
        ledger.Record(LoadProfile(t, Fault));
        return Err(Internal);
      }
      var found := users.FindById(t, ctx, evidence);
      if found.Err? {
        return Err(if found.error.NotThere? then NotFound else Internal);
      }
      return Ok(found.value);
    }
  }
}
