/** The ports the use cases call: transactions, repositories and the session cache.

    Each call lets other requests run first, then does its own work on database or cache, and is one step of
    the protocol; its contract says from which program point to which program point it takes the request. */
module Adapters {
  import opened Basics
  import opened Domain
  import opened Postgres
  import opened Protocol
  import opened Invariant
  import Runs
  import opened Reasons
  import opened Runtime

  /** The request is inside its transaction with `op` as its next statement. */
  ghost predicate Next(ledger: Ledger, t: nat, job: Job, done: nat, op: TxOp)
    reads ledger
  {
    ledger.At(t, AtExec(job, done)) && done < |Statements(job)| && Statements(job)[done] == op
  }

  lemma OpenTx(ledger: Ledger, t: nat)
    requires ledger.Valid() && Running(ledger.last, t)
    ensures t in ledger.pg.open
    ensures Staged(ledger.last.threads[t].job, ledger.last.threads[t].done, ledger.pg.open[t])
    ensures TxOk(ledger.last, t) && JobOk(ledger.c, ledger.pg, ledger.now, ledger.last.threads[t].job)
  {
    Runs.RunInv(ledger.c, ledger.states, ledger.labels, |ledger.labels|);
    assert TxOk(ledger.last, t);
    assert ThreadOk(ledger.c, ledger.pg, ledger.now, ledger.last.threads[t]);
  }

  datatype ExecError = Violation | NothingFound | DbFailure

  function ErrorOf(outcome: Outcome): Option<ExecError> {
    match outcome
    case Applied => None
    case UniqueViolation => Some(Violation)
    case ForeignKeyViolation => Some(DbFailure)
    case NoRows => Some(NothingFound)
  }

  /** The database answers: the statement is staged, or it violates a key or hits no row and stages nothing. */
  method Answer(ledger: Ledger, t: nat, op: TxOp, ghost job: Job, ghost done: nat) returns (r: Option<ExecError>)
    requires ledger.Valid() && Next(ledger, t, job, done, op) && t in ledger.pg.open && !Blocked(ledger.pg, t, op)
    modifies ledger
    ensures ledger.Valid() && ledger.Grown()
    ensures r == ErrorOf(OutcomeOf(old(ledger.pg), t, op))
    ensures ledger.pg == if r.None? then Exec(old(ledger.pg), t, op) else old(ledger.pg)
    ensures r.None? ==> ledger.At(t, AtExec(job, done + 1))
    ensures r.Some? ==>
      ledger.At(t, AtRollback(job, if op.InsertUser? && r.value.Violation? then EmailTaken else Internal))
  {
    var outcome := OutcomeOf(ledger.pg, t, op);
    AnsweredStep(ledger.c, ledger.last, t, op, job, done);
    if outcome == Applied {
      ledger.pg := Exec(ledger.pg, t, op);
    }
    ledger.Record(ExecTx(t, false));
    return ErrorOf(outcome);
  }

  /** One statement of transaction `t`: it takes effect, or it fails and the use case has to roll back.  Unless
      the call failed or the statement had to wait, the database `found` has answered it. */
  method ExecStatement(ledger: Ledger, t: nat, op: TxOp, ghost job: Job, ghost done: nat)
    returns (r: Option<ExecError>, ghost answered: bool, ghost found: Pg)
    requires ledger.Valid() && Next(ledger, t, job, done, op)
    modifies ledger
    ensures ledger.Valid() && ledger.Grown()
    ensures r.None? ==> ledger.At(t, AtExec(job, done + 1))
    ensures r.Some? ==>
      ledger.At(t, AtRollback(job, if op.InsertUser? && r.value.Violation? then EmailTaken else Internal))
    ensures !answered ==> r == Some(DbFailure)
    ensures answered ==> t in found.open && Staged(job, done, found.open[t]) && r == ErrorOf(OutcomeOf(found, t, op))
    ensures answered ==> (r.None? <==> !Refuses(found, job, done))
    ensures found.users == ledger.pg.users && found.sessions == ledger.pg.sessions
  {
    ledger.Others(t);
    OpenTx(ledger, t);
    AppliesIff(ledger.c, ledger.last, t);
    found := ledger.pg;
    var fault := *;
    if fault || Blocked(ledger.pg, t, op) {
      ledger.Record(ExecTx(t, true));
      return Some(DbFailure), false, found;
    }
    r := Answer(ledger, t, op, job, done);
    answered := true;
  }

  class UnitOfWork {
    const ledger: Ledger

    constructor (ledger: Ledger)
      ensures this.ledger == ledger
    {
      this.ledger := ledger;
    }

    method Begin(t: nat, ghost job: Job) returns (ok: bool)
      requires ledger.Valid() && ledger.At(t, AtBegin(job))
      modifies ledger
      ensures ledger.Valid() && ledger.Grown()
      ensures ledger.At(t, if ok then AtExec(job, 0) else Done(Failed(Internal)))
    {
      ledger.Others(t);
      ok := *;
      if ok {
        ledger.pg := Postgres.Begin(ledger.pg, t, ledger.now);
      }
      ledger.Record(BeginTx(t, !ok));
    }

    /** A failed commit applied nothing and has closed the transaction; rolling back is still safe. */
    method Commit(t: nat, ghost job: Job) returns (ok: bool)
      requires ledger.Valid() && ledger.At(t, AtExec(job, |Statements(job)|))
      modifies ledger
      ensures ledger.Valid() && ledger.Grown()
      ensures ledger.At(t, if ok then AfterCommit(ledger.c, job) else AtRollback(job, Internal))
    {
      ledger.Others(t);
      OpenTx(ledger, t);
      ok := *;
      if ok {
        ledger.pg := Postgres.Commit(ledger.pg, t);
      } else {
        ledger.pg := Postgres.Rollback(ledger.pg, t);
      }
      ledger.Record(CommitTx(t, !ok));
    }

    /** Idempotent: silent on a transaction that is already closed; an error of an open one closes it too. */
    method Rollback(t: nat, ghost job: Job, ghost error: Error) returns (ok: bool)
      requires ledger.Valid() && ledger.At(t, AtRollback(job, error))
      modifies ledger
      ensures ledger.Valid() && ledger.Grown()
      ensures ledger.At(t, Done(Failed(error))) && t !in ledger.pg.open
      ensures t !in old(ledger.pg.open) ==> ok
    {
      ledger.Others(t);
      ok := *;
      ok := ok || t !in ledger.pg.open;
      ledger.pg := Postgres.Rollback(ledger.pg, t);
      ledger.Record(RollbackTx(t));
    }
  }

  datatype FindError = NotThere | FindFailure

  /** A committed row shares the id, or tenant and email, of the user. */
  predicate Taken(pg: Pg, u: User) {
    exists id :: id in pg.users && SameUserKey(pg.users[id], u)
  }

  predicate EmailHeld(pg: Pg, u: User) {
    exists id :: id in pg.users && pg.users[id].tenant == u.tenant && pg.users[id].email == u.email
  }

  /** The report is about the email exactly when the email is held; it misleads exactly when only the id is. */
  lemma TakenMeans(pg: Pg, u: User)
    requires forall id :: id in pg.users ==> pg.users[id].id == id
    ensures Taken(pg, u) <==> EmailHeld(pg, u) || u.id in pg.users
  {
    if u.id in pg.users {
      assert SameUserKey(pg.users[u.id], u);
    }
    if id :| id in pg.users && pg.users[id].tenant == u.tenant && pg.users[id].email == u.email {
      assert SameUserKey(pg.users[id], u);
    }
  }

  /** A free email that is reported as taken, because the id collides. */
  lemma FreeEmailReportedTaken(pg: Pg, t: nat, u: User, v: User)
    requires pg.users == map[u.id := u] && t in pg.open && v.id == u.id && v.email != u.email
    ensures !EmailHeld(pg, v) && OutcomeOf(pg, t, InsertUser(v)) == UniqueViolation
    ensures FailureOf(InsertUser(v), OutcomeOf(pg, t, InsertUser(v))) == EmailTaken
  {
    assert SameUserKey(pg.users[u.id], v);
  }

  class UserRepository {
    const ledger: Ledger

    constructor (ledger: Ledger)
      ensures this.ledger == ledger
    {
      this.ledger := ledger;
    }

    /** Every unique violation reads as a taken email, whichever key collides. */
    method SaveTx(t: nat, u: User, ghost job: Job, ghost done: nat) returns (r: Option<Error>, ghost answered: bool)
      requires ledger.Valid() && Next(ledger, t, job, done, InsertUser(u))
      modifies ledger
      ensures ledger.Valid() && ledger.Grown()
      ensures r.None? ==> ledger.At(t, AtExec(job, done + 1))
      ensures r.Some? ==> ledger.At(t, AtRollback(job, r.value))
      ensures r == if !answered then Some(Internal) else if Taken(ledger.pg, u) then Some(EmailTaken) else None
    {
      ghost var found;
      var failure;
      failure, answered, found := ExecStatement(ledger, t, InsertUser(u), job, done);
      if failure.None? {
        return None, answered;
      }
      return Some(if failure.value.Violation? then EmailTaken else Internal), answered;
    }

    /** Rebuilding a row validates its email again. */
    function ScanOne(u: User): Result<User, FindError> {
      if ledger.c.normalise(u.email).None? then Err(FindFailure) else Ok(u)
    }

    method FindByEmail(t: nat, input: Credentials, email: string) returns (r: Result<User, FindError>)
      requires ledger.Valid() && ledger.At(t, AtLookup(input, email))
      modifies ledger
      ensures ledger.Valid() && ledger.Grown()
      ensures match r {
        case Ok(u) => u.id in ledger.pg.users && ledger.pg.users[u.id] == u
                      && EmailAnswer(ledger.pg, input.tenant, email, Row(u.id))
                      && ledger.c.normalise(u.email).Some?
                      && ledger.At(t, CredentialCheck(ledger.c, input, u))
        case Err(NotThere) => ledger.At(t, Done(Failed(InvalidCredentials)))
                              && EmailAnswer(ledger.pg, input.tenant, email, NoRow)
        case Err(FindFailure) => ledger.At(t, Done(Failed(Internal)))
      }
    {
      ledger.Others(t);
      var fault := *;
      if fault {
        ledger.Record(Lookup(t, Fault));
        return Err(FindFailure);
      }
      var users := ledger.pg.users;
      if id :| id in users && users[id].tenant == input.tenant && users[id].email == email {
        KeyedById(ledger, id);
        ledger.Record(Lookup(t, Row(id)));
        return ScanOne(users[id]);
      }
      ledger.Record(Lookup(t, NoRow));
      return Err(NotThere);
    }

    method FindById(t: nat, ctx: Ctx, ghost evidence: Evidence) returns (r: Result<User, FindError>)
      requires ledger.Valid() && ledger.At(t, Passed(ctx, GetMe, evidence)) && !ctx.tenant.IsZero()
      modifies ledger
      ensures ledger.Valid() && ledger.Grown()
      ensures match r {
        case Ok(u) => ledger.At(t, Done(Profile(u)))
                      && ctx.user in ledger.pg.users && ledger.pg.users[ctx.user] == u && u.tenant == ctx.tenant
        case Err(NotThere) => ledger.At(t, Done(Failed(NotFound))) && IdAnswer(ledger.pg, ctx.tenant, ctx.user, NoRow)
        case Err(FindFailure) => ledger.At(t, Done(Failed(Internal)))
      }
    {
      ledger.Others(t);
      var fault := *;
      if fault {
        ledger.Record(LoadProfile(t, Fault));
        return Err(FindFailure);
      }
      var users := ledger.pg.users;
      if ctx.user in users && users[ctx.user].tenant == ctx.tenant {
        ledger.Record(LoadProfile(t, Row(ctx.user)));
        return ScanOne(users[ctx.user]);
      }
      ledger.Record(LoadProfile(t, NoRow));
      return Err(NotThere);
    }
  }

  lemma KeyedById(ledger: Ledger, id: Uuid)
    requires ledger.Valid() && id in ledger.pg.users
    ensures ledger.pg.users[id].id == id
  {
    Runs.RunInv(ledger.c, ledger.states, ledger.labels, |ledger.labels|);
  }

  /** No committed row has the id or the token hash of the session. */
  predicate KeysFree(pg: Pg, s: Session) {
    forall id :: id in pg.sessions ==> pg.sessions[id].id != s.id && pg.sessions[id].tokenHash != s.tokenHash
  }

  class SessionRepository {
    const ledger: Ledger

    constructor (ledger: Ledger)
      ensures this.ledger == ledger
    {
      this.ledger := ledger;
    }

    /** An answered insert fails exactly for a committed row with the id or the token hash, whoever owns it. */
    method SaveTx(t: nat, s: Session, ghost job: Job, ghost done: nat) returns (ok: bool, ghost answered: bool)
      requires ledger.Valid() && Next(ledger, t, job, done, InsertSession(s))
      modifies ledger
      ensures ledger.Valid() && ledger.Grown()
      ensures ledger.At(t, if ok then AtExec(job, done + 1) else AtRollback(job, Internal))
      ensures ok <==> answered && KeysFree(ledger.pg, s)
    {
      ghost var found;
      var failure;
      failure, answered, found := ExecStatement(ledger, t, InsertSession(s), job, done);
      ok := failure.None?;
    }

    /** An update that hits no row is an error as well; an answered one of a sign-out always hits its row. */
    method RevokeTx(t: nat, tenant: TenantId, id: Uuid, ghost job: Job, ghost done: nat)
      returns (ok: bool, ghost answered: bool)
      requires ledger.Valid() && Next(ledger, t, job, done, Revoke(tenant, id))
      modifies ledger
      ensures ledger.Valid() && ledger.Grown()
      ensures ledger.At(t, if ok then AtExec(job, done + 1) else AtRollback(job, Internal))
      ensures ok <==> answered
      ensures ok ==> id in ledger.pg.sessions && ledger.pg.sessions[id].tenant == tenant
    {
      ghost var found;
      var failure;
      failure, answered, found := ExecStatement(ledger, t, Revoke(tenant, id), job, done);
      ok := failure.None?;
    }

    method FindByTokenHash(t: nat, hash: Bytes, ghost raw: string, ghost route: Route)
      returns (r: Result<Session, FindError>)
      requires ledger.Valid() && ledger.At(t, AtFind(raw, route)) && hash == ledger.c.sha(raw)
      modifies ledger
      ensures ledger.Valid() && ledger.Grown()
      ensures match r {
        case Ok(s) => ledger.At(t, AtCheck(raw, route, s)) && s in ledger.pg.sessions.Values && s.tokenHash == hash
        case Err(NotThere) => ledger.At(t, Done(Refused(SessionInvalid))) && TokenAnswer(ledger.pg, hash, NoRow)
        case Err(FindFailure) => ledger.At(t, Done(Refused(Unavailable)))
      }
    {
      ledger.Others(t);
      var fault := *;
      if fault {
        ledger.Record(Find(t, Fault));
        return Err(FindFailure);
      }
      var sessions := ledger.pg.sessions;
      if id :| id in sessions && sessions[id].tokenHash == hash {
        ledger.Record(Find(t, Row(id)));
        return Ok(sessions[id]);
      }
      ledger.Record(Find(t, NoRow));
      return Err(NotThere);
    }
  }

  class OutboxRepository {
    const ledger: Ledger

    constructor (ledger: Ledger)
      ensures this.ledger == ledger
    {
      this.ledger := ledger;
    }

    /** An answered write succeeds. */
    method WriteTx(t: nat, e: Event, ghost job: Job, ghost done: nat) returns (ok: bool, ghost answered: bool)
      requires ledger.Valid() && Next(ledger, t, job, done, Write(e))
      modifies ledger
      ensures ledger.Valid() && ledger.Grown()
      ensures ledger.At(t, if ok then AtExec(job, done + 1) else AtRollback(job, Internal))
      ensures ok <==> answered
    {
      ghost var found;
      var failure;
      failure, answered, found := ExecStatement(ledger, t, Write(e), job, done);
      ok := failure.None?;
    }
  }

  datatype CacheError = Miss | Unreachable

  /** The request is about to store this payload under this key with this TTL. */
  predicate Storing(c: Config, th: Thread, key: string, p: CachedSession, ttl: int) {
    match th
    case AtRepopulate(raw, _, row, _, read) =>
      key == c.hex(c.sha(raw)) && p == PayloadOf(row) && ttl == row.expiresAt - read
    case AtSet(job, read) =>
      !job.SignOutJob? && key == c.hex(job.session.tokenHash) && p == PayloadOf(job.session)
      && ttl == job.session.expiresAt - read
    case _ => false
  }

  function Stored(c: Config, th: Thread): Thread
    requires th.AtRepopulate? || th.AtSet?
  {
    if th.AtSet? then Done(Success(th.job))
    else Passed(CtxOf(c, th.raw, PayloadOf(th.row)), th.route, FromRow(th.row, th.decided))
  }

  class SessionCache {
    const ledger: Ledger

    constructor (ledger: Ledger)
      ensures this.ledger == ledger
    {
      this.ledger := ledger;
    }

    /** A call that reports an error may have stored the value all the same. */
    method Set(t: nat, key: string, p: CachedSession, ttl: int, ghost th: Thread) returns (ok: bool)
      requires ledger.Valid() && ledger.At(t, th) && Storing(ledger.c, th, key, p, ttl)
      modifies ledger
      ensures ledger.Valid() && ledger.Grown()
      ensures ledger.At(t, Stored(ledger.c, th))
      ensures ok ==> key in ledger.entries && ledger.entries[key].bytes == ledger.c.enc(p)
    {
      ledger.Others(t);
      ok := *;
      var lost := *;
      var stored := ok || !lost;
      if stored {
        ledger.entries := Put(ledger.c, ledger.entries, ledger.now, key, p, ttl);
      }
      ledger.Record(if ledger.last.threads[t].AtSet? then SetCache(t, !stored) else Repopulate(t, !stored));
    }

    /** An answered call finds the live decodable value under the key, or misses: a value that is absent, past
        its deadline or undecodable is a miss.  Only a call that is not answered reports another error. */
    method Get(t: nat, key: string, ghost raw: string, ghost route: Route)
      returns (r: Result<CachedSession, CacheError>, ghost answered: bool)
      requires ledger.Valid() && ledger.At(t, AtProbe(raw, route)) && key == ledger.c.hex(ledger.c.sha(raw))
      modifies ledger
      ensures ledger.Valid() && ledger.Grown()
      ensures ledger.At(t, if r.Ok? then AtHit(raw, route, r.value) else AtFind(raw, route))
      ensures r.Ok? ==> Agrees(ledger.c, ledger.pg, key, r.value)
      ensures !answered ==> r == Err(Unreachable)
      ensures answered ==>
        r == match Cached(ledger.c, ledger.last, key) { case Some(p) => Ok(p) case None => Err(Miss) }
    {
      ledger.Others(t);
      var fault := *;
      if fault {
        ledger.Record(Probe(t, true));
        return Err(Unreachable), false;
      }
      var entries, now := ledger.entries, ledger.now;
      ledger.Record(Probe(t, false));
      if key !in entries || (entries[key].deadline.Some? && entries[key].deadline.value <= now) {
        return Err(Miss), true;
      }
      var wire := ledger.c.dec(entries[key].bytes);
      if wire.None? {
        return Err(Miss), true;
      }
      HitAgrees(ledger, t);
      return Ok(wire.value), true;
    }

    /** Deleting an absent entry is not an error. */
    method Delete(t: nat, key: string, ghost job: Job) returns (ok: bool)
      requires ledger.Valid() && ledger.At(t, AtDelete(job)) && job.SignOutJob? && key == job.ctx.tokenHashHex
      modifies ledger
      ensures ledger.Valid() && ledger.Grown()
      ensures ledger.At(t, Done(SignedOut))
      ensures ok ==> key !in ledger.entries
    {
      ledger.Others(t);
      ok := *;
      var lost := *;
      var deleted := ok || !lost;
      if deleted {
        ledger.entries := ledger.entries - {key};
      }
      ledger.Record(DeleteCache(t, !deleted));
    }
  }

  lemma HitAgrees(ledger: Ledger, t: nat)
    requires ledger.Valid() && t in ledger.last.threads && ledger.last.threads[t].AtHit?
    ensures var th := ledger.last.threads[t];
      Agrees(ledger.c, ledger.pg, ledger.c.hex(ledger.c.sha(th.raw)), th.cached)
  {
    Runs.RunInv(ledger.c, ledger.states, ledger.labels, |ledger.labels|);
    assert ThreadOk(ledger.c, ledger.last.pg, ledger.last.now, ledger.last.threads[t]);
  }
}
