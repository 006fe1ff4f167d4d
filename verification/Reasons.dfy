/** Why a request is where it is: for every program point and every reply, the step that leads there and what
    that step saw, spelled out in terms of the request, the tables, the cache and the clock. */
module Reasons {
  import opened Basics
  import opened Domain
  import opened Postgres
  import opened Protocol
  import opened Invariant
  import Inductive

  predicate Was(s: State, l: Label, th: Thread)
    requires Moving(l)
  {
    l.t in s.threads && s.threads[l.t] == th
  }

  // ---------------------------------------------------------------- the middleware

  /** The value under the key is past its deadline, undecodable, or not there. */
  predicate Misses(c: Config, s: State, key: string) {
    key !in s.cache
    || (s.cache[key].deadline.Some? && s.cache[key].deadline.value <= s.now)
    || c.dec(s.cache[key].bytes).None?
  }

  predicate Finds(c: Config, s: State, key: string, p: CachedSession) {
    key in s.cache
    && (s.cache[key].deadline.Some? ==> s.now < s.cache[key].deadline.value)
    && c.dec(s.cache[key].bytes) == Some(p)
  }

  predicate EnteredFind(c: Config, s: State, l: Label, raw: string, route: Route)
    requires Moving(l)
  {
    || (l == Arrive(l.t, raw, route) && raw != "" && !c.cacheOn)
    || (l.Probe? && Was(s, l, AtProbe(raw, route)) && (l.fault || Misses(c, s, c.hex(c.sha(raw)))))
    || (l.Hit? && l.t in s.threads && s.threads[l.t].AtHit? && s.threads[l.t].raw == raw
        && s.threads[l.t].route == route && s.threads[l.t].cached.expiresAt <= s.now)
  }

  predicate EnteredLookup(c: Config, s: State, l: Label, th: Thread)
    requires Moving(l)
  {
    match th
    case AtProbe(raw, route) => l == Arrive(l.t, raw, route) && raw != "" && c.cacheOn
    case AtHit(raw, route, p) =>
      l.Probe? && !l.fault && Was(s, l, AtProbe(raw, route)) && Finds(c, s, c.hex(c.sha(raw)), p)
    case AtFind(raw, route) => EnteredFind(c, s, l, raw, route)
    case AtCheck(raw, route, row) =>
      l.Find? && l.answer == Row(row.id) && Was(s, l, AtFind(raw, route))
      && row.id in s.pg.sessions && s.pg.sessions[row.id] == row && row.tokenHash == c.sha(raw)
    case AtUntil(raw, route, row, at) =>
      l.Check? && at == s.now && Was(s, l, AtCheck(raw, route, row)) && c.cacheOn
      && row.revokedAt.None? && at < row.expiresAt
    case AtRepopulate(raw, route, row, at, read) =>
      l.Until? && read == s.now && Was(s, l, AtUntil(raw, route, row, at)) && read < row.expiresAt
    case _ => true
  }

  /** The context a request is let through with, on each of the four ways through the middleware. */
  predicate EnteredPassed(c: Config, s: State, l: Label, ctx: Ctx, route: Route, e: Evidence)
    requires Moving(l)
  {
    l.t in s.threads
    && match (s.threads[l.t], e) {
         case (AtHit(raw, r, p), FromCache(at)) =>
           l.Hit? && at == s.now && at < p.expiresAt && r == route
           && ctx == Ctx(p.user, p.session, p.tenant, c.hex(c.sha(raw)))
         case (AtCheck(raw, r, x), FromRow(row, at)) =>
           l.Check? && !c.cacheOn && at == s.now && x == row && r == route
           && row.revokedAt.None? && at < row.expiresAt
           && ctx == Ctx(row.user, row.id, row.tenant, c.hex(c.sha(raw)))
         case (AtUntil(raw, r, x, decided), FromRow(row, at)) =>
           l.Until? && x == row && decided == at && row.expiresAt <= s.now && r == route
           && ctx == Ctx(row.user, row.id, row.tenant, c.hex(c.sha(raw)))
         case (AtRepopulate(raw, r, x, decided, _), FromRow(row, at)) =>
           l.Repopulate? && x == row && decided == at && r == route
           && ctx == Ctx(row.user, row.id, row.tenant, c.hex(c.sha(raw)))
         case _ => false
       }
  }

  /** A request is refused for a missing token, because the repository did not answer, or because there is no
      row for its token or the row is revoked or expired. */
  predicate EnteredRefused(c: Config, s: State, l: Label, why: Refusal)
    requires Moving(l)
  {
    match why
    case SessionRequired => l.Arrive? && l.raw == ""
    case Unavailable => l.Find? && l.answer.Fault? && l.t in s.threads && s.threads[l.t].AtFind?
    case SessionInvalid =>
      l.t in s.threads
      && match s.threads[l.t] {
           case AtFind(raw, _) =>
             l.Find? && !l.answer.Fault?
             && forall id :: id in s.pg.sessions ==> s.pg.sessions[id].tokenHash != c.sha(raw)
           case AtCheck(_, _, row) => l.Check? && (row.revokedAt.Some? || row.expiresAt <= s.now)
           case _ => false
         }
  }

  // ---------------------------------------------------------------- what a job is made of

  /** The rows of a sign-up: its input, what was drawn for it, and the clock. */
  predicate MadeBySignUp(c: Config, now: int, l: Label, input: Credentials, u: User, row: Session, token: string) {
    && l.ArriveSignUp? && !l.fault && l.input == input && l.token == token && !input.tenant.IsZero()
    && 12 <= |input.password| <= 256 && 32 <= |token| <= 128
    && c.normalise(input.email) == Some(u.email) && c.hash(l.salt, input.password) == Some(u.passwordHash)
    && u.id == l.user && u.tenant == input.tenant && u.status == Active && u.createdAt == now && u.updatedAt == now
    && row.id == l.session && row.tenant == input.tenant && row.user == l.user && row.tokenHash == c.sha(token)
    && row.createdAt == now && row.expiresAt == now + c.sessionTtl && row.revokedAt == None
  }

  /** The session of a sign-in. */
  predicate MadeBySignIn(c: Config, now: int, l: Label, input: Credentials, u: User, row: Session, token: string) {
    && l.NewToken? && !l.fault && l.token == token && 32 <= |token| <= 128
    && row.id == l.session && row.tenant == input.tenant && row.user == u.id && row.tokenHash == c.sha(token)
    && row.createdAt == now && row.expiresAt == now + c.sessionTtl && row.revokedAt == None
  }

  predicate EnteredHandler(c: Config, s: State, l: Label, th: Thread)
    requires Moving(l)
  {
    match th
    case AtLookup(input, email) =>
      l == ArriveSignIn(l.t, input) && !input.tenant.IsZero() && c.normalise(input.email) == Some(email)
    case AtToken(input, u) =>
      l.Lookup? && l.answer.Row? && l.t in s.threads && s.threads[l.t].AtLookup? && s.threads[l.t].input == input
      && l.answer.id in s.pg.users && s.pg.users[l.answer.id] == u
      && u.tenant == input.tenant && u.email == s.threads[l.t].email && c.normalise(u.email).Some?
      && c.verify(u.passwordHash, input.password) == Some(true)
    case AtBegin(SignUpJob(input, u, row, token)) => MadeBySignUp(c, s.now, l, input, u, row, token)
    case AtBegin(SignInJob(input, u, row, token)) =>
      Was(s, l, AtToken(input, u)) && MadeBySignIn(c, s.now, l, input, u, row, token)
    case AtBegin(SignOutJob(ctx, at)) =>
      l == Origin(l.t, true) && at == s.now && l.t in s.threads && s.threads[l.t].Passed?
      && s.threads[l.t].ctx == ctx && s.threads[l.t].route.SignOut? && !ctx.tenant.IsZero() && ctx.session != NIL
    case _ => true
  }

  // ---------------------------------------------------------------- the transaction

  predicate UserCollides(pg: Pg, u: User) {
    exists id :: id in pg.users
      && (pg.users[id].id == u.id || (pg.users[id].tenant == u.tenant && pg.users[id].email == u.email))
  }

  predicate SessionCollides(pg: Pg, row: Session) {
    exists id :: id in pg.sessions && (pg.sessions[id].id == row.id || pg.sessions[id].tokenHash == row.tokenHash)
  }

  /** An answered statement is refused exactly for a key of a committed row; the update of a sign-out and the
      event writes never are. */
  predicate Refuses(pg: Pg, job: Job, done: nat) {
    match job
    case SignUpJob(_, u, row, _) => (done == 0 && UserCollides(pg, u)) || (done == 1 && SessionCollides(pg, row))
    case SignInJob(_, _, row, _) => done == 0 && SessionCollides(pg, row)
    case SignOutJob(_, _) => false
  }

  function Size(job: Job): nat {
    match job
    case SignUpJob(_, _, _, _) => 4
    case SignInJob(_, _, _, _) => 2
    case SignOutJob(_, _) => 2
  }

  predicate EnteredTransaction(c: Config, s: State, l: Label, th: Thread)
    requires Moving(l)
  {
    match th
    case AtExec(job, done) =>
      if done == 0 then l == BeginTx(l.t, false) && Was(s, l, AtBegin(job))
      else l == ExecTx(l.t, false) && done <= Size(job) && Was(s, l, AtExec(job, done - 1))
           && !Refuses(s.pg, job, done - 1)
    case AtRollback(job, error) =>
      && l.t in s.threads && s.threads[l.t].AtExec? && s.threads[l.t].job == job
      && var done := s.threads[l.t].done;
      (l == ExecTx(l.t, true) && error == Internal)
      || (l == ExecTx(l.t, false) && Refuses(s.pg, job, done)
          && error == if job.SignUpJob? && done == 0 then EmailTaken else Internal)
      || (l == CommitTx(l.t, true) && error == Internal)
    case AtTtl(job) => l == CommitTx(l.t, false) && Was(s, l, AtExec(job, Size(job))) && !job.SignOutJob? && c.cacheOn
    case AtSet(job, read) => l == ReadTtl(l.t) && read == s.now && Was(s, l, AtTtl(job))
    case AtDelete(job) =>
      l == CommitTx(l.t, false) && Was(s, l, AtExec(job, Size(job))) && job.SignOutJob? && c.cacheOn
      && job.ctx.tokenHashHex != ""
    case _ => true
  }

  /** A success reply comes right after the cache call that follows the commit, or after the commit itself when
      there is no cache to call. */
  predicate EnteredSuccess(c: Config, s: State, l: Label, job: Job)
    requires Moving(l)
  {
    || (l == CommitTx(l.t, false) && Was(s, l, AtExec(job, Size(job)))
        && (!c.cacheOn || (job.SignOutJob? && job.ctx.tokenHashHex == "")))
    || (l.SetCache? && !job.SignOutJob? && l.t in s.threads && s.threads[l.t].AtSet? && s.threads[l.t].job == job)
    || (l.DeleteCache? && job.SignOutJob? && Was(s, l, AtDelete(job)))
  }

  // ---------------------------------------------------------------- the replies

  predicate EnteredFailed(c: Config, s: State, l: Label, error: Error)
    requires Moving(l)
  {
    || (l.t in s.threads && l == RollbackTx(l.t) && s.threads[l.t].AtRollback? && s.threads[l.t].error == error)
    || match error {
         case Forbidden => l == Origin(l.t, false)
         case InvalidEmail => l.ArriveSignUp? && !l.input.tenant.IsZero() && c.normalise(l.input.email).None?
         case WeakPassword =>
           l.ArriveSignUp? && !l.input.tenant.IsZero() && c.normalise(l.input.email).Some?
           && (|l.input.password| < 12 || |l.input.password| > 256)
         case InvalidCredentials => EnteredInvalidCredentials(c, s, l)
         case Internal => EnteredInternal(c, s, l)
         case EmailTaken => false
         case NotFound => false
       }
  }

  /** No account of the tenant has the email, or its password is another one. */
  predicate EnteredInvalidCredentials(c: Config, s: State, l: Label)
    requires Moving(l)
  {
    || (l.ArriveSignIn? && !l.input.tenant.IsZero() && c.normalise(l.input.email).None?)
    || (l.Lookup? && l.t in s.threads && s.threads[l.t].AtLookup?
        && var input, email := s.threads[l.t].input, s.threads[l.t].email;
        match l.answer {
          case NoRow =>
            forall id :: id in s.pg.users ==> s.pg.users[id].tenant != input.tenant || s.pg.users[id].email != email
          case Row(id) => id in s.pg.users && c.verify(s.pg.users[id].passwordHash, input.password) == Some(false)
          case Fault => false
        })
  }

  /** A call failed, or the request has no tenant. */
  predicate EnteredInternal(c: Config, s: State, l: Label)
    requires Moving(l)
  {
    match l
    case ArriveSignUp(_, input, salt, token, _, _, fault) =>
      input.tenant.IsZero()
      || (c.normalise(input.email).Some? && 12 <= |input.password| <= 256
          && (fault || c.hash(salt, input.password).None? || |token| < 32 || |token| > 128))
    case ArriveSignIn(_, input) => input.tenant.IsZero()
    case Lookup(_, answer) => answer.Fault?
    case NewToken(_, token, _, fault) => fault || |token| < 32 || |token| > 128
    case BeginTx(_, fault) => fault
    case LoadProfile(_, answer) => answer.Fault?
    case _ => false
  }

  predicate EnteredDone(c: Config, s: State, l: Label, reply: Reply)
    requires Moving(l)
  {
    match reply
    case Refused(why) => EnteredRefused(c, s, l, why)
    case Failed(error) => EnteredFailed(c, s, l, error)
    case Issued(user, token, expiresAt) =>
      l.t in s.threads && (s.threads[l.t].AtExec? || s.threads[l.t].AtSet?)
      && var job := s.threads[l.t].job;
      && !job.SignOutJob? && EnteredSuccess(c, s, l, job)
      && token == job.token && expiresAt == job.session.expiresAt && user == job.session.user
    case SignedOut =>
      l.t in s.threads && (s.threads[l.t].AtExec? || s.threads[l.t].AtDelete?)
      && s.threads[l.t].job.SignOutJob? && EnteredSuccess(c, s, l, s.threads[l.t].job)
    case Profile(u) =>
      l.t in s.threads && s.threads[l.t].Passed? && s.threads[l.t].route.GetMe?
      && l == LoadProfile(l.t, Row(u.id)) && u.id in s.pg.users && s.pg.users[u.id] == u
      && u.id == s.threads[l.t].ctx.user && u.tenant == s.threads[l.t].ctx.tenant
  }

  predicate Entered(c: Config, s: State, l: Label, th: Thread)
    requires Moving(l)
  {
    match th
    case Passed(ctx, route, e) => EnteredPassed(c, s, l, ctx, route, e)
    case Done(reply) => EnteredDone(c, s, l, reply)
    case _ => EnteredLookup(c, s, l, th) && EnteredHandler(c, s, l, th) && EnteredTransaction(c, s, l, th)
  }

  // ---------------------------------------------------------------- every step has its reason

  /** The lemmas below equate it to true, so that the verifier takes it as a whole and not case by case. */
  ghost predicate Reasoned(c: Config, s: State, l: Label)
    requires Enabled(c, s, l) && Moving(l)
  {
    l.t in Step(c, s, l).threads && Entered(c, s, l, Step(c, s, l).threads[l.t])
  }

  lemma ArriveReason(c: Config, s: State, l: Label)
    requires Enabled(c, s, l) && (l.Arrive? || l.Probe? || l.Hit?)
    ensures Reasoned(c, s, l) == true
  {}

  lemma FindReason(c: Config, s: State, l: Label)
    requires Enabled(c, s, l) && (l.Find? || l.Check?)
    requires forall id :: id in s.pg.sessions ==> s.pg.sessions[id].id == id
    ensures Reasoned(c, s, l) == true
  {}

  lemma RepopulateReason(c: Config, s: State, l: Label)
    requires Enabled(c, s, l) && (l.Until? || l.Repopulate?)
    ensures Reasoned(c, s, l) == true
  {}

  lemma SignUpReason(c: Config, s: State, l: Label)
    requires Enabled(c, s, l) && l.ArriveSignUp?
    ensures Reasoned(c, s, l) == true
  {}

  lemma ArrivalReason(c: Config, s: State, l: Label)
    requires Enabled(c, s, l) && l.ArriveSignIn?
    ensures Reasoned(c, s, l) == true
  {}

  lemma TokenReason(c: Config, s: State, l: Label)
    requires Enabled(c, s, l) && l.NewToken?
    ensures Reasoned(c, s, l) == true
  {}

  lemma LookupReason(c: Config, s: State, l: Label)
    requires Enabled(c, s, l) && l.Lookup? && UsersOk(c, s.pg.users)
    ensures Reasoned(c, s, l) == true
  {
    if l.answer.Row? {
      assert Parses(c, s.pg.users[l.answer.id].passwordHash) && UserOk(c, s.pg.users[l.answer.id]);
    }
  }

  lemma OriginReason(c: Config, s: State, l: Label)
    requires Enabled(c, s, l) && l.Origin? && ContextKnown(s, l)
    ensures Reasoned(c, s, l) == true
  {}

  lemma ProfileReason(c: Config, s: State, l: Label)
    requires Enabled(c, s, l) && l.LoadProfile? && ContextKnown(s, l)
    requires c.normalise(s.pg.users[s.threads[l.t].ctx.user].email).Some?
    ensures Reasoned(c, s, l) == true
  {}

  /** The context names a session and the owner of it, in its tenant. */
  predicate ContextKnown(s: State, l: Label) {
    Moving(l) && l.t in s.threads && s.threads[l.t].Passed?
    && var ctx := s.threads[l.t].ctx;
    ctx.session != NIL && !ctx.tenant.IsZero() && ctx.user in s.pg.users
    && s.pg.users[ctx.user].tenant == ctx.tenant && s.pg.users[ctx.user].id == ctx.user
  }

  lemma RouteReason(c: Config, s: State, l: Label)
    requires Enabled(c, s, l) && (l.Origin? || l.LoadProfile?) && TablesOk(c, s.pg)
    requires ThreadOk(c, s.pg, s.now, s.threads[l.t])
    ensures Reasoned(c, s, l) == true
  {
    var ctx := s.threads[l.t].ctx;
    assert SessionOk(c, s.pg.sessions[ctx.session]) && OwnerOk(s.pg.users, s.pg.sessions[ctx.session]);
    assert UserOk(c, s.pg.users[ctx.user]);
    if l.Origin? {
      OriginReason(c, s, l);
    } else {
      ProfileReason(c, s, l);
    }
  }

  lemma SignUpRefuses(pg: Pg, t: nat, job: Job, done: nat)
    requires t in pg.open && job.SignUpJob? && done < 4 && Staged(job, done, pg.open[t])
    requires job.session.user == job.newUser.id
    ensures OutcomeOf(pg, t, Statements(job)[done]) == Applied <==> !Refuses(pg, job, done)
    ensures done == 0 && Refuses(pg, job, done) ==> OutcomeOf(pg, t, Statements(job)[done]) == UniqueViolation
  {}

  lemma SignInRefuses(pg: Pg, t: nat, job: Job, done: nat)
    requires t in pg.open && job.SignInJob? && done < 2 && Staged(job, done, pg.open[t])
    requires job.session.user in pg.users
    ensures OutcomeOf(pg, t, Statements(job)[done]) == Applied <==> !Refuses(pg, job, done)
  {}

  lemma SignOutRefuses(pg: Pg, t: nat, job: Job, done: nat)
    requires t in pg.open && job.SignOutJob? && done < 2
    requires job.ctx.session in pg.sessions && pg.sessions[job.ctx.session].tenant == job.ctx.tenant
    ensures OutcomeOf(pg, t, Statements(job)[done]) == Applied
  {}

  /** An answered statement of a running transaction applies unless it is refused for a key. */
  lemma AppliesIff(c: Config, s: State, t: nat)
    requires TxOk(s, t) && JobOk(c, s.pg, s.now, s.threads[t].job)
    requires s.threads[t].done < |Statements(s.threads[t].job)|
    ensures var job, done := s.threads[t].job, s.threads[t].done;
      && (OutcomeOf(s.pg, t, Statements(job)[done]) == Applied <==> !Refuses(s.pg, job, done))
      && (job.SignUpJob? && done == 0 && Refuses(s.pg, job, done) ==>
            OutcomeOf(s.pg, t, Statements(job)[done]) == UniqueViolation)
  {
    var job, done := s.threads[t].job, s.threads[t].done;
    match job
    case SignUpJob(_, _, _, _) => SignUpRefuses(s.pg, t, job, done);
    case SignInJob(_, _, _, _) => SignInRefuses(s.pg, t, job, done);
    case SignOutJob(_, _) => SignOutRefuses(s.pg, t, job, done);
  }

  /** The step an answered statement is. */
  lemma AnsweredStep(c: Config, s: State, t: nat, op: TxOp, job: Job, done: nat)
    requires t in s.threads && s.threads[t] == AtExec(job, done) && t in s.pg.open
    requires done < |Statements(job)| && Statements(job)[done] == op && !Blocked(s.pg, t, op)
    ensures Enabled(c, s, ExecTx(t, false))
    ensures var outcome := OutcomeOf(s.pg, t, op);
      Step(c, s, ExecTx(t, false)) ==
      if outcome == Applied then Move(s, t, AtExec(job, done + 1)).(pg := Exec(s.pg, t, op))
      else Move(s, t, AtRollback(job, FailureOf(op, outcome)))
  {}

  lemma StatementReason(c: Config, s: State, l: Label)
    requires Enabled(c, s, l) && l.ExecTx?
    requires var job, done := s.threads[l.t].job, s.threads[l.t].done;
      && (OutcomeOf(s.pg, l.t, Statements(job)[done]) == Applied <==> !Refuses(s.pg, job, done))
      && (job.SignUpJob? && done == 0 && Refuses(s.pg, job, done) ==>
            OutcomeOf(s.pg, l.t, Statements(job)[done]) == UniqueViolation)
    ensures Reasoned(c, s, l) == true
  {}

  lemma BeginReason(c: Config, s: State, l: Label)
    requires Enabled(c, s, l) && (l.BeginTx? || l.RollbackTx?)
    ensures Reasoned(c, s, l) == true
  {}

  lemma CommitReason(c: Config, s: State, l: Label)
    requires Enabled(c, s, l) && l.CommitTx? && OwnsSession(s.threads[l.t].job)
    ensures Reasoned(c, s, l) == true
  {}

  /** The session of a sign-up or sign-in belongs to its user. */
  predicate OwnsSession(job: Job) {
    match job
    case SignUpJob(_, u, row, _) => row.user == u.id
    case SignInJob(_, u, row, _) => row.user == u.id
    case SignOutJob(_, _) => true
  }

  lemma TtlReason(c: Config, s: State, l: Label)
    requires Enabled(c, s, l) && (l.ReadTtl? || l.DeleteCache?)
    ensures Reasoned(c, s, l) == true
  {}

  lemma SetReason(c: Config, s: State, l: Label)
    requires Enabled(c, s, l) && l.SetCache? && OwnsSession(s.threads[l.t].job)
    ensures Reasoned(c, s, l) == true
  {}

  lemma CacheReason(c: Config, s: State, l: Label)
    requires Enabled(c, s, l) && AfterTransaction(l) && ThreadOk(c, s.pg, s.now, s.threads[l.t])
    ensures Reasoned(c, s, l) == true
  {
    if l.SetCache? {
      SetReason(c, s, l);
    } else {
      TtlReason(c, s, l);
    }
  }

  lemma TransactionReason(c: Config, s: State, l: Label)
    requires Enabled(c, s, l) && InTransaction(l) && TxsOk(s) && ThreadOk(c, s.pg, s.now, s.threads[l.t])
    ensures Reasoned(c, s, l) == true
  {
    if l.ExecTx? {
      assert Running(s, l.t) && TxOk(s, l.t);
      AppliesIff(c, s, l.t);
      StatementReason(c, s, l);
    } else if l.CommitTx? {
      CommitReason(c, s, l);
    } else {
      BeginReason(c, s, l);
    }
  }

  lemma HandlerReason(c: Config, s: State, l: Label)
    requires Enabled(c, s, l) && InHandler(l) && TablesOk(c, s.pg)
    requires l.t in s.threads ==> ThreadOk(c, s.pg, s.now, s.threads[l.t])
    ensures Reasoned(c, s, l) == true
  {
    if l.ArriveSignUp? {
      SignUpReason(c, s, l);
    } else if l.Lookup? {
      LookupReason(c, s, l);
    } else if l.Origin? || l.LoadProfile? {
      RouteReason(c, s, l);
    } else if l.NewToken? {
      TokenReason(c, s, l);
    } else {
      ArrivalReason(c, s, l);
    }
  }

  lemma MiddlewareReason(c: Config, s: State, l: Label)
    requires Enabled(c, s, l) && InMiddleware(l)
    requires forall id :: id in s.pg.sessions ==> s.pg.sessions[id].id == id
    ensures Reasoned(c, s, l) == true
  {
    if l.Find? || l.Check? {
      FindReason(c, s, l);
    } else if l.Until? || l.Repopulate? {
      RepopulateReason(c, s, l);
    } else {
      ArriveReason(c, s, l);
    }
  }

  /** Every step of a request leads where the reason given for it says. */
  lemma StepReason(c: Config, s: State, l: Label)
    requires Enabled(c, s, l) && Moving(l) && Inv(c, s)
    ensures Reasoned(c, s, l) == true
  {
    if l.t in s.threads {
      Inductive.MoverKnows(c, s, l);
    }
    if InMiddleware(l) {
      MiddlewareReason(c, s, l);
    } else if InHandler(l) {
      HandlerReason(c, s, l);
    } else if InTransaction(l) {
      TransactionReason(c, s, l);
    } else {
      CacheReason(c, s, l);
    }
  }
}
