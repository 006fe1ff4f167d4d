/** What every reachable state of the protocol satisfies, for every interleaving and every fault. */
module Invariant {
  import opened Basics
  import opened Domain
  import opened Postgres
  import opened Protocol

  // ---------------------------------------------------------------- assumptions on the configuration

  ghost predicate HexInjective(c: Config) {
    forall a, b :: c.hex(a) == c.hex(b) ==> a == b
  }

  ghost predicate CodecOk(c: Config) {
    forall p :: c.dec(c.enc(p)).None? || c.dec(c.enc(p)) == Some(p)
  }

  ghost predicate NormaliseOk(c: Config) {
    forall e :: c.normalise(e).Some? ==> c.normalise(c.normalise(e).value) == c.normalise(e)
  }

  /** A stored hash can always be parsed again, whatever the password presented. */
  ghost predicate Parses(c: Config, h: string) {
    forall pw :: c.verify(h, pw).Some?
  }

  ghost predicate HashOk(c: Config) {
    forall salt, pw :: c.hash(salt, pw).Some? ==>
      Parses(c, c.hash(salt, pw).value) && c.verify(c.hash(salt, pw).value, pw) == Some(true)
  }

  ghost predicate ConfigOk(c: Config) {
    c.sessionTtl > 0 && HexInjective(c) && CodecOk(c) && NormaliseOk(c) && HashOk(c)
    && (forall raw :: c.hex(c.sha(raw)) != "")
  }

  // ---------------------------------------------------------------- tables

  ghost predicate UserOk(c: Config, u: User) {
    && u.id != NIL && !u.tenant.IsZero() && u.status == Active
    && c.normalise(u.email) == Some(u.email)
    && Parses(c, u.passwordHash)
  }

  ghost predicate UsersOk(c: Config, users: map<Uuid, User>) {
    && (forall id :: id in users ==> users[id].id == id && UserOk(c, users[id]))
    && (forall a, b {:trigger SameUserKey(users[a], users[b])} ::
          a in users && b in users && SameUserKey(users[a], users[b]) ==> a == b)
  }

  /** The owner exists and belongs to the tenant of the session. */
  predicate OwnerOk(users: map<Uuid, User>, s: Session) {
    s.user in users && users[s.user].tenant == s.tenant
  }

  predicate SessionOk(c: Config, s: Session) {
    && s.id != NIL && !s.tenant.IsZero() && s.expiresAt == s.createdAt + c.sessionTtl
    && c.hex(s.tokenHash) != ""
  }

  ghost predicate SessionsOk(c: Config, users: map<Uuid, User>, sessions: map<Uuid, Session>) {
    && (forall id :: id in sessions ==>
          sessions[id].id == id && SessionOk(c, sessions[id]) && OwnerOk(users, sessions[id]))
    && (forall a, b {:trigger SameSessionKey(sessions[a], sessions[b])} ::
          a in sessions && b in sessions && SameSessionKey(sessions[a], sessions[b]) ==> a == b)
  }

  ghost predicate TablesOk(c: Config, pg: Pg) {
    UsersOk(c, pg.users) && SessionsOk(c, pg.users, pg.sessions)
  }

  predicate OnlySession(pg: Pg, id: Uuid, h: Bytes) {
    forall x :: x in pg.sessions && pg.sessions[x].tokenHash == h ==> x == id
  }

  /** A token hash names at most one row. */
  lemma UniqueHash(c: Config, pg: Pg, id: Uuid)
    requires SessionsOk(c, pg.users, pg.sessions) && id in pg.sessions
    ensures OnlySession(pg, id, pg.sessions[id].tokenHash)
  {
    forall x | x in pg.sessions && pg.sessions[x].tokenHash == pg.sessions[id].tokenHash ensures x == id {
      assert SameSessionKey(pg.sessions[x], pg.sessions[id]);
    }
  }

  // ---------------------------------------------------------------- open transactions

  /** What the first `done` statements of a job have staged. */
  ghost predicate Staged(job: Job, done: nat, tx: Tx) {
    && tx.users == (if job.SignUpJob? && done >= 1 then map[job.newUser.id := job.newUser] else map[])
    && tx.sessions == (if (job.SignUpJob? && done >= 2) || (job.SignInJob? && done >= 1)
                       then map[job.session.id := job.session] else map[])
    && tx.revoked.Keys == (if job.SignOutJob? && done >= 1 then {job.ctx.session} else {})
    && tx.events == StagedEvents(job, done)
  }

  function StagedEvents(job: Job, done: nat): seq<Event> {
    match job
    case SignUpJob(_, u, s, _) =>
      if done <= 2 then []
      else if done == 3 then [UserCreatedEvent(u)]
      else [UserCreatedEvent(u), SessionCreatedEvent(s)]
    case SignInJob(_, _, s, _) => if done <= 1 then [] else [SessionCreatedEvent(s)]
    case SignOutJob(ctx, at) => if done <= 1 then [] else [SessionRevokedEvent(ctx, at)]
  }

  /** Nothing staged collides with a committed row, and a staged revocation still agrees with COALESCE. */
  ghost predicate Fresh(pg: Pg, tx: Tx) {
    && (forall a, b {:trigger SameUserKey(tx.users[a], pg.users[b])} ::
          a in tx.users && b in pg.users ==> !SameUserKey(tx.users[a], pg.users[b]))
    && (forall a, b {:trigger SameSessionKey(tx.sessions[a], pg.sessions[b])} ::
          a in tx.sessions && b in pg.sessions ==> !SameSessionKey(tx.sessions[a], pg.sessions[b]))
    && (forall id :: id in tx.revoked ==>
          id in pg.sessions && tx.revoked[id] == Coalesce(pg.sessions[id].revokedAt, tx.start))
  }

  /** Two transactions hold no common reservation and no common lock. */
  ghost predicate Apart(x: Tx, y: Tx) {
    && (forall a, b {:trigger SameUserKey(x.users[a], y.users[b])} ::
          a in x.users && b in y.users ==> !SameUserKey(x.users[a], y.users[b]))
    && (forall a, b {:trigger SameSessionKey(x.sessions[a], y.sessions[b])} ::
          a in x.sessions && b in y.sessions ==> !SameSessionKey(x.sessions[a], y.sessions[b]))
    && x.revoked.Keys !! y.revoked.Keys
  }

  predicate Running(s: State, t: nat) {
    t in s.threads && s.threads[t].AtExec?
  }

  ghost predicate TxOk(s: State, t: nat) {
    && Running(s, t) && t in s.pg.open
    && s.threads[t].done <= |Statements(s.threads[t].job)|
    && Staged(s.threads[t].job, s.threads[t].done, s.pg.open[t])
    && Fresh(s.pg, s.pg.open[t])
  }

  ghost predicate TxsOk(s: State) {
    && (forall t {:trigger TxOk(s, t)} :: Running(s, t) ==> TxOk(s, t))
    && (forall t, u {:trigger Apart(s.pg.open[t], s.pg.open[u])} ::
          Running(s, t) && Running(s, u) && t != u && t in s.pg.open && u in s.pg.open ==>
            Apart(s.pg.open[t], s.pg.open[u]))
    && (forall t :: t in s.pg.open ==> t in s.threads && (s.threads[t].AtExec? || s.threads[t].AtRollback?))
  }

  // ---------------------------------------------------------------- threads

  /** `row` was read from the table at some earlier time. */
  predicate Snapshot(pg: Pg, row: Session) {
    row.id in pg.sessions && Later(row, pg.sessions[row.id])
  }

  /** The payload names a committed row stored under this key. */
  predicate Agrees(c: Config, pg: Pg, key: string, p: CachedSession) {
    p.session in pg.sessions
    && p == PayloadOf(pg.sessions[p.session])
    && key == c.hex(pg.sessions[p.session].tokenHash)
  }

  predicate CtxOk(c: Config, pg: Pg, ctx: Ctx) {
    ctx.session in pg.sessions
    && var row := pg.sessions[ctx.session];
    ctx == Ctx(row.user, row.id, row.tenant, c.hex(row.tokenHash))
  }

  predicate EvidenceOk(pg: Pg, now: int, ctx: Ctx, e: Evidence) {
    e.at <= now && ctx.session in pg.sessions && e.at < pg.sessions[ctx.session].expiresAt
    && (e.FromRow? ==> e.row.id == ctx.session && Snapshot(pg, e.row) && e.row.revokedAt.None?)
  }

  predicate Current(pg: Pg, u: User) {
    u.id in pg.users && pg.users[u.id] == u
  }

  ghost predicate JobOk(c: Config, pg: Pg, now: int, job: Job) {
    match job
    case SignUpJob(input, u, row, token) =>
      && UserOk(c, u) && u.tenant == input.tenant
      && c.normalise(input.email) == Some(u.email)
      && c.verify(u.passwordHash, input.password) == Some(true)
      && u.createdAt <= now
      && row == NewSession(row.id, u.tenant, u.id, c.sha(token), u.createdAt, u.createdAt + c.sessionTtl)
      && SessionOk(c, row) && TokenValid(token)
    case SignInJob(input, u, row, token) =>
      && Current(pg, u) && u.tenant == input.tenant
      && c.normalise(input.email) == Some(u.email)
      && c.verify(u.passwordHash, input.password) == Some(true)
      && row.createdAt <= now
      && row == NewSession(row.id, u.tenant, u.id, c.sha(token), row.createdAt, row.createdAt + c.sessionTtl)
      && SessionOk(c, row) && TokenValid(token)
    case SignOutJob(ctx, _) => CtxOk(c, pg, ctx)
  }

  /** The writes of the job are in the tables. */
  predicate Durable(pg: Pg, job: Job) {
    match job
    case SignUpJob(_, u, row, _) => Current(pg, u) && Snapshot(pg, row)
    case SignInJob(_, u, row, _) => Current(pg, u) && Snapshot(pg, row)
    case SignOutJob(ctx, _) => ctx.session in pg.sessions && pg.sessions[ctx.session].revokedAt.Some?
  }

  ghost predicate ThreadOk(c: Config, pg: Pg, now: int, th: Thread) {
    match th
    case AtProbe(_, _) => true
    case AtHit(raw, _, p) => Agrees(c, pg, c.hex(c.sha(raw)), p)
    case AtFind(_, _) => true
    case AtCheck(raw, _, row) => Snapshot(pg, row) && row.tokenHash == c.sha(raw)
    case AtUntil(raw, _, row, at) =>
      Snapshot(pg, row) && row.tokenHash == c.sha(raw) && row.revokedAt.None? && at < row.expiresAt && at <= now
    case AtRepopulate(raw, _, row, at, read) =>
      && Snapshot(pg, row) && row.tokenHash == c.sha(raw) && row.revokedAt.None? && at < row.expiresAt && at <= now
      && read < row.expiresAt && read <= now
    case Passed(ctx, _, e) => CtxOk(c, pg, ctx) && EvidenceOk(pg, now, ctx, e)
    case AtLookup(input, email) => !input.tenant.IsZero() && c.normalise(input.email) == Some(email)
    case AtToken(input, u) =>
      && Current(pg, u) && u.tenant == input.tenant
      && c.normalise(input.email) == Some(u.email) && c.verify(u.passwordHash, input.password) == Some(true)
    case AtBegin(job) => JobOk(c, pg, now, job)
    case AtExec(job, _) => JobOk(c, pg, now, job)
    case AtRollback(job, e) => JobOk(c, pg, now, job) && e != NotFound
    case AtTtl(job) => JobOk(c, pg, now, job) && Durable(pg, job) && !job.SignOutJob?
    case AtSet(job, read) => JobOk(c, pg, now, job) && Durable(pg, job) && !job.SignOutJob? && read <= now
    case AtDelete(job) => JobOk(c, pg, now, job) && Durable(pg, job) && job.SignOutJob?
    case Done(reply) => ReplyOk(c, pg, reply)
  }

  ghost predicate ReplyOk(c: Config, pg: Pg, reply: Reply) {
    match reply
    case Issued(user, token, expiresAt) =>
      TokenValid(token) && exists id :: id in pg.sessions && IssuedAs(c, pg.sessions[id], user, token, expiresAt)
    case Profile(u) => Current(pg, u)
    case Failed(e) => e != NotFound
    case _ => true
  }

  predicate IssuedAs(c: Config, row: Session, user: Uuid, token: string, expiresAt: int) {
    row.user == user && row.tokenHash == c.sha(token) && row.expiresAt == expiresAt
  }

  ghost predicate ThreadsOk(c: Config, s: State) {
    forall t {:trigger ThreadOk(c, s.pg, s.now, s.threads[t])} ::
      t in s.threads ==> ThreadOk(c, s.pg, s.now, s.threads[t])
  }

  // ---------------------------------------------------------------- cache

  ghost predicate CacheOk(c: Config, pg: Pg, cache: map<string, Entry>) {
    forall k :: k in cache && c.dec(cache[k].bytes).Some? ==> Agrees(c, pg, k, c.dec(cache[k].bytes).value)
  }

  // ---------------------------------------------------------------- the invariant

  ghost predicate Inv(c: Config, s: State) {
    TablesOk(c, s.pg) && TxsOk(s) && ThreadsOk(c, s) && CacheOk(c, s.pg, s.cache)
  }

  lemma InitInv(c: Config, s: State)
    requires Init(s)
    ensures Inv(c, s)
  {}

  /** Environment labels move nobody. */
  predicate Moving(l: Label) {
    !l.Tick? && !l.Evict? && !l.Corrupt?
  }

  predicate Mover(l: Label, t: nat) {
    Moving(l) && l.t == t
  }

  predicate CommitsNow(l: Label) {
    l.CommitTx? && !l.fault
  }

  predicate InMiddleware(l: Label) {
    l.Arrive? || l.Probe? || l.Hit? || l.Find? || l.Check? || l.Until? || l.Repopulate?
  }

  predicate InHandler(l: Label) {
    l.ArriveSignUp? || l.ArriveSignIn? || l.Origin? || l.LoadProfile? || l.Lookup? || l.NewToken?
  }

  predicate InTransaction(l: Label) {
    l.BeginTx? || l.ExecTx? || l.CommitTx? || l.RollbackTx?
  }

  predicate AfterTransaction(l: Label) {
    l.ReadTtl? || l.SetCache? || l.DeleteCache?
  }

  /** The step of one thread, outside the database. */
  predicate MovesOne(s: State, s': State, t: nat) {
    s'.now == s.now && s'.pg == s.pg && t in s'.threads && s'.threads == s.threads[t := s'.threads[t]]
  }

  lemma EnvironmentMoves(c: Config, s: State, l: Label)
    requires Enabled(c, s, l) && !Moving(l)
    ensures var s' := Step(c, s, l); s.now <= s'.now && s'.pg == s.pg && s'.threads == s.threads
  {}

  lemma MiddlewareMoves(c: Config, s: State, l: Label)
    requires Enabled(c, s, l) && InMiddleware(l)
    ensures MovesOne(s, Step(c, s, l), l.t)
  {}

  lemma HandlerMoves(c: Config, s: State, l: Label)
    requires Enabled(c, s, l) && InHandler(l)
    ensures MovesOne(s, Step(c, s, l), l.t)
  {}

  lemma AfterTransactionMoves(c: Config, s: State, l: Label)
    requires Enabled(c, s, l) && AfterTransaction(l)
    ensures MovesOne(s, Step(c, s, l), l.t)
  {}

  /** A step of a transaction changes the staged writes of that transaction, and on commit the tables. */
  lemma TransactionMoves(c: Config, s: State, l: Label)
    requires Enabled(c, s, l) && InTransaction(l)
    ensures var s' := Step(c, s, l);
      && MovesOne(s.(pg := s'.pg), s', l.t) && s'.pg.open - {l.t} == s.pg.open - {l.t}
      && (if CommitsNow(l) then s'.pg == Commit(s.pg, l.t)
          else s'.pg.users == s.pg.users && s'.pg.sessions == s.pg.sessions && s'.pg.outbox == s.pg.outbox)
  {}

  /** Time never goes back, and only the mover's thread changes. */
  ghost predicate ThreadsFramed(s: State, s': State, l: Label) {
    && s.now <= s'.now
    && (forall t :: t in s.threads && !Mover(l, t) ==> t in s'.threads && s'.threads[t] == s.threads[t])
    && (forall t :: t in s'.threads && !Mover(l, t) ==> t in s.threads)
    && s'.threads.Keys >= s.threads.Keys
  }

  /** Only the mover's transaction changes, and only a successful commit touches the tables. */
  ghost predicate TablesFramed(s: State, s': State, l: Label) {
    && (forall t :: t in s.pg.open && !Mover(l, t) ==> t in s'.pg.open && s'.pg.open[t] == s.pg.open[t])
    && (forall t :: t in s'.pg.open && !Mover(l, t) ==> t in s.pg.open)
    && (if CommitsNow(l) then l.t in s.pg.open && s'.pg == Commit(s.pg, l.t)
        else s'.pg.users == s.pg.users && s'.pg.sessions == s.pg.sessions && s'.pg.outbox == s.pg.outbox)
  }

  lemma OthersOpen(a: map<nat, Tx>, b: map<nat, Tx>, t: nat)
    requires b - {t} == a - {t}
    ensures forall u :: u != t ==> (u in a <==> u in b)
    ensures forall u :: u in a && u != t ==> b[u] == a[u]
  {
    forall u | u in a && u != t ensures u in b && b[u] == a[u] {
      assert u in a - {t} && (a - {t})[u] == a[u] && (b - {t})[u] == b[u];
    }
    forall u | u in b && u != t ensures u in a {
      assert u in b - {t};
    }
  }

  ghost predicate Framed(s: State, s': State, l: Label) {
    ThreadsFramed(s, s', l) && TablesFramed(s, s', l)
  }

  lemma OneFramed(s: State, s': State, l: Label)
    requires Moving(l) && !CommitsNow(l) && MovesOne(s, s', l.t)
    ensures Framed(s, s', l)
  {}

  lemma TransactionFramed(c: Config, s: State, l: Label)
    requires Enabled(c, s, l) && InTransaction(l)
    ensures Framed(s, Step(c, s, l), l)
  {
    TransactionMoves(c, s, l);
    OthersOpen(s.pg.open, Step(c, s, l).pg.open, l.t);
  }

  lemma OutsideFramed(c: Config, s: State, l: Label)
    requires Enabled(c, s, l) && !InTransaction(l)
    ensures Framed(s, Step(c, s, l), l)
  {
    if !Moving(l) {
      EnvironmentMoves(c, s, l);
    } else {
      if InMiddleware(l) {
        MiddlewareMoves(c, s, l);
      } else if InHandler(l) {
        HandlerMoves(c, s, l);
      } else {
        AfterTransactionMoves(c, s, l);
      }
      OneFramed(s, Step(c, s, l), l);
    }
  }

  lemma Frame(c: Config, s: State, l: Label)
    requires Enabled(c, s, l)
    ensures Framed(s, Step(c, s, l), l)
  {
    if InTransaction(l) {
      TransactionFramed(c, s, l);
    } else {
      OutsideFramed(c, s, l);
    }
  }

  lemma FreeKeys(pg: Pg, tx: Tx)
    requires Fresh(pg, tx)
    requires forall id :: id in pg.users ==> pg.users[id].id == id
    requires forall id :: id in pg.sessions ==> pg.sessions[id].id == id
    requires forall id :: id in tx.users ==> tx.users[id].id == id
    requires forall id :: id in tx.sessions ==> tx.sessions[id].id == id
    ensures tx.users.Keys !! pg.users.Keys && tx.sessions.Keys !! pg.sessions.Keys
  {
    forall id | id in tx.users ensures id !in pg.users {
      assert id in pg.users ==> SameUserKey(tx.users[id], pg.users[id]);
    }
    forall id | id in tx.sessions ensures id !in pg.sessions {
      assert id in pg.sessions ==> SameSessionKey(tx.sessions[id], pg.sessions[id]);
    }
  }

  /** The rows a commit adds carry keys that no committed row has. */
  lemma NewKeys(c: Config, s: State, t: nat)
    requires TablesOk(c, s.pg) && TxOk(s, t)
    ensures s.pg.open[t].users.Keys !! s.pg.users.Keys
    ensures s.pg.open[t].sessions.Keys !! s.pg.sessions.Keys
  {
    FreeKeys(s.pg, s.pg.open[t]);
  }

  /** A committed row keeps everything but a revocation that the transaction staged. */
  lemma CommitRow(pg: Pg, t: nat, id: Uuid)
    requires t in pg.open && id in pg.sessions && pg.open[t].sessions.Keys !! pg.sessions.Keys
    ensures id in Commit(pg, t).sessions
    ensures Commit(pg, t).sessions[id] ==
      if id in pg.open[t].revoked then pg.sessions[id].(revokedAt := Some(pg.open[t].revoked[id])) else pg.sessions[id]
  {
    assert Commit(pg, t).sessions[id] == Revised(pg.sessions, pg.open[t].revoked)[id];
  }

  lemma CommitExtends(c: Config, s: State, t: nat)
    requires TablesOk(c, s.pg) && TxOk(s, t)
    ensures Extends(s.pg, Commit(s.pg, t))
    ensures var tx, after := s.pg.open[t], Commit(s.pg, t);
      && tx.users.Keys !! s.pg.users.Keys && after.users == s.pg.users + tx.users
      && tx.sessions.Keys !! s.pg.sessions.Keys && after.sessions.Keys == s.pg.sessions.Keys + tx.sessions.Keys
  {
    NewKeys(c, s, t);
    var after := Commit(s.pg, t);
    forall id | id in s.pg.sessions
      ensures id in after.sessions && Later(s.pg.sessions[id], after.sessions[id])
    {
      CommitRow(s.pg, t, id);
    }
  }

  lemma SameTablesExtend(a: Pg, b: Pg)
    requires a.users == b.users && a.sessions == b.sessions
    ensures Extends(a, b)
  {}

  lemma StepExtends(c: Config, s: State, l: Label)
    requires Enabled(c, s, l) && TablesOk(c, s.pg)
    requires l.CommitTx? ==> TxOk(s, l.t)
    ensures Extends(s.pg, Step(c, s, l).pg)
  {
    Frame(c, s, l);
    if CommitsNow(l) {
      CommitExtends(c, s, l.t);
    } else {
      SameTablesExtend(s.pg, Step(c, s, l).pg);
    }
  }
}
