/** The database: committed tables, and the staged writes of every open transaction.

    Statements run at READ COMMITTED.  A unique key is reserved by the inserting
    transaction until it ends, and an updated row is locked until then; a statement
    of another transaction that meets a reservation or a lock has to wait. */
module Postgres {
  import opened Basics
  import opened Domain

  datatype Tx = Tx(
    start: int, users: map<Uuid, User>, sessions: map<Uuid, Session>,
    revoked: map<Uuid, int>, events: seq<Event>)

  datatype Pg = Pg(
    users: map<Uuid, User>, sessions: map<Uuid, Session>,
    outbox: seq<Event>, open: map<nat, Tx>)

  const EMPTY := Pg(map[], map[], [], map[])

  datatype TxOp =
    | InsertUser(user: User)
    | InsertSession(session: Session)
    | Revoke(tenant: TenantId, id: Uuid)
    | Write(event: Event)

  datatype Outcome = Applied | UniqueViolation | ForeignKeyViolation | NoRows

  predicate SameUserKey(a: User, b: User) {
    a.id == b.id || (a.tenant == b.tenant && a.email == b.email)
  }

  predicate SameSessionKey(a: Session, b: Session) {
    a.id == b.id || a.tokenHash == b.tokenHash
  }

  /** COALESCE(revoked_at, now()) with now() the start of the transaction. */
  function Coalesce(revokedAt: Option<int>, now: int): int {
    if revokedAt.Some? then revokedAt.value else now
  }

  /** Does the statement meet a key reservation or a row lock of transaction `tx`? */
  predicate Meets(tx: Tx, op: TxOp) {
    match op
    case InsertUser(u) => exists id :: id in tx.users && SameUserKey(tx.users[id], u)
    case InsertSession(s) => exists id :: id in tx.sessions && SameSessionKey(tx.sessions[id], s)
    case Revoke(_, id) => id in tx.revoked
    case Write(_) => false
  }

  predicate Blocked(pg: Pg, t: nat, op: TxOp) {
    exists t' :: t' in pg.open && t' != t && Meets(pg.open[t'], op)
  }

  /** How the statement ends once it is not blocked, seen from inside transaction `t`. */
  function OutcomeOf(pg: Pg, t: nat, op: TxOp): Outcome
    requires t in pg.open
  {
    var tx := pg.open[t];
    match op
    case InsertUser(u) =>
      if (exists id :: id in pg.users && SameUserKey(pg.users[id], u)) || Meets(tx, op) then UniqueViolation
      else Applied
    case InsertSession(s) =>
      if (exists id :: id in pg.sessions && SameSessionKey(pg.sessions[id], s)) || Meets(tx, op) then UniqueViolation
      else if s.user !in pg.users && s.user !in tx.users then ForeignKeyViolation
      else Applied
    case Revoke(tenant, id) =>
      if id in pg.sessions && pg.sessions[id].tenant == tenant then Applied else NoRows
    case Write(_) => Applied
  }

  function Stage(pg: Pg, tx: Tx, op: TxOp): Tx {
    match op
    case InsertUser(u) => tx.(users := tx.users[u.id := u])
    case InsertSession(s) => tx.(sessions := tx.sessions[s.id := s])
    case Revoke(_, id) =>
      if id in pg.sessions then tx.(revoked := tx.revoked[id := Coalesce(pg.sessions[id].revokedAt, tx.start)])
      else tx
    case Write(e) => tx.(events := tx.events + [e])
  }

  function Begin(pg: Pg, t: nat, now: int): Pg {
    pg.(open := pg.open[t := Tx(now, map[], map[], map[], [])])
  }

  function Exec(pg: Pg, t: nat, op: TxOp): Pg
    requires t in pg.open
  {
    pg.(open := pg.open[t := Stage(pg, pg.open[t], op)])
  }

  function Revised(sessions: map<Uuid, Session>, revoked: map<Uuid, int>): map<Uuid, Session> {
    map id | id in sessions ::
      if id in revoked then sessions[id].(revokedAt := Some(revoked[id])) else sessions[id]
  }

  /** Every staged write becomes visible at once and the transaction is closed. */
  function Commit(pg: Pg, t: nat): Pg
    requires t in pg.open
  {
    var tx := pg.open[t];
    Pg(pg.users + tx.users, Revised(pg.sessions, tx.revoked) + tx.sessions, pg.outbox + tx.events, pg.open - {t})
  }

  /** Closing a transaction that is already closed changes nothing. */
  function Rollback(pg: Pg, t: nat): Pg {
    pg.(open := pg.open - {t})
  }

  predicate Revoked(pg: Pg, id: Uuid) {
    id in pg.sessions && pg.sessions[id].revokedAt.Some?
  }

  /** Two rows that differ at most in a revocation that the first has not seen yet. */
  predicate Later(a: Session, b: Session) {
    b == a.(revokedAt := b.revokedAt) && (a.revokedAt.Some? ==> b.revokedAt == a.revokedAt)
  }

  /** The tables of `b` extend those of `a`: rows are never deleted and only `revoked_at` is ever filled in. */
  predicate Extends(a: Pg, b: Pg) {
    && (forall id :: id in a.users ==> id in b.users && b.users[id] == a.users[id])
    && (forall id :: id in a.sessions ==> id in b.sessions && Later(a.sessions[id], b.sessions[id]))
  }
}
