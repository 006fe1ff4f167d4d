/** The session store protocol as a labelled transition system.

    Any number of requests are in flight.  A request is a thread with a program counter and the
    local values its code holds there; one step is one call to the database, the cache or the clock,
    and everything the environment decides (faults, answers, random values, which request moves next)
    is in the label, so `Step` is a function. */
module Protocol {
  import opened Basics
  import opened Domain
  import opened Postgres

  /** What the protocol takes from the rest of the service. */
  datatype Config = Config(
    cacheOn: bool,
    sessionTtl: int,
    sha: string -> Bytes,
    hex: Bytes -> string,
    enc: CachedSession -> string,
    dec: string -> Option<CachedSession>,
    normalise: string -> Option<string>,
    hash: (Bytes, Bytes) -> Option<string>,
    verify: (string, Bytes) -> Option<bool>)

  /** A stored cache value with its eviction deadline; a non-positive TTL stores without one. */
  datatype Entry = Entry(bytes: string, deadline: Option<int>)

  datatype Route = GetMe | SignOut

  datatype Credentials = Credentials(tenant: TenantId, email: string, password: Bytes)

  /** A request whose transaction is about to run, is running, or has run. */
  datatype Job =
    | SignUpJob(input: Credentials, newUser: User, session: Session, token: string)
    | SignInJob(input: Credentials, account: User, session: Session, token: string)
    | SignOutJob(ctx: Ctx, at: int)

  datatype Error = Internal | InvalidEmail | WeakPassword | EmailTaken | InvalidCredentials | NotFound | Forbidden

  datatype Refusal = SessionRequired | SessionInvalid | Unavailable

  datatype Reply =
    | Refused(why: Refusal)
    | Failed(error: Error)
    | Issued(user: Uuid, token: string, expiresAt: int)
    | SignedOut
    | Profile(profile: User)

  /** Why the session middleware let a request pass, and the clock value it compared with the expiry. */
  datatype Evidence = FromCache(at: int) | FromRow(row: Session, at: int)

  datatype Thread =
    | AtProbe(raw: string, route: Route)
    | AtHit(raw: string, route: Route, cached: CachedSession)
    | AtFind(raw: string, route: Route)
    | AtCheck(raw: string, route: Route, row: Session)
    | AtUntil(raw: string, route: Route, row: Session, decided: int)
    | AtRepopulate(raw: string, route: Route, row: Session, decided: int, read: int)
    | Passed(ctx: Ctx, route: Route, evidence: Evidence)
    | AtLookup(input: Credentials, email: string)
    | AtToken(input: Credentials, account: User)
    | AtBegin(job: Job)
    | AtExec(job: Job, done: nat)
    | AtRollback(job: Job, error: Error)
    | AtTtl(job: Job)
    | AtSet(job: Job, read: int)
    | AtDelete(job: Job)
    | Done(reply: Reply)

  datatype State = State(now: int, pg: Pg, cache: map<string, Entry>, threads: map<nat, Thread>)

  datatype Answer = Fault | NoRow | Row(id: Uuid)

  datatype Label =
    | Tick(d: nat)
    | Evict(key: string)
    | Corrupt(key: string, bytes: string)
    | Arrive(t: nat, raw: string, route: Route)
    | ArriveSignUp(t: nat, input: Credentials, salt: Bytes, token: string, user: Uuid, session: Uuid, fault: bool)
    | ArriveSignIn(t: nat, input: Credentials)
    | Probe(t: nat, fault: bool)
    | Hit(t: nat)
    | Find(t: nat, answer: Answer)
    | Check(t: nat)
    | Until(t: nat)
    | Repopulate(t: nat, fault: bool)
    | Origin(t: nat, ok: bool)
    | LoadProfile(t: nat, answer: Answer)
    | Lookup(t: nat, answer: Answer)
    | NewToken(t: nat, token: string, session: Uuid, fault: bool)
    | BeginTx(t: nat, fault: bool)
    | ExecTx(t: nat, fault: bool)
    | CommitTx(t: nat, fault: bool)
    | RollbackTx(t: nat)
    | ReadTtl(t: nat)
    | SetCache(t: nat, fault: bool)
    | DeleteCache(t: nat, fault: bool)

  // ---------------------------------------------------------------- pieces of a step

  function UserCreatedEvent(u: User): Event {
    Event(u.tenant, u.id, UserCreated(u.id, u.tenant, u.email, u.createdAt), u.createdAt)
  }

  function SessionCreatedEvent(s: Session): Event {
    Event(s.tenant, s.id, SessionCreated(s.id, s.user, s.tenant, s.createdAt), s.createdAt)
  }

  function SessionRevokedEvent(ctx: Ctx, at: int): Event {
    Event(ctx.tenant, ctx.session, SessionRevoked(ctx.session, ctx.user, ctx.tenant, at), at)
  }

  /** The statements a use case sends inside its transaction, in order. */
  function Statements(job: Job): seq<TxOp> {
    match job
    case SignUpJob(_, u, s, _) =>
      [InsertUser(u), InsertSession(s), Write(UserCreatedEvent(u)), Write(SessionCreatedEvent(s))]
    case SignInJob(_, _, s, _) => [InsertSession(s), Write(SessionCreatedEvent(s))]
    case SignOutJob(ctx, at) => [Revoke(ctx.tenant, ctx.session), Write(SessionRevokedEvent(ctx, at))]
  }

  function FailureOf(op: TxOp, outcome: Outcome): Error {
    if op.InsertUser? && outcome == UniqueViolation then EmailTaken else Internal
  }

  function Put(
      c: Config, cache: map<string, Entry>, now: int, key: string, p: CachedSession, ttl: int): map<string, Entry> {
    cache[key := Entry(c.enc(p), if ttl > 0 then Some(now + ttl) else None)]
  }

  /** A probe answers from a stored value that is not past its deadline and that decodes. */
  function Cached(c: Config, s: State, key: string): Option<CachedSession> {
    if key in s.cache && (s.cache[key].deadline.None? || s.now < s.cache[key].deadline.value)
    then c.dec(s.cache[key].bytes)
    else None
  }

  function CtxOf(c: Config, raw: string, p: CachedSession): Ctx {
    Ctx(p.user, p.session, p.tenant, c.hex(c.sha(raw)))
  }

  function Move(s: State, t: nat, th: Thread): State {
    s.(threads := s.threads[t := th])
  }

  function SignUpStart(c: Config, now: int, l: Label): Thread
    requires l.ArriveSignUp?
  {
    var email := c.normalise(l.input.email);
    if l.input.tenant.IsZero() then Done(Failed(Internal))
    else if email.None? then Done(Failed(InvalidEmail))
    else if !PasswordPolicy(l.input.password) then Done(Failed(WeakPassword))
    else
      var hash := c.hash(l.salt, l.input.password);
      if l.fault || hash.None? || !TokenValid(l.token) then Done(Failed(Internal))
      else
        AtBegin(SignUpJob(
          l.input,
          NewUser(l.user, l.input.tenant, email.value, hash.value, now),
          NewSession(l.session, l.input.tenant, l.user, c.sha(l.token), now, now + c.sessionTtl),
          l.token))
  }

  function SignInStart(c: Config, input: Credentials): Thread {
    if input.tenant.IsZero() then Done(Failed(Internal))
    else match c.normalise(input.email)
      case None => Done(Failed(InvalidCredentials))
      case Some(email) => AtLookup(input, email)
  }

  /** The credential check on the stored row, after the row was rebuilt from storage. */
  function CredentialCheck(c: Config, input: Credentials, u: User): Thread {
    if c.normalise(u.email).None? then Done(Failed(Internal))
    else match c.verify(u.passwordHash, input.password)
      case None => Done(Failed(Internal))
      case Some(ok) => if ok then AtToken(input, u) else Done(Failed(InvalidCredentials))
  }

  function SignInReady(c: Config, now: int, th: Thread, l: Label): Thread
    requires th.AtToken? && l.NewToken?
  {
    if l.fault || !TokenValid(l.token) then Done(Failed(Internal))
    else
      AtBegin(SignInJob(
        th.input, th.account,
        NewSession(l.session, th.input.tenant, th.account.id, c.sha(l.token), now, now + c.sessionTtl),
        l.token))
  }

  function SignOutStart(now: int, ctx: Ctx): Thread {
    if ctx.tenant.IsZero() || ctx.session == NIL then Done(Failed(Internal)) else AtBegin(SignOutJob(ctx, now))
  }

  function Success(job: Job): Reply {
    match job
    case SignUpJob(_, u, s, token) => Issued(u.id, token, s.expiresAt)
    case SignInJob(_, u, s, token) => Issued(u.id, token, s.expiresAt)
    case SignOutJob(_, _) => SignedOut
  }

  function AfterCommit(c: Config, job: Job): Thread {
    if job.SignOutJob? then
      if c.cacheOn && job.ctx.tokenHashHex != "" then AtDelete(job) else Done(SignedOut)
    else if c.cacheOn then AtTtl(job)
    else Done(Success(job))
  }

  // ---------------------------------------------------------------- steps

  predicate IsAt(s: State, l: Label) {
    match l
    case Tick(_) => true
    case Evict(k) => k in s.cache
    case Corrupt(k, _) => k in s.cache
    case Arrive(t, _, _) => t !in s.threads
    case ArriveSignUp(t, _, _, _, _, _, _) => t !in s.threads
    case ArriveSignIn(t, _) => t !in s.threads
    case Probe(t, _) => t in s.threads && s.threads[t].AtProbe?
    case Hit(t) => t in s.threads && s.threads[t].AtHit?
    case Find(t, _) => t in s.threads && s.threads[t].AtFind?
    case Check(t) => t in s.threads && s.threads[t].AtCheck?
    case Until(t) => t in s.threads && s.threads[t].AtUntil?
    case Repopulate(t, _) => t in s.threads && s.threads[t].AtRepopulate?
    case Origin(t, _) => t in s.threads && s.threads[t].Passed? && s.threads[t].route.SignOut?
    case LoadProfile(t, _) => t in s.threads && s.threads[t].Passed? && s.threads[t].route.GetMe?
    case Lookup(t, _) => t in s.threads && s.threads[t].AtLookup?
    case NewToken(t, _, _, _) => t in s.threads && s.threads[t].AtToken?
    case BeginTx(t, _) => t in s.threads && s.threads[t].AtBegin?
    case ExecTx(t, _) =>
      t in s.threads && s.threads[t].AtExec? && t in s.pg.open && s.threads[t].done < |Statements(s.threads[t].job)|
    case CommitTx(t, _) =>
      t in s.threads && s.threads[t].AtExec? && t in s.pg.open && s.threads[t].done == |Statements(s.threads[t].job)|
    case RollbackTx(t) => t in s.threads && s.threads[t].AtRollback?
    case ReadTtl(t) => t in s.threads && s.threads[t].AtTtl? && !s.threads[t].job.SignOutJob?
    case SetCache(t, _) => t in s.threads && s.threads[t].AtSet? && !s.threads[t].job.SignOutJob?
    case DeleteCache(t, _) => t in s.threads && s.threads[t].AtDelete? && s.threads[t].job.SignOutJob?
  }

  /** The label fits the state: the database answers truthfully or not at all, a statement that
      would have to wait does not complete, fresh UUIDs are not nil, and nobody else writes
      decodable bytes under the service's cache keys. */
  predicate Enabled(c: Config, s: State, l: Label) {
    IsAt(s, l) &&
    match l
    case Corrupt(_, b) => c.dec(b).None?
    case ArriveSignUp(_, _, _, _, uid, sid, _) => uid != NIL && sid != NIL
    case NewToken(_, _, sid, _) => sid != NIL
    case Find(t, a) => TokenAnswer(s.pg, c.sha(s.threads[t].raw), a)
    case LoadProfile(t, a) => IdAnswer(s.pg, s.threads[t].ctx.tenant, s.threads[t].ctx.user, a)
    case Lookup(t, a) => EmailAnswer(s.pg, s.threads[t].input.tenant, s.threads[t].email, a)
    case ExecTx(t, fault) => fault || !Blocked(s.pg, t, Statements(s.threads[t].job)[s.threads[t].done])
    case _ => true
  }

  predicate TokenAnswer(pg: Pg, h: Bytes, a: Answer) {
    match a
    case Fault => true
    case NoRow => forall id :: id in pg.sessions ==> pg.sessions[id].tokenHash != h
    case Row(id) => id in pg.sessions && pg.sessions[id].tokenHash == h
  }

  predicate EmailAnswer(pg: Pg, tenant: TenantId, email: string, a: Answer) {
    match a
    case Fault => true
    case NoRow => forall id :: id in pg.users ==> !(pg.users[id].tenant == tenant && pg.users[id].email == email)
    case Row(id) => id in pg.users && pg.users[id].tenant == tenant && pg.users[id].email == email
  }

  predicate IdAnswer(pg: Pg, tenant: TenantId, user: Uuid, a: Answer) {
    match a
    case Fault => true
    case NoRow => !(user in pg.users && pg.users[user].tenant == tenant)
    case Row(id) => id == user && user in pg.users && pg.users[user].tenant == tenant
  }

  function Step(c: Config, s: State, l: Label): State
    requires Enabled(c, s, l)
  {
    match l
    case Tick(d) => s.(now := s.now + d)
    case Evict(k) => s.(cache := s.cache - {k})
    case Corrupt(k, b) => s.(cache := s.cache[k := s.cache[k].(bytes := b)])
    case Arrive(t, raw, route) =>
      Move(s, t, if raw == "" then Done(Refused(SessionRequired))
                 else if c.cacheOn then AtProbe(raw, route) else AtFind(raw, route))
    case ArriveSignUp(t, _, _, _, _, _, _) => Move(s, t, SignUpStart(c, s.now, l))
    case ArriveSignIn(t, input) => Move(s, t, SignInStart(c, input))
    case Probe(t, fault) =>
      var th := s.threads[t];
      var p := Cached(c, s, c.hex(c.sha(th.raw)));
      Move(s, t, if fault || p.None? then AtFind(th.raw, th.route) else AtHit(th.raw, th.route, p.value))
    case Hit(t) =>
      var th := s.threads[t];
      Move(s, t, if s.now < th.cached.expiresAt
                 then Passed(CtxOf(c, th.raw, th.cached), th.route, FromCache(s.now))
                 else AtFind(th.raw, th.route))
    case Find(t, answer) =>
      var th := s.threads[t];
      Move(s, t, match answer
                 case Fault => Done(Refused(Unavailable))
                 case NoRow => Done(Refused(SessionInvalid))
                 case Row(id) => AtCheck(th.raw, th.route, s.pg.sessions[id]))
    case Check(t) =>
      var th := s.threads[t];
      Move(s, t, if !th.row.IsActive(s.now) then Done(Refused(SessionInvalid))
                 else if c.cacheOn then AtUntil(th.raw, th.route, th.row, s.now)
                 else Passed(CtxOf(c, th.raw, PayloadOf(th.row)), th.route, FromRow(th.row, s.now)))
    case Until(t) =>
      var th := s.threads[t];
      Move(s, t, if th.row.expiresAt - s.now > 0
                 then AtRepopulate(th.raw, th.route, th.row, th.decided, s.now)
                 else Passed(CtxOf(c, th.raw, PayloadOf(th.row)), th.route, FromRow(th.row, th.decided)))
    case Repopulate(t, fault) =>
      var th := s.threads[t];
      var s' := Move(s, t, Passed(CtxOf(c, th.raw, PayloadOf(th.row)), th.route, FromRow(th.row, th.decided)));
      if fault then s'
      else s'.(cache := Put(c, s.cache, s.now, c.hex(c.sha(th.raw)), PayloadOf(th.row), th.row.expiresAt - th.read))
    case Origin(t, ok) =>
      Move(s, t, if ok then SignOutStart(s.now, s.threads[t].ctx) else Done(Failed(Forbidden)))
    case LoadProfile(t, answer) =>
      Move(s, t, if s.threads[t].ctx.tenant.IsZero() then Done(Failed(Internal))
                 else match answer
                 case Fault => Done(Failed(Internal))
                 case NoRow => Done(Failed(NotFound))
                 case Row(id) =>
                   if c.normalise(s.pg.users[id].email).None? then Done(Failed(Internal))
                   else Done(Profile(s.pg.users[id])))
    case Lookup(t, answer) =>
      Move(s, t, match answer
                 case Fault => Done(Failed(Internal))
                 case NoRow => Done(Failed(InvalidCredentials))
                 case Row(id) => CredentialCheck(c, s.threads[t].input, s.pg.users[id]))
    case NewToken(t, _, _, _) => Move(s, t, SignInReady(c, s.now, s.threads[t], l))
    case BeginTx(t, fault) =>
      if fault then Move(s, t, Done(Failed(Internal)))
      else Move(s, t, AtExec(s.threads[t].job, 0)).(pg := Begin(s.pg, t, s.now))
    case ExecTx(t, fault) =>
      var th := s.threads[t];
      var op := Statements(th.job)[th.done];
      var outcome := OutcomeOf(s.pg, t, op);
      if fault then Move(s, t, AtRollback(th.job, Internal))
      else if outcome != Applied then Move(s, t, AtRollback(th.job, FailureOf(op, outcome)))
      else Move(s, t, AtExec(th.job, th.done + 1)).(pg := Exec(s.pg, t, op))
    case CommitTx(t, fault) =>
      var th := s.threads[t];
      if fault then Move(s, t, AtRollback(th.job, Internal)).(pg := Rollback(s.pg, t))
      else Move(s, t, AfterCommit(c, th.job)).(pg := Commit(s.pg, t))
    case RollbackTx(t) =>
      Move(s, t, Done(Failed(s.threads[t].error))).(pg := Rollback(s.pg, t))
    case ReadTtl(t) => Move(s, t, AtSet(s.threads[t].job, s.now))
    case SetCache(t, fault) =>
      var th := s.threads[t];
      var row := th.job.session;
      var s' := Move(s, t, Done(Success(th.job)));
      if fault then s'
      else s'.(cache := Put(c, s.cache, s.now, c.hex(row.tokenHash), PayloadOf(row), row.expiresAt - th.read))
    case DeleteCache(t, fault) =>
      var th := s.threads[t];
      var s' := Move(s, t, Done(SignedOut));
      if fault then s' else s'.(cache := s.cache - {th.job.ctx.tokenHashHex})
  }

  predicate Arrives(l: Label) {
    l.Arrive? || l.ArriveSignUp? || l.ArriveSignIn?
  }

  /** The call the label stands for fails. */
  predicate Faulty(l: Label) {
    match l
    case Find(_, answer) => answer.Fault?
    case LoadProfile(_, answer) => answer.Fault?
    case Lookup(_, answer) => answer.Fault?
    case ArriveSignUp(_, _, _, _, _, _, fault) => fault
    case Probe(_, fault) => fault
    case Repopulate(_, fault) => fault
    case NewToken(_, _, _, fault) => fault
    case BeginTx(_, fault) => fault
    case ExecTx(_, fault) => fault
    case CommitTx(_, fault) => fault
    case SetCache(_, fault) => fault
    case DeleteCache(_, fault) => fault
    case _ => false
  }

  // ---------------------------------------------------------------- runs

  predicate Init(s: State) {
    s.pg == EMPTY && s.cache == map[] && s.threads == map[]
  }

  /** `states` and `labels` alternate, starting from an empty store. */
  ghost predicate Run(c: Config, states: seq<State>, labels: seq<Label>) {
    Path(c, states, labels) && Init(states[0])
  }

  ghost predicate Path(c: Config, states: seq<State>, labels: seq<Label>) {
    && |states| == |labels| + 1
    && forall i :: 0 <= i < |labels| ==> Moves(c, states, labels, i)
  }

  ghost predicate Moves(c: Config, states: seq<State>, labels: seq<Label>, i: nat)
    requires i < |labels| && |states| == |labels| + 1
  {
    Enabled(c, states[i], labels[i]) && states[i + 1] == Step(c, states[i], labels[i])
  }
}
