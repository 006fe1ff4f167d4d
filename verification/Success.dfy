/** When a use case succeeds: with keys that nobody has or has reserved, and no failing call, a request runs
    straight through to its success, and does all of its work. */
module Success {
  import opened Basics
  import opened Domain
  import opened Postgres
  import opened Protocol
  import opened Invariant
  import opened Runs
  import opened Progress
  import opened Reasons
  import opened Outcomes
  import Inductive

  // ---------------------------------------------------------------- what may stand in the way

  /** No session, committed or reserved by an open transaction, has this id or this token hash. */
  predicate FreeSession(pg: Pg, id: Uuid, hash: Bytes) {
    && (forall x :: x in pg.sessions ==> pg.sessions[x].id != id && pg.sessions[x].tokenHash != hash)
    && (forall u, x :: u in pg.open && x in pg.open[u].sessions ==>
          pg.open[u].sessions[x].id != id && pg.open[u].sessions[x].tokenHash != hash)
  }

  /** No user, committed or reserved by an open transaction, has this id, or this email in this tenant. */
  predicate FreeUser(pg: Pg, id: Uuid, tenant: TenantId, email: string) {
    && (forall x :: x in pg.users ==>
          pg.users[x].id != id && (pg.users[x].tenant != tenant || pg.users[x].email != email))
    && (forall u, x :: u in pg.open && x in pg.open[u].users ==>
          pg.open[u].users[x].id != id && (pg.open[u].users[x].tenant != tenant || pg.open[u].users[x].email != email))
  }

  /** No open transaction has the row locked. */
  predicate Unlocked(pg: Pg, id: Uuid) {
    forall u :: u in pg.open ==> id !in pg.open[u].revoked
  }

  /** Every statement of the job can be executed as it is. */
  ghost predicate Clear(pg: Pg, t: nat, job: Job) {
    forall k :: 0 <= k < |Statements(job)| ==> !Refuses(pg, job, k) && !Blocked(pg, t, Statements(job)[k])
  }

  lemma SignUpClear(pg: Pg, t: nat, job: Job)
    requires job.SignUpJob? && FreeSession(pg, job.session.id, job.session.tokenHash)
    requires FreeUser(pg, job.newUser.id, job.newUser.tenant, job.newUser.email)
    ensures Clear(pg, t, job)
  {}

  lemma SignInClear(pg: Pg, t: nat, job: Job)
    requires job.SignInJob? && FreeSession(pg, job.session.id, job.session.tokenHash)
    ensures Clear(pg, t, job)
  {}

  lemma SignOutClear(pg: Pg, t: nat, job: Job)
    requires job.SignOutJob? && Unlocked(pg, job.ctx.session)
    ensures Clear(pg, t, job)
  {}

  // ---------------------------------------------------------------- the transaction

  /** Nothing but the staged writes and the threads differs. */
  predicate SameBut(a: State, b: State) {
    b.now == a.now && b.cache == a.cache
    && b.pg.users == a.pg.users && b.pg.sessions == a.pg.sessions && b.pg.outbox == a.pg.outbox
  }

  /** The transaction has executed `done` statements of its job, and the rest can be executed. */
  ghost predicate Underway(s: State, t: nat, job: Job, done: nat, start: int) {
    && t in s.threads && s.threads[t] == AtExec(job, done)
    && t in s.pg.open && s.pg.open[t].start == start && Clear(s.pg, t, job)
  }

  lemma ClearStays(a: Pg, b: Pg, t: nat, job: Job)
    requires Clear(a, t, job) && a.users == b.users && a.sessions == b.sessions && a.open - {t} == b.open - {t}
    ensures Clear(b, t, job)
  {
    forall k | 0 <= k < |Statements(job)| ensures !Refuses(b, job, k) && !Blocked(b, t, Statements(job)[k]) {
      assert !Refuses(a, job, k) && !Blocked(a, t, Statements(job)[k]);
      forall u | u in b.open && u != t ensures !Meets(b.open[u], Statements(job)[k]) {
        assert u in b.open - {t} && (b.open - {t})[u] == b.open[u] && (a.open - {t})[u] == a.open[u];
      }
    }
  }

  /** One statement is executed. */
  lemma Executes(c: Config, s: State, t: nat, job: Job, done: nat, start: int)
    requires Underway(s, t, job, done, start) && done < |Statements(job)|
    requires OutcomeOf(s.pg, t, Statements(job)[done]) == Applied
    ensures Enabled(c, s, ExecTx(t, false))
    ensures var s' := Step(c, s, ExecTx(t, false)); Underway(s', t, job, done + 1, start) && SameBut(s, s')
  {
    var op := Statements(job)[done];
    assert !Blocked(s.pg, t, op);
    AnsweredStep(c, s, t, op, job, done);
    ClearStays(s.pg, Exec(s.pg, t, op), t, job);
  }

  lemma Applies(c: Config, s: State, t: nat, job: Job, done: nat, start: int)
    requires Inv(c, s) && Underway(s, t, job, done, start) && done < |Statements(job)|
    ensures OutcomeOf(s.pg, t, Statements(job)[done]) == Applied
  {
    assert Running(s, t) && TxOk(s, t);
    assert ThreadOk(c, s.pg, s.now, s.threads[t]);
    AppliesIff(c, s, t);
    assert !Refuses(s.pg, job, done);
  }

  /** The statements that are left. */
  lemma {:induction false} ExecutesAll(
      c: Config, first: State, xs: seq<State>, ls: seq<Label>, t: nat, job: Job, done: nat, start: int)
    returns (ys: seq<State>, ms: seq<Label>)
    requires ConfigOk(c) && Reaches(c, first, xs, ls) && Underway(xs[|xs| - 1], t, job, done, start)
    requires done <= |Statements(job)|
    ensures Reaches(c, first, ys, ms) && Underway(ys[|ys| - 1], t, job, |Statements(job)|, start)
    ensures SameBut(xs[|xs| - 1], ys[|ys| - 1])
    decreases |Statements(job)| - done
  {
    ys, ms := xs, ls;
    if done < |Statements(job)| {
      Applies(c, xs[|xs| - 1], t, job, done, start);
      Executes(c, xs[|xs| - 1], t, job, done, start);
      ys, ms := Continue(c, first, xs, ls, ExecTx(t, false));
      ys, ms := ExecutesAll(c, first, ys, ms, t, job, done + 1, start);
    }
  }

  /** The state after the commit of a transaction that has executed its statements. */
  lemma Commits(c: Config, s: State, t: nat, job: Job, start: int)
    requires Inv(c, s) && Underway(s, t, job, |Statements(job)|, start)
    ensures Enabled(c, s, CommitTx(t, false))
    ensures var s' := Step(c, s, CommitTx(t, false));
      s'.now == s.now && s'.cache == s.cache && Carried(s.pg, s'.pg, job, start)
      && t in s'.threads && s'.threads[t] == AfterCommit(c, job)
  {
    assert Running(s, t) && TxOk(s, t);
    NewKeys(c, s, t);
    CommitCarries(s.pg, t, job);
  }

  /** From the point where everything is prepared to the point behind the commit. */
  lemma Transacts(c: Config, first: State, xs: seq<State>, ls: seq<Label>, t: nat, job: Job)
    returns (ys: seq<State>, ms: seq<Label>)
    requires ConfigOk(c) && Reaches(c, first, xs, ls)
    requires var s := xs[|xs| - 1]; t in s.threads && s.threads[t] == AtBegin(job) && Clear(s.pg, t, job)
    ensures Reaches(c, first, ys, ms)
    ensures var s, s' := xs[|xs| - 1], ys[|ys| - 1];
      && s'.now == s.now && s'.cache == s.cache && Carried(s.pg, s'.pg, job, s.now)
      && t in s'.threads && s'.threads[t] == AfterCommit(c, job)
  {
    var s := xs[|xs| - 1];
    ClearStays(s.pg, Begin(s.pg, t, s.now), t, job);
    ys, ms := Continue(c, first, xs, ls, BeginTx(t, false));
    ys, ms := ExecutesAll(c, first, ys, ms, t, job, 0, s.now);
    Commits(c, ys[|ys| - 1], t, job, s.now);
    ys, ms := Continue(c, first, ys, ms, CommitTx(t, false));
  }

  // ---------------------------------------------------------------- the cache

  /** The entry of the job's session, after the request has seen to it: written with the session's expiry as its
      deadline, or deleted. */
  predicate Seen(c: Config, before: map<string, Entry>, after: map<string, Entry>, job: Job) {
    match job
    case SignOutJob(ctx, _) => after == if c.cacheOn then before - {ctx.tokenHashHex} else before
    case _ =>
      var row := job.session;
      after ==
      if c.cacheOn then
        before[c.hex(row.tokenHash) :=
          Entry(c.enc(CachedSession(row.id, row.user, row.tenant, row.expiresAt)), Some(row.expiresAt))]
      else before
  }

  lemma Stores(c: Config, first: State, xs: seq<State>, ls: seq<Label>, t: nat, job: Job)
    returns (ys: seq<State>, ms: seq<Label>)
    requires ConfigOk(c) && Reaches(c, first, xs, ls) && c.cacheOn && !job.SignOutJob?
    requires var s := xs[|xs| - 1]; t in s.threads && s.threads[t] == AtTtl(job) && s.now < job.session.expiresAt
    ensures Reaches(c, first, ys, ms)
    ensures var s, s' := xs[|xs| - 1], ys[|ys| - 1];
      s'.pg == s.pg && Seen(c, s.cache, s'.cache, job) && t in s'.threads && s'.threads[t] == Done(Success(job))
  {
    ys, ms := Continue(c, first, xs, ls, ReadTtl(t));
    ys, ms := Continue(c, first, ys, ms, SetCache(t, false));
  }

  lemma Deletes(c: Config, first: State, xs: seq<State>, ls: seq<Label>, t: nat, job: Job)
    returns (ys: seq<State>, ms: seq<Label>)
    requires ConfigOk(c) && Reaches(c, first, xs, ls) && c.cacheOn && job.SignOutJob?
    requires var s := xs[|xs| - 1]; t in s.threads && s.threads[t] == AtDelete(job)
    ensures Reaches(c, first, ys, ms)
    ensures var s, s' := xs[|xs| - 1], ys[|ys| - 1];
      s'.pg == s.pg && Seen(c, s.cache, s'.cache, job) && t in s'.threads && s'.threads[t] == Done(SignedOut)
  {
    ys, ms := Continue(c, first, xs, ls, DeleteCache(t, false));
  }

  // ---------------------------------------------------------------- from the prepared job to the reply

  /** The request has succeeded, the job has been carried out in full, and its cache entry has been seen to. */
  ghost predicate Succeeds(c: Config, before: State, after: State, t: nat, job: Job) {
    && t in after.threads && after.threads[t] == Done(Success(job))
    && Carried(before.pg, after.pg, job, before.now) && Seen(c, before.cache, after.cache, job)
  }

  predicate LastsOn(job: Job, now: int) {
    match job
    case SignOutJob(ctx, _) => ctx.tokenHashHex != ""
    case _ => now < job.session.expiresAt
  }

  lemma Finishes(c: Config, first: State, xs: seq<State>, ls: seq<Label>, t: nat, job: Job)
    returns (ys: seq<State>, ms: seq<Label>)
    requires ConfigOk(c) && Reaches(c, first, xs, ls)
    requires var s := xs[|xs| - 1];
      t in s.threads && s.threads[t] == AtBegin(job) && Clear(s.pg, t, job) && LastsOn(job, s.now)
    ensures Reaches(c, first, ys, ms) && Succeeds(c, xs[|xs| - 1], ys[|ys| - 1], t, job)
  {
    ys, ms := Transacts(c, first, xs, ls, t, job);
    if c.cacheOn {
      if job.SignOutJob? {
        ys, ms := Deletes(c, first, ys, ms, t, job);
      } else {
        ys, ms := Stores(c, first, ys, ms, t, job);
      }
    }
  }

  // ---------------------------------------------------------------- the three use cases

  /** A path from `s` that begins with the step `l`, goes on calmly, and ends with the job carried out. */
  ghost predicate SucceedsBy(c: Config, s: State, l: Label, t: nat, job: Job, xs: seq<State>, ls: seq<Label>) {
    && Path(c, xs, ls) && |ls| > 0 && xs[0] == s && ls[0] == l && AllCalm(ls[1..])
    && Succeeds(c, s, xs[|xs| - 1], t, job)
  }

  /** The step `l` prepares the job of request `t`, and its statements can be executed. */
  ghost predicate Prepares(c: Config, s: State, l: Label, t: nat, job: Job) {
    Enabled(c, s, l)
    && Step(c, s, l) == Move(s, t, AtBegin(job)) && Clear(s.pg, t, job) && LastsOn(job, s.now)
  }

  lemma SucceedsFrom(c: Config, a: State, b: State, after: State, t: nat, job: Job)
    requires Succeeds(c, b, after, t, job) && b.now == a.now && b.pg == a.pg && b.cache == a.cache
    ensures Succeeds(c, a, after, t, job)
  {}

  lemma OneBefore(c: Config, s: State, l: Label, t: nat, job: Job, xs: seq<State>, ls: seq<Label>)
    requires Enabled(c, s, l) && Path(c, xs, ls) && xs[0] == Step(c, s, l) && AllCalm(ls)
    requires Succeeds(c, s, xs[|xs| - 1], t, job)
    ensures SucceedsBy(c, s, l, t, job, [s] + xs, [l] + ls)
  {
    PathCons(c, s, l, xs, ls);
    assert ([l] + ls)[1..] == ls && ([s] + xs)[|xs|] == xs[|xs| - 1];
  }

  lemma PreparedInv(c: Config, s: State, l: Label, t: nat, job: Job)
    requires ConfigOk(c) && Inv(c, s) && Prepares(c, s, l, t, job)
    ensures Inv(c, Move(s, t, AtBegin(job)))
  {
    Inductive.StepInv(c, s, l);
  }

  /** From the state where the job is prepared. */
  lemma WorksOff(c: Config, s: State, t: nat, job: Job) returns (xs: seq<State>, ls: seq<Label>)
    requires ConfigOk(c) && Inv(c, Move(s, t, AtBegin(job))) && Clear(s.pg, t, job) && LastsOn(job, s.now)
    ensures Path(c, xs, ls) && xs[0] == Move(s, t, AtBegin(job)) && AllCalm(ls)
    ensures Succeeds(c, s, xs[|xs| - 1], t, job)
  {
    var next := Move(s, t, AtBegin(job));
    xs, ls := Finishes(c, next, [next], [], t, job);
    SucceedsFrom(c, s, next, xs[|xs| - 1], t, job);
  }

  lemma Through(c: Config, s: State, l: Label, t: nat, job: Job)
    requires ConfigOk(c) && Inv(c, s) && Prepares(c, s, l, t, job)
    ensures exists xs, ls :: SucceedsBy(c, s, l, t, job, xs, ls)
  {
    PreparedInv(c, s, l, t, job);
    var xs, ls := WorksOff(c, s, t, job);
    OneBefore(c, s, l, t, job, xs, ls);
  }

  /** The job of a sign-in, spelled out. */
  function SignInWork(c: Config, now: int, input: Credentials, u: User, token: string, id: Uuid): Job {
    SignInJob(input, u, Session(id, u.tenant, u.id, c.sha(token), now, now + c.sessionTtl, None), token)
  }

  lemma SignInPrepares(c: Config, s: State, t: nat, token: string, id: Uuid)
    requires c.sessionTtl > 0 && t in s.threads && s.threads[t].AtToken?
    requires s.threads[t].account.tenant == s.threads[t].input.tenant
    requires 32 <= |token| <= 128 && id != NIL && FreeSession(s.pg, id, c.sha(token))
    ensures Prepares(c, s, NewToken(t, token, id, false), t,
      SignInWork(c, s.now, s.threads[t].input, s.threads[t].account, token, id))
  {
    SignInClear(s.pg, t, SignInWork(c, s.now, s.threads[t].input, s.threads[t].account, token, id));
  }

  /** An authenticated sign-in whose drawn token and session id nobody has can go on to its success: its row,
      event and entry are stored, and the token is issued for the configured time. */
  lemma SignInSucceeds(c: Config, s: State, t: nat, token: string, id: Uuid)
    requires ConfigOk(c) && Inv(c, s) && t in s.threads && s.threads[t].AtToken?
    requires 32 <= |token| <= 128 && id != NIL && FreeSession(s.pg, id, c.sha(token))
    ensures var job := SignInWork(c, s.now, s.threads[t].input, s.threads[t].account, token, id);
      && Success(job) == Issued(s.threads[t].account.id, token, s.now + c.sessionTtl)
      && exists xs, ls :: SucceedsBy(c, s, NewToken(t, token, id, false), t, job, xs, ls)
  {
    assert ThreadOk(c, s.pg, s.now, s.threads[t]);
    SignInPrepares(c, s, t, token, id);
    Through(c, s, NewToken(t, token, id, false), t,
      SignInWork(c, s.now, s.threads[t].input, s.threads[t].account, token, id));
  }

  /** A path on which request `t` arrives, finds its account, draws its token and goes on to its success. */
  ghost predicate SignsInBy(
      c: Config, s: State, t: nat, input: Credentials, u: User, token: string, id: Uuid,
      xs: seq<State>, ls: seq<Label>) {
    && Path(c, xs, ls) && |ls| > 2 && xs[0] == s && AllCalm(ls[1..])
    && ls[0] == ArriveSignIn(t, input) && ls[1] == Lookup(t, Row(u.id)) && ls[2] == NewToken(t, token, id, false)
    && Succeeds(c, s, xs[|xs| - 1], t, SignInWork(c, s.now, input, u, token, id))
  }

  /** The credentials are those of a stored account. */
  predicate Belong(c: Config, pg: Pg, input: Credentials, u: User) {
    && u.id in pg.users && pg.users[u.id] == u && u.tenant == input.tenant
    && c.normalise(input.email) == Some(u.email) && c.verify(u.passwordHash, input.password) == Some(true)
  }

  lemma Authenticates(c: Config, s: State, t: nat, input: Credentials, u: User)
    requires UsersOk(c, s.pg.users) && t !in s.threads && Belong(c, s.pg, input, u)
    ensures Enabled(c, s, ArriveSignIn(t, input))
    ensures var s1 := Move(s, t, AtLookup(input, u.email));
      s1 == Step(c, s, ArriveSignIn(t, input)) && Enabled(c, s1, Lookup(t, Row(u.id)))
      && Step(c, s1, Lookup(t, Row(u.id))) == Move(s, t, AtToken(input, u))
  {
    assert UserOk(c, s.pg.users[u.id]);
  }

  /** Two steps before a path whose labels are calm from the second on. */
  lemma TwoBefore(c: Config, s: State, a: Label, b: Label, xs: seq<State>, ls: seq<Label>)
    requires Enabled(c, s, a) && Enabled(c, Step(c, s, a), b) && xs != [] && xs[0] == Step(c, Step(c, s, a), b)
    requires Path(c, xs, ls) && |ls| > 0 && Calm(b) && Calm(ls[0]) && AllCalm(ls[1..])
    ensures Path(c, [s, Step(c, s, a)] + xs, [a, b] + ls) && AllCalm(([a, b] + ls)[1..])
  {
    var s1 := Step(c, s, a);
    PathCons(c, s1, b, xs, ls);
    PathCons(c, s, a, [s1] + xs, [b] + ls);
    assert [s] + ([s1] + xs) == [s, s1] + xs && [a] + ([b] + ls) == [a, b] + ls;
    var rest := ([a, b] + ls)[1..];
    forall i | 0 <= i < |rest| ensures Calm(rest[i]) {
      assert i > 1 ==> rest[i] == ls[1..][i - 2];
    }
  }

  /** The owner of an account can sign in, however many sessions it has. */
  lemma AccountSignsIn(c: Config, s: State, t: nat, input: Credentials, u: User, token: string, id: Uuid)
    requires ConfigOk(c) && Inv(c, s) && t !in s.threads && Belong(c, s.pg, input, u)
    requires 32 <= |token| <= 128 && id != NIL && FreeSession(s.pg, id, c.sha(token))
    ensures exists xs, ls :: SignsInBy(c, s, t, input, u, token, id, xs, ls)
  {
    Authenticates(c, s, t, input, u);
    var draw := NewToken(t, token, id, false);
    var s2 := Move(s, t, AtToken(input, u));
    AuthenticatedInv(c, s, t, input, u);
    SignInSucceeds(c, s2, t, token, id);
    var xs, ls :| SucceedsBy(c, s2, draw, t, SignInWork(c, s.now, input, u, token, id), xs, ls);
    SignsIn(c, s, t, input, u, token, id, xs, ls);
  }

  /** The path after authentication, with the two steps before it. */
  lemma Joins(
      c: Config, s: State, s1: State, t: nat, input: Credentials, u: User, token: string, id: Uuid,
      xs: seq<State>, ls: seq<Label>)
    requires Path(c, [s, s1] + xs, [ArriveSignIn(t, input), Lookup(t, Row(u.id))] + ls)
    requires AllCalm(([ArriveSignIn(t, input), Lookup(t, Row(u.id))] + ls)[1..])
    requires |ls| > 0 && ls[0] == NewToken(t, token, id, false) && xs != []
    requires Succeeds(c, s, xs[|xs| - 1], t, SignInWork(c, s.now, input, u, token, id))
    ensures exists ys, ms :: SignsInBy(c, s, t, input, u, token, id, ys, ms)
  {
    assert SignsInBy(c, s, t, input, u, token, id,
      [s, s1] + xs, [ArriveSignIn(t, input), Lookup(t, Row(u.id))] + ls);
    assert ([s, s1] + xs)[|xs| + 1] == xs[|xs| - 1];
  }

  lemma SignsIn(
      c: Config, s: State, t: nat, input: Credentials, u: User, token: string, id: Uuid,
      xs: seq<State>, ls: seq<Label>)
    requires UsersOk(c, s.pg.users) && t !in s.threads && Belong(c, s.pg, input, u)
    requires SucceedsBy(c, Move(s, t, AtToken(input, u)), NewToken(t, token, id, false), t,
      SignInWork(c, s.now, input, u, token, id), xs, ls)
    ensures exists ys, ms :: SignsInBy(c, s, t, input, u, token, id, ys, ms)
  {
    SucceedsFrom(c, s, xs[0], xs[|xs| - 1], t, SignInWork(c, s.now, input, u, token, id));
    Arrives(c, s, t, input, u, xs, ls);
    Joins(c, s, Move(s, t, AtLookup(input, u.email)), t, input, u, token, id, xs, ls);
  }

  lemma Arrives(c: Config, s: State, t: nat, input: Credentials, u: User, xs: seq<State>, ls: seq<Label>)
    requires UsersOk(c, s.pg.users) && t !in s.threads && Belong(c, s.pg, input, u)
    requires Path(c, xs, ls) && xs[0] == Move(s, t, AtToken(input, u))
    requires |ls| > 0 && Calm(ls[0]) && AllCalm(ls[1..])
    ensures var labels := [ArriveSignIn(t, input), Lookup(t, Row(u.id))] + ls;
      Path(c, [s, Move(s, t, AtLookup(input, u.email))] + xs, labels) && AllCalm(labels[1..])
  {
    Authenticates(c, s, t, input, u);
    TwoBefore(c, s, ArriveSignIn(t, input), Lookup(t, Row(u.id)), xs, ls);
  }

  lemma AuthenticatedInv(c: Config, s: State, t: nat, input: Credentials, u: User)
    requires ConfigOk(c) && Inv(c, s) && t !in s.threads && Belong(c, s.pg, input, u)
    ensures Inv(c, Move(s, t, AtToken(input, u)))
  {
    Authenticates(c, s, t, input, u);
    Inductive.StepInv(c, s, ArriveSignIn(t, input));
    Inductive.StepInv(c, Step(c, s, ArriveSignIn(t, input)), Lookup(t, Row(u.id)));
  }

  /** The job of a sign-up, spelled out. */
  function SignUpWork(c: Config, now: int, l: Label, email: string, hash: string): Job
    requires l.ArriveSignUp?
  {
    SignUpJob(
      l.input,
      User(l.user, l.input.tenant, email, hash, Active, now, now),
      Session(l.session, l.input.tenant, l.user, c.sha(l.token), now, now + c.sessionTtl, None),
      l.token)
  }

  /** A valid sign-up for an email that nobody in the tenant has. */
  predicate Welcome(c: Config, s: State, l: Label, email: string, hash: string) {
    && l.ArriveSignUp? && l.t !in s.threads && !l.fault && l.user != NIL && l.session != NIL
    && !l.input.tenant.IsZero() && c.normalise(l.input.email) == Some(email) && 12 <= |l.input.password| <= 256
    && c.hash(l.salt, l.input.password) == Some(hash) && 32 <= |l.token| <= 128
    && FreeUser(s.pg, l.user, l.input.tenant, email) && FreeSession(s.pg, l.session, c.sha(l.token))
  }

  /** A valid sign-up with a free email, ids and token can go on to its success. */
  lemma SignUpSucceeds(c: Config, s: State, l: Label, email: string, hash: string)
    requires ConfigOk(c) && Inv(c, s) && Welcome(c, s, l, email, hash)
    ensures var job := SignUpWork(c, s.now, l, email, hash);
      && Success(job) == Issued(l.user, l.token, s.now + c.sessionTtl)
      && exists xs, ls :: SucceedsBy(c, s, l, l.t, job, xs, ls)
  {
    var job := SignUpWork(c, s.now, l, email, hash);
    SignUpClear(s.pg, l.t, job);
    assert Prepares(c, s, l, l.t, job);
    Through(c, s, l, l.t, job);
  }

  /** A sign-out that the middleware let through and whose row nobody has locked can go on to its success: the
      row is revoked, the event written, the entry deleted. */
  lemma SignOutSucceeds(c: Config, s: State, t: nat)
    requires ConfigOk(c) && Inv(c, s) && t in s.threads && s.threads[t].Passed? && s.threads[t].route.SignOut?
    requires Unlocked(s.pg, s.threads[t].ctx.session)
    ensures var job := SignOutJob(s.threads[t].ctx, s.now);
      exists xs, ls :: SucceedsBy(c, s, Origin(t, true), t, job, xs, ls)
  {
    var ctx := s.threads[t].ctx;
    var job := SignOutJob(ctx, s.now);
    assert ThreadOk(c, s.pg, s.now, s.threads[t]);
    assert SessionOk(c, s.pg.sessions[ctx.session]);
    SignOutClear(s.pg, t, job);
    assert Prepares(c, s, Origin(t, true), t, job);
    Through(c, s, Origin(t, true), t, job);
  }
}
