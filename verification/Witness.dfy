/** A run in which a session is signed out, its cache entry deleted without error, and the session served
    afterwards: the sign-up that created it had not yet written its entry. */
module Witness {
  import opened Basics
  import opened Domain
  import opened Postgres
  import opened Protocol
  import opened Invariant
  import opened Runs
  import Revocation
  import opened Serving

  /** Request 0 is a sign-up that passes all its checks. */
  predicate Fits(c: Config, now: int, l: Label, job: Job) {
    l.ArriveSignUp? && l.t == 0 && l.user != NIL && l.session != NIL && SignUpStart(c, now, l) == AtBegin(job)
  }

  lemma FitsWhenValid(c: Config, now: int, l: Label) returns (job: Job)
    requires l.ArriveSignUp? && l.t == 0 && l.user != NIL && l.session != NIL && !l.fault
    requires !l.input.tenant.IsZero() && c.normalise(l.input.email).Some? && PasswordPolicy(l.input.password)
    requires c.hash(l.salt, l.input.password).Some? && TokenValid(l.token)
    ensures Fits(c, now, l, job) && job.SignUpJob? && job.session.expiresAt == now + c.sessionTtl
  {
    job := SignUpStart(c, now, l).job;
  }

  function Empty(now: int): State {
    State(now, EMPTY, map[], map[])
  }

  function Tables(job: Job, row: Session): Pg
    requires job.SignUpJob?
  {
    Pg(map[job.newUser.id := job.newUser], map[row.id := row],
       [UserCreatedEvent(job.newUser), SessionCreatedEvent(job.session)], map[])
  }

  /** The sign-up has committed and is about to compute the TTL of its entry. */
  function SignedUp(now: int, job: Job): State
    requires job.SignUpJob?
  {
    State(now, Tables(job, job.session), map[], map[0 := AtTtl(job)])
  }

  function Begun(now: int, job: Job, done: nat, tx: Tx): State {
    State(now, EMPTY.(open := map[0 := tx]), map[], map[0 := AtExec(job, done)])
  }

  lemma Start(c: Config, now: int, l: Label, job: Job) returns (xs: seq<State>, ls: seq<Label>)
    requires Fits(c, now, l, job)
    ensures Path(c, xs, ls) && xs[0] == Empty(now)
    ensures xs[|xs| - 1] == Begun(now, job, 0, Tx(now, map[], map[], map[], []))
  {
    xs, ls := [Empty(now)], [];
    xs, ls := Advance(c, xs, ls, l);
    xs, ls := Advance(c, xs, ls, BeginTx(0, false));
  }

  /** One statement of the only open transaction. */
  lemma Executes(c: Config, xs: seq<State>, ls: seq<Label>, t: nat) returns (ys: seq<State>, ms: seq<Label>)
    requires Path(c, xs, ls)
    requires var s := xs[|xs| - 1];
      && Running(s, t) && s.pg.open.Keys == {t} && s.threads[t].done < |Statements(s.threads[t].job)|
      && OutcomeOf(s.pg, t, Statements(s.threads[t].job)[s.threads[t].done]) == Applied
    ensures Path(c, ys, ms) && ys[0] == xs[0]
    ensures var s := xs[|xs| - 1]; var th := s.threads[t];
      ys[|ys| - 1] == Move(s, t, AtExec(th.job, th.done + 1)).(pg := Exec(s.pg, t, Statements(th.job)[th.done]))
  {
    assert !Blocked(xs[|xs| - 1].pg, t, Statements(xs[|xs| - 1].threads[t].job)[xs[|xs| - 1].threads[t].done]);
    ys, ms := Advance(c, xs, ls, ExecTx(t, false));
  }

  lemma Insert(c: Config, now: int, l: Label, job: Job) returns (xs: seq<State>, ls: seq<Label>)
    requires Fits(c, now, l, job)
    ensures Path(c, xs, ls) && xs[0] == Empty(now)
    ensures xs[|xs| - 1] == Begun(now, job, 2,
      Tx(now, map[job.newUser.id := job.newUser], map[job.session.id := job.session], map[], []))
  {
    xs, ls := Start(c, now, l, job);
    xs, ls := Executes(c, xs, ls, 0);
    xs, ls := Executes(c, xs, ls, 0);
  }

  lemma Announce(c: Config, now: int, l: Label, job: Job) returns (xs: seq<State>, ls: seq<Label>)
    requires Fits(c, now, l, job)
    ensures Path(c, xs, ls) && xs[0] == Empty(now)
    ensures xs[|xs| - 1] == Begun(now, job, 4,
      Tx(now, map[job.newUser.id := job.newUser], map[job.session.id := job.session], map[],
         [UserCreatedEvent(job.newUser), SessionCreatedEvent(job.session)]))
  {
    var e1, e2 := UserCreatedEvent(job.newUser), SessionCreatedEvent(job.session);
    xs, ls := Insert(c, now, l, job);
    xs, ls := Executes(c, xs, ls, 0);
    assert [] + [e1] == [e1] && [e1] + [e2] == [e1, e2];
    xs, ls := Executes(c, xs, ls, 0);
  }

  lemma SignUpCommits(c: Config, now: int, l: Label, job: Job) returns (xs: seq<State>, ls: seq<Label>)
    requires c.cacheOn && Fits(c, now, l, job)
    ensures Path(c, xs, ls) && xs[0] == Empty(now) && xs[|xs| - 1] == SignedUp(now, job)
  {
    xs, ls := Announce(c, now, l, job);
    xs, ls := Advance(c, xs, ls, CommitTx(0, false));
  }

  // ---------------------------------------------------------------- the sign-out

  function ContextFor(c: Config, job: Job): Ctx
    requires !job.SignOutJob?
  {
    CtxOf(c, job.token, PayloadOf(job.session))
  }

  /** Request 1 is inside the sign-out route, the sign-up waits. */
  function Beside(s: State, th: Thread): State {
    Move(s, 1, th)
  }

  lemma Enters(c: Config, now: int, job: Job, xs: seq<State>, ls: seq<Label>) returns (ys: seq<State>, ms: seq<Label>)
    requires c.cacheOn && job.SignUpJob? && job.token != "" && job.session.tokenHash == c.sha(job.token)
    requires Path(c, xs, ls) && xs[|xs| - 1] == SignedUp(now, job)
    ensures Path(c, ys, ms) && ys[0] == xs[0]
    ensures ys[|ys| - 1] == Beside(SignedUp(now, job), AtCheck(job.token, SignOut, job.session))
  {
    ys, ms := Advance(c, xs, ls, Arrive(1, job.token, SignOut));
    ys, ms := Advance(c, ys, ms, Probe(1, false));
    ys, ms := Advance(c, ys, ms, Find(1, Row(job.session.id)));
  }

  lemma Passes(c: Config, now: int, job: Job, xs: seq<State>, ls: seq<Label>) returns (ys: seq<State>, ms: seq<Label>)
    requires c.cacheOn && job.SignUpJob? && job.session.IsActive(now)
    requires Path(c, xs, ls) && xs[|xs| - 1] == Beside(SignedUp(now, job), AtCheck(job.token, SignOut, job.session))
    ensures Path(c, ys, ms) && ys[0] == xs[0]
    ensures ys[|ys| - 1] ==
      Beside(SignedUp(now, job), Passed(ContextFor(c, job), SignOut, FromRow(job.session, now)))
  {
    ys, ms := Advance(c, xs, ls, Check(1));
    ys, ms := Advance(c, ys, ms, Until(1));
    ys, ms := Advance(c, ys, ms, Repopulate(1, true));
  }

  /** The sign-out has begun its transaction and executed `done` statements. */
  function SigningOut(now: int, job: Job, out: Job, done: nat, tx: Tx): State
    requires job.SignUpJob?
  {
    Beside(SignedUp(now, job), AtExec(out, done)).(pg := Tables(job, job.session).(open := map[1 := tx]))
  }

  lemma Begins(c: Config, now: int, job: Job, xs: seq<State>, ls: seq<Label>) returns (ys: seq<State>, ms: seq<Label>)
    requires job.SignUpJob? && !job.session.tenant.IsZero() && job.session.id != NIL && Path(c, xs, ls)
    requires xs[|xs| - 1] ==
      Beside(SignedUp(now, job), Passed(ContextFor(c, job), SignOut, FromRow(job.session, now)))
    ensures Path(c, ys, ms) && ys[0] == xs[0]
    ensures ys[|ys| - 1] ==
      SigningOut(now, job, SignOutJob(ContextFor(c, job), now), 0, Tx(now, map[], map[], map[], []))
  {
    ys, ms := Advance(c, xs, ls, Origin(1, true));
    ys, ms := Advance(c, ys, ms, BeginTx(1, false));
  }

  lemma Revokes(c: Config, now: int, job: Job, xs: seq<State>, ls: seq<Label>) returns (ys: seq<State>, ms: seq<Label>)
    requires job.SignUpJob? && job.session.revokedAt.None? && Path(c, xs, ls)
    requires xs[|xs| - 1] ==
      SigningOut(now, job, SignOutJob(ContextFor(c, job), now), 0, Tx(now, map[], map[], map[], []))
    ensures Path(c, ys, ms) && ys[0] == xs[0]
    ensures ys[|ys| - 1] ==
      SigningOut(now, job, SignOutJob(ContextFor(c, job), now), 2,
        Tx(now, map[], map[], map[job.session.id := now], [SessionRevokedEvent(ContextFor(c, job), now)]))
  {
    var e := SessionRevokedEvent(ContextFor(c, job), now);
    ys, ms := Executes(c, xs, ls, 1);
    assert [] + [e] == [e];
    ys, ms := Executes(c, ys, ms, 1);
  }

  lemma Deletes(c: Config, now: int, job: Job, xs: seq<State>, ls: seq<Label>) returns (ys: seq<State>, ms: seq<Label>)
    requires c.cacheOn && job.SignUpJob? && c.hex(c.sha(job.token)) != "" && Path(c, xs, ls)
    requires xs[|xs| - 1] ==
      SigningOut(now, job, SignOutJob(ContextFor(c, job), now), 2,
        Tx(now, map[], map[], map[job.session.id := now], [SessionRevokedEvent(ContextFor(c, job), now)]))
    ensures Path(c, ys, ms) && ys[0] == xs[0] && |ms| > 0 && ms[|ms| - 1] == DeleteCache(1, false)
    ensures var last := ys[|ys| - 1];
      && Revoked(last.pg, job.session.id) && last.pg.sessions[job.session.id] == job.session.(revokedAt := Some(now))
      && last.now == now && last.cache == map[] && last.threads == map[0 := AtTtl(job), 1 := Done(SignedOut)]
  {
    ys, ms := Advance(c, xs, ls, CommitTx(1, false));
    ys, ms := Advance(c, ys, ms, DeleteCache(1, false));
  }

  /** A run that ends with the successful delete of the entry of a committed sign-out, after which the key is
      absent and yet a later request with the token is let through. */
  ghost predicate ServedAfterDelete(c: Config, xs: seq<State>, ls: seq<Label>, id: Uuid, token: string) {
    && Run(c, xs, ls) && |ls| > 0 && ls[|ls| - 1].DeleteCache? && !ls[|ls| - 1].fault
    && var last := xs[|xs| - 1];
    && Revoked(last.pg, id) && last.pg.sessions[id].tokenHash == c.sha(token) && c.hex(c.sha(token)) !in last.cache
    && ServedLater(c, last, token)
  }

  lemma SignOutRun(c: Config, now: int, l: Label, job: Job) returns (xs: seq<State>, ls: seq<Label>)
    requires ConfigOk(c) && c.cacheOn && Fits(c, now, l, job)
    ensures Run(c, xs, ls) && |ls| > 0 && ls[|ls| - 1] == DeleteCache(1, false)
    ensures var last := xs[|xs| - 1];
      && Revoked(last.pg, job.session.id) && last.pg.sessions[job.session.id] == job.session.(revokedAt := Some(now))
      && last.now == now && last.cache == map[] && last.threads == map[0 := AtTtl(job), 1 := Done(SignedOut)]
  {
    xs, ls := SignUpCommits(c, now, l, job);
    xs, ls := Enters(c, now, job, xs, ls);
    xs, ls := Passes(c, now, job, xs, ls);
    xs, ls := Begins(c, now, job, xs, ls);
    xs, ls := Revokes(c, now, job, xs, ls);
    xs, ls := Deletes(c, now, job, xs, ls);
  }

  /** Every sign-up whose payload decodes begins such a run: it commits, its session is signed out and the
      delete succeeds before it writes its own entry, and then it does. */
  lemma DeleteIsNotEnough(c: Config, now: int, l: Label, job: Job)
    requires ConfigOk(c) && c.cacheOn && Fits(c, now, l, job) && c.dec(c.enc(PayloadOf(job.session))).Some?
    ensures exists xs, ls :: ServedAfterDelete(c, xs, ls, job.session.id, job.token)
  {
    var xs, ls := SignOutRun(c, now, l, job);
    var last := xs[|xs| - 1];
    RunInv(c, xs, ls, |ls|);
    assert Revocation.CanWrite(last.now, last.threads[0], job.session.tokenHash);
    ServedAgainIff(c, last, job.session.id, job.token);
    assert ServedAfterDelete(c, xs, ls, job.session.id, job.token);
  }
}
