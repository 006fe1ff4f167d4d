/** Use cases are all or nothing, leave no transaction open, and sign-out acts on one session only. */
module Outcomes {
  import opened Basics
  import opened Domain
  import opened Postgres
  import opened Protocol
  import opened Invariant
  import opened Runs
  import Acceptance

  // ---------------------------------------------------------------- all or nothing

  /** Did thread `t` commit a transaction within the first `n` steps? */
  predicate Committed(labels: seq<Label>, n: nat, t: nat)
    requires n <= |labels|
  {
    exists i :: 0 <= i < n && CommitsAs(labels[i], t)
  }

  predicate CommitsAs(l: Label, t: nat) {
    CommitsNow(l) && l.t == t
  }

  /** The program points behind a successful commit, among them the success replies of the use cases. */
  predicate BehindCommit(th: Thread) {
    th.AtTtl? || th.AtSet? || th.AtDelete? || (th.Done? && (th.reply.Issued? || th.reply.SignedOut?))
  }

  lemma StepBehindCommit(c: Config, s: State, l: Label)
    requires Enabled(c, s, l) && Moving(l)
    ensures l.t in Step(c, s, l).threads
    ensures BehindCommit(Step(c, s, l).threads[l.t]) <==>
      CommitsAs(l, l.t) || (l.t in s.threads && BehindCommit(s.threads[l.t]))
  {}

  /** A use case reports success if and only if its one transaction committed: a thread is behind its commit
      exactly when it committed, so every error reply leaves the tables as other requests made them. */
  lemma {:induction false} SuccessIffCommitted(c: Config, states: seq<State>, labels: seq<Label>, j: nat, t: nat)
    requires ConfigOk(c) && Run(c, states, labels) && j < |states|
    ensures Committed(labels, j, t) <==> t in states[j].threads && BehindCommit(states[j].threads[t])
  {
    if j > 0 {
      SuccessIffCommitted(c, states, labels, j - 1, t);
      var l := labels[j - 1];
      assert Committed(labels, j, t) <==> Committed(labels, j - 1, t) || CommitsAs(l, t);
      if Mover(l, t) {
        assert Moves(c, states, labels, j - 1);
        StepBehindCommit(c, states[j - 1], l);
      } else {
        StepFrame(c, states, labels, j - 1);
      }
    }
  }

  /** The tables after a job has been carried out in full, and nothing else. */
  predicate Carried(before: Pg, after: Pg, job: Job, start: int) {
    match job
    case SignUpJob(_, u, s, _) =>
      && u.id !in before.users && after.users == before.users[u.id := u]
      && s.id !in before.sessions && after.sessions == before.sessions[s.id := s]
      && after.outbox == before.outbox + [
           Event(u.tenant, u.id, UserCreated(u.id, u.tenant, u.email, u.createdAt), u.createdAt),
           Event(s.tenant, s.id, SessionCreated(s.id, s.user, s.tenant, s.createdAt), s.createdAt)]
    case SignInJob(_, _, s, _) =>
      && after.users == before.users
      && s.id !in before.sessions && after.sessions == before.sessions[s.id := s]
      && after.outbox == before.outbox + [
           Event(s.tenant, s.id, SessionCreated(s.id, s.user, s.tenant, s.createdAt), s.createdAt)]
    case SignOutJob(ctx, at) =>
      && after.users == before.users && ctx.session in before.sessions
      && var s := before.sessions[ctx.session];
      && after.sessions ==
           before.sessions[ctx.session := s.(revokedAt := if s.revokedAt.Some? then s.revokedAt else Some(start))]
      && after.outbox == before.outbox + [
           Event(ctx.tenant, ctx.session, SessionRevoked(ctx.session, ctx.user, ctx.tenant, at), at)]
  }

  lemma CommitCarries(pg: Pg, t: nat, job: Job)
    requires t in pg.open && Staged(job, |Statements(job)|, pg.open[t]) && Fresh(pg, pg.open[t])
    requires pg.open[t].users.Keys !! pg.users.Keys && pg.open[t].sessions.Keys !! pg.sessions.Keys
    ensures Carried(pg, Commit(pg, t), job, pg.open[t].start)
  {
    var tx, after := pg.open[t], Commit(pg, t);
    match job
    case SignUpJob(_, u, row, _) =>
      assert u.id in tx.users && row.id in tx.sessions;
      assert after.sessions == pg.sessions[row.id := row];
    case SignInJob(_, _, row, _) =>
      assert row.id in tx.sessions;
      assert after.sessions == pg.sessions[row.id := row];
    case SignOutJob(ctx, _) =>
      assert ctx.session in tx.revoked;
  }

  /** A successful commit carries out the whole write set of its use case at once, on rows that are new. */
  lemma CommitWritesAll(c: Config, states: seq<State>, labels: seq<Label>, i: nat)
    requires ConfigOk(c) && Run(c, states, labels) && i < |labels| && CommitsNow(labels[i])
    ensures labels[i].t in states[i].threads && states[i].threads[labels[i].t].AtExec?
      && labels[i].t in states[i].pg.open
    ensures var t := labels[i].t;
      Carried(states[i].pg, states[i + 1].pg, states[i].threads[t].job, states[i].pg.open[t].start)
  {
    RunCommit(c, states, labels, i);
    CommitCarries(states[i].pg, labels[i].t, states[i].threads[labels[i].t].job);
  }

  /** The start of an open transaction, which a sign-out writes as the revocation, is the clock value of the
      step that began it. */
  lemma {:induction false} TransactionStart(c: Config, states: seq<State>, labels: seq<Label>, j: nat, t: nat)
    returns (k: nat)
    requires ConfigOk(c) && Run(c, states, labels) && j < |states| && Running(states[j], t) && t in states[j].pg.open
    ensures k < j && labels[k] == BeginTx(t, false) && states[k].now == states[j].pg.open[t].start
  {
    k := 0;
    if j > 0 {
      if !Mover(labels[j - 1], t) {
        StepFrame(c, states, labels, j - 1);
        k := TransactionStart(c, states, labels, j - 1, t);
      } else {
        assert Moves(c, states, labels, j - 1);
        if labels[j - 1].BeginTx? {
          k := j - 1;
        } else {
          StartStays(c, states[j - 1], labels[j - 1], t);
          k := TransactionStart(c, states, labels, j - 1, t);
        }
      }
    }
  }

  lemma StartStays(c: Config, s: State, l: Label, t: nat)
    requires Enabled(c, s, l) && Mover(l, t) && !l.BeginTx? && Running(Step(c, s, l), t) && t in Step(c, s, l).pg.open
    ensures Running(s, t) && t in s.pg.open && Step(c, s, l).pg.open[t].start == s.pg.open[t].start
  {}

  /** A thread commits at most once. */
  lemma CommitsOnce(c: Config, states: seq<State>, labels: seq<Label>, i: nat, k: nat, t: nat)
    requires ConfigOk(c) && Run(c, states, labels) && i < k < |labels|
    requires CommitsAs(labels[i], t)
    ensures !CommitsAs(labels[k], t)
  {
    SuccessIffCommitted(c, states, labels, k, t);
    assert CommitsAs(labels[i], t);
    if CommitsAs(labels[k], t) {
      StepFrame(c, states, labels, k);
    }
  }

  /** What one step of a thread that is not behind a commit can do to tables and cache. */
  lemma StepBeforeCommit(c: Config, s: State, l: Label)
    requires Enabled(c, s, l) && Moving(l) && !CommitsAs(l, l.t)
    requires l.t in s.threads ==> !BehindCommit(s.threads[l.t])
    ensures var s' := Step(c, s, l);
      s'.pg.users == s.pg.users && s'.pg.sessions == s.pg.sessions && s'.pg.outbox == s.pg.outbox
      && (s'.cache == s.cache || l.Repopulate?)
  {}

  /** A request that ends with an error, or is still before its commit, has changed no table and, apart from
      repopulating the cache with the row that authenticated it, no cache entry: not with any of its steps. */
  lemma FailureLeavesNoTrace(c: Config, states: seq<State>, labels: seq<Label>, j: nat, t: nat, i: nat)
    requires ConfigOk(c) && Run(c, states, labels) && i < j < |states|
    requires t in states[j].threads && !BehindCommit(states[j].threads[t])
    requires Mover(labels[i], t)
    ensures var s, s' := states[i], states[i + 1];
      s'.pg.users == s.pg.users && s'.pg.sessions == s.pg.sessions && s'.pg.outbox == s.pg.outbox
      && (s'.cache == s.cache || labels[i].Repopulate?)
  {
    SuccessIffCommitted(c, states, labels, j, t);
    SuccessIffCommitted(c, states, labels, i, t);
    assert !CommitsAs(labels[i], t);
    assert !Committed(labels, i, t);
    assert Moves(c, states, labels, i);
    StepBeforeCommit(c, states[i], labels[i]);
  }

  /** When a request is over, its transaction is closed, however it ended. */
  lemma NoTransactionLeftOpen(c: Config, states: seq<State>, labels: seq<Label>, j: nat, t: nat)
    requires ConfigOk(c) && Run(c, states, labels) && j < |states|
    requires t in states[j].threads && states[j].threads[t].Done?
    ensures t !in states[j].pg.open
  {
    RunInv(c, states, labels, j);
  }

  // ---------------------------------------------------------------- sign-out

  /** The job of a sign-out keeps the context that the session middleware had put there. */
  lemma {:induction false} SignOutContext(c: Config, states: seq<State>, labels: seq<Label>, j: nat, t: nat)
      returns (k: nat)
    requires ConfigOk(c) && Run(c, states, labels) && j < |states| && t in states[j].threads
    requires HasJob(states[j].threads[t]) && states[j].threads[t].job.SignOutJob?
    ensures k < j && t in states[k].threads && states[k].threads[t].Passed? && states[k].threads[t].route.SignOut?
    ensures states[k].threads[t].ctx == states[j].threads[t].job.ctx
  {
    k := 0;
    if j > 0 {
      if Mover(labels[j - 1], t) {
        assert Moves(c, states, labels, j - 1);
        StepJob(c, states[j - 1], labels[j - 1]);
        if states[j - 1].threads[t].Passed? {
          k := j - 1;
        } else {
          k := SignOutContext(c, states, labels, j - 1, t);
        }
      } else {
        StepFrame(c, states, labels, j - 1);
        k := SignOutContext(c, states, labels, j - 1, t);
      }
    }
  }

  predicate HasJob(th: Thread) {
    th.AtBegin? || th.AtExec? || th.AtRollback? || th.AtTtl? || th.AtSet? || th.AtDelete?
  }

  lemma StepJob(c: Config, s: State, l: Label)
    requires Enabled(c, s, l) && Moving(l)
    requires var th := Step(c, s, l).threads[l.t]; HasJob(th) && th.job.SignOutJob?
    ensures l.t in s.threads
    ensures var th, th' := s.threads[l.t], Step(c, s, l).threads[l.t];
      (HasJob(th) && th.job == th'.job) || (th.Passed? && th.route.SignOut? && th'.job.ctx == th.ctx)
  {}

  /** What sign-out does for a context names one committed session throughout. */
  predicate HitsOwnSession(c: Config, pg: Pg, t: nat, th: Thread)
    requires HasJob(th) && th.job.SignOutJob?
  {
    var ctx, at := th.job.ctx, th.job.at;
    ctx.session in pg.sessions
    && var row := pg.sessions[ctx.session];
    && Statements(th.job) == [Revoke(row.tenant, row.id), Write(SessionRevokedEvent(ctx, at))]
    && SessionRevokedEvent(ctx, at) == Event(row.tenant, row.id, SessionRevoked(row.id, row.user, row.tenant, at), at)
    && ctx.tokenHashHex == c.hex(row.tokenHash)
    && (t in pg.open ==> OutcomeOf(pg, t, Statements(th.job)[0]) == Applied)
    && (BehindCommit(th) ==> row.revokedAt.Some?)
  }

  lemma ContextHits(c: Config, pg: Pg, now: int, t: nat, th: Thread)
    requires ThreadOk(c, pg, now, th) && HasJob(th) && th.job.SignOutJob?
    requires forall id :: id in pg.sessions ==> pg.sessions[id].id == id
    ensures HitsOwnSession(c, pg, t, th)
  {}

  /** Whatever way the request was authenticated: the row sign-out revokes, the aggregate, user and tenant
      of its event and the key it deletes all belong to one committed session; its guard never fires, the
      statement that revokes always finds its row, and after the commit that very row is revoked. */
  lemma SignOutHitsItsSession(c: Config, states: seq<State>, labels: seq<Label>, j: nat, t: nat)
    requires ConfigOk(c) && Run(c, states, labels) && j < |states| && t in states[j].threads
    ensures var s, th := states[j], states[j].threads[t];
      && (th.Passed? ==> SignOutStart(s.now, th.ctx) == AtBegin(SignOutJob(th.ctx, s.now)))
      && (HasJob(th) && th.job.SignOutJob? ==> HitsOwnSession(c, s.pg, t, th))
  {
    RunInv(c, states, labels, j);
    var s, th := states[j], states[j].threads[t];
    Acceptance.ThreadKnows(c, states, labels, j, t);
    if HasJob(th) && th.job.SignOutJob? {
      ContextHits(c, s.pg, s.now, t, th);
    } else if th.Passed? {
      assert SessionOk(c, s.pg.sessions[th.ctx.session]);
    }
  }

  // ---------------------------------------------------------------- the authenticated user

  /** `get_me` behind the middleware finds the user of the session, in the tenant of the session, active
      and with an email that still validates; it never takes its not-found branch. */
  lemma AuthenticatedUserExists(c: Config, states: seq<State>, labels: seq<Label>, j: nat, t: nat, a: Answer)
    requires ConfigOk(c) && Run(c, states, labels) && j < |states|
    requires t in states[j].threads && states[j].threads[t].Passed? && states[j].threads[t].route.GetMe?
    requires Enabled(c, states[j], LoadProfile(t, a)) && !a.Fault?
    ensures var ctx, s' := states[j].threads[t].ctx, Step(c, states[j], LoadProfile(t, a));
      && s'.threads[t].Done? && s'.threads[t].reply.Profile?
      && var u := s'.threads[t].reply.profile;
      u.id == ctx.user && u.tenant == ctx.tenant && u.status.Active? && c.normalise(u.email) == Some(u.email)
  {
    RunInv(c, states, labels, j);
    Acceptance.ThreadKnows(c, states, labels, j, t);
    var ctx := states[j].threads[t].ctx;
    assert OwnerOk(states[j].pg.users, states[j].pg.sessions[ctx.session]);
  }
}
