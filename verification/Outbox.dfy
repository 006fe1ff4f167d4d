/** The transactional outbox: every committed fact has exactly its event, in every reachable state. */
module Outbox {
  import opened Domain
  import opened Postgres
  import opened Protocol
  import opened Invariant
  import opened Runs

  datatype Topic = OfUser(id: Uuid) | OfSession(id: Uuid) | OfRevocation(id: Uuid)

  function TopicOf(e: Event): Topic {
    match e.payload
    case UserCreated(_, _, _, _) => OfUser(e.aggregate)
    case SessionCreated(_, _, _, _) => OfSession(e.aggregate)
    case SessionRevoked(_, _, _, _) => OfRevocation(e.aggregate)
  }

  function Count(outbox: seq<Event>, topic: Topic): nat {
    if outbox == [] then 0
    else
      var n := |outbox| - 1;
      Count(outbox[..n], topic) + (if TopicOf(outbox[n]) == topic then 1 else 0)
  }

  lemma CountOne(outbox: seq<Event>, e: Event, topic: Topic)
    ensures Count(outbox + [e], topic) == Count(outbox, topic) + (if TopicOf(e) == topic then 1 else 0)
  {
    assert (outbox + [e])[..|outbox|] == outbox;
  }

  lemma CountTwo(outbox: seq<Event>, e1: Event, e2: Event, topic: Topic)
    ensures Count(outbox + [e1, e2], topic) ==
      Count(outbox, topic) + (if TopicOf(e1) == topic then 1 else 0) + (if TopicOf(e2) == topic then 1 else 0)
  {
    CountOne(outbox, e1, topic);
    CountOne(outbox + [e1], e2, topic);
    assert outbox + [e1, e2] == outbox + [e1] + [e2];
  }

  /** The events a finished job adds, topic by topic. */
  lemma CountJob(outbox: seq<Event>, job: Job, topic: Topic)
    ensures Count(outbox + StagedEvents(job, |Statements(job)|), topic) == Count(outbox, topic) + Added(job, topic)
  {
    match job
    case SignUpJob(_, u, s, _) => CountTwo(outbox, UserCreatedEvent(u), SessionCreatedEvent(s), topic);
    case SignInJob(_, _, s, _) => CountOne(outbox, SessionCreatedEvent(s), topic);
    case SignOutJob(ctx, at) => CountOne(outbox, SessionRevokedEvent(ctx, at), topic);
  }

  function Added(job: Job, topic: Topic): nat {
    match job
    case SignUpJob(_, u, s, _) => if topic == OfUser(u.id) || topic == OfSession(s.id) then 1 else 0
    case SignInJob(_, _, s, _) => if topic == OfSession(s.id) then 1 else 0
    case SignOutJob(ctx, _) => if topic == OfRevocation(ctx.session) then 1 else 0
  }

  /** The event tells what the tables say: all its data are those of one row. */
  predicate Faithful(pg: Pg, e: Event) {
    match e.payload
    case UserCreated(id, _, _, _) =>
      id in pg.users
      && var u := pg.users[id];
      e == Event(u.tenant, u.id, UserCreated(u.id, u.tenant, u.email, u.createdAt), u.createdAt)
    case SessionCreated(id, _, _, _) =>
      id in pg.sessions
      && var s := pg.sessions[id];
      e == Event(s.tenant, s.id, SessionCreated(s.id, s.user, s.tenant, s.createdAt), s.createdAt)
    case SessionRevoked(id, _, _, at) =>
      id in pg.sessions
      && var s := pg.sessions[id];
      e == Event(s.tenant, s.id, SessionRevoked(s.id, s.user, s.tenant, at), at) && s.revokedAt.Some?
  }

  ghost predicate Balanced(pg: Pg) {
    && (forall id :: Count(pg.outbox, OfUser(id)) == if id in pg.users then 1 else 0)
    && (forall id :: Count(pg.outbox, OfSession(id)) == if id in pg.sessions then 1 else 0)
    && (forall id :: Count(pg.outbox, OfRevocation(id)) > 0 <==> Revoked(pg, id))
    && (forall i :: 0 <= i < |pg.outbox| ==> Faithful(pg, pg.outbox[i]))
  }

  lemma CommitCounts(pg: Pg, t: nat, job: Job, topic: Topic)
    requires t in pg.open && Staged(job, |Statements(job)|, pg.open[t])
    ensures Count(Commit(pg, t).outbox, topic) == Count(pg.outbox, topic) + Added(job, topic)
  {
    CountJob(pg.outbox, job, topic);
  }

  lemma FaithfulStable(a: Pg, b: Pg, e: Event)
    requires Faithful(a, e) && (forall id :: id in a.users ==> id in b.users && b.users[id] == a.users[id])
    requires forall id :: id in a.sessions ==> id in b.sessions && Later(a.sessions[id], b.sessions[id])
    ensures Faithful(b, e)
  {}

  /** What is staged by a finished job, with keys that are free or rows that exist. */
  ghost predicate Ready(pg: Pg, t: nat, job: Job) {
    && t in pg.open && Staged(job, |Statements(job)|, pg.open[t])
    && pg.open[t].users.Keys !! pg.users.Keys
    && pg.open[t].sessions.Keys !! pg.sessions.Keys
    && pg.open[t].revoked.Keys <= pg.sessions.Keys
  }

  /** The data of the job are those of the rows it concerns. */
  predicate Describes(pg: Pg, job: Job) {
    match job
    case SignUpJob(_, u, row, _) =>
      row.user == u.id && row.tenant == u.tenant && row.createdAt == u.createdAt && row.revokedAt.None?
    case SignInJob(_, _, row, _) => row.revokedAt.None?
    case SignOutJob(ctx, _) =>
      ctx.session in pg.sessions && pg.sessions[ctx.session].id == ctx.session
      && pg.sessions[ctx.session].user == ctx.user
      && pg.sessions[ctx.session].tenant == ctx.tenant
  }

  /** The events of a committing job describe the rows it commits. */
  lemma NewEventsFaithful(pg: Pg, t: nat, job: Job, i: nat)
    requires Ready(pg, t, job) && i < |pg.open[t].events|
    requires Describes(pg, job)
    ensures Faithful(Commit(pg, t), pg.open[t].events[i])
  {
    if job.SignOutJob? {
      CommitRow(pg, t, job.ctx.session);
    } else {
      assert Commit(pg, t).sessions[job.session.id] == job.session;
    }
  }

  /** The rows and revocations a commit adds are exactly those its job counts. */
  lemma CommitRows(pg: Pg, t: nat, job: Job, id: Uuid)
    requires Ready(pg, t, job)
    ensures var after := Commit(pg, t);
      && (id in after.users <==> id in pg.users || Added(job, OfUser(id)) > 0)
      && (id in after.sessions <==> id in pg.sessions || Added(job, OfSession(id)) > 0)
      && (id in pg.users ==> Added(job, OfUser(id)) == 0)
      && (id in pg.sessions ==> Added(job, OfSession(id)) == 0)
  {}

  lemma CommitRevokes(pg: Pg, t: nat, job: Job, id: Uuid)
    requires Ready(pg, t, job)
    requires !job.SignOutJob? ==> job.session.revokedAt.None?
    ensures Revoked(Commit(pg, t), id) <==> Revoked(pg, id) || Added(job, OfRevocation(id)) > 0
  {
    var tx := pg.open[t];
    assert id in tx.sessions ==> Commit(pg, t).sessions[id] == tx.sessions[id];
    assert id in pg.sessions ==> Commit(pg, t).sessions[id] == Revised(pg.sessions, tx.revoked)[id];
  }

  lemma CountsBalanced(pg: Pg, t: nat, job: Job, id: Uuid)
    requires Ready(pg, t, job) && Balanced(pg)
    requires !job.SignOutJob? ==> job.session.revokedAt.None?
    ensures var after := Commit(pg, t);
      && Count(after.outbox, OfUser(id)) == (if id in after.users then 1 else 0)
      && Count(after.outbox, OfSession(id)) == (if id in after.sessions then 1 else 0)
      && (Count(after.outbox, OfRevocation(id)) > 0 <==> Revoked(after, id))
  {
    CommitCounts(pg, t, job, OfUser(id));
    CommitCounts(pg, t, job, OfSession(id));
    CommitCounts(pg, t, job, OfRevocation(id));
    CommitRows(pg, t, job, id);
    CommitRevokes(pg, t, job, id);
  }

  lemma CommitFaithful(pg: Pg, t: nat, job: Job)
    requires Ready(pg, t, job) && Describes(pg, job) && Extends(pg, Commit(pg, t))
    requires forall i :: 0 <= i < |pg.outbox| ==> Faithful(pg, pg.outbox[i])
    ensures var after := Commit(pg, t); forall i :: 0 <= i < |after.outbox| ==> Faithful(after, after.outbox[i])
  {
    var after := Commit(pg, t);
    forall i | 0 <= i < |after.outbox| ensures Faithful(after, after.outbox[i]) {
      if i < |pg.outbox| {
        FaithfulStable(pg, after, pg.outbox[i]);
      } else {
        NewEventsFaithful(pg, t, job, i - |pg.outbox|);
      }
    }
  }

  lemma CommitBalanced(pg: Pg, t: nat, job: Job)
    requires Ready(pg, t, job) && Describes(pg, job) && Balanced(pg) && Extends(pg, Commit(pg, t))
    ensures Balanced(Commit(pg, t))
  {
    var after := Commit(pg, t);
    forall id
      ensures Count(after.outbox, OfUser(id)) == if id in after.users then 1 else 0
      ensures Count(after.outbox, OfSession(id)) == if id in after.sessions then 1 else 0
      ensures Count(after.outbox, OfRevocation(id)) > 0 <==> Revoked(after, id)
    {
      CountsBalanced(pg, t, job, id);
    }
    CommitFaithful(pg, t, job);
  }

  lemma BalancedSame(a: Pg, b: Pg)
    requires Balanced(a) && a.users == b.users && a.sessions == b.sessions && a.outbox == b.outbox
    ensures Balanced(b)
  {
    forall i | 0 <= i < |b.outbox| ensures Faithful(b, b.outbox[i]) {
      assert Faithful(a, a.outbox[i]);
    }
  }

  lemma RunBalanced(c: Config, states: seq<State>, labels: seq<Label>, i: nat)
    requires ConfigOk(c) && Run(c, states, labels) && i < |labels| && Balanced(states[i].pg)
    ensures Balanced(states[i + 1].pg)
  {
    var s, l := states[i], labels[i];
    if CommitsNow(l) {
      RunCommit(c, states, labels, i);
      CommitBalanced(s.pg, l.t, s.threads[l.t].job);
    } else {
      StepFrame(c, states, labels, i);
      BalancedSame(s.pg, states[i + 1].pg);
    }
  }

  /** Conservation: in every reachable state there is exactly one user.created event per user and one
      session.created event per session, and none for anything else; revocation events exist exactly for
      revoked sessions; and every event carries the data of its row. */
  lemma {:induction false} OutboxConservation(c: Config, states: seq<State>, labels: seq<Label>, i: nat)
    requires ConfigOk(c) && Run(c, states, labels) && i < |states|
    ensures Balanced(states[i].pg)
  {
    if i > 0 {
      OutboxConservation(c, states, labels, i - 1);
      RunBalanced(c, states, labels, i - 1);
    }
  }

  /** Is this label the successful commit of a sign-out of session `id`? */
  predicate CommitsSignOut(s: State, l: Label, id: Uuid) {
    CommitsNow(l) && l.t in s.threads && s.threads[l.t].AtExec?
    && s.threads[l.t].job.SignOutJob? && s.threads[l.t].job.ctx.session == id
  }

  function SignOuts(states: seq<State>, labels: seq<Label>, n: nat, id: Uuid): nat
    requires n <= |labels| <= |states|
  {
    if n == 0 then 0
    else SignOuts(states, labels, n - 1, id) + (if CommitsSignOut(states[n - 1], labels[n - 1], id) then 1 else 0)
  }

  /** The number of session.revoked events of a session is the number of sign-outs of it that committed. */
  lemma {:induction false} RevocationEventsCountSignOuts(
      c: Config, states: seq<State>, labels: seq<Label>, n: nat, id: Uuid)
    requires ConfigOk(c) && Run(c, states, labels) && n <= |labels|
    ensures Count(states[n].pg.outbox, OfRevocation(id)) == SignOuts(states, labels, n, id)
  {
    if n > 0 {
      RevocationEventsCountSignOuts(c, states, labels, n - 1, id);
      RunCounts(c, states, labels, n - 1, OfRevocation(id));
    }
  }

  lemma RunCounts(c: Config, states: seq<State>, labels: seq<Label>, i: nat, topic: Topic)
    requires ConfigOk(c) && Run(c, states, labels) && i < |labels|
    ensures var s, l := states[i], labels[i];
      Count(states[i + 1].pg.outbox, topic) == Count(s.pg.outbox, topic)
        + (if CommitsNow(l) && l.t in s.threads && s.threads[l.t].AtExec?
           then Added(s.threads[l.t].job, topic) else 0)
  {
    var s, l := states[i], labels[i];
    if CommitsNow(l) {
      RunCommit(c, states, labels, i);
      CommitCounts(s.pg, l.t, s.threads[l.t].job, topic);
    } else {
      StepFrame(c, states, labels, i);
    }
  }
}
