/** What a reply says about the run that led to it. */
module Replies {
  import opened Domain
  import opened Postgres
  import opened Protocol
  import opened Invariant
  import opened Runs
  import opened Reasons
  import opened Acceptance
  import Outcomes

  // ---------------------------------------------------------------- refusals

  /** The request is inside the middleware. */
  predicate Resolving(th: Thread) {
    th.AtProbe? || th.AtHit? || th.AtFind? || th.AtCheck? || th.AtUntil? || th.AtRepopulate?
  }

  /** A request in the middleware carries the token and the route it arrived with. */
  lemma {:induction false} ArrivalOf(c: Config, states: seq<State>, labels: seq<Label>, j: nat, t: nat) returns (a: nat)
    requires ConfigOk(c) && Run(c, states, labels) && j < |states|
    requires t in states[j].threads && Resolving(states[j].threads[t])
    ensures a < j && labels[a] == Arrive(t, states[j].threads[t].raw, states[j].threads[t].route)
    ensures states[j].threads[t].raw != ""
    decreases j
  {
    a := EnteredAt(c, states, labels, j, t);
    if !labels[a].Arrive? {
      a := ArrivalOf(c, states, labels, a, t);
    }
  }

  predicate NoRowFor(c: Config, pg: Pg, raw: string) {
    forall id :: id in pg.sessions ==> pg.sessions[id].tokenHash != c.sha(raw)
  }

  /** The row that is checked belongs to the token and is revoked or expired. */
  predicate InactiveRow(c: Config, s: State, t: nat, raw: string) {
    t in s.threads && s.threads[t].AtCheck?
    && var row := s.threads[t].row;
    row.tokenHash == c.sha(raw) && (row.revokedAt.Some? || row.expiresAt <= s.now)
  }

  /** The three refusals are given exactly for their reasons: `a` is the arrival of the request and `k` the step
      that refused it. */
  predicate RefusedFor(c: Config, s: State, arrival: Label, l: Label, t: nat, why: Refusal)
    requires arrival.Arrive?
  {
    && (why == SessionRequired <==> arrival.raw == "")
    && (why == Unavailable <==> l.Find? && l.answer.Fault?)
    && (why == SessionInvalid <==>
          (l.Find? && !l.answer.Fault? && NoRowFor(c, s.pg, arrival.raw))
          || (l.Check? && InactiveRow(c, s, t, arrival.raw)))
  }

  lemma RefusalReason(c: Config, states: seq<State>, labels: seq<Label>, j: nat, t: nat, why: Refusal)
    returns (a: nat, k: nat)
    requires ConfigOk(c) && Run(c, states, labels) && j < |states|
    requires t in states[j].threads && states[j].threads[t] == Done(Refused(why))
    ensures a <= k < j && Mover(labels[k], t) && labels[a].Arrive? && labels[a].t == t
    ensures RefusedFor(c, states[k], labels[a], labels[k], t, why)
  {
    k := EnteredAt(c, states, labels, j, t);
    a := k;
    if !labels[k].Arrive? {
      a := ArrivalOf(c, states, labels, k, t);
      ThreadKnows(c, states, labels, k, t);
    }
  }

  // ---------------------------------------------------------------- issued sessions

  /** The step that made a job: the arrival of a sign-up, the drawing of a token for a sign-in. */
  predicate Made(c: Config, s: State, l: Label, job: Job) {
    match job
    case SignUpJob(input, u, row, token) => MadeBySignUp(c, s.now, l, input, u, row, token)
    case SignInJob(input, u, row, token) =>
      MadeBySignIn(c, s.now, l, input, u, row, token) && l.t in s.threads && s.threads[l.t] == AtToken(input, u)
    case SignOutJob(ctx, at) =>
      l.Origin? && l.ok && at == s.now && l.t in s.threads && s.threads[l.t].Passed? && s.threads[l.t].ctx == ctx
  }

  /** Every job was made by one earlier step of its thread, of that step's values, at that step's time. */
  lemma {:induction false} JobOrigin(c: Config, states: seq<State>, labels: seq<Label>, j: nat, t: nat) returns (k: nat)
    requires ConfigOk(c) && Run(c, states, labels) && j < |states|
    requires t in states[j].threads && Outcomes.HasJob(states[j].threads[t])
    ensures k < j && Mover(labels[k], t) && Made(c, states[k], labels[k], states[j].threads[t].job)
    decreases j
  {
    k := EnteredAt(c, states, labels, j, t);
    if !states[j].threads[t].AtBegin? {
      k := JobOrigin(c, states, labels, k, t);
    }
  }

  /** The session of a sign-up or sign-in begins at the clock value of the step that made it and lasts for the
      configured time; the token is the one drawn there. */
  lemma SessionOrigin(c: Config, states: seq<State>, labels: seq<Label>, j: nat, t: nat) returns (k: nat)
    requires ConfigOk(c) && Run(c, states, labels) && j < |states|
    requires t in states[j].threads && Outcomes.HasJob(states[j].threads[t]) && !states[j].threads[t].job.SignOutJob?
    ensures k < j && Mover(labels[k], t)
    ensures var job := states[j].threads[t].job;
      && (if job.SignUpJob? then labels[k].ArriveSignUp? else labels[k].NewToken?)
      && job.session.id == labels[k].session && job.token == labels[k].token
      && job.session.createdAt == states[k].now && job.session.expiresAt == states[k].now + c.sessionTtl
      && job.session.tokenHash == c.sha(labels[k].token) && job.session.revokedAt.None?
  {
    k := JobOrigin(c, states, labels, j, t);
  }

  /** The commit behind a success reply. */
  lemma CommitOf(c: Config, states: seq<State>, labels: seq<Label>, j: nat, t: nat) returns (i: nat)
    requires ConfigOk(c) && Run(c, states, labels) && j < |states|
    requires t in states[j].threads && (states[j].threads[t].AtTtl? || states[j].threads[t].AtSet?)
    ensures i < j && Outcomes.CommitsAs(labels[i], t)
    ensures var job := states[j].threads[t].job;
      t in states[i].threads && states[i].threads[t] == AtExec(job, Size(job))
  {
    i := EnteredAt(c, states, labels, j, t);
    if states[j].threads[t].AtSet? {
      i := EnteredAt(c, states, labels, i, t);
    }
  }

  /** A reply that hands out a token: the session it speaks of was made at step `o`, with that token, that
      user, and an expiry the configured time later, and committed at step `i`. */
  lemma IssuedOrigin(
      c: Config, states: seq<State>, labels: seq<Label>, j: nat, t: nat, user: Uuid, token: string, expiresAt: int)
    returns (o: nat, i: nat)
    requires ConfigOk(c) && Run(c, states, labels) && j < |states|
    requires t in states[j].threads && states[j].threads[t] == Done(Issued(user, token, expiresAt))
    ensures o < i < j && Mover(labels[o], t) && Outcomes.CommitsAs(labels[i], t)
    ensures labels[o].ArriveSignUp? || labels[o].NewToken?
    ensures token == labels[o].token && expiresAt == states[o].now + c.sessionTtl
    ensures labels[o].ArriveSignUp? ==> user == labels[o].user
    ensures labels[o].NewToken? ==>
      t in states[o].threads && states[o].threads[t].AtToken? && user == states[o].threads[t].account.id
    ensures t in states[i].threads && states[i].threads[t].AtExec?
      && var job := states[i].threads[t].job;
      !job.SignOutJob? && job.session.id == labels[o].session && job.session.expiresAt == expiresAt
  {
    i := EnteredAt(c, states, labels, j, t);
    if states[i].threads[t].AtSet? {
      i := CommitOf(c, states, labels, i, t);
    }
    o := JobOrigin(c, states, labels, i, t);
  }

  // ---------------------------------------------------------------- the cache call after the commit

  /** With a cache, a success reply comes after the cache call was made: the entry of an issued session is
      written, or at least tried, and that of a signed-out one deleted. */
  lemma CacheCalled(c: Config, states: seq<State>, labels: seq<Label>, j: nat, t: nat) returns (k: nat)
    requires ConfigOk(c) && c.cacheOn && Run(c, states, labels) && j < |states|
    requires t in states[j].threads && states[j].threads[t].Done?
    requires states[j].threads[t].reply.Issued? || states[j].threads[t].reply.SignedOut?
    ensures k < j && Mover(labels[k], t)
    ensures if states[j].threads[t].reply.Issued? then labels[k].SetCache? else labels[k].DeleteCache?
  {
    k := EnteredAt(c, states, labels, j, t);
    RunInv(c, states, labels, k);
    ThreadKnows(c, states, labels, k, t);
    if states[j].threads[t].reply.SignedOut? {
      assert SessionOk(c, states[k].pg.sessions[states[k].threads[t].job.ctx.session]);
    }
  }
}
