/** An issued token is accepted, as the session it was issued for, until it is signed out or expires. */
module IssuedTokens {
  import opened Domain
  import opened Postgres
  import opened Protocol
  import opened Invariant
  import opened Runs

  function ContextOf(c: Config, row: Session): Ctx {
    Ctx(row.user, row.id, row.tenant, c.hex(row.tokenHash))
  }

  /** The row is there, unrevoked and unexpired. */
  predicate Live(pg: Pg, now: int, id: Uuid) {
    id in pg.sessions && pg.sessions[id].IsActive(now)
  }

  /** Where a request that presents the token of `row` can be while the session is live. */
  predicate Served(c: Config, th: Thread, row: Session) {
    match th
    case AtProbe(raw, _) => c.sha(raw) == row.tokenHash
    case AtHit(raw, _, p) => c.sha(raw) == row.tokenHash && p == PayloadOf(row)
    case AtFind(raw, _) => c.sha(raw) == row.tokenHash
    case AtCheck(raw, _, x) => c.sha(raw) == row.tokenHash && x == row
    case AtUntil(raw, _, x, _) => c.sha(raw) == row.tokenHash && x == row
    case AtRepopulate(raw, _, x, _, _) => c.sha(raw) == row.tokenHash && x == row
    case Passed(ctx, _, _) => ctx == ContextOf(c, row)
    case AtBegin(job) => job.SignOutJob? && job.ctx == ContextOf(c, row)
    case AtExec(job, _) => job.SignOutJob? && job.ctx == ContextOf(c, row)
    case AtRollback(job, _) => job.SignOutJob? && job.ctx == ContextOf(c, row)
    case Done(reply) => !reply.Refused?
    case _ => false
  }

  predicate FaultedLookup(l: Label, t: nat) {
    l.Find? && l.t == t && l.answer.Fault?
  }

  predicate OnlyRow(pg: Pg, row: Session) {
    row.id in pg.sessions && pg.sessions[row.id] == row && OnlySession(pg, row.id, row.tokenHash)
  }

  /** A step of the request inside the middleware. */
  lemma MiddlewareServed(c: Config, s: State, l: Label, t: nat, row: Session)
    requires Enabled(c, s, l) && HexInjective(c) && CacheOk(c, s.pg, s.cache)
    requires OnlyRow(s.pg, row) && row.IsActive(s.now)
    requires t in s.threads && Served(c, s.threads[t], row) && Rank(s.threads[t]) > 0
    requires Mover(l, t) && !FaultedLookup(l, t)
    ensures t in Step(c, s, l).threads && Served(c, Step(c, s, l).threads[t], row)
  {}

  /** A step of the request behind the middleware. */
  lemma HandlerServed(c: Config, s: State, l: Label, t: nat, row: Session)
    requires Enabled(c, s, l) && Mover(l, t)
    requires t in s.threads && Served(c, s.threads[t], row) && Rank(s.threads[t]) == 0
    requires s.threads[t].AtExec? ==> TxOk(s, t)
    requires Live(Step(c, s, l).pg, Step(c, s, l).now, row.id)
    ensures t in Step(c, s, l).threads && Served(c, Step(c, s, l).threads[t], row)
  {}

  lemma RunServed(c: Config, states: seq<State>, labels: seq<Label>, i: nat, t: nat, row: Session)
    requires ConfigOk(c) && Run(c, states, labels) && i < |labels|
    requires Live(states[i].pg, states[i].now, row.id) && states[i].pg.sessions[row.id] == row
    requires t in states[i].threads && Served(c, states[i].threads[t], row) && !FaultedLookup(labels[i], t)
    requires Live(states[i + 1].pg, states[i + 1].now, row.id)
    ensures t in states[i + 1].threads && Served(c, states[i + 1].threads[t], row)
  {
    RunInv(c, states, labels, i);
    UniqueHash(c, states[i].pg, row.id);
    if !Mover(labels[i], t) {
      StepFrame(c, states, labels, i);
    } else {
      assert Moves(c, states, labels, i);
      assert states[i].threads[t].AtExec? ==> Running(states[i], t);
      if Rank(states[i].threads[t]) > 0 {
        MiddlewareServed(c, states[i], labels[i], t, row);
      } else {
        HandlerServed(c, states[i], labels[i], t, row);
      }
    }
  }

  /** While the session is live and the repository answers, a request that presents its token is never
      refused, and when it is let through it carries exactly the row's user, session and tenant. */
  lemma {:induction false} TokenServed(
      c: Config, states: seq<State>, labels: seq<Label>, a: nat, j: nat, raw: string, route: Route, row: Session)
    requires ConfigOk(c) && Run(c, states, labels) && a < j < |states|
    requires labels[a].Arrive? && labels[a].raw == raw && labels[a].route == route && raw != ""
    requires row.id in states[a].pg.sessions && states[a].pg.sessions[row.id] == row && row.tokenHash == c.sha(raw)
    requires Live(states[j].pg, states[j].now, row.id)
    requires forall n :: a < n < j ==> !FaultedLookup(labels[n], labels[a].t)
    ensures labels[a].t in states[j].threads && Served(c, states[j].threads[labels[a].t], row)
    decreases j
  {
    RunExtends(c, states, labels, a, j - 1);
    RunExtends(c, states, labels, j - 1, j);
    if j - 1 == a {
      assert Moves(c, states, labels, a);
    } else {
      TokenServed(c, states, labels, a, j - 1, raw, route, row);
      RunServed(c, states, labels, j - 1, labels[a].t, row);
    }
  }

  /** What a commit of a sign-up or sign-in makes of its token. */
  lemma CommitIssues(c: Config, states: seq<State>, labels: seq<Label>, i: nat)
    requires ConfigOk(c) && Run(c, states, labels) && i < |labels|
    requires CommitsNow(labels[i])
    ensures labels[i].t in states[i].threads && states[i].threads[labels[i].t].AtExec?
    ensures var job := states[i].threads[labels[i].t].job;
      !job.SignOutJob? ==>
        && job.session.id in states[i + 1].pg.sessions && states[i + 1].pg.sessions[job.session.id] == job.session
        && job.session.tokenHash == c.sha(job.token) && job.token != "" && job.session.revokedAt.None?
  {
    StepFrame(c, states, labels, i);
    RunInv(c, states, labels, i);
    var t := labels[i].t;
    assert TxOk(states[i], t) && ThreadOk(c, states[i].pg, states[i].now, states[i].threads[t]);
  }

  /** From the commit that issued a token to the last instant before its expiry: whoever presents it, after
      whatever cache errors, evictions and undecodable entries, is accepted as the issued session unless
      the session was signed out or the repository did not answer. */
  lemma IssuedTokenStaysUsable(c: Config, states: seq<State>, labels: seq<Label>, i: nat, a: nat, j: nat, job: Job)
    requires ConfigOk(c) && Run(c, states, labels) && i < a < j < |states|
    requires CommitsNow(labels[i]) && labels[i].t in states[i].threads
    requires states[i].threads[labels[i].t].AtExec? && states[i].threads[labels[i].t].job == job && !job.SignOutJob?
    requires labels[a].Arrive? && labels[a].raw == job.token
    requires !Revoked(states[j].pg, job.session.id) && states[j].now < job.session.expiresAt
    requires forall n :: a < n < j ==> !FaultedLookup(labels[n], labels[a].t)
    ensures labels[a].t in states[j].threads
    ensures var th := states[j].threads[labels[a].t];
      && (th.Done? ==> !th.reply.Refused?)
      && (th.Passed? ==> th.ctx == Ctx(job.session.user, job.session.id, job.session.tenant, c.hex(c.sha(job.token))))
  {
    CommitIssues(c, states, labels, i);
    RunExtends(c, states, labels, i + 1, a);
    RunExtends(c, states, labels, a, j);
    TokenServed(c, states, labels, a, j, job.token, labels[a].route, job.session);
  }

  lemma IssuedRow(
      c: Config, states: seq<State>, labels: seq<Label>, a: nat, t: nat, user: Uuid, token: string, expiresAt: int)
    returns (row: Session)
    requires ConfigOk(c) && Run(c, states, labels) && a < |states|
    requires t in states[a].threads && states[a].threads[t] == Done(Issued(user, token, expiresAt))
    ensures token != "" && row.id in states[a].pg.sessions && states[a].pg.sessions[row.id] == row
    ensures IssuedAs(c, row, user, token, expiresAt)
  {
    RunInv(c, states, labels, a);
    assert ThreadOk(c, states[a].pg, states[a].now, states[a].threads[t]);
    var id :| id in states[a].pg.sessions && IssuedAs(c, states[a].pg.sessions[id], user, token, expiresAt);
    row := states[a].pg.sessions[id];
  }

  /** The same seen from the client: once a request was answered with a token, a later request with that token
      is let through as the same user, until the answered expiry, unless a sign-out of the session has committed
      or the repository does not answer. */
  lemma IssuedReplyStaysUsable(
      c: Config, states: seq<State>, labels: seq<Label>, a: nat, j: nat, t: nat,
      user: Uuid, token: string, expiresAt: int)
    requires ConfigOk(c) && Run(c, states, labels) && a < j < |states|
    requires t in states[a].threads && states[a].threads[t] == Done(Issued(user, token, expiresAt))
    requires labels[a].Arrive? && labels[a].raw == token
    requires states[j].now < expiresAt
    requires forall id :: id in states[j].pg.sessions && states[j].pg.sessions[id].tokenHash == c.sha(token) ==>
      !Revoked(states[j].pg, id)
    requires forall n :: a < n < j ==> !FaultedLookup(labels[n], labels[a].t)
    ensures labels[a].t in states[j].threads
    ensures var th := states[j].threads[labels[a].t];
      && (th.Done? ==> !th.reply.Refused?)
      && (th.Passed? ==>
            && th.ctx.user == user && th.ctx.tokenHashHex == c.hex(c.sha(token))
            && th.ctx.session in states[j].pg.sessions
            && th.ctx == ContextOf(c, states[j].pg.sessions[th.ctx.session]))
  {
    var row := IssuedRow(c, states, labels, a, t, user, token, expiresAt);
    RunExtends(c, states, labels, a, j);
    TokenServed(c, states, labels, a, j, token, labels[a].route, row);
  }

  // ---------------------------------------------------------------- progress

  /** How many own steps the middleware still needs at most. */
  function Rank(th: Thread): nat {
    match th
    case AtProbe(_, _) => 6
    case AtHit(_, _, _) => 5
    case AtFind(_, _) => 4
    case AtCheck(_, _, _) => 3
    case AtUntil(_, _, _, _) => 2
    case AtRepopulate(_, _, _, _, _) => 1
    case _ => 0
  }

  /** The next step of a request in the middleware when the repository answers; cache calls may fail. */
  function NextLabel(th: Thread, t: nat, id: Uuid, cacheFault: bool): Label {
    match th
    case AtProbe(_, _) => Probe(t, cacheFault)
    case AtHit(_, _, _) => Hit(t)
    case AtFind(_, _) => Find(t, Row(id))
    case AtCheck(_, _, _) => Check(t)
    case AtUntil(_, _, _, _) => Until(t)
    case _ => Repopulate(t, cacheFault)
  }

  lemma NextServed(c: Config, s: State, t: nat, row: Session, cacheFault: bool)
    requires HexInjective(c) && CacheOk(c, s.pg, s.cache)
    requires OnlyRow(s.pg, row) && row.IsActive(s.now)
    requires t in s.threads && Served(c, s.threads[t], row) && Rank(s.threads[t]) > 0
    ensures var l := NextLabel(s.threads[t], t, row.id, cacheFault);
      && Enabled(c, s, l)
      && var s' := Step(c, s, l);
      && t in s'.threads && Served(c, s'.threads[t], row) && Rank(s'.threads[t]) < Rank(s.threads[t])
      && s'.pg == s.pg && s'.now == s.now && (Rank(s'.threads[t]) == 0 ==> s'.threads[t].Passed?)
      && (Rank(s'.threads[t]) > 0 ==> s'.cache == s.cache)
  {}

  /** A request that presents a live token is let through by at most six steps of its own, whatever the
      cache does; no other request has to move first. */
  lemma {:induction false} LiveTokenIsAccepted(c: Config, s: State, t: nat, row: Session, cacheFault: bool)
    returns (states: seq<State>, labels: seq<Label>)
    requires HexInjective(c) && CacheOk(c, s.pg, s.cache)
    requires OnlyRow(s.pg, row) && row.IsActive(s.now)
    requires t in s.threads && Served(c, s.threads[t], row) && Rank(s.threads[t]) > 0
    ensures Path(c, states, labels) && states[0] == s && |labels| <= Rank(s.threads[t])
    ensures var last := states[|states| - 1];
      t in last.threads && last.threads[t].Passed? && last.threads[t].ctx == ContextOf(c, row)
    decreases Rank(s.threads[t])
  {
    NextServed(c, s, t, row, cacheFault);
    var l := NextLabel(s.threads[t], t, row.id, cacheFault);
    var s' := Step(c, s, l);
    if Rank(s'.threads[t]) == 0 {
      states, labels := [s, s'], [l];
      assert Moves(c, states, labels, 0);
    } else {
      var more, rest := LiveTokenIsAccepted(c, s', t, row, cacheFault);
      PathCons(c, s, l, more, rest);
      states, labels := [s] + more, [l] + rest;
    }
  }
}
