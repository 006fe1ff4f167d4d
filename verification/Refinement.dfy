/** The cached service refines the cacheless one.

    In runs where whole requests are atomic and no delete fails, whatever the cache evicts, misses or
    corrupts, every run of the cached service is step by step a run of the service without a cache: the
    same tables, the same replies, and the same context for every request let through. */
module Refinement {
  import opened Domain
  import opened Postgres
  import opened Protocol
  import opened Invariant
  import opened Runs

  function Cacheless(c: Config): Config {
    c.(cacheOn := false)
  }

  /** The thread of the cacheless service that a thread of the cached service stands for. */
  function SimpleThread(c: Config, pg: Pg, th: Thread): Thread {
    match th
    case AtProbe(raw, route) => AtFind(raw, route)
    case AtHit(raw, route, _) => AtFind(raw, route)
    case AtUntil(raw, route, row, at) => Passed(CtxOf(c, raw, PayloadOf(row)), route, FromRow(row, at))
    case AtRepopulate(raw, route, row, at, _) => Passed(CtxOf(c, raw, PayloadOf(row)), route, FromRow(row, at))
    case Passed(ctx, route, FromCache(at)) =>
      if ctx.session in pg.sessions then Passed(ctx, route, FromRow(pg.sessions[ctx.session], at)) else th
    case AtTtl(job) => Done(Success(job))
    case AtSet(job, _) => Done(Success(job))
    case AtDelete(job) => Done(Success(job))
    case _ => th
  }

  function Simple(c: Config, s: State): State {
    State(s.now, s.pg, map[], map t | t in s.threads :: SimpleThread(c, s.pg, s.threads[t]))
  }

  predicate Active(s: State, t: nat) {
    t in s.threads && !s.threads[t].Done?
  }

  /** At most one request is in progress. */
  ghost predicate Sequential(s: State) {
    forall t, u :: Active(s, t) && Active(s, u) ==> t == u
  }

  predicate Deleting(s: State, t: nat, id: Uuid) {
    t in s.threads && s.threads[t].AtDelete? && s.threads[t].job.SignOutJob? && s.threads[t].job.ctx.session == id
  }

  predicate Unrevoked(pg: Pg, id: Uuid) {
    id in pg.sessions && pg.sessions[id].revokedAt.None?
  }

  /** An entry of a revoked session exists only while its delete is the next thing to happen. */
  ghost predicate Coherent(c: Config, s: State) {
    forall k :: k in s.cache && c.dec(s.cache[k].bytes).Some? ==>
      var id := c.dec(s.cache[k].bytes).value.session;
      Unrevoked(s.pg, id) || exists t :: Deleting(s, t, id)
  }

  /** The copy the request in progress holds is the row as it is. */
  predicate UpToDate(pg: Pg, th: Thread) {
    match th
    case AtHit(_, _, p) => Unrevoked(pg, p.session)
    case AtCheck(_, _, row) => row.id in pg.sessions && pg.sessions[row.id] == row
    case AtUntil(_, _, row, _) => row.id in pg.sessions && pg.sessions[row.id] == row
    case AtRepopulate(_, _, row, _, _) => row.id in pg.sessions && pg.sessions[row.id] == row
    case AtTtl(job) => !job.SignOutJob? && Unrevoked(pg, job.session.id)
    case AtSet(job, _) => !job.SignOutJob? && Unrevoked(pg, job.session.id)
    case _ => true
  }

  ghost predicate SequentialInv(c: Config, s: State) {
    Sequential(s) && Coherent(c, s) && (forall t :: t in s.threads ==> UpToDate(s.pg, s.threads[t]))
  }

  // ---------------------------------------------------------------- the sequential invariant

  /** A hit sees an unrevoked session: its delete would be another request in progress. */
  lemma ProbeUpToDate(c: Config, s: State, l: Label)
    requires Enabled(c, s, l) && l.Probe? && Sequential(s) && Coherent(c, s)
    ensures UpToDate(s.pg, Step(c, s, l).threads[l.t])
  {
    assert Active(s, l.t);
    var key := c.hex(c.sha(s.threads[l.t].raw));
    if Cached(c, s, key).Some? && !l.fault {
      var id := Cached(c, s, key).value.session;
      if !Unrevoked(s.pg, id) {
        var t :| Deleting(s, t, id);
        assert Active(s, t);
      }
    }
  }

  predicate BehindProbe(l: Label) {
    l.Hit? || l.Find? || l.Check? || l.Until? || l.Repopulate?
  }

  lemma ReaderUpToDate(c: Config, s: State, l: Label)
    requires Enabled(c, s, l) && BehindProbe(l)
    requires UpToDate(s.pg, s.threads[l.t])
    requires forall id :: id in s.pg.sessions ==> s.pg.sessions[id].id == id
    ensures UpToDate(Step(c, s, l).pg, Step(c, s, l).threads[l.t])
  {}

  lemma WorkerUpToDate(c: Config, s: State, l: Label)
    requires Enabled(c, s, l) && Moving(l) && !l.Probe? && !CommitsNow(l) && !BehindProbe(l)
    requires l.t in s.threads ==> UpToDate(s.pg, s.threads[l.t])
    ensures l.t in Step(c, s, l).threads && UpToDate(Step(c, s, l).pg, Step(c, s, l).threads[l.t])
  {}

  /** Outside the probe and the commit the mover keeps or takes a current copy. */
  lemma MoverUpToDate(c: Config, s: State, l: Label)
    requires Enabled(c, s, l) && Moving(l) && !l.Probe? && !CommitsNow(l)
    requires l.t in s.threads ==> UpToDate(s.pg, s.threads[l.t])
    requires forall id :: id in s.pg.sessions ==> s.pg.sessions[id].id == id
    ensures l.t in Step(c, s, l).threads && UpToDate(Step(c, s, l).pg, Step(c, s, l).threads[l.t])
  {
    if BehindProbe(l) {
      ReaderUpToDate(c, s, l);
    } else {
      WorkerUpToDate(c, s, l);
    }
  }

  lemma CommitUpToDate(c: Config, s: State, l: Label)
    requires Enabled(c, s, l) && CommitsNow(l) && TxOk(s, l.t)
    requires JobOk(c, s.pg, s.now, s.threads[l.t].job)
    ensures UpToDate(Step(c, s, l).pg, Step(c, s, l).threads[l.t])
  {}

  lemma UpToDateSame(a: Pg, b: Pg, th: Thread)
    requires UpToDate(a, th) && a.sessions == b.sessions
    ensures UpToDate(b, th)
  {}

  lemma StepUpToDate(c: Config, s: State, l: Label, t: nat)
    requires Enabled(c, s, l) && Inv(c, s) && SequentialInv(c, s) && t in Step(c, s, l).threads
    ensures UpToDate(Step(c, s, l).pg, Step(c, s, l).threads[t])
  {
    Frame(c, s, l);
    if !Mover(l, t) {
      if CommitsNow(l) {
        assert Active(s, l.t);
        assert !Active(s, t);
      } else {
        UpToDateSame(s.pg, Step(c, s, l).pg, s.threads[t]);
      }
    } else if l.Probe? {
      ProbeUpToDate(c, s, l);
    } else if CommitsNow(l) {
      assert Running(s, t) && ThreadOk(c, s.pg, s.now, s.threads[t]);
      CommitUpToDate(c, s, l);
    } else {
      MoverUpToDate(c, s, l);
    }
  }

  /** Steps that neither commit nor touch a cache value keep the cache coherent. */
  lemma QuietCoherent(c: Config, s: State, l: Label)
    requires Enabled(c, s, l) && Coherent(c, s) && !CommitsNow(l) && !l.DeleteCache?
    requires l.Repopulate? || l.SetCache? ==> UpToDate(s.pg, s.threads[l.t]) && CodecOk(c)
    requires l.Repopulate? ==> s.threads[l.t].row.revokedAt.None?
    ensures Coherent(c, Step(c, s, l))
  {
    Frame(c, s, l);
    var s' := Step(c, s, l);
    forall k | k in s'.cache && c.dec(s'.cache[k].bytes).Some?
      ensures var id := c.dec(s'.cache[k].bytes).value.session; Unrevoked(s'.pg, id) || exists t :: Deleting(s', t, id)
    {
      var id := c.dec(s'.cache[k].bytes).value.session;
      if k in s.cache && s'.cache[k] == s.cache[k] && !Unrevoked(s.pg, id) {
        var t :| Deleting(s, t, id);
        assert Deleting(s', t, id);
      }
    }
  }

  lemma DeleteCoherent(c: Config, s: State, l: Label)
    requires Enabled(c, s, l) && Coherent(c, s) && l.DeleteCache? && !l.fault && Sequential(s)
    requires CacheOk(c, s.pg, s.cache) && ThreadOk(c, s.pg, s.now, s.threads[l.t])
    ensures Coherent(c, Step(c, s, l))
  {
    var s', gone := Step(c, s, l), s.threads[l.t].job.ctx;
    assert Active(s, l.t);
    forall k | k in s'.cache && c.dec(s'.cache[k].bytes).Some?
      ensures Unrevoked(s'.pg, c.dec(s'.cache[k].bytes).value.session)
    {
      var p := c.dec(s.cache[k].bytes).value;
      assert Agrees(c, s.pg, k, p);
      if !Unrevoked(s.pg, p.session) {
        var t :| Deleting(s, t, p.session);
        assert Active(s, t);
      }
    }
  }

  lemma CommitCoherent(c: Config, s: State, l: Label)
    requires Enabled(c, s, l) && c.cacheOn && Coherent(c, s) && CommitsNow(l) && Sequential(s)
    requires TablesOk(c, s.pg) && TxOk(s, l.t) && JobOk(c, s.pg, s.now, s.threads[l.t].job)
    ensures Coherent(c, Step(c, s, l))
  {
    Frame(c, s, l);
    var s' := Step(c, s, l);
    assert Active(s, l.t);
    forall k | k in s'.cache && c.dec(s'.cache[k].bytes).Some?
      ensures var id := c.dec(s'.cache[k].bytes).value.session; Unrevoked(s'.pg, id) || exists t :: Deleting(s', t, id)
    {
      var id := c.dec(s.cache[k].bytes).value.session;
      if Unrevoked(s.pg, id) {
        NewKeys(c, s, l.t);
        CommitRevokesOrNot(c, s, l, id);
      } else {
        var t :| Deleting(s, t, id);
        assert Active(s, t);
      }
    }
  }

  lemma CommitRevokesOrNot(c: Config, s: State, l: Label, id: Uuid)
    requires Enabled(c, s, l) && c.cacheOn && CommitsNow(l) && TxOk(s, l.t)
    requires s.pg.open[l.t].sessions.Keys !! s.pg.sessions.Keys
    requires Unrevoked(s.pg, id) && SessionOk(c, s.pg.sessions[id])
    requires JobOk(c, s.pg, s.now, s.threads[l.t].job)
    ensures Unrevoked(Step(c, s, l).pg, id) || Deleting(Step(c, s, l), l.t, id)
  {
    CommitRow(s.pg, l.t, id);
  }

  lemma StepSequential(c: Config, s: State, l: Label)
    requires ConfigOk(c) && c.cacheOn && Enabled(c, s, l) && Inv(c, s) && SequentialInv(c, s)
    requires Sequential(Step(c, s, l)) && !(l.DeleteCache? && l.fault)
    ensures SequentialInv(c, Step(c, s, l))
  {
    var s' := Step(c, s, l);
    forall t | t in s'.threads ensures UpToDate(s'.pg, s'.threads[t]) {
      StepUpToDate(c, s, l, t);
    }
    if Moving(l) && l.t in s.threads {
      assert ThreadOk(c, s.pg, s.now, s.threads[l.t]) && UpToDate(s.pg, s.threads[l.t]);
    }
    if CommitsNow(l) {
      assert Running(s, l.t);
      CommitCoherent(c, s, l);
    } else if l.DeleteCache? {
      DeleteCoherent(c, s, l);
    } else {
      QuietCoherent(c, s, l);
    }
  }

  // ---------------------------------------------------------------- the simulation

  lemma SimpleMove(c: Config, s: State, t: nat, th: Thread)
    ensures Simple(c, Move(s, t, th)) == Move(Simple(c, s), t, SimpleThread(c, s.pg, th))
  {}

  /** Steps of the cached service that its cacheless counterpart does not see. */
  predicate Invisible(s: State, l: Label) {
    l.Evict? || l.Corrupt? || l.Probe? || l.Until? || l.Repopulate? || l.ReadTtl? || l.SetCache? || l.DeleteCache?
    || (l.Hit? && l.t in s.threads && s.threads[l.t].AtHit? && !(s.now < s.threads[l.t].cached.expiresAt))
  }

  lemma SimpleAfter(c: Config, s: State, s': State, t: nat)
    requires t in s'.threads && s'.threads == s.threads[t := s'.threads[t]]
    requires forall u :: u in s.threads && u != t ==>
      SimpleThread(c, s'.pg, s.threads[u]) == SimpleThread(c, s.pg, s.threads[u])
    ensures Simple(c, s').threads == Simple(c, s).threads[t := SimpleThread(c, s'.pg, s'.threads[t])]
  {}

  lemma InvisibleMove(c: Config, s: State, l: Label)
    requires Enabled(c, s, l) && Invisible(s, l) && Moving(l)
    ensures var s' := Step(c, s, l);
      && s'.pg == s.pg && s'.now == s.now && l.t in s.threads && s'.threads == s.threads[l.t := s'.threads[l.t]]
      && SimpleThread(c, s'.pg, s'.threads[l.t]) == SimpleThread(c, s.pg, s.threads[l.t])
  {}

  lemma InvisibleStep(c: Config, s: State, l: Label)
    requires Enabled(c, s, l) && Invisible(s, l)
    ensures Simple(c, Step(c, s, l)) == Simple(c, s)
  {
    if Moving(l) {
      InvisibleMove(c, s, l);
      SimpleAfter(c, s, Step(c, s, l), l.t);
    }
  }

  /** What the cacheless service does for one step of the cached one: nothing, the lookup and the check that
      a hit stands for, or the same step. */
  function Image(s: State, l: Label): seq<Label> {
    if Invisible(s, l) then []
    else if l.Hit? && l.t in s.threads && s.threads[l.t].AtHit? then
      [Find(l.t, Row(s.threads[l.t].cached.session)), Check(l.t)]
    else [l]
  }

  /** Accepting on a cache hit is reading the row and checking it: the row is there, unrevoked and unexpired. */
  lemma HitStep(c: Config, s: State, l: Label) returns (states: seq<State>, labels: seq<Label>)
    requires Enabled(c, s, l) && l.Hit? && !Invisible(s, l)
    requires ThreadOk(c, s.pg, s.now, s.threads[l.t]) && UpToDate(s.pg, s.threads[l.t]) && HexInjective(c)
    ensures Path(Cacheless(c), states, labels) && states[0] == Simple(c, s)
    ensures states[|states| - 1] == Simple(c, Step(c, s, l)) && labels == Image(s, l)
  {
    var th, simple := s.threads[l.t], Simple(c, s);
    var row := s.pg.sessions[th.cached.session];
    assert row.tokenHash == c.sha(th.raw);
    var find, check := Find(l.t, Row(th.cached.session)), Check(l.t);
    assert Enabled(Cacheless(c), simple, find);
    var mid := Step(Cacheless(c), simple, find);
    assert mid == Move(simple, l.t, AtCheck(th.raw, th.route, row));
    assert Enabled(Cacheless(c), mid, check);
    var last := Step(Cacheless(c), mid, check);
    var passed := Passed(CtxOf(c, th.raw, th.cached), th.route, FromCache(s.now));
    SimpleMove(c, s, l.t, passed);
    assert last == Move(simple, l.t, SimpleThread(c, s.pg, passed));
    states, labels := [simple, mid, last], [find, check];
    assert Moves(Cacheless(c), states, labels, 0) && Moves(Cacheless(c), states, labels, 1);
  }

  /** Steps that leave the database alone look the same with and without a cache. */
  lemma ArrivalStep(c: Config, s: State, l: Label)
    requires Enabled(c, s, l) && c.cacheOn && (l.Arrive? || l.ArriveSignUp? || l.ArriveSignIn?)
    ensures Enabled(Cacheless(c), Simple(c, s), l) && Step(Cacheless(c), Simple(c, s), l) == Simple(c, Step(c, s, l))
  {
    var th' := Step(c, s, l).threads[l.t];
    assert Step(c, s, l) == Move(s, l.t, th');
    SimpleMove(c, s, l.t, th');
  }

  lemma ReadingStep(c: Config, s: State, l: Label)
    requires Enabled(c, s, l) && c.cacheOn && (l.Find? || l.Check?)
    ensures Enabled(Cacheless(c), Simple(c, s), l) && Step(Cacheless(c), Simple(c, s), l) == Simple(c, Step(c, s, l))
  {
    var th' := Step(c, s, l).threads[l.t];
    assert Step(c, s, l) == Move(s, l.t, th');
    SimpleMove(c, s, l.t, th');
  }

  lemma SignInStep(c: Config, s: State, l: Label)
    requires Enabled(c, s, l) && c.cacheOn && (l.Lookup? || l.NewToken?)
    ensures Enabled(Cacheless(c), Simple(c, s), l) && Step(Cacheless(c), Simple(c, s), l) == Simple(c, Step(c, s, l))
  {
    var th' := Step(c, s, l).threads[l.t];
    assert Step(c, s, l) == Move(s, l.t, th');
    SimpleMove(c, s, l.t, th');
  }

  lemma OriginStep(c: Config, s: State, l: Label)
    requires Enabled(c, s, l) && c.cacheOn && l.Origin?
    ensures Enabled(Cacheless(c), Simple(c, s), l) && Step(Cacheless(c), Simple(c, s), l) == Simple(c, Step(c, s, l))
  {
    var th' := Step(c, s, l).threads[l.t];
    assert Step(c, s, l) == Move(s, l.t, th');
    SimpleMove(c, s, l.t, th');
  }

  lemma ProfileStep(c: Config, s: State, l: Label)
    requires Enabled(c, s, l) && c.cacheOn && l.LoadProfile?
    ensures Enabled(Cacheless(c), Simple(c, s), l) && Step(Cacheless(c), Simple(c, s), l) == Simple(c, Step(c, s, l))
  {
    var th' := Step(c, s, l).threads[l.t];
    assert Step(c, s, l) == Move(s, l.t, th');
    SimpleMove(c, s, l.t, th');
  }

  lemma TickStep(c: Config, s: State, l: Label)
    requires Enabled(c, s, l) && l.Tick?
    ensures Enabled(Cacheless(c), Simple(c, s), l) && Step(Cacheless(c), Simple(c, s), l) == Simple(c, Step(c, s, l))
  {}

  /** Changing the database without changing the session table. */
  lemma SimplePg(c: Config, s: State, pg: Pg)
    requires pg.sessions == s.pg.sessions
    ensures Simple(c, s.(pg := pg)) == Simple(c, s).(pg := pg)
  {}

  lemma ClosingStep(c: Config, s: State, l: Label)
    requires Enabled(c, s, l) && c.cacheOn && (l.RollbackTx? || (l.CommitTx? && l.fault))
    ensures Enabled(Cacheless(c), Simple(c, s), l) && Step(Cacheless(c), Simple(c, s), l) == Simple(c, Step(c, s, l))
  {
    var s' := Step(c, s, l);
    SimpleMove(c, s, l.t, s'.threads[l.t]);
    SimplePg(c, Move(s, l.t, s'.threads[l.t]), s'.pg);
  }

  lemma BeginStep(c: Config, s: State, l: Label)
    requires Enabled(c, s, l) && c.cacheOn && l.BeginTx?
    ensures Enabled(Cacheless(c), Simple(c, s), l) && Step(Cacheless(c), Simple(c, s), l) == Simple(c, Step(c, s, l))
  {
    var s' := Step(c, s, l);
    assert s' == Move(s, l.t, s'.threads[l.t]).(pg := s'.pg);
    SimpleMove(c, s, l.t, s'.threads[l.t]);
    SimplePg(c, Move(s, l.t, s'.threads[l.t]), s'.pg);
  }

  lemma StatementStep(c: Config, s: State, l: Label)
    requires Enabled(c, s, l) && c.cacheOn && l.ExecTx?
    ensures Enabled(Cacheless(c), Simple(c, s), l) && Step(Cacheless(c), Simple(c, s), l) == Simple(c, Step(c, s, l))
  {
    var s' := Step(c, s, l);
    assert s' == Move(s, l.t, s'.threads[l.t]).(pg := s'.pg);
    SimpleMove(c, s, l.t, s'.threads[l.t]);
    SimplePg(c, Move(s, l.t, s'.threads[l.t]), s'.pg);
  }

  /** A commit is enabled alike, changes the tables alike, and leaves its own request alike. */
  lemma CommitLocal(c: Config, s: State, l: Label)
    requires Enabled(c, s, l) && c.cacheOn && CommitsNow(l)
    ensures Enabled(Cacheless(c), Simple(c, s), l)
    ensures var s', last := Step(c, s, l), Step(Cacheless(c), Simple(c, s), l);
      && last.now == s'.now && last.pg == s'.pg && last.cache == map[]
      && last.threads == Simple(c, s).threads[l.t := SimpleThread(c, s'.pg, s'.threads[l.t])]
  {}

  /** With one request in progress, a commit leaves what the finished ones stand for. */
  lemma CommitOthers(c: Config, s: State, t: nat, pg: Pg)
    requires Sequential(s) && Active(s, t)
    ensures forall u :: u in s.threads && u != t ==>
      SimpleThread(c, pg, s.threads[u]) == SimpleThread(c, s.pg, s.threads[u])
  {
    forall u | u in s.threads && u != t
      ensures SimpleThread(c, pg, s.threads[u]) == SimpleThread(c, s.pg, s.threads[u])
    {
      assert !Active(s, u);
    }
  }

  lemma CommitStep(c: Config, s: State, l: Label)
    requires Enabled(c, s, l) && c.cacheOn && CommitsNow(l) && Sequential(s)
    ensures Enabled(Cacheless(c), Simple(c, s), l) && Step(Cacheless(c), Simple(c, s), l) == Simple(c, Step(c, s, l))
  {
    CommitLocal(c, s, l);
    CommitOthers(c, s, l.t, Step(c, s, l).pg);
    SimpleAfter(c, s, Step(c, s, l), l.t);
  }

  /** One step of the cached service is its image in the cacheless one: at most two steps. */
  lemma SimulateStep(c: Config, s: State, l: Label) returns (states: seq<State>, labels: seq<Label>)
    requires Enabled(c, s, l) && c.cacheOn && HexInjective(c) && Sequential(s)
    requires l.Hit? ==> ThreadOk(c, s.pg, s.now, s.threads[l.t]) && UpToDate(s.pg, s.threads[l.t])
    ensures Path(Cacheless(c), states, labels) && states[0] == Simple(c, s)
    ensures states[|states| - 1] == Simple(c, Step(c, s, l)) && labels == Image(s, l)
  {
    if Invisible(s, l) {
      InvisibleStep(c, s, l);
      states, labels := [Simple(c, s)], [];
    } else if l.Hit? {
      states, labels := HitStep(c, s, l);
    } else {
      if l.Tick? {
        TickStep(c, s, l);
      } else if CommitsNow(l) {
        CommitStep(c, s, l);
      } else if l.BeginTx? {
        BeginStep(c, s, l);
      } else if l.ExecTx? {
        StatementStep(c, s, l);
      } else if l.RollbackTx? || l.CommitTx? {
        ClosingStep(c, s, l);
      } else if l.Origin? {
        OriginStep(c, s, l);
      } else if l.LoadProfile? {
        ProfileStep(c, s, l);
      } else if l.Lookup? || l.NewToken? {
        SignInStep(c, s, l);
      } else if l.Find? || l.Check? {
        ReadingStep(c, s, l);
      } else {
        ArrivalStep(c, s, l);
      }
      states, labels := [Simple(c, s), Simple(c, Step(c, s, l))], [l];
      assert Moves(Cacheless(c), states, labels, 0);
    }
  }

  // ---------------------------------------------------------------- over runs

  /** Whole requests are atomic and every delete reaches the cache. */
  ghost predicate Atomic(states: seq<State>, labels: seq<Label>) {
    && (forall i :: 0 <= i < |states| ==> Sequential(states[i]))
    && (forall i :: 0 <= i < |labels| ==> !(labels[i].DeleteCache? && labels[i].fault))
  }

  lemma RunSequential(c: Config, states: seq<State>, labels: seq<Label>, i: nat)
    requires ConfigOk(c) && c.cacheOn && Run(c, states, labels) && Atomic(states, labels) && i < |labels|
    requires SequentialInv(c, states[i])
    ensures SequentialInv(c, states[i + 1])
  {
    RunInv(c, states, labels, i);
    assert Moves(c, states, labels, i);
    StepSequential(c, states[i], labels[i]);
  }

  lemma {:induction false} AtomicRunInv(c: Config, states: seq<State>, labels: seq<Label>, i: nat)
    requires ConfigOk(c) && c.cacheOn && Run(c, states, labels) && Atomic(states, labels) && i < |states|
    ensures SequentialInv(c, states[i])
  {
    if i > 0 {
      AtomicRunInv(c, states, labels, i - 1);
      RunSequential(c, states, labels, i - 1);
    }
  }

  lemma SimulateAt(c: Config, states: seq<State>, labels: seq<Label>, i: nat) returns (xs: seq<State>, ls: seq<Label>)
    requires ConfigOk(c) && c.cacheOn && Run(c, states, labels) && Atomic(states, labels) && i < |labels|
    ensures Path(Cacheless(c), xs, ls) && ls == Image(states[i], labels[i])
    ensures xs[0] == Simple(c, states[i]) && xs[|xs| - 1] == Simple(c, states[i + 1])
  {
    AtomicRunInv(c, states, labels, i);
    RunInv(c, states, labels, i);
    assert Moves(c, states, labels, i);
    if labels[i].Hit? {
      assert ThreadOk(c, states[i].pg, states[i].now, states[i].threads[labels[i].t]);
    }
    xs, ls := SimulateStep(c, states[i], labels[i]);
  }

  /** The images of the first `j` steps, one after the other. */
  function Images(states: seq<State>, labels: seq<Label>, j: nat): seq<Label>
    requires j <= |labels| < |states|
  {
    if j == 0 then [] else Images(states, labels, j - 1) + Image(states[j - 1], labels[j - 1])
  }

  lemma {:induction false} SimulateRun(c: Config, states: seq<State>, labels: seq<Label>, j: nat)
    returns (xs: seq<State>, ls: seq<Label>)
    requires ConfigOk(c) && c.cacheOn && Run(c, states, labels) && Atomic(states, labels) && j < |states|
    ensures ls == Images(states, labels, j)
    ensures Run(Cacheless(c), xs, ls) && xs[|xs| - 1] == Simple(c, states[j])
  {
    if j == 0 {
      xs, ls := [Simple(c, states[0])], [];
    } else {
      var ys, ms := SimulateRun(c, states, labels, j - 1);
      var zs, ns := SimulateAt(c, states, labels, j - 1);
      PathAppend(Cacheless(c), ys, ms, zs, ns);
      xs, ls := ys + zs[1..], ms + ns;
    }
  }

  // ---------------------------------------------------------------- what the two runs have in common

  predicate CallsCache(l: Label) {
    l.Probe? || l.Repopulate? || l.SetCache? || l.DeleteCache?
  }

  predicate FaultyOutsideCache(l: Label) {
    Faulty(l) && !CallsCache(l)
  }

  function Only(labels: seq<Label>, keep: Label -> bool): seq<Label> {
    if labels == [] then []
    else
      var n := |labels| - 1;
      Only(labels[..n], keep) + (if keep(labels[n]) then [labels[n]] else [])
  }

  lemma OnlyOne(labels: seq<Label>, l: Label, keep: Label -> bool)
    ensures Only(labels + [l], keep) == Only(labels, keep) + if keep(l) then [l] else []
  {
    assert (labels + [l])[..|labels|] == labels;
  }

  lemma OnlyImage(labels: seq<Label>, s: State, l: Label)
    ensures Only(labels + Image(s, l), Arrives) == Only(labels, Arrives) + if Arrives(l) then [l] else []
    ensures Only(labels + Image(s, l), Faulty) == Only(labels, Faulty) + if FaultyOutsideCache(l) then [l] else []
  {
    var image := Image(s, l);
    if |image| == 0 {
      assert labels + image == labels;
    } else if |image| == 1 {
      OnlyOne(labels, l, Arrives);
      OnlyOne(labels, l, Faulty);
    } else {
      assert labels + image == labels + [image[0]] + [image[1]];
      OnlyOne(labels, image[0], Arrives);
      OnlyOne(labels, image[0], Faulty);
      OnlyOne(labels + [image[0]], image[1], Arrives);
      OnlyOne(labels + [image[0]], image[1], Faulty);
    }
  }

  /** The same requests arrive with the same input in the same order, and the cacheless service suffers
      exactly those faults of the cached one that did not hit a cache call. */
  predicate SameRequests(labels: seq<Label>, simple: seq<Label>) {
    Only(simple, Arrives) == Only(labels, Arrives) && Only(simple, Faulty) == Only(labels, FaultyOutsideCache)
  }

  lemma {:induction false} ImagesSameRequests(states: seq<State>, labels: seq<Label>, j: nat)
    requires j <= |labels| < |states|
    ensures SameRequests(labels[..j], Images(states, labels, j))
  {
    if j > 0 {
      ImagesSameRequests(states, labels, j - 1);
      OnlyImage(Images(states, labels, j - 1), states[j - 1], labels[j - 1]);
      assert labels[..j] == labels[..j - 1] + [labels[j - 1]];
      OnlyOne(labels[..j - 1], labels[j - 1], Arrives);
      OnlyOne(labels[..j - 1], labels[j - 1], FaultyOutsideCache);
    }
  }

  /** The same tables and clock, the same replies, and the same context for every request let through. */
  predicate SameOutcome(last: State, simple: State) {
    && simple.pg == last.pg && simple.now == last.now && simple.threads.Keys == last.threads.Keys
    && (forall t :: t in last.threads && last.threads[t].Done? ==> simple.threads[t] == last.threads[t])
    && (forall t :: t in last.threads && last.threads[t].Passed? ==>
          simple.threads[t].Passed? && simple.threads[t].ctx == last.threads[t].ctx
          && simple.threads[t].route == last.threads[t].route)
  }

  lemma SimpleSameOutcome(c: Config, s: State)
    ensures SameOutcome(s, Simple(c, s))
  {}

  /** Every atomic run of the cached service, under any evictions, misses, failed calls and undecodable
      entries but with deletes that work, is matched by the run of the service without a cache that takes the
      image of each step: the same requests arrive, the repository fails at the same calls and at no other,
      and the outcome is the same. */
  lemma CachedRefinesCacheless(c: Config, states: seq<State>, labels: seq<Label>, j: nat)
    requires ConfigOk(c) && c.cacheOn && Run(c, states, labels) && Atomic(states, labels) && j < |states|
    ensures exists xs :: Run(Cacheless(c), xs, Images(states, labels, j)) && SameOutcome(states[j], xs[|xs| - 1])
    ensures SameRequests(labels[..j], Images(states, labels, j))
  {
    var xs, ls := SimulateRun(c, states, labels, j);
    SimpleSameOutcome(c, states[j]);
    ImagesSameRequests(states, labels, j);
  }
}
