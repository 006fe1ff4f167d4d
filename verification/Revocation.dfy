/** What a committed sign-out guarantees about the cache, over all interleavings.

    The delete after the commit is best effort, and a request that read the row before the revocation
    may still be about to write it back.  The theorems say exactly which threads those are, that there
    are ever fewer of them, and that nothing else can bring the entry back. */
module Revocation {
  import opened Basics
  import opened Domain
  import opened Postgres
  import opened Protocol
  import opened Invariant
  import opened Runs

  /** A thread that holds an unrevoked copy of the row with hash `h` and may still write it to the cache. */
  predicate Pending(th: Thread, h: Bytes) {
    match th
    case AtCheck(_, _, row) => row.tokenHash == h && row.revokedAt.None?
    case AtUntil(_, _, row, _) => row.tokenHash == h
    case AtRepopulate(_, _, row, _, _) => row.tokenHash == h
    case AtTtl(job) => !job.SignOutJob? && job.session.tokenHash == h
    case AtSet(job, _) => !job.SignOutJob? && job.session.tokenHash == h
    case _ => false
  }

  /** Pending, and the clock does not stop it: an expired copy is dropped before it is written. */
  predicate CanWrite(now: int, th: Thread, h: Bytes) {
    Pending(th, h) && ((th.AtCheck? || th.AtUntil?) ==> now < th.row.expiresAt)
  }

  /** The steps that make a thread pending: reading the unrevoked row, or committing it. */
  predicate Acquires(s: State, l: Label, h: Bytes) {
    (l.Find? && l.answer.Row? && l.answer.id in s.pg.sessions
     && s.pg.sessions[l.answer.id].tokenHash == h && s.pg.sessions[l.answer.id].revokedAt.None?)
    || (CommitsNow(l) && l.t in s.threads && s.threads[l.t].AtExec?
        && !s.threads[l.t].job.SignOutJob? && s.threads[l.t].job.session.tokenHash == h)
  }

  lemma MoverPending(c: Config, s: State, l: Label, h: Bytes)
    requires Enabled(c, s, l) && Moving(l) && Pending(Step(c, s, l).threads[l.t], h)
    ensures (l.t in s.threads && Pending(s.threads[l.t], h)) || Acquires(s, l, h)
  {}

  lemma StepPending(c: Config, s: State, l: Label, t: nat, h: Bytes)
    requires Enabled(c, s, l) && t in Step(c, s, l).threads && Pending(Step(c, s, l).threads[t], h)
    ensures (t in s.threads && Pending(s.threads[t], h)) || (Mover(l, t) && Acquires(s, l, h))
  {
    if Mover(l, t) {
      MoverPending(c, s, l, h);
    } else {
      Frame(c, s, l);
    }
  }

  lemma MoverCanWrite(c: Config, s: State, l: Label, h: Bytes)
    requires Enabled(c, s, l) && Moving(l) && CanWrite(Step(c, s, l).now, Step(c, s, l).threads[l.t], h)
    ensures (l.t in s.threads && CanWrite(s.now, s.threads[l.t], h)) || Acquires(s, l, h)
  {}

  lemma StepCanWrite(c: Config, s: State, l: Label, t: nat, h: Bytes)
    requires Enabled(c, s, l) && t in Step(c, s, l).threads && CanWrite(Step(c, s, l).now, Step(c, s, l).threads[t], h)
    ensures (t in s.threads && CanWrite(s.now, s.threads[t], h)) || (Mover(l, t) && Acquires(s, l, h))
  {
    if Mover(l, t) {
      MoverCanWrite(c, s, l, h);
    } else {
      Frame(c, s, l);
    }
  }

  /** Once the row is revoked nobody acquires it any more. */
  lemma NoneAcquire(c: Config, s: State, l: Label, id: Uuid)
    requires Enabled(c, s, l) && SessionsOk(c, s.pg.users, s.pg.sessions) && TxsOk(s) && Revoked(s.pg, id)
    ensures !Acquires(s, l, s.pg.sessions[id].tokenHash)
  {
    if l.Find? && l.answer.Row? && l.answer.id in s.pg.sessions {
      assert s.pg.sessions[l.answer.id].tokenHash == s.pg.sessions[id].tokenHash ==>
        SameSessionKey(s.pg.sessions[l.answer.id], s.pg.sessions[id]);
    } else if CommitsNow(l) && !s.threads[l.t].job.SignOutJob? {
      assert Running(s, l.t) && TxOk(s, l.t);
      var row := s.threads[l.t].job.session;
      assert row.id in s.pg.open[l.t].sessions;
      assert !SameSessionKey(s.pg.open[l.t].sessions[row.id], s.pg.sessions[id]);
    }
  }

  /** Steps that store a value under a key. */
  predicate Writes(c: Config, s: State, l: Label, key: string) {
    && (l.Repopulate? || l.SetCache?) && !l.fault && l.t in s.threads
    && (l.Repopulate? ==> s.threads[l.t].AtRepopulate? && key == c.hex(c.sha(s.threads[l.t].raw)))
    && (l.SetCache? ==> s.threads[l.t].AtSet? && !s.threads[l.t].job.SignOutJob?
                        && key == c.hex(s.threads[l.t].job.session.tokenHash))
  }

  lemma StepKeys(c: Config, s: State, l: Label, key: string)
    requires Enabled(c, s, l) && key in Step(c, s, l).cache
    ensures key in s.cache || Writes(c, s, l, key)
  {}

  /** Only a thread that can write the row stores a value under its key. */
  lemma WriterIsPending(c: Config, s: State, l: Label, h: Bytes)
    requires HexInjective(c) && ThreadsOk(c, s) && Writes(c, s, l, c.hex(h))
    ensures CanWrite(s.now, s.threads[l.t], h)
  {
    assert ThreadOk(c, s.pg, s.now, s.threads[l.t]);
  }

  // ---------------------------------------------------------------- a step after the revocation

  lemma RevokedLater(a: Pg, b: Pg, id: Uuid)
    requires Extends(a, b) && Revoked(a, id)
    ensures Revoked(b, id) && b.sessions[id].tokenHash == a.sessions[id].tokenHash
    ensures PayloadOf(b.sessions[id]) == PayloadOf(a.sessions[id])
  {}

  lemma InvExtends(c: Config, s: State, l: Label)
    requires Inv(c, s) && Enabled(c, s, l)
    ensures Extends(s.pg, Step(c, s, l).pg)
  {
    assert l.CommitTx? ==> Running(s, l.t);
    StepExtends(c, s, l);
  }

  /** Once the row is revoked it stays so, and the next step does not acquire it. */
  lemma RevokedStays(c: Config, s: State, l: Label, id: Uuid)
    requires Inv(c, s) && Enabled(c, s, l) && Revoked(s.pg, id)
    ensures var s' := Step(c, s, l);
      Revoked(s'.pg, id) && s'.pg.sessions[id].tokenHash == s.pg.sessions[id].tokenHash
      && PayloadOf(s'.pg.sessions[id]) == PayloadOf(s.pg.sessions[id])
    ensures !Acquires(s, l, s.pg.sessions[id].tokenHash)
  {
    InvExtends(c, s, l);
    RevokedLater(s.pg, Step(c, s, l).pg, id);
    NoneAcquire(c, s, l, id);
  }

  /** Seen from a revoked row: nobody becomes pending, nobody becomes able to write. */
  lemma RevokedStep(c: Config, s: State, l: Label, h: Bytes)
    requires Enabled(c, s, l) && !Acquires(s, l, h)
    ensures var s' := Step(c, s, l);
      && (forall t :: t in s'.threads && Pending(s'.threads[t], h) ==> t in s.threads && Pending(s.threads[t], h))
      && (Quiet(s, h) ==> Quiet(s', h))
  {
    var s' := Step(c, s, l);
    forall t | t in s'.threads && Pending(s'.threads[t], h) ensures t in s.threads && Pending(s.threads[t], h) {
      StepPending(c, s, l, t, h);
    }
    forall t | t in s'.threads && CanWrite(s'.now, s'.threads[t], h)
      ensures t in s.threads && CanWrite(s.now, s.threads[t], h)
    {
      StepCanWrite(c, s, l, t, h);
    }
  }

  /** No thread is about to write the row with hash `h`. */
  predicate Quiet(s: State, h: Bytes) {
    forall t :: t in s.threads ==> !CanWrite(s.now, s.threads[t], h)
  }

  /** The row is revoked, nobody is able to write it, and there is no entry. */
  predicate Gone(c: Config, s: State, id: Uuid, h: Bytes) {
    Revoked(s.pg, id) && s.pg.sessions[id].tokenHash == h && Quiet(s, h) && c.hex(h) !in s.cache
  }

  lemma GoneStep(c: Config, s: State, l: Label, id: Uuid, h: Bytes)
    requires HexInjective(c) && Inv(c, s) && Enabled(c, s, l) && Gone(c, s, id, h)
    ensures Gone(c, Step(c, s, l), id, h)
  {
    RevokedStays(c, s, l, id);
    RevokedStep(c, s, l, h);
    if c.hex(h) in Step(c, s, l).cache {
      StepKeys(c, s, l, c.hex(h));
      WriterIsPending(c, s, l, h);
      assert false;
    }
  }

  // ---------------------------------------------------------------- over runs

  /** Who is pending after the revocation was pending at the revocation, and is ever fewer. */
  lemma {:induction false} PendingShrinks(c: Config, states: seq<State>, labels: seq<Label>, i: nat, j: nat, id: Uuid)
    requires ConfigOk(c) && Run(c, states, labels) && i <= j < |states| && Revoked(states[i].pg, id)
    ensures Revoked(states[j].pg, id) && states[j].pg.sessions[id].tokenHash == states[i].pg.sessions[id].tokenHash
    ensures var h := states[i].pg.sessions[id].tokenHash;
      forall t :: t in states[j].threads && Pending(states[j].threads[t], h) ==>
        t in states[i].threads && Pending(states[i].threads[t], h)
    decreases j - i
  {
    if i < j {
      PendingShrinks(c, states, labels, i, j - 1, id);
      RunInv(c, states, labels, j - 1);
      assert Moves(c, states, labels, j - 1);
      RevokedStays(c, states[j - 1], labels[j - 1], id);
      RevokedStep(c, states[j - 1], labels[j - 1], states[i].pg.sessions[id].tokenHash);
    }
  }

  /** A pending thread read or committed the row, unrevoked, at an earlier step, and was pending ever since. */
  lemma {:induction false} PendingReadEarlier(
      c: Config, states: seq<State>, labels: seq<Label>, j: nat, t: nat, h: Bytes)
    returns (k: nat)
    requires ConfigOk(c) && Run(c, states, labels) && j < |states|
    requires t in states[j].threads && Pending(states[j].threads[t], h)
    ensures k < j && Mover(labels[k], t) && Acquires(states[k], labels[k], h)
    ensures forall n :: k < n <= j ==> t in states[n].threads && Pending(states[n].threads[t], h)
  {
    k := 0;
    if j > 0 {
      assert Moves(c, states, labels, j - 1);
      StepPending(c, states[j - 1], labels[j - 1], t, h);
      if t in states[j - 1].threads && Pending(states[j - 1].threads[t], h) {
        k := PendingReadEarlier(c, states, labels, j - 1, t, h);
      } else {
        k := j - 1;
      }
    }
  }

  lemma GoneNext(c: Config, states: seq<State>, labels: seq<Label>, i: nat, id: Uuid, h: Bytes)
    requires HexInjective(c) && Path(c, states, labels) && AllInv(c, states)
    requires i < |labels| && Gone(c, states[i], id, h)
    ensures Gone(c, states[i + 1], id, h)
  {
    assert Moves(c, states, labels, i) && Inv(c, states[i]);
    GoneStep(c, states[i], labels[i], id, h);
  }

  lemma {:induction false} GoneStays(c: Config, states: seq<State>, labels: seq<Label>, j: nat, id: Uuid, h: Bytes)
    requires HexInjective(c) && Path(c, states, labels) && j < |states|
    requires AllInv(c, states)
    requires Gone(c, states[0], id, h)
    ensures Gone(c, states[j], id, h)
  {
    if j > 0 {
      GoneStays(c, states, labels, j - 1, id, h);
      GoneNext(c, states, labels, j - 1, id, h);
    }
  }

  /** With the row revoked, nobody able to write it and no entry, there is never an entry again. */
  lemma QuietStays(c: Config, states: seq<State>, labels: seq<Label>, j: nat, id: Uuid, h: Bytes)
    requires ConfigOk(c) && Path(c, states, labels) && Inv(c, states[0]) && j < |states|
    requires Gone(c, states[0], id, h)
    ensures Gone(c, states[j], id, h)
  {
    PathAllInv(c, states, labels);
    GoneStays(c, states, labels, j, id, h);
  }

  // ---------------------------------------------------------------- the entry can return iff somebody can write it

  /** The uninterrupted steps by which thread `t` writes its copy. */
  function WriteLabels(th: Thread, t: nat): seq<Label> {
    match th
    case AtCheck(_, _, _) => [Check(t), Until(t), Repopulate(t, false)]
    case AtUntil(_, _, _, _) => [Until(t), Repopulate(t, false)]
    case AtRepopulate(_, _, _, _, _) => [Repopulate(t, false)]
    case AtTtl(_) => [ReadTtl(t), SetCache(t, false)]
    case _ => [SetCache(t, false)]
  }

  /** The next step of a thread that can write: it stores the value, or it stays able to. */
  lemma WriterStep(c: Config, s: State, t: nat, h: Bytes)
    requires c.cacheOn && t in s.threads && ThreadOk(c, s.pg, s.now, s.threads[t]) && CanWrite(s.now, s.threads[t], h)
    ensures var labels := WriteLabels(s.threads[t], t);
      && Enabled(c, s, labels[0])
      && var s' := Step(c, s, labels[0]);
      && t in s'.threads
      && (|labels| == 1 ==> c.hex(h) in s'.cache)
      && (|labels| > 1 ==> CanWrite(s'.now, s'.threads[t], h) && WriteLabels(s'.threads[t], t) == labels[1..]
                           && ThreadOk(c, s'.pg, s'.now, s'.threads[t]))
  {}

  /** A thread that can write does write, if it runs on and the cache does not fail. */
  lemma {:induction false} WriterWrites(c: Config, s: State, t: nat, h: Bytes) returns (states: seq<State>)
    requires c.cacheOn && t in s.threads && ThreadOk(c, s.pg, s.now, s.threads[t]) && CanWrite(s.now, s.threads[t], h)
    ensures Path(c, states, WriteLabels(s.threads[t], t)) && states[0] == s
    ensures c.hex(h) in states[|states| - 1].cache
    decreases |WriteLabels(s.threads[t], t)|
  {
    var labels := WriteLabels(s.threads[t], t);
    WriterStep(c, s, t, h);
    var s' := Step(c, s, labels[0]);
    if |labels| == 1 {
      states := [s, s'];
      assert Moves(c, states, labels, 0);
    } else {
      var rest := WriterWrites(c, s', t, h);
      PathCons(c, s, labels[0], rest, labels[1..]);
      assert [labels[0]] + labels[1..] == labels;
      states := [s] + rest;
    }
  }

  /** Some continuation stores a value under the key again. */
  ghost predicate Returns(c: Config, s: State, key: string) {
    exists states: seq<State>, labels: seq<Label> ::
      Path(c, states, labels) && states[0] == s && key in states[|states| - 1].cache
  }

  /** The exact condition: after the row is revoked and its entry deleted, some value can be stored under the
      key again if and only if some thread holds an unrevoked copy on its way to the cache.  Expiry stops only
      those threads that have yet to check it: a thread at its Set stores an expired copy as well. */
  lemma EntryReturnsIff(c: Config, s: State, id: Uuid, h: Bytes)
    requires ConfigOk(c) && c.cacheOn && Inv(c, s) && Revoked(s.pg, id) && s.pg.sessions[id].tokenHash == h
    requires c.hex(h) !in s.cache
    ensures Returns(c, s, c.hex(h)) <==> !Quiet(s, h)
  {
    if !Quiet(s, h) {
      var t :| t in s.threads && CanWrite(s.now, s.threads[t], h);
      var states := WriterWrites(c, s, t, h);
      assert Path(c, states, WriteLabels(s.threads[t], t));
    } else if Returns(c, s, c.hex(h)) {
      var states: seq<State>, labels: seq<Label> :|
        Path(c, states, labels) && states[0] == s && c.hex(h) in states[|states| - 1].cache;
      QuietStays(c, states, labels, |states| - 1, id, h);
      assert false;
    }
  }

  // ---------------------------------------------------------------- requests after the delete

  /** The program points a request can reach once it misses the cache of a revoked session. */
  predicate Doomed(c: Config, th: Thread, h: Bytes) {
    match th
    case AtFind(raw, _) => c.sha(raw) == h
    case AtCheck(raw, _, row) => c.sha(raw) == h && row.revokedAt.Some?
    case Done(reply) => reply == Refused(SessionInvalid) || reply == Refused(Unavailable)
    case _ => false
  }

  lemma MoverDoomed(c: Config, s: State, l: Label, t: nat, id: Uuid, h: Bytes)
    requires Enabled(c, s, l) && Mover(l, t) && OnlySession(s.pg, id, h) && Revoked(s.pg, id)
    requires t in s.threads && Doomed(c, s.threads[t], h)
    ensures t in Step(c, s, l).threads && Doomed(c, Step(c, s, l).threads[t], h)
  {}

  lemma RunDoomed(c: Config, states: seq<State>, labels: seq<Label>, i: nat, t: nat, id: Uuid, h: Bytes)
    requires ConfigOk(c) && Run(c, states, labels) && i < |labels|
    requires Revoked(states[i].pg, id) && states[i].pg.sessions[id].tokenHash == h
    requires t in states[i].threads && Doomed(c, states[i].threads[t], h)
    ensures t in states[i + 1].threads && Doomed(c, states[i + 1].threads[t], h)
  {
    if Mover(labels[i], t) {
      RunInv(c, states, labels, i);
      UniqueHash(c, states[i].pg, id);
      assert Moves(c, states, labels, i);
      MoverDoomed(c, states[i], labels[i], t, id, h);
    } else {
      StepFrame(c, states, labels, i);
    }
  }

  lemma ProbeDoomed(c: Config, s: State, l: Label, h: Bytes)
    requires Enabled(c, s, l) && l.Probe? && c.sha(s.threads[l.t].raw) == h && c.hex(h) !in s.cache
    ensures l.t in Step(c, s, l).threads && Doomed(c, Step(c, s, l).threads[l.t], h)
  {}

  lemma AbsentAfter(c: Config, states: seq<State>, labels: seq<Label>, m: nat, j: nat, id: Uuid, h: Bytes)
    requires ConfigOk(c) && Run(c, states, labels) && m <= j < |states|
    requires Revoked(states[m].pg, id) && states[m].pg.sessions[id].tokenHash == h
    requires Quiet(states[m], h) && c.hex(h) !in states[m].cache
    ensures Revoked(states[j].pg, id) && states[j].pg.sessions[id].tokenHash == h && c.hex(h) !in states[j].cache
  {
    RunInv(c, states, labels, m);
    Suffix(c, states, labels, m);
    QuietStays(c, states[m..], labels[m..], j - m, id, h);
  }

  /** If the entry of a revoked session is absent while nobody can write it - which is how a successful
      delete leaves things when nobody is pending - then every request whose cache probe comes later is
      refused, at whatever time and with whatever faults. */
  lemma {:induction false} ProbedAfterDeleteIsRefused(
      c: Config, states: seq<State>, labels: seq<Label>, m: nat, i: nat, j: nat, t: nat, id: Uuid, h: Bytes)
    requires ConfigOk(c) && Run(c, states, labels) && m <= i < j < |states|
    requires Revoked(states[m].pg, id) && states[m].pg.sessions[id].tokenHash == h
    requires Quiet(states[m], h) && c.hex(h) !in states[m].cache
    requires labels[i].Probe? && labels[i].t == t && t in states[i].threads && states[i].threads[t].AtProbe?
    requires c.sha(states[i].threads[t].raw) == h
    ensures t in states[j].threads && Doomed(c, states[j].threads[t], h)
    decreases j
  {
    AbsentAfter(c, states, labels, m, j - 1, id, h);
    if j - 1 > i {
      ProbedAfterDeleteIsRefused(c, states, labels, m, i, j - 1, t, id, h);
      RunDoomed(c, states, labels, j - 1, t, id, h);
    } else {
      assert Moves(c, states, labels, i);
      ProbeDoomed(c, states[i], labels[i], h);
    }
  }

  /** The same, starting at the delete itself. */
  lemma DeleteWhileQuiet(
      c: Config, states: seq<State>, labels: seq<Label>, d: nat, i: nat, j: nat, t: nat)
    requires ConfigOk(c) && Run(c, states, labels) && d < i < j < |states|
    requires labels[d].DeleteCache? && !labels[d].fault
    requires labels[d].t in states[d].threads && states[d].threads[labels[d].t].AtDelete?
    requires states[d].threads[labels[d].t].job.SignOutJob?
    requires var id := states[d].threads[labels[d].t].job.ctx.session;
      && id in states[d].pg.sessions && Quiet(states[d], states[d].pg.sessions[id].tokenHash)
      && labels[i].Probe? && labels[i].t == t && t in states[i].threads && states[i].threads[t].AtProbe?
      && c.sha(states[i].threads[t].raw) == states[d].pg.sessions[id].tokenHash
    ensures var id := states[d].threads[labels[d].t].job.ctx.session;
      t in states[j].threads && Doomed(c, states[j].threads[t], states[d].pg.sessions[id].tokenHash)
  {
    var id := states[d].threads[labels[d].t].job.ctx.session;
    var h := states[d].pg.sessions[id].tokenHash;
    RunInv(c, states, labels, d);
    assert Moves(c, states, labels, d);
    DeleteStep(c, states[d], labels[d], id, h);
    ProbedAfterDeleteIsRefused(c, states, labels, d + 1, i, j, t, id, h);
  }

  lemma DeleteStep(c: Config, s: State, l: Label, id: Uuid, h: Bytes)
    requires Enabled(c, s, l) && l.DeleteCache? && !l.fault && ThreadsOk(c, s)
    requires s.threads[l.t].job.ctx.session == id && id in s.pg.sessions && s.pg.sessions[id].tokenHash == h
    requires Quiet(s, h)
    ensures var s' := Step(c, s, l);
      Revoked(s'.pg, id) && s'.pg.sessions[id].tokenHash == h && Quiet(s', h) && c.hex(h) !in s'.cache
  {
    assert ThreadOk(c, s.pg, s.now, s.threads[l.t]);
  }
}
