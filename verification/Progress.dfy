/** Nobody waits in a circle, and every request can still finish. */
module Progress {
  import opened Basics
  import opened Domain
  import opened Postgres
  import opened Protocol
  import opened Invariant
  import opened Runs
  import Inductive

  // ---------------------------------------------------------------- waiting

  /** The transaction has a statement left to execute. */
  predicate Executing(s: State, t: nat) {
    Running(s, t) && t in s.pg.open && s.threads[t].done < |Statements(s.threads[t].job)|
  }

  function NextStatement(s: State, t: nat): TxOp
    requires Executing(s, t)
  {
    Statements(s.threads[t].job)[s.threads[t].done]
  }

  /** The next statement of `t` meets a reservation or a lock of `u`. */
  predicate WaitsFor(s: State, t: nat, u: nat) {
    Executing(s, t) && u in s.pg.open && u != t && Meets(s.pg.open[u], NextStatement(s, t))
  }

  /** The transaction can take its next step: it is to be rolled back, to commit, or not blocked. */
  predicate Unhindered(s: State, t: nat) {
    && t in s.pg.open && t in s.threads
    && (s.threads[t].AtRollback?
        || (Running(s, t) && s.threads[t].done == |Statements(s.threads[t].job)|)
        || (Executing(s, t) && !Blocked(s.pg, t, NextStatement(s, t))))
  }

  /** Only event writes are left, which nobody ever blocks, or the commit or the rollback. */
  predicate Free(s: State, t: nat) {
    && t in s.pg.open && t in s.threads
    && (s.threads[t].AtRollback?
        || (Running(s, t) && s.threads[t].done <= |Statements(s.threads[t].job)|
            && s.threads[t].done >= if s.threads[t].job.SignUpJob? then 2 else 1))
  }

  lemma FreeIsUnhindered(s: State, t: nat)
    requires Free(s, t)
    ensures Unhindered(s, t)
  {}

  lemma OpenOk(s: State, t: nat)
    requires TxsOk(s) && t in s.pg.open
    ensures t in s.threads && (s.threads[t].AtRollback? || TxOk(s, t))
  {
    assert Running(s, t) || s.threads[t].AtRollback?;
  }

  /** Whoever holds a session reservation or a row lock has only events left to write. */
  lemma HolderIsFree(s: State, t: nat, u: nat)
    requires TxsOk(s) && WaitsFor(s, t, u) && !NextStatement(s, t).InsertUser?
    ensures Free(s, u)
  {
    OpenOk(s, u);
  }

  /** Whoever holds a user reservation is free or about to insert its session. */
  lemma UserHolder(s: State, t: nat, u: nat)
    requires TxsOk(s) && WaitsFor(s, t, u) && NextStatement(s, t).InsertUser?
    ensures Free(s, u) || (Executing(s, u) && NextStatement(s, u).InsertSession?)
  {
    OpenOk(s, u);
  }

  /** A transaction that waits, waits for one that can go on, or for one that waits for one that can go on:
      there is no circle. */
  lemma NoCircularWait(c: Config, s: State, t: nat) returns (u: nat, v: nat)
    requires Inv(c, s) && Executing(s, t) && Blocked(s.pg, t, NextStatement(s, t))
    ensures WaitsFor(s, t, u)
    ensures Unhindered(s, u) || (WaitsFor(s, u, v) && Unhindered(s, v))
  {
    u :| u in s.pg.open && u != t && Meets(s.pg.open[u], NextStatement(s, t));
    v := u;
    if !NextStatement(s, t).InsertUser? {
      HolderIsFree(s, t, u);
      FreeIsUnhindered(s, u);
    } else {
      UserHolder(s, t, u);
      if Free(s, u) {
        FreeIsUnhindered(s, u);
      } else if Blocked(s.pg, u, NextStatement(s, u)) {
        v :| v in s.pg.open && v != u && Meets(s.pg.open[v], NextStatement(s, u));
        HolderIsFree(s, u, v);
        FreeIsUnhindered(s, v);
      }
    }
  }

  // ---------------------------------------------------------------- closing transactions

  /** No call fails, nobody new arrives and no time passes. */
  predicate Calm(l: Label) {
    !Faulty(l) && !Arrives(l) && !l.Tick?
  }

  predicate AllCalm(labels: seq<Label>) {
    forall i :: 0 <= i < |labels| ==> Calm(labels[i])
  }

  /** A calm path from the first state of `xs`, ending in a state that satisfies the invariant. */
  ghost predicate Reaches(c: Config, first: State, xs: seq<State>, ls: seq<Label>) {
    Path(c, xs, ls) && xs[0] == first && AllCalm(ls) && Inv(c, xs[|xs| - 1])
  }

  lemma Continue(c: Config, first: State, xs: seq<State>, ls: seq<Label>, l: Label)
    returns (ys: seq<State>, ms: seq<Label>)
    requires ConfigOk(c) && Reaches(c, first, xs, ls) && Enabled(c, xs[|xs| - 1], l) && Calm(l)
    ensures Reaches(c, first, ys, ms) && ys[|ys| - 1] == Step(c, xs[|xs| - 1], l)
  {
    Inductive.StepInv(c, xs[|xs| - 1], l);
    ys, ms := Advance(c, xs, ls, l);
  }

  /** An unblocked statement is executed, or sends its transaction to the rollback. */
  lemma StatementStep(c: Config, s: State, t: nat)
    requires Executing(s, t) && !Blocked(s.pg, t, NextStatement(s, t))
    ensures var l := ExecTx(t, false); Enabled(c, s, l) && Calm(l)
    ensures var s', th := Step(c, s, ExecTx(t, false)), s.threads[t];
      && s'.pg.open.Keys == s.pg.open.Keys && t in s'.threads
      && (s'.threads[t].AtRollback? || s'.threads[t] == AtExec(th.job, th.done + 1))
  {}

  lemma WriteStep(c: Config, s: State, t: nat)
    requires Executing(s, t) && Free(s, t)
    ensures NextStatement(s, t).Write? && !Blocked(s.pg, t, NextStatement(s, t))
  {}

  lemma CloseStep(c: Config, s: State, t: nat)
    requires Free(s, t) && !Executing(s, t)
    ensures var l := if s.threads[t].AtRollback? then RollbackTx(t) else CommitTx(t, false);
      Enabled(c, s, l) && Calm(l) && Step(c, s, l).pg.open.Keys == s.pg.open.Keys - {t}
  {}

  lemma {:induction false} FreeCloses(c: Config, first: State, xs: seq<State>, ls: seq<Label>, t: nat)
    returns (ys: seq<State>, ms: seq<Label>)
    requires ConfigOk(c) && Reaches(c, first, xs, ls) && Free(xs[|xs| - 1], t)
    ensures Reaches(c, first, ys, ms) && ys[|ys| - 1].pg.open.Keys == xs[|xs| - 1].pg.open.Keys - {t}
    decreases Left(xs[|xs| - 1], t)
  {
    var s := xs[|xs| - 1];
    if Executing(s, t) {
      WriteStep(c, s, t);
      StatementStep(c, s, t);
      ys, ms := Continue(c, first, xs, ls, ExecTx(t, false));
      ys, ms := FreeCloses(c, first, ys, ms, t);
    } else {
      CloseStep(c, s, t);
      ys, ms := Continue(c, first, xs, ls, if s.threads[t].AtRollback? then RollbackTx(t) else CommitTx(t, false));
    }
  }

  /** The statements a transaction still has to execute. */
  function Left(s: State, t: nat): nat {
    if Executing(s, t) then |Statements(s.threads[t].job)| - s.threads[t].done else 0
  }

  /** A transaction at its session row or its revocation: it goes on and closes, or the one it waits for does. */
  lemma RowCloses(c: Config, first: State, xs: seq<State>, ls: seq<Label>, t: nat)
    returns (ys: seq<State>, ms: seq<Label>)
    requires ConfigOk(c) && Reaches(c, first, xs, ls) && Executing(xs[|xs| - 1], t)
    requires !NextStatement(xs[|xs| - 1], t).InsertUser?
    ensures Reaches(c, first, ys, ms) && ys[|ys| - 1].pg.open.Keys < xs[|xs| - 1].pg.open.Keys
  {
    var s := xs[|xs| - 1];
    if Blocked(s.pg, t, NextStatement(s, t)) {
      var u :| u in s.pg.open && u != t && Meets(s.pg.open[u], NextStatement(s, t));
      HolderIsFree(s, t, u);
      ys, ms := FreeCloses(c, first, xs, ls, u);
    } else {
      StatementStep(c, s, t);
      ys, ms := Continue(c, first, xs, ls, ExecTx(t, false));
      ys, ms := FreeCloses(c, first, ys, ms, t);
    }
  }

  /** A transaction whose user row is not blocked. */
  lemma UserGoesOn(c: Config, first: State, xs: seq<State>, ls: seq<Label>, t: nat)
    returns (ys: seq<State>, ms: seq<Label>)
    requires ConfigOk(c) && Reaches(c, first, xs, ls) && Executing(xs[|xs| - 1], t)
    requires var op := NextStatement(xs[|xs| - 1], t); op.InsertUser? && !Blocked(xs[|xs| - 1].pg, t, op)
    ensures Reaches(c, first, ys, ms) && ys[|ys| - 1].pg.open.Keys < xs[|xs| - 1].pg.open.Keys
  {
    StatementStep(c, xs[|xs| - 1], t);
    ys, ms := Continue(c, first, xs, ls, ExecTx(t, false));
    if ys[|ys| - 1].threads[t].AtRollback? {
      ys, ms := FreeCloses(c, first, ys, ms, t);
    } else {
      ys, ms := RowCloses(c, first, ys, ms, t);
    }
  }

  /** A transaction at its user row. */
  lemma UserCloses(c: Config, first: State, xs: seq<State>, ls: seq<Label>, t: nat)
    returns (ys: seq<State>, ms: seq<Label>)
    requires ConfigOk(c) && Reaches(c, first, xs, ls) && Executing(xs[|xs| - 1], t)
    requires NextStatement(xs[|xs| - 1], t).InsertUser?
    ensures Reaches(c, first, ys, ms) && ys[|ys| - 1].pg.open.Keys < xs[|xs| - 1].pg.open.Keys
  {
    var s := xs[|xs| - 1];
    if !Blocked(s.pg, t, NextStatement(s, t)) {
      ys, ms := UserGoesOn(c, first, xs, ls, t);
    } else {
      var u :| u in s.pg.open && u != t && Meets(s.pg.open[u], NextStatement(s, t));
      UserHolder(s, t, u);
      if Free(s, u) {
        ys, ms := FreeCloses(c, first, xs, ls, u);
      } else {
        ys, ms := RowCloses(c, first, xs, ls, u);
      }
    }
  }

  /** All open transactions can be brought to their end. */
  lemma {:induction false} Drain(c: Config, first: State, xs: seq<State>, ls: seq<Label>)
    returns (ys: seq<State>, ms: seq<Label>)
    requires ConfigOk(c) && Reaches(c, first, xs, ls)
    ensures Reaches(c, first, ys, ms) && ys[|ys| - 1].pg.open == map[]
    decreases xs[|xs| - 1].pg.open.Keys
  {
    var s := xs[|xs| - 1];
    ys, ms := xs, ls;
    if s.pg.open != map[] {
      var t :| t in s.pg.open;
      OpenOk(s, t);
      if Free(s, t) {
        ys, ms := FreeCloses(c, first, xs, ls, t);
      } else if NextStatement(s, t).InsertUser? {
        ys, ms := UserCloses(c, first, xs, ls, t);
      } else {
        ys, ms := RowCloses(c, first, xs, ls, t);
      }
      ys, ms := Drain(c, first, ys, ms);
    }
  }

  // ---------------------------------------------------------------- finishing a request

  /** No transaction but the request's own is open. */
  predicate Alone(s: State, t: nat) {
    forall u :: u in s.pg.open ==> u == t
  }

  /** How many own steps the request still needs at most. */
  function Rank(th: Thread): nat {
    match th
    case AtProbe(_, _) => 20
    case AtHit(_, _, _) => 19
    case AtFind(_, _) => 18
    case AtCheck(_, _, _) => 17
    case AtUntil(_, _, _, _) => 16
    case AtRepopulate(_, _, _, _, _) => 15
    case Passed(_, _, _) => 14
    case AtLookup(_, _) => 13
    case AtToken(_, _) => 12
    case AtBegin(job) => |Statements(job)| + 5
    case AtExec(job, done) => if done < |Statements(job)| then |Statements(job)| - done + 4 else 4
    case AtTtl(_) => 3
    case AtSet(_, _) => 2
    case AtDelete(_) => 2
    case AtRollback(_, _) => 1
    case Done(_) => 0
  }

  /** A calm step of the request that brings it closer to its end. */
  ghost predicate Progresses(c: Config, s: State, t: nat, l: Label) {
    t in s.threads && Enabled(c, s, l) && Calm(l)
    && var s' := Step(c, s, l);
    t in s'.threads && Rank(s'.threads[t]) < Rank(s.threads[t]) && Alone(s', t)
  }

  predicate InCache(th: Thread) {
    th.AtProbe? || th.AtHit? || th.AtUntil? || th.AtRepopulate?
  }

  lemma CacheProgress(c: Config, s: State, t: nat) returns (l: Label)
    requires t in s.threads && InCache(s.threads[t]) && Alone(s, t)
    ensures Progresses(c, s, t, l)
  {
    match s.threads[t]
    case AtProbe(_, _) => l := Probe(t, false);
    case AtHit(_, _, _) => l := Hit(t);
    case AtUntil(_, _, _, _) => l := Until(t);
    case AtRepopulate(_, _, _, _, _) => l := Repopulate(t, false);
  }

  lemma FindProgress(c: Config, s: State, t: nat) returns (l: Label)
    requires t in s.threads && (s.threads[t].AtFind? || s.threads[t].AtCheck?) && Alone(s, t)
    ensures Progresses(c, s, t, l)
  {
    if s.threads[t].AtCheck? {
      l := Check(t);
    } else if id :| id in s.pg.sessions && s.pg.sessions[id].tokenHash == c.sha(s.threads[t].raw) {
      l := Find(t, Row(id));
    } else {
      l := Find(t, NoRow);
    }
  }

  lemma PassedProgress(c: Config, s: State, t: nat) returns (l: Label)
    requires t in s.threads && s.threads[t].Passed? && Alone(s, t)
    ensures Progresses(c, s, t, l)
  {
    var ctx, users := s.threads[t].ctx, s.pg.users;
    if s.threads[t].route.SignOut? {
      l := Origin(t, true);
    } else if ctx.user in users && users[ctx.user].tenant == ctx.tenant {
      l := LoadProfile(t, Row(ctx.user));
    } else {
      l := LoadProfile(t, NoRow);
    }
  }

  lemma LookupProgress(c: Config, s: State, t: nat) returns (l: Label)
    requires t in s.threads && s.threads[t].AtLookup? && Alone(s, t)
    ensures Progresses(c, s, t, l)
  {
    var th, users := s.threads[t], s.pg.users;
    if id :| id in users && users[id].tenant == th.input.tenant && users[id].email == th.email {
      l := Lookup(t, Row(id));
    } else {
      l := Lookup(t, NoRow);
    }
  }

  lemma TokenProgress(c: Config, s: State, t: nat) returns (l: Label)
    requires t in s.threads && s.threads[t].AtToken? && Alone(s, t)
    ensures Progresses(c, s, t, l)
  {
    var id := Uuid([1, 0, 0, 0, 0, 0, 0, 0, 0, 0, 0, 0, 0, 0, 0, 0]);
    assert id.bytes[0] != NIL.bytes[0];
    l := NewToken(t, seq(TOKEN_MIN_LEN, _ => 'a'), id, false);
  }

  lemma BeginProgress(c: Config, s: State, t: nat)
    requires t in s.threads && s.threads[t].AtBegin? && Alone(s, t)
    ensures Progresses(c, s, t, BeginTx(t, false))
  {}

  lemma ExecProgress(c: Config, s: State, t: nat)
    requires Executing(s, t) && Alone(s, t)
    ensures Progresses(c, s, t, ExecTx(t, false))
  {
    StatementStep(c, s, t);
  }

  lemma CommitProgress(c: Config, s: State, t: nat)
    requires Running(s, t) && t in s.pg.open && s.threads[t].done == |Statements(s.threads[t].job)| && Alone(s, t)
    ensures Progresses(c, s, t, CommitTx(t, false))
  {}

  lemma RollbackProgress(c: Config, s: State, t: nat)
    requires t in s.threads && s.threads[t].AtRollback? && Alone(s, t)
    ensures Progresses(c, s, t, RollbackTx(t))
  {}

  lemma TransactionProgress(c: Config, s: State, t: nat) returns (l: Label)
    requires t in s.threads && s.threads[t].AtExec? && TxOk(s, t) && Alone(s, t)
    ensures Progresses(c, s, t, l)
  {
    if Executing(s, t) {
      ExecProgress(c, s, t);
      l := ExecTx(t, false);
    } else {
      CommitProgress(c, s, t);
      l := CommitTx(t, false);
    }
  }

  lemma TtlProgress(c: Config, s: State, t: nat)
    requires t in s.threads && s.threads[t].AtTtl? && !s.threads[t].job.SignOutJob? && Alone(s, t)
    ensures Progresses(c, s, t, ReadTtl(t))
  {}

  lemma SetProgress(c: Config, s: State, t: nat)
    requires t in s.threads && s.threads[t].AtSet? && !s.threads[t].job.SignOutJob? && Alone(s, t)
    ensures Progresses(c, s, t, SetCache(t, false))
  {}

  lemma DeleteProgress(c: Config, s: State, t: nat)
    requires t in s.threads && s.threads[t].AtDelete? && s.threads[t].job.SignOutJob? && Alone(s, t)
    ensures Progresses(c, s, t, DeleteCache(t, false))
  {}

  lemma AfterProgress(c: Config, s: State, t: nat) returns (l: Label)
    requires t in s.threads && (s.threads[t].AtTtl? || s.threads[t].AtSet? || s.threads[t].AtDelete?)
    requires Alone(s, t) && ThreadOk(c, s.pg, s.now, s.threads[t])
    ensures Progresses(c, s, t, l)
  {
    if s.threads[t].AtTtl? {
      TtlProgress(c, s, t);
      l := ReadTtl(t);
    } else if s.threads[t].AtSet? {
      SetProgress(c, s, t);
      l := SetCache(t, false);
    } else {
      DeleteProgress(c, s, t);
      l := DeleteCache(t, false);
    }
  }

  lemma OwnProgress(c: Config, s: State, t: nat) returns (l: Label)
    requires Inv(c, s) && t in s.threads && !s.threads[t].Done? && Alone(s, t)
    ensures Progresses(c, s, t, l)
  {
    match s.threads[t]
    case AtFind(_, _) => l := FindProgress(c, s, t);
    case AtCheck(_, _, _) => l := FindProgress(c, s, t);
    case Passed(_, _, _) => l := PassedProgress(c, s, t);
    case AtLookup(_, _) => l := LookupProgress(c, s, t);
    case AtToken(_, _) => l := TokenProgress(c, s, t);
    case AtBegin(_) =>
      BeginProgress(c, s, t);
      l := BeginTx(t, false);
    case AtExec(_, _) =>
      assert Running(s, t);
      l := TransactionProgress(c, s, t);
    case AtRollback(_, _) =>
      RollbackProgress(c, s, t);
      l := RollbackTx(t);
    case AtTtl(_) => l := AfterProgress(c, s, t);
    case AtSet(_, _) => l := AfterProgress(c, s, t);
    case AtDelete(_) => l := AfterProgress(c, s, t);
    case _ => l := CacheProgress(c, s, t);
  }

  lemma {:induction false} RunOn(c: Config, first: State, xs: seq<State>, ls: seq<Label>, t: nat)
    returns (ys: seq<State>, ms: seq<Label>)
    requires ConfigOk(c) && Reaches(c, first, xs, ls) && t in xs[|xs| - 1].threads && Alone(xs[|xs| - 1], t)
    ensures Reaches(c, first, ys, ms) && t in ys[|ys| - 1].threads && ys[|ys| - 1].threads[t].Done?
    decreases Rank(xs[|xs| - 1].threads[t])
  {
    ys, ms := xs, ls;
    if !xs[|xs| - 1].threads[t].Done? {
      var l := OwnProgress(c, xs[|xs| - 1], t);
      ys, ms := Continue(c, first, xs, ls, l);
      ys, ms := RunOn(c, first, ys, ms, t);
    }
  }

  lemma {:induction false} ThreadsStay(c: Config, xs: seq<State>, ls: seq<Label>, i: nat)
    requires Path(c, xs, ls) && i < |xs|
    ensures xs[0].threads.Keys <= xs[i].threads.Keys
  {
    if i > 0 {
      ThreadsStay(c, xs, ls, i - 1);
      StepFrame(c, xs, ls, i - 1);
    }
  }

  ghost predicate FinishesBy(c: Config, s: State, t: nat, xs: seq<State>, ls: seq<Label>) {
    && Path(c, xs, ls) && xs[0] == s && AllCalm(ls)
    && var last := xs[|xs| - 1];
    t in last.threads && last.threads[t].Done?
  }

  /** From every state the invariant allows, every unfinished request has a continuation that finishes it, in
      which no call fails, nobody new arrives and no time has to pass: every open transaction is brought to its
      commit, or to its rollback when a statement is refused, and then the request runs on alone. */
  lemma EveryRequestCanFinish(c: Config, s: State, t: nat)
    requires ConfigOk(c) && Inv(c, s) && t in s.threads
    ensures exists xs, ls :: FinishesBy(c, s, t, xs, ls)
  {
    var xs, ls := Drain(c, s, [s], []);
    ThreadsStay(c, xs, ls, |ls|);
    var ys, ms := RunOn(c, s, xs, ls, t);
    assert FinishesBy(c, s, t, ys, ms);
  }
}
