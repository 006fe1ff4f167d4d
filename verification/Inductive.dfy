/** The invariant is inductive: it holds initially and every enabled step keeps it. */
module Inductive {
  import opened Domain
  import opened Postgres
  import opened Protocol
  import opened Invariant

  // ---------------------------------------------------------------- tables

  /** Adding at most one user whose keys are free keeps the user table well formed. */
  lemma AddUsers(c: Config, users: map<Uuid, User>, more: map<Uuid, User>)
    requires UsersOk(c, users)
    requires forall a, b :: a in more && b in users ==> !SameUserKey(more[a], users[b])
    requires forall a, b :: a in more && b in more ==> a == b
    requires forall a :: a in more ==> more[a].id == a && UserOk(c, more[a])
    ensures UsersOk(c, users + more)
  {
    var after := users + more;
    forall a, b | a in after && b in after && SameUserKey(after[a], after[b]) ensures a == b {
      assert a in more && b in users ==> !SameUserKey(more[a], users[b]);
      assert b in more && a in users ==> !SameUserKey(more[b], users[a]);
    }
  }

  lemma AddSessions(c: Config, users: map<Uuid, User>, sessions: map<Uuid, Session>, more: map<Uuid, Session>)
    requires SessionsOk(c, users, sessions)
    requires forall a, b :: a in more && b in sessions ==> !SameSessionKey(more[a], sessions[b])
    requires forall a, b :: a in more && b in more ==> a == b
    requires forall a :: a in more ==> more[a].id == a && SessionOk(c, more[a]) && OwnerOk(users, more[a])
    ensures SessionsOk(c, users, sessions + more)
  {
    var after := sessions + more;
    forall a, b | a in after && b in after && SameSessionKey(after[a], after[b]) ensures a == b {
      assert a in more && b in sessions ==> !SameSessionKey(more[a], sessions[b]);
      assert b in more && a in sessions ==> !SameSessionKey(more[b], sessions[a]);
    }
  }

  /** A revocation changes neither keys nor owners. */
  lemma ReviseSessions(c: Config, users: map<Uuid, User>, sessions: map<Uuid, Session>, revoked: map<Uuid, int>)
    requires SessionsOk(c, users, sessions)
    ensures SessionsOk(c, users, Revised(sessions, revoked))
  {
    var after := Revised(sessions, revoked);
    forall a, b | a in after && b in after && SameSessionKey(after[a], after[b]) ensures a == b {
      assert SameSessionKey(sessions[a], sessions[b]);
    }
  }

  lemma MoreUsers(c: Config, users: map<Uuid, User>, users': map<Uuid, User>, sessions: map<Uuid, Session>)
    requires SessionsOk(c, users, sessions)
    requires forall id :: id in users ==> id in users' && users'[id] == users[id]
    ensures SessionsOk(c, users', sessions)
  {}

  lemma CommitTables(c: Config, s: State, t: nat)
    requires TablesOk(c, s.pg) && TxOk(s, t) && JobOk(c, s.pg, s.now, s.threads[t].job)
    requires s.threads[t].done == |Statements(s.threads[t].job)|
    ensures TablesOk(c, Commit(s.pg, t))
  {
    NewKeys(c, s, t);
    var tx, job := s.pg.open[t], s.threads[t].job;
    AddUsers(c, s.pg.users, tx.users);
    var users' := s.pg.users + tx.users;
    MoreUsers(c, s.pg.users, users', s.pg.sessions);
    ReviseSessions(c, users', s.pg.sessions, tx.revoked);
    var revised := Revised(s.pg.sessions, tx.revoked);
    forall a, b | a in tx.sessions && b in revised ensures !SameSessionKey(tx.sessions[a], revised[b]) {
      assert !SameSessionKey(tx.sessions[a], s.pg.sessions[b]);
    }
    AddSessions(c, users', revised, tx.sessions);
  }

  // ---------------------------------------------------------------- threads

  /** What a thread knows stays true while other requests move on. */
  lemma ThreadOkStable(c: Config, a: Pg, b: Pg, now: int, now': int, th: Thread)
    requires ThreadOk(c, a, now, th) && Extends(a, b) && now <= now'
    ensures ThreadOk(c, b, now', th)
  {
    if th.Done? && th.reply.Issued? {
      var id :| id in a.sessions && IssuedAs(c, a.sessions[id], th.reply.user, th.reply.token, th.reply.expiresAt);
      assert IssuedAs(c, b.sessions[id], th.reply.user, th.reply.token, th.reply.expiresAt);
    }
  }

  lemma StepTables(c: Config, s: State, l: Label)
    requires TablesOk(c, s.pg) && Enabled(c, s, l)
    requires l.CommitTx? ==> TxOk(s, l.t) && JobOk(c, s.pg, s.now, s.threads[l.t].job)
    ensures TablesOk(c, Step(c, s, l).pg)
  {
    Frame(c, s, l);
    if CommitsNow(l) {
      CommitTables(c, s, l.t);
    }
  }

  predicate InProbe(l: Label) {
    l.Arrive? || l.Probe? || l.Hit?
  }

  lemma ProbeThread(c: Config, s: State, l: Label)
    requires Enabled(c, s, l) && InProbe(l) && CacheOk(c, s.pg, s.cache)
    requires l.t in s.threads ==> ThreadOk(c, s.pg, s.now, s.threads[l.t])
    ensures var s' := Step(c, s, l); ThreadOk(c, s'.pg, s'.now, s'.threads[l.t])
  {}

  lemma FindThread(c: Config, s: State, l: Label)
    requires Enabled(c, s, l) && l.Find?
    requires forall id :: id in s.pg.sessions ==> s.pg.sessions[id].id == id
    ensures var s' := Step(c, s, l); ThreadOk(c, s'.pg, s'.now, s'.threads[l.t])
  {}

  lemma CheckThread(c: Config, s: State, l: Label)
    requires Enabled(c, s, l) && l.Check? && ThreadOk(c, s.pg, s.now, s.threads[l.t])
    ensures var s' := Step(c, s, l); ThreadOk(c, s'.pg, s'.now, s'.threads[l.t])
  {}

  lemma RepopulateThread(c: Config, s: State, l: Label)
    requires Enabled(c, s, l) && (l.Until? || l.Repopulate?) && ThreadOk(c, s.pg, s.now, s.threads[l.t])
    ensures var s' := Step(c, s, l); ThreadOk(c, s'.pg, s'.now, s'.threads[l.t])
  {}

  lemma SignOutThread(c: Config, s: State, l: Label)
    requires Enabled(c, s, l) && l.Origin? && ThreadOk(c, s.pg, s.now, s.threads[l.t])
    ensures var s' := Step(c, s, l); ThreadOk(c, s'.pg, s'.now, s'.threads[l.t])
  {}

  /** An authenticated request finds its user, whichever way it was authenticated. */
  lemma ProfileThread(c: Config, s: State, l: Label)
    requires Enabled(c, s, l) && l.LoadProfile? && ThreadOk(c, s.pg, s.now, s.threads[l.t])
    requires var id := s.threads[l.t].ctx.session; id in s.pg.sessions && OwnerOk(s.pg.users, s.pg.sessions[id])
    requires forall id :: id in s.pg.users ==> s.pg.users[id].id == id
    ensures var s' := Step(c, s, l); ThreadOk(c, s'.pg, s'.now, s'.threads[l.t])
  {}

  lemma LookupThread(c: Config, s: State, l: Label)
    requires Enabled(c, s, l) && l.Lookup? && UsersOk(c, s.pg.users)
    requires ThreadOk(c, s.pg, s.now, s.threads[l.t])
    ensures var s' := Step(c, s, l); ThreadOk(c, s'.pg, s'.now, s'.threads[l.t])
  {}

  lemma TokenThread(c: Config, s: State, l: Label)
    requires Enabled(c, s, l) && l.NewToken? && UsersOk(c, s.pg.users) && ConfigOk(c)
    requires ThreadOk(c, s.pg, s.now, s.threads[l.t])
    ensures var s' := Step(c, s, l); ThreadOk(c, s'.pg, s'.now, s'.threads[l.t])
  {}

  lemma ArrivalThread(c: Config, s: State, l: Label)
    requires Enabled(c, s, l) && (l.ArriveSignUp? || l.ArriveSignIn?) && ConfigOk(c)
    ensures var s' := Step(c, s, l); ThreadOk(c, s'.pg, s'.now, s'.threads[l.t])
  {}

  lemma AfterCommitThread(c: Config, s: State, l: Label)
    requires Enabled(c, s, l) && (l.ReadTtl? || l.SetCache? || l.DeleteCache?)
    requires ThreadOk(c, s.pg, s.now, s.threads[l.t])
    ensures var s' := Step(c, s, l); ThreadOk(c, s'.pg, s'.now, s'.threads[l.t])
  {
    if l.SetCache? {
      var row := s.threads[l.t].job.session;
      assert IssuedAs(c, s.pg.sessions[row.id], row.user, s.threads[l.t].job.token, row.expiresAt);
    }
  }

  lemma BeginThread(c: Config, s: State, l: Label)
    requires Enabled(c, s, l) && l.BeginTx? && ThreadOk(c, s.pg, s.now, s.threads[l.t])
    ensures var s' := Step(c, s, l); ThreadOk(c, s'.pg, s'.now, s'.threads[l.t])
  {}

  lemma StatementThread(c: Config, s: State, l: Label)
    requires Enabled(c, s, l) && l.ExecTx? && ThreadOk(c, s.pg, s.now, s.threads[l.t])
    ensures var s' := Step(c, s, l); ThreadOk(c, s'.pg, s'.now, s'.threads[l.t])
  {
    JobOkSame(c, s.pg, Step(c, s, l).pg, s.now, s.threads[l.t].job);
  }

  /** What a job knows depends on the tables only, not on what is staged. */
  lemma JobOkSame(c: Config, a: Pg, b: Pg, now: int, job: Job)
    requires JobOk(c, a, now, job) && a.users == b.users && a.sessions == b.sessions
    ensures JobOk(c, b, now, job)
  {}

  lemma ClosingThread(c: Config, s: State, l: Label)
    requires Enabled(c, s, l) && (l.RollbackTx? || (l.CommitTx? && l.fault))
    requires ThreadOk(c, s.pg, s.now, s.threads[l.t])
    ensures var s' := Step(c, s, l); ThreadOk(c, s'.pg, s'.now, s'.threads[l.t])
  {}

  /** After a successful commit the rows of the job are in the tables. */
  lemma CommittedThread(c: Config, s: State, l: Label)
    requires Enabled(c, s, l) && CommitsNow(l) && TablesOk(c, s.pg) && TxOk(s, l.t)
    requires ThreadOk(c, s.pg, s.now, s.threads[l.t])
    ensures var s' := Step(c, s, l); ThreadOk(c, s'.pg, s'.now, s'.threads[l.t])
  {
    var job, tx, after := s.threads[l.t].job, s.pg.open[l.t], Commit(s.pg, l.t);
    CommitExtends(c, s, l.t);
    ThreadOkStable(c, s.pg, after, s.now, s.now, s.threads[l.t]);
    if job.SignOutJob? {
      assert job.ctx.session in tx.revoked;
    } else {
      assert after.sessions[job.session.id] == job.session;
      assert IssuedAs(c, after.sessions[job.session.id], job.session.user, job.token, job.session.expiresAt);
    }
  }

  lemma JobThread(c: Config, s: State, l: Label)
    requires Enabled(c, s, l) && (InTransaction(l) || AfterTransaction(l))
      && TablesOk(c, s.pg) && ThreadOk(c, s.pg, s.now, s.threads[l.t])
    requires l.CommitTx? ==> TxOk(s, l.t)
    ensures var s' := Step(c, s, l); ThreadOk(c, s'.pg, s'.now, s'.threads[l.t])
  {
    if CommitsNow(l) {
      CommittedThread(c, s, l);
    } else if l.ReadTtl? || l.SetCache? || l.DeleteCache? {
      AfterCommitThread(c, s, l);
    } else if l.BeginTx? {
      BeginThread(c, s, l);
    } else if l.ExecTx? {
      StatementThread(c, s, l);
    } else {
      ClosingThread(c, s, l);
    }
  }

  /** What the mover knows after its step, program point by program point. */
  lemma MoverThread(c: Config, s: State, l: Label)
    requires Enabled(c, s, l) && ConfigOk(c) && Moving(l) && TablesOk(c, s.pg) && CacheOk(c, s.pg, s.cache)
    requires l.t in s.threads ==> ThreadOk(c, s.pg, s.now, s.threads[l.t])
    requires l.CommitTx? ==> TxOk(s, l.t)
    ensures var s' := Step(c, s, l); l.t in s'.threads && ThreadOk(c, s'.pg, s'.now, s'.threads[l.t])
  {
    if (InTransaction(l) || AfterTransaction(l)) {
      JobThread(c, s, l);
    } else if InHandler(l) {
      HandlerThread(c, s, l);
    } else {
      MiddlewareThread(c, s, l);
    }
  }

  lemma HandlerThread(c: Config, s: State, l: Label)
    requires Enabled(c, s, l) && ConfigOk(c) && InHandler(l) && TablesOk(c, s.pg)
    requires l.t in s.threads ==> ThreadOk(c, s.pg, s.now, s.threads[l.t])
    ensures var s' := Step(c, s, l); ThreadOk(c, s'.pg, s'.now, s'.threads[l.t])
  {
    if l.Origin? {
      SignOutThread(c, s, l);
    } else if l.LoadProfile? {
      ProfileThread(c, s, l);
    } else if l.Lookup? {
      LookupThread(c, s, l);
    } else if l.NewToken? {
      TokenThread(c, s, l);
    } else {
      ArrivalThread(c, s, l);
    }
  }

  lemma MiddlewareThread(c: Config, s: State, l: Label)
    requires Enabled(c, s, l) && Moving(l) && !(InTransaction(l) || AfterTransaction(l))
      && !InHandler(l) && CacheOk(c, s.pg, s.cache)
    requires forall id :: id in s.pg.sessions ==> s.pg.sessions[id].id == id
    requires l.t in s.threads ==> ThreadOk(c, s.pg, s.now, s.threads[l.t])
    ensures var s' := Step(c, s, l); ThreadOk(c, s'.pg, s'.now, s'.threads[l.t])
  {
    if InProbe(l) {
      ProbeThread(c, s, l);
    } else if l.Find? {
      FindThread(c, s, l);
    } else if l.Check? {
      CheckThread(c, s, l);
    } else {
      RepopulateThread(c, s, l);
    }
  }

  lemma StepThreads(c: Config, s: State, l: Label)
    requires TablesOk(c, s.pg) && ThreadsOk(c, s) && CacheOk(c, s.pg, s.cache) && Enabled(c, s, l) && ConfigOk(c)
    requires l.CommitTx? ==> TxOk(s, l.t)
    ensures ThreadsOk(c, Step(c, s, l))
  {
    Frame(c, s, l);
    StepExtends(c, s, l);
    if Moving(l) {
      MoverThread(c, s, l);
    }
    OthersThreads(c, s, Step(c, s, l), l);
  }

  lemma OthersThreads(c: Config, s: State, s': State, l: Label)
    requires ThreadsOk(c, s) && Extends(s.pg, s'.pg) && s.now <= s'.now
    requires forall t :: t in s'.threads && !Mover(l, t) ==> t in s.threads && s'.threads[t] == s.threads[t]
    requires forall t :: t in s'.threads && Mover(l, t) ==> ThreadOk(c, s'.pg, s'.now, s'.threads[t])
    ensures ThreadsOk(c, s')
  {
    forall t | t in s'.threads && !Mover(l, t) ensures ThreadOk(c, s'.pg, s'.now, s'.threads[t]) {
      ThreadOkStable(c, s.pg, s'.pg, s.now, s'.now, s.threads[t]);
    }
  }

  // ---------------------------------------------------------------- cache

  /** What a cache write stores under its key agrees with the row it was copied from. */
  lemma WriteAgrees(c: Config, s: State, l: Label) returns (key: string, e: Entry)
    requires Enabled(c, s, l) && (l.Repopulate? || l.SetCache?) && !l.fault && CodecOk(c)
    requires ThreadOk(c, s.pg, s.now, s.threads[l.t])
    ensures Step(c, s, l).cache == s.cache[key := e]
    ensures c.dec(e.bytes).Some? ==> Agrees(c, s.pg, key, c.dec(e.bytes).value)
  {
    var th := s.threads[l.t];
    var row := if l.Repopulate? then th.row else th.job.session;
    key := if l.Repopulate? then c.hex(c.sha(th.raw)) else c.hex(row.tokenHash);
    e := Put(c, s.cache, s.now, key, PayloadOf(row), row.expiresAt - th.read)[key];
  }

  /** Other steps only drop values, make them undecodable, or leave the cache alone. */
  lemma NothingStored(c: Config, s: State, l: Label)
    requires Enabled(c, s, l) && ((l.Repopulate? || l.SetCache?) ==> l.fault)
    ensures var s' := Step(c, s, l);
      forall k :: k in s'.cache && c.dec(s'.cache[k].bytes).Some? ==> k in s.cache && s'.cache[k] == s.cache[k]
  {}

  lemma CacheStable(c: Config, a: Pg, b: Pg, cache: map<string, Entry>)
    requires CacheOk(c, a, cache) && Extends(a, b)
    ensures CacheOk(c, b, cache)
  {}

  lemma StepCache(c: Config, s: State, l: Label)
    requires Enabled(c, s, l) && ConfigOk(c) && CacheOk(c, s.pg, s.cache) && Extends(s.pg, Step(c, s, l).pg)
    requires Moving(l) && l.t in s.threads ==> ThreadOk(c, s.pg, s.now, s.threads[l.t])
    ensures CacheOk(c, Step(c, s, l).pg, Step(c, s, l).cache)
  {
    var s' := Step(c, s, l);
    if (l.Repopulate? || l.SetCache?) && !l.fault {
      var _, _ := WriteAgrees(c, s, l);
    } else {
      NothingStored(c, s, l);
    }
    CacheStable(c, s.pg, s'.pg, s'.cache);
  }

  // ---------------------------------------------------------------- transactions

  /** A commit leaves every other running transaction consistent with the new tables. */
  lemma CommitKeepsFresh(pg: Pg, t: nat, mine: Tx)
    requires t in pg.open && Fresh(pg, mine)
    requires Apart(mine, pg.open[t])
    requires pg.open[t].sessions.Keys !! pg.sessions.Keys
    ensures Fresh(Commit(pg, t), mine)
  {
    var tx, after := pg.open[t], Commit(pg, t);
    forall a, b | a in mine.sessions && b in after.sessions
      ensures !SameSessionKey(mine.sessions[a], after.sessions[b])
    {
      assert b in pg.sessions ==> !SameSessionKey(mine.sessions[a], pg.sessions[b]);
    }
  }

  lemma StepTxs(c: Config, s: State, l: Label)
    requires TablesOk(c, s.pg) && TxsOk(s) && Enabled(c, s, l)
    ensures TxsOk(Step(c, s, l))
  {
    var s' := Step(c, s, l);
    forall t | Running(s', t) ensures TxOk(s', t) {
      if !Mover(l, t) {
        OtherTx(c, s, l, t);
      } else {
        MoverTx(c, s, l, t);
      }
    }
    forall t, u | Running(s', t) && Running(s', u) && t != u ensures Apart(s'.pg.open[t], s'.pg.open[u]) {
      PairApart(c, s, l, t, u);
    }
    StepOpen(c, s, l);
  }

  lemma StepOpen(c: Config, s: State, l: Label)
    requires Enabled(c, s, l)
    requires forall t :: t in s.pg.open ==> t in s.threads && (s.threads[t].AtExec? || s.threads[t].AtRollback?)
    ensures var s' := Step(c, s, l);
      forall t :: t in s'.pg.open ==> t in s'.threads && (s'.threads[t].AtExec? || s'.threads[t].AtRollback?)
  {
    Frame(c, s, l);
    if Moving(l) && l.t in Step(c, s, l).pg.open {
      MoverOpen(c, s, l);
    }
  }

  lemma MoverOpen(c: Config, s: State, l: Label)
    requires Enabled(c, s, l) && Moving(l) && l.t in Step(c, s, l).pg.open
    requires l.t in s.pg.open ==> l.t in s.threads && (s.threads[l.t].AtExec? || s.threads[l.t].AtRollback?)
    ensures var s' := Step(c, s, l); l.t in s'.threads && (s'.threads[l.t].AtExec? || s'.threads[l.t].AtRollback?)
  {}

  lemma PairApart(c: Config, s: State, l: Label, t: nat, u: nat)
    requires TxsOk(s) && Enabled(c, s, l) && t != u
    requires var s' := Step(c, s, l); Running(s', t) && Running(s', u) && t in s'.pg.open && u in s'.pg.open
    ensures var s' := Step(c, s, l); Apart(s'.pg.open[t], s'.pg.open[u])
  {
    Frame(c, s, l);
    var s' := Step(c, s, l);
    if Mover(l, t) {
      assert Running(s, u) && u in s.pg.open;
      MoverApart(c, s, l, t, u);
    } else if Mover(l, u) {
      assert Running(s, t) && t in s.pg.open;
      MoverApart(c, s, l, u, t);
      ApartSymmetric(s'.pg.open[u], s'.pg.open[t]);
    } else {
      assert Running(s, t) && Running(s, u);
    }
  }

  lemma OtherTx(c: Config, s: State, l: Label, t: nat)
    requires TablesOk(c, s.pg) && TxsOk(s) && Enabled(c, s, l)
    requires !Mover(l, t) && Running(Step(c, s, l), t)
    ensures TxOk(Step(c, s, l), t)
  {
    Frame(c, s, l);
    assert Running(s, t) && TxOk(s, t);
    if CommitsNow(l) {
      assert Running(s, l.t) && TxOk(s, l.t);
      NewKeys(c, s, l.t);
      CommitKeepsFresh(s.pg, l.t, s.pg.open[t]);
    }
  }

  lemma BegunTx(c: Config, s: State, l: Label)
    requires Enabled(c, s, l) && l.BeginTx? && Running(Step(c, s, l), l.t)
    ensures TxOk(Step(c, s, l), l.t)
  {}

  /** The transaction of a statement is the old one, or the old one with the statement staged. */
  lemma StatementTx(c: Config, s: State, l: Label)
    requires Enabled(c, s, l) && l.ExecTx? && TxOk(s, l.t) && Running(Step(c, s, l), l.t)
    ensures TxOk(Step(c, s, l), l.t)
  {
    var s', job, done := Step(c, s, l), s.threads[l.t].job, s.threads[l.t].done;
    var tx' := Stage(s.pg, s.pg.open[l.t], Statements(job)[done]);
    StageOk(s.pg, l.t, job, done);
    assert s'.threads[l.t] == AtExec(job, done + 1) && s'.pg == s.pg.(open := s.pg.open[l.t := tx']);
    FreshSame(s.pg, s'.pg, tx');
  }

  lemma FreshSame(a: Pg, b: Pg, tx: Tx)
    requires Fresh(a, tx) && a.users == b.users && a.sessions == b.sessions
    ensures Fresh(b, tx)
  {}

  lemma MoverTx(c: Config, s: State, l: Label, t: nat)
    requires TxsOk(s) && Enabled(c, s, l) && Mover(l, t) && Running(Step(c, s, l), t)
    ensures TxOk(Step(c, s, l), t)
  {
    MoverStages(c, s, l, t);
    if l.ExecTx? {
      assert TxOk(s, t);
      StatementTx(c, s, l);
    } else {
      BegunTx(c, s, l);
    }
  }

  /** An applied statement adds its own write to what is staged, and what is staged stays collision free. */
  lemma StageOk(pg: Pg, t: nat, job: Job, done: nat)
    requires t in pg.open && done < |Statements(job)|
    requires Staged(job, done, pg.open[t]) && Fresh(pg, pg.open[t])
    requires OutcomeOf(pg, t, Statements(job)[done]) == Applied
    ensures Staged(job, done + 1, Stage(pg, pg.open[t], Statements(job)[done]))
    ensures Fresh(pg, Stage(pg, pg.open[t], Statements(job)[done]))
  {}

  /** The transaction of the mover was just begun, or is what it was with at most one more statement staged. */
  lemma MoverStages(c: Config, s: State, l: Label, t: nat)
    requires Enabled(c, s, l) && Mover(l, t) && Running(Step(c, s, l), t)
    ensures (l.BeginTx? && t in Step(c, s, l).pg.open
             && Step(c, s, l).pg.open[t] == Tx(s.now, map[], map[], map[], []))
         || (l.ExecTx? && Running(s, t) && t in s.pg.open && s.threads[t].done < |Statements(s.threads[t].job)|
             && var op := Statements(s.threads[t].job)[s.threads[t].done];
                !Blocked(s.pg, t, op) && t in Step(c, s, l).pg.open
                && Step(c, s, l).pg.open[t] == Stage(s.pg, s.pg.open[t], op))
  {}

  lemma MoverApart(c: Config, s: State, l: Label, t: nat, u: nat)
    requires TxsOk(s) && Enabled(c, s, l) && Mover(l, t) && t != u
    requires Running(Step(c, s, l), t) && Running(s, u)
    requires t in Step(c, s, l).pg.open && u in s.pg.open
    ensures Apart(Step(c, s, l).pg.open[t], s.pg.open[u])
  {
    MoverStages(c, s, l, t);
    if l.ExecTx? {
      StageApart(s.pg, s.pg.open[t], s.pg.open[u], Statements(s.threads[t].job)[s.threads[t].done]);
    }
  }

  /** A statement that meets no reservation keeps two transactions apart. */
  lemma StageApart(pg: Pg, tx: Tx, other: Tx, op: TxOp)
    requires Apart(tx, other) && !Meets(other, op)
    ensures Apart(Stage(pg, tx, op), other)
  {
    var tx' := Stage(pg, tx, op);
    match op
    case InsertUser(u) =>
      forall a, b | a in tx'.users && b in other.users ensures !SameUserKey(tx'.users[a], other.users[b]) {
        assert !SameUserKey(other.users[b], u);
      }
    case InsertSession(s) =>
      forall a, b | a in tx'.sessions && b in other.sessions
        ensures !SameSessionKey(tx'.sessions[a], other.sessions[b])
      {
        assert !SameSessionKey(other.sessions[b], s);
      }
    case Revoke(_, _) =>
    case Write(_) =>
  }

  lemma ApartSymmetric(x: Tx, y: Tx)
    requires Apart(x, y)
    ensures Apart(y, x)
  {
    forall a, b | a in y.users && b in x.users ensures !SameUserKey(y.users[a], x.users[b]) {
      assert !SameUserKey(x.users[b], y.users[a]);
    }
    forall a, b | a in y.sessions && b in x.sessions ensures !SameSessionKey(y.sessions[a], x.sessions[b]) {
      assert !SameSessionKey(x.sessions[b], y.sessions[a]);
    }
  }

  // ---------------------------------------------------------------- all of it

  lemma CommitKnows(c: Config, s: State, l: Label)
    requires TxsOk(s) && ThreadsOk(c, s) && Enabled(c, s, l) && l.CommitTx?
    ensures TxOk(s, l.t) && JobOk(c, s.pg, s.now, s.threads[l.t].job)
  {
    assert Running(s, l.t) && ThreadOk(c, s.pg, s.now, s.threads[l.t]);
  }

  lemma MoverKnows(c: Config, s: State, l: Label)
    requires ThreadsOk(c, s) && Moving(l) && l.t in s.threads
    ensures ThreadOk(c, s.pg, s.now, s.threads[l.t])
  {}

  lemma StepInv(c: Config, s: State, l: Label)
    requires ConfigOk(c) && Inv(c, s) && Enabled(c, s, l)
    ensures Inv(c, Step(c, s, l))
  {
    if l.CommitTx? {
      CommitKnows(c, s, l);
    }
    if Moving(l) && l.t in s.threads {
      MoverKnows(c, s, l);
    }
    StepTables(c, s, l);
    StepThreads(c, s, l);
    StepExtends(c, s, l);
    StepCache(c, s, l);
    StepTxs(c, s, l);
  }
}
