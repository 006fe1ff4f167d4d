/** From steps to runs: what holds in every reachable state, and what any two states of a run share. */
module Runs {
  import opened Domain
  import opened Postgres
  import opened Protocol
  import opened Invariant
  import Inductive

  lemma {:induction false} PathInv(c: Config, states: seq<State>, labels: seq<Label>, i: nat)
    requires ConfigOk(c) && Path(c, states, labels) && Inv(c, states[0]) && i < |states|
    ensures Inv(c, states[i])
  {
    if i > 0 {
      PathInv(c, states, labels, i - 1);
      assert Moves(c, states, labels, i - 1);
      Inductive.StepInv(c, states[i - 1], labels[i - 1]);
    }
  }

  ghost predicate AllInv(c: Config, states: seq<State>) {
    forall i {:trigger Inv(c, states[i])} :: 0 <= i < |states| ==> Inv(c, states[i])
  }

  lemma PathAllInv(c: Config, states: seq<State>, labels: seq<Label>)
    requires ConfigOk(c) && Path(c, states, labels) && Inv(c, states[0])
    ensures AllInv(c, states)
  {
    forall i | 0 <= i < |states| ensures Inv(c, states[i]) {
      PathInv(c, states, labels, i);
    }
  }

  lemma RunInv(c: Config, states: seq<State>, labels: seq<Label>, i: nat)
    requires ConfigOk(c) && Run(c, states, labels) && i < |states|
    ensures Inv(c, states[i])
  {
    InitInv(c, states[0]);
    PathInv(c, states, labels, i);
  }

  lemma PathExtends(c: Config, states: seq<State>, labels: seq<Label>, i: nat)
    requires Path(c, states, labels) && i < |labels| && Inv(c, states[i])
    ensures Extends(states[i].pg, states[i + 1].pg) && states[i].now <= states[i + 1].now
    ensures states[i].threads.Keys <= states[i + 1].threads.Keys
  {
    var s, l := states[i], labels[i];
    assert Moves(c, states, labels, i);
    assert l.CommitTx? ==> Running(s, l.t);
    StepExtends(c, s, l);
    Frame(c, s, l);
  }

  lemma ExtendsTransitive(a: Pg, b: Pg, d: Pg)
    requires Extends(a, b) && Extends(b, d)
    ensures Extends(a, d)
  {}

  /** Along every run time never goes back, users are immutable, sessions are never deleted, and
      `revoked_at` is filled in at most once and then keeps its value. */
  lemma {:induction false} RunExtends(c: Config, states: seq<State>, labels: seq<Label>, i: nat, j: nat)
    requires ConfigOk(c) && Run(c, states, labels) && i <= j < |states|
    ensures Extends(states[i].pg, states[j].pg) && states[i].now <= states[j].now
    ensures states[i].threads.Keys <= states[j].threads.Keys
    decreases j - i
  {
    if i < j {
      RunExtends(c, states, labels, i, j - 1);
      RunInv(c, states, labels, j - 1);
      PathExtends(c, states, labels, j - 1);
      ExtendsTransitive(states[i].pg, states[j - 1].pg, states[j].pg);
    }
  }

  /** A session that is inactive at one state of a run is inactive at every later state. */
  lemma InactiveForever(c: Config, states: seq<State>, labels: seq<Label>, i: nat, j: nat, id: Uuid)
    requires ConfigOk(c) && Run(c, states, labels) && i <= j < |states| && id in states[i].pg.sessions
    ensures id in states[j].pg.sessions
    ensures !states[i].pg.sessions[id].IsActive(states[i].now) ==> !states[j].pg.sessions[id].IsActive(states[j].now)
    ensures states[i].pg.sessions[id].revokedAt.Some? ==>
      states[j].pg.sessions[id].revokedAt == states[i].pg.sessions[id].revokedAt
  {
    RunExtends(c, states, labels, i, j);
  }

  /** A label moves its own thread only, and only a successful commit touches the tables. */
  lemma StepFrame(c: Config, states: seq<State>, labels: seq<Label>, i: nat)
    requires Path(c, states, labels) && i < |labels|
    ensures var s, l := states[i], labels[i];
      Framed(s, states[i + 1], l)
      && (CommitsNow(l) ==> Running(s, l.t) && s.threads[l.t].done == |Statements(s.threads[l.t].job)|)
  {
    assert Moves(c, states, labels, i);
    Frame(c, states[i], labels[i]);
  }

  lemma PathCons(c: Config, s: State, l: Label, states: seq<State>, labels: seq<Label>)
    requires Path(c, states, labels) && Enabled(c, s, l) && states[0] == Step(c, s, l)
    ensures Path(c, [s] + states, [l] + labels)
  {
    forall i | 0 <= i < |[l] + labels| ensures Moves(c, [s] + states, [l] + labels, i) {
      if i > 0 {
        assert Moves(c, states, labels, i - 1);
      }
    }
  }

  lemma PathAppend(c: Config, xs: seq<State>, ls: seq<Label>, ys: seq<State>, ms: seq<Label>)
    requires Path(c, xs, ls) && Path(c, ys, ms) && xs[|xs| - 1] == ys[0]
    ensures Path(c, xs + ys[1..], ls + ms)
    ensures (xs + ys[1..])[0] == xs[0] && (xs + ys[1..])[|xs| + |ms| - 1] == ys[|ys| - 1]
  {
    var states, labels := xs + ys[1..], ls + ms;
    forall i | 0 <= i < |labels| ensures Moves(c, states, labels, i) {
      if i < |ls| {
        assert Moves(c, xs, ls, i);
      } else {
        assert Moves(c, ys, ms, i - |ls|);
      }
    }
  }

  lemma Advance(c: Config, xs: seq<State>, ls: seq<Label>, l: Label) returns (ys: seq<State>, ms: seq<Label>)
    requires Path(c, xs, ls) && Enabled(c, xs[|xs| - 1], l)
    ensures Path(c, ys, ms) && ms == ls + [l] && ys[0] == xs[0] && ys[|ys| - 1] == Step(c, xs[|xs| - 1], l)
  {
    var step := [xs[|xs| - 1], Step(c, xs[|xs| - 1], l)];
    assert Moves(c, step, [l], 0);
    PathAppend(c, xs, ls, step, [l]);
    ys, ms := xs + step[1..], ls + [l];
  }

  lemma Suffix(c: Config, states: seq<State>, labels: seq<Label>, m: nat)
    requires Path(c, states, labels) && m < |states|
    ensures Path(c, states[m..], labels[m..])
  {
    forall k | 0 <= k < |labels[m..]| ensures Moves(c, states[m..], labels[m..], k) {
      assert Moves(c, states, labels, m + k);
    }
  }

  lemma RunReady(c: Config, states: seq<State>, labels: seq<Label>, i: nat)
    requires ConfigOk(c) && Run(c, states, labels) && i < |labels| && CommitsNow(labels[i])
    ensures var s, t := states[i], labels[i].t;
      && TxOk(s, t) && JobOk(c, s.pg, s.now, s.threads[t].job)
      && s.threads[t].done == |Statements(s.threads[t].job)|
      && states[i + 1].pg == Commit(s.pg, t)
  {
    StepFrame(c, states, labels, i);
    RunInv(c, states, labels, i);
    var s, t := states[i], labels[i].t;
    assert TxOk(s, t) && ThreadOk(c, s.pg, s.now, s.threads[t]);
  }

  lemma RunKeys(c: Config, states: seq<State>, labels: seq<Label>, i: nat)
    requires ConfigOk(c) && Run(c, states, labels) && i < |labels|
      && labels[i].CommitTx? && TxOk(states[i], labels[i].t)
    ensures var s, t := states[i], labels[i].t;
      && s.pg.open[t].users.Keys !! s.pg.users.Keys && s.pg.open[t].sessions.Keys !! s.pg.sessions.Keys
      && Extends(s.pg, Commit(s.pg, t))
  {
    RunInv(c, states, labels, i);
    NewKeys(c, states[i], labels[i].t);
    CommitExtends(c, states[i], labels[i].t);
  }

  /** What a successful commit of a run finds: the job is finished, its rows are new, and they join the tables. */
  lemma RunCommit(c: Config, states: seq<State>, labels: seq<Label>, i: nat)
    requires ConfigOk(c) && Run(c, states, labels) && i < |labels| && CommitsNow(labels[i])
    ensures var s, t := states[i], labels[i].t;
      && TxOk(s, t) && JobOk(c, s.pg, s.now, s.threads[t].job)
      && s.threads[t].done == |Statements(s.threads[t].job)|
      && s.pg.open[t].users.Keys !! s.pg.users.Keys && s.pg.open[t].sessions.Keys !! s.pg.sessions.Keys
      && states[i + 1].pg == Commit(s.pg, t) && Extends(s.pg, Commit(s.pg, t))
  {
    RunReady(c, states, labels, i);
    RunKeys(c, states, labels, i);
  }
}
