/** Every acceptance is sound: whoever is let through can be traced to a committed, unexpired row. */
module Acceptance {
  import opened Basics
  import opened Domain
  import opened Postgres
  import opened Protocol
  import opened Invariant
  import opened Runs
  import opened Reasons

  // ---------------------------------------------------------------- where a program point comes from

  lemma RunEnters(c: Config, states: seq<State>, labels: seq<Label>, i: nat)
    requires ConfigOk(c) && Run(c, states, labels) && i < |labels| && Moving(labels[i])
    ensures var t := labels[i].t;
      t in states[i + 1].threads && Entered(c, states[i], labels[i], states[i + 1].threads[t]) == true
  {
    RunInv(c, states, labels, i);
    assert Moves(c, states, labels, i);
    StepReason(c, states[i], labels[i]);
  }

  /** Every thread of a run entered its present program point at some earlier step and has not moved since. */
  lemma {:induction false} EnteredAt(c: Config, states: seq<State>, labels: seq<Label>, j: nat, t: nat) returns (k: nat)
    requires ConfigOk(c) && Run(c, states, labels) && j < |states| && t in states[j].threads
    ensures k < j && Mover(labels[k], t) && Entered(c, states[k], labels[k], states[j].threads[t])
    ensures forall n :: k < n <= j ==> t in states[n].threads && states[n].threads[t] == states[j].threads[t]
  {
    k := 0;
    if j > 0 {
      if Mover(labels[j - 1], t) {
        RunEnters(c, states, labels, j - 1);
        k := j - 1;
      } else {
        StepFrame(c, states, labels, j - 1);
        k := EnteredAt(c, states, labels, j - 1, t);
      }
    }
  }

  // ---------------------------------------------------------------- soundness of acceptance

  /** The step at which the row of an acceptance from the database was read. */
  lemma {:induction false} ReadOf(c: Config, states: seq<State>, labels: seq<Label>, j: nat, t: nat, row: Session)
    returns (r: nat)
    requires ConfigOk(c) && Run(c, states, labels) && j < |states| && t in states[j].threads
    requires match states[j].threads[t] {
               case AtCheck(_, _, x) => x == row
               case AtUntil(_, _, x, _) => x == row
               case AtRepopulate(_, _, x, _, _) => x == row
               case _ => false
             }
    ensures r < j && Mover(labels[r], t) && labels[r].Find?
    ensures row.id in states[r].pg.sessions && states[r].pg.sessions[row.id] == row
    decreases j
  {
    r := EnteredAt(c, states, labels, j, t);
    if !states[j].threads[t].AtCheck? {
      r := ReadOf(c, states, labels, r, t, row);
    }
  }

  /** The step at which the decision of an acceptance from the database was taken. */
  lemma {:induction false} DecisionOf(
      c: Config, states: seq<State>, labels: seq<Label>, j: nat, t: nat, row: Session, at: int)
    returns (k: nat)
    requires ConfigOk(c) && Run(c, states, labels) && j < |states| && t in states[j].threads
    requires match states[j].threads[t] {
               case AtUntil(_, _, x, decided) => x == row && decided == at
               case AtRepopulate(_, _, x, decided, _) => x == row && decided == at
               case Passed(_, _, FromRow(x, decided)) => x == row && decided == at
               case _ => false
             }
    ensures k < j && labels[k].Check? && labels[k].t == t && states[k].now == at
    ensures t in states[k].threads && states[k].threads[t].AtCheck? && states[k].threads[t].row == row
    decreases j
  {
    k := EnteredAt(c, states, labels, j, t);
    if !labels[k].Check? {
      k := DecisionOf(c, states, labels, k, t, row, at);
    }
  }

  /** The evidence behind an acceptance, located in the run: `k` is the deciding step, `r` the step that
      read the cache entry or the row the decision was based on. */
  ghost predicate Justified(
      c: Config, states: seq<State>, labels: seq<Label>, t: nat, ctx: Ctx, e: Evidence, r: nat, k: nat)
    requires r < k < |labels| < |states|
  {
    && CtxOk(c, states[k].pg, ctx)
    && states[k].now == e.at < states[k].pg.sessions[ctx.session].expiresAt
    && Mover(labels[k], t) && Mover(labels[r], t)
    && match e {
         case FromCache(_) =>
           labels[k].Hit? && labels[r].Probe?
           && Cached(c, states[r], ctx.tokenHashHex) == Some(PayloadOf(states[k].pg.sessions[ctx.session]))
         case FromRow(row, _) =>
           labels[k].Check? && labels[r].Find?
           && ctx.session in states[r].pg.sessions && states[r].pg.sessions[ctx.session] == row
           && row.revokedAt.None?
       }
  }

  lemma ThreadKnows(c: Config, states: seq<State>, labels: seq<Label>, j: nat, t: nat)
    requires ConfigOk(c) && Run(c, states, labels) && j < |states| && t in states[j].threads
    ensures ThreadOk(c, states[j].pg, states[j].now, states[j].threads[t])
  {
    RunInv(c, states, labels, j);
  }

  /** Whoever is let through carries the exact user, session and tenant of a committed row whose expiry
      lay after the clock value of the decision.  If the row was already revoked at the decision, the
      request was served from a cache entry, or from a copy of the row read before the revocation. */
  lemma AcceptanceSound(c: Config, states: seq<State>, labels: seq<Label>, j: nat, t: nat)
    returns (r: nat, k: nat)
    requires ConfigOk(c) && Run(c, states, labels) && j < |states|
    requires t in states[j].threads && states[j].threads[t].Passed?
    ensures r < k < j
    ensures Justified(c, states, labels, t, states[j].threads[t].ctx, states[j].threads[t].evidence, r, k)
    ensures var th := states[j].threads[t];
      Revoked(states[k].pg, th.ctx.session) ==> th.evidence.FromCache? || !Revoked(states[r].pg, th.ctx.session)
  {
    var th := states[j].threads[t];
    ThreadKnows(c, states, labels, j, t);
    if th.evidence.FromCache? {
      k := EnteredAt(c, states, labels, j, t);
      r := EnteredAt(c, states, labels, k, t);
    } else {
      k := DecisionOf(c, states, labels, j, t, th.evidence.row, th.evidence.at);
      r := ReadOf(c, states, labels, k, t, th.evidence.row);
    }
    ThreadKnows(c, states, labels, k, t);
    RunExtends(c, states, labels, k, j);
  }
}
