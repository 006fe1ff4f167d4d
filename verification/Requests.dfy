/** What a finished call of the running service has left behind. */
module Requests {
  import opened Postgres
  import opened Protocol
  import opened Invariant
  import Runs
  import opened Runtime
  import Outcomes
  import Replies

  /** The steps of a request changed no table. */
  ghost predicate LeftTables(ledger: Ledger, t: nat)
    requires ledger.Valid()
    reads ledger
  {
    forall i :: 0 <= i < |ledger.labels| && Mover(ledger.labels[i], t) ==>
      SameTables(ledger.states[i].pg, ledger.states[i + 1].pg)
  }

  predicate SameTables(a: Pg, b: Pg) {
    a.users == b.users && a.sessions == b.sessions && a.outbox == b.outbox
  }

  /** The step that made the session drew this token, and the expiry is the configured time later. */
  predicate Draws(c: Config, now: int, l: Label, token: string, expiresAt: int) {
    (l.ArriveSignUp? || l.NewToken?) && l.token == token && expiresAt == now + c.sessionTtl
  }

  /** Whichever use case or route has returned: its transaction is closed; it succeeded exactly when it
      committed; a returned token belongs to a stored session, was drawn by one of its steps and counts from the
      time of that step; and if it did not succeed, none of its steps
      changed a table. */
  lemma FinishedRequest(ledger: Ledger, t: nat, reply: Reply)
    requires ledger.Valid() && ledger.At(t, Done(reply))
    ensures t !in ledger.pg.open
    ensures reply.Issued? || reply.SignedOut? <==> Outcomes.Committed(ledger.labels, |ledger.labels|, t)
    ensures reply.Issued? ==> exists id ::
      id in ledger.pg.sessions && IssuedAs(ledger.c, ledger.pg.sessions[id], reply.user, reply.token, reply.expiresAt)
    ensures reply.Issued? ==> exists o ::
      0 <= o < |ledger.labels| && Mover(ledger.labels[o], t)
      && Draws(ledger.c, ledger.states[o].now, ledger.labels[o], reply.token, reply.expiresAt)
    ensures !reply.Issued? && !reply.SignedOut? ==> LeftTables(ledger, t)
  {
    var c, states, labels := ledger.c, ledger.states, ledger.labels;
    Runs.RunInv(c, states, labels, |labels|);
    assert ThreadOk(c, ledger.pg, ledger.now, Done(reply));
    Outcomes.SuccessIffCommitted(c, states, labels, |labels|, t);
    Outcomes.NoTransactionLeftOpen(c, states, labels, |labels|, t);
    if reply.Issued? {
      var o, _ := Replies.IssuedOrigin(c, states, labels, |labels|, t, reply.user, reply.token, reply.expiresAt);
      assert Draws(c, states[o].now, labels[o], reply.token, reply.expiresAt);
    }
    if !reply.Issued? && !reply.SignedOut? {
      forall i | 0 <= i < |labels| && Mover(labels[i], t) ensures SameTables(states[i].pg, states[i + 1].pg) {
        Outcomes.FailureLeavesNoTrace(c, states, labels, |labels|, t, i);
      }
    }
  }
}
