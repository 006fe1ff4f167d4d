/** How long a cache entry may stay: never usefully longer than the session it copies. */
module Lifetime {
  import opened Basics
  import opened Domain
  import opened Protocol
  import opened Invariant
  import Runs
  import Acceptance
  import Revocation

  /** The clock value from which a writing thread computed its TTL. */
  function ReadOfClock(th: Thread): int
    requires th.AtRepopulate? || th.AtSet?
  {
    th.read
  }

  /** A decodable entry without a deadline was already expired when it was stored; one with a deadline is
      kept at least until the session expires. */
  ghost predicate DeadlinesOk(c: Config, s: State) {
    forall k :: k in s.cache && c.dec(s.cache[k].bytes).Some? ==>
      DeadlineOk(s.now, s.cache[k].deadline, c.dec(s.cache[k].bytes).value.expiresAt)
  }

  predicate DeadlineOk(now: int, deadline: Option<int>, expiresAt: int) {
    match deadline
    case None => expiresAt <= now
    case Some(d) => expiresAt <= d
  }

  lemma StepDeadlines(c: Config, s: State, l: Label)
    requires Enabled(c, s, l) && CodecOk(c) && DeadlinesOk(c, s)
    requires Moving(l) && l.t in s.threads ==> ThreadOk(c, s.pg, s.now, s.threads[l.t])
    ensures DeadlinesOk(c, Step(c, s, l))
  {}

  lemma {:induction false} RunDeadlines(c: Config, states: seq<State>, labels: seq<Label>, j: nat)
    requires ConfigOk(c) && Run(c, states, labels) && j < |states|
    ensures DeadlinesOk(c, states[j])
  {
    if j > 0 {
      RunDeadlines(c, states, labels, j - 1);
      Runs.RunInv(c, states, labels, j - 1);
      assert Moves(c, states, labels, j - 1);
      StepDeadlines(c, states[j - 1], labels[j - 1]);
    }
  }

  /** The step that stored the entry now under a key, and its deadline in terms of that step. */
  ghost predicate StoredBy(c: Config, s: State, l: Label, key: string, e: Entry, p: CachedSession) {
    Revocation.Writes(c, s, l, key)
    && var read := ReadOfClock(s.threads[l.t]);
    && read <= s.now
    && e.deadline == (if p.expiresAt - read > 0 then Some(p.expiresAt + (s.now - read)) else None)
    && (l.Repopulate? ==> p.expiresAt - read > 0)
  }

  lemma StepStores(c: Config, s: State, l: Label, key: string)
    requires Enabled(c, s, l) && CodecOk(c) && key in Step(c, s, l).cache
    requires Moving(l) && l.t in s.threads ==> ThreadOk(c, s.pg, s.now, s.threads[l.t])
    requires var e := Step(c, s, l).cache[key];
      c.dec(e.bytes).Some? && !(key in s.cache && s.cache[key] == e)
    ensures var e := Step(c, s, l).cache[key]; StoredBy(c, s, l, key, e, c.dec(e.bytes).value)
  {}

  /** The value a session is cached as, until when. */
  function EntryFor(c: Config, row: Session, read: int, now: int): Entry {
    Entry(
      c.enc(CachedSession(row.id, row.user, row.tenant, row.expiresAt)),
      if row.expiresAt > read then Some(now + (row.expiresAt - read)) else None)
  }

  /** A cache call that succeeds stores the session under the hash of its token, or removes it, and leaves every
      other key alone; no other step of a request touches the cache. */
  lemma CacheEffect(c: Config, s: State, l: Label)
    requires Enabled(c, s, l) && Moving(l)
    ensures Step(c, s, l).cache ==
      match l {
        case Repopulate(t, false) =>
          var th := s.threads[t]; s.cache[c.hex(c.sha(th.raw)) := EntryFor(c, th.row, th.read, s.now)]
        case SetCache(t, false) =>
          var th := s.threads[t];
          s.cache[c.hex(th.job.session.tokenHash) := EntryFor(c, th.job.session, th.read, s.now)]
        case DeleteCache(t, false) => s.cache - {s.threads[t].job.ctx.tokenHashHex}
        case _ => s.cache
      }
  {}

  /** Every decodable entry was stored by a step that had a deadline no later than the expiry of the session
      plus the delay between reading the clock for the TTL and storing; repopulation always sets one, and a
      sign-up or sign-in sets one exactly when it read the clock before the session expired. */
  lemma {:induction false} EntryLifetime(c: Config, states: seq<State>, labels: seq<Label>, j: nat, key: string)
    returns (k: nat, r: nat)
    requires ConfigOk(c) && Run(c, states, labels) && j < |states|
    requires key in states[j].cache && c.dec(states[j].cache[key].bytes).Some?
    ensures r < k < j
    ensures var e := states[j].cache[key]; StoredBy(c, states[k], labels[k], key, e, c.dec(e.bytes).value)
    ensures Mover(labels[r], labels[k].t) && states[r].now == ReadOfClock(states[k].threads[labels[k].t])
  {
    k, r := 0, 0;
    if j > 0 {
      var e := states[j].cache[key];
      if key in states[j - 1].cache && states[j - 1].cache[key] == e {
        k, r := EntryLifetime(c, states, labels, j - 1, key);
      } else {
        k := j - 1;
        StoredHere(c, states, labels, k, key);
        r := Acceptance.EnteredAt(c, states, labels, k, labels[k].t);
      }
    }
  }

  lemma StoredHere(c: Config, states: seq<State>, labels: seq<Label>, k: nat, key: string)
    requires ConfigOk(c) && Run(c, states, labels) && k < |labels| && key in states[k + 1].cache
    requires var e := states[k + 1].cache[key];
      c.dec(e.bytes).Some? && !(key in states[k].cache && states[k].cache[key] == e)
    ensures var e := states[k + 1].cache[key]; StoredBy(c, states[k], labels[k], key, e, c.dec(e.bytes).value)
  {
    Runs.RunInv(c, states, labels, k);
    assert Moves(c, states, labels, k);
    StepStores(c, states[k], labels[k], key);
  }
}
