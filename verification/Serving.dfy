/** When a signed-out session can still be served: the exact condition, for requests that have yet to arrive. */
module Serving {
  import opened Basics
  import opened Domain
  import opened Postgres
  import opened Protocol
  import opened Invariant
  import opened Runs
  import opened Revocation

  /** A request that arrives later with this token is let through. */
  ghost predicate ServedBy(c: Config, s: State, raw: string, states: seq<State>, labels: seq<Label>, a: nat) {
    && Path(c, states, labels) && states[0] == s
    && a < |labels| && labels[a].Arrive? && labels[a].raw == raw
    && var last := states[|states| - 1];
    labels[a].t in last.threads && last.threads[labels[a].t].Passed?
  }

  ghost predicate ServedLater(c: Config, s: State, raw: string) {
    exists states, labels, a :: ServedBy(c, s, raw, states, labels, a)
  }

  function PayloadAt(pg: Pg, id: Uuid): CachedSession
    requires id in pg.sessions
  {
    PayloadOf(pg.sessions[id])
  }

  /** The session has not expired, and there is a live decodable entry, or a thread is able to write one. */
  predicate Servable(c: Config, s: State, id: Uuid, h: Bytes)
    requires id in s.pg.sessions
  {
    s.now < s.pg.sessions[id].expiresAt
    && (Cached(c, s, c.hex(h)).Some? || (!Quiet(s, h) && c.dec(c.enc(PayloadAt(s.pg, id))).Some?))
  }

  /** Revoked, and not servable any more. */
  predicate Closed(c: Config, s: State, id: Uuid, h: Bytes) {
    Revoked(s.pg, id) && s.pg.sessions[id].tokenHash == h && !Servable(c, s, id, h)
  }

  // ---------------------------------------------------------------- closed stays closed

  lemma CachedStep(c: Config, s: State, l: Label, key: string)
    requires Enabled(c, s, l) && Cached(c, s, key).None?
    ensures Cached(c, Step(c, s, l), key).None? || Writes(c, s, l, key)
  {}

  /** Whoever writes under the key of a row writes the payload of that row. */
  lemma WrittenPayload(c: Config, s: State, l: Label, id: Uuid, h: Bytes)
    requires Enabled(c, s, l) && HexInjective(c) && Writes(c, s, l, c.hex(h))
    requires ThreadOk(c, s.pg, s.now, s.threads[l.t])
    requires id in s.pg.sessions && OnlySession(s.pg, id, h)
    ensures c.hex(h) in Step(c, s, l).cache && Step(c, s, l).cache[c.hex(h)].bytes == c.enc(PayloadAt(s.pg, id))
  {}

  /** Nobody makes the entry live: those who write under the key do not exist, or write nothing decodable. */
  lemma NoEntryStep(c: Config, s: State, l: Label, id: Uuid, h: Bytes)
    requires Enabled(c, s, l) && HexInjective(c) && ThreadsOk(c, s)
    requires id in s.pg.sessions && OnlySession(s.pg, id, h) && Cached(c, s, c.hex(h)).None?
    requires Quiet(s, h) || c.dec(c.enc(PayloadAt(s.pg, id))).None?
    ensures Cached(c, Step(c, s, l), c.hex(h)).None?
  {
    CachedStep(c, s, l, c.hex(h));
    if Writes(c, s, l, c.hex(h)) {
      WriterIsPending(c, s, l, h);
      WrittenPayload(c, s, l, id, h);
    }
  }

  lemma ClosedStep(c: Config, s: State, l: Label, id: Uuid, h: Bytes)
    requires HexInjective(c) && Inv(c, s) && Enabled(c, s, l) && Closed(c, s, id, h)
    ensures Closed(c, Step(c, s, l), id, h)
  {
    RevokedStays(c, s, l, id);
    RevokedStep(c, s, l, h);
    Frame(c, s, l);
    if s.now < s.pg.sessions[id].expiresAt {
      UniqueHash(c, s.pg, id);
      NoEntryStep(c, s, l, id, h);
    }
  }

  // ---------------------------------------------------------------- requests that cannot pass any more

  /** Where a request of a revoked session can be that will be refused, whatever happens to the cache. */
  predicate Lost(c: Config, now: int, th: Thread, h: Bytes) {
    match th
    case AtHit(raw, _, p) => c.sha(raw) == h && p.expiresAt <= now
    case AtFind(raw, _) => c.sha(raw) == h
    case AtCheck(raw, _, row) => c.sha(raw) == h && !row.IsActive(now)
    case Done(reply) => reply == Refused(SessionInvalid) || reply == Refused(Unavailable)
    case _ => false
  }

  /** The same, for a closed session: a request that has yet to probe the cache is no better off. */
  predicate Late(c: Config, now: int, th: Thread, h: Bytes) {
    (th.AtProbe? && c.sha(th.raw) == h) || Lost(c, now, th, h)
  }

  lemma ProbeLate(c: Config, s: State, l: Label, id: Uuid, h: Bytes)
    requires Enabled(c, s, l) && l.Probe? && Late(c, s.now, s.threads[l.t], h)
    requires HexInjective(c) && CacheOk(c, s.pg, s.cache) && OnlySession(s.pg, id, h) && Closed(c, s, id, h)
    ensures l.t in Step(c, s, l).threads && Late(c, s.now, Step(c, s, l).threads[l.t], h)
  {
    var key := c.hex(h);
    if Cached(c, s, key).Some? {
      assert Agrees(c, s.pg, key, Cached(c, s, key).value);
    }
  }

  lemma MoverLost(c: Config, s: State, l: Label, id: Uuid, h: Bytes)
    requires Enabled(c, s, l) && Moving(l) && l.t in s.threads && Lost(c, s.now, s.threads[l.t], h)
    requires OnlySession(s.pg, id, h) && Revoked(s.pg, id)
    ensures l.t in Step(c, s, l).threads && Lost(c, s.now, Step(c, s, l).threads[l.t], h)
  {}

  lemma LostStep(c: Config, s: State, l: Label, t: nat, id: Uuid, h: Bytes)
    requires Enabled(c, s, l) && Revoked(s.pg, id) && OnlySession(s.pg, id, h)
    requires t in s.threads && Lost(c, s.now, s.threads[t], h)
    ensures var s' := Step(c, s, l); t in s'.threads && Lost(c, s'.now, s'.threads[t], h)
  {
    if Mover(l, t) {
      MoverLost(c, s, l, id, h);
      MovesAtOnce(c, s, l);
    } else {
      Frame(c, s, l);
      LostLater(c, s.now, Step(c, s, l).now, s.threads[t], h);
    }
  }

  lemma LostLater(c: Config, now: int, later: int, th: Thread, h: Bytes)
    requires Lost(c, now, th, h) && now <= later
    ensures Lost(c, later, th, h)
  {}

  /** Only the clock's own step takes time. */
  lemma MovesAtOnce(c: Config, s: State, l: Label)
    requires Enabled(c, s, l) && Moving(l)
    ensures Step(c, s, l).now == s.now
  {}

  lemma LateStep(c: Config, s: State, l: Label, t: nat, id: Uuid, h: Bytes)
    requires HexInjective(c) && CacheOk(c, s.pg, s.cache) && OnlySession(s.pg, id, h)
    requires Enabled(c, s, l) && Closed(c, s, id, h) && t in s.threads && Late(c, s.now, s.threads[t], h)
    ensures var s' := Step(c, s, l); t in s'.threads && Late(c, s'.now, s'.threads[t], h)
  {
    if Lost(c, s.now, s.threads[t], h) {
      LostStep(c, s, l, t, id, h);
    } else if Mover(l, t) {
      ProbeLate(c, s, l, id, h);
      MovesAtOnce(c, s, l);
    } else {
      Frame(c, s, l);
    }
  }

  lemma ArrivesLate(c: Config, s: State, l: Label, h: Bytes)
    requires Enabled(c, s, l) && l.Arrive? && l.raw != "" && c.sha(l.raw) == h
    ensures var s' := Step(c, s, l); l.t in s'.threads && Late(c, s'.now, s'.threads[l.t], h)
  {}

  lemma ClosedNext(c: Config, states: seq<State>, labels: seq<Label>, i: nat, id: Uuid, h: Bytes)
    requires HexInjective(c) && Path(c, states, labels) && AllInv(c, states)
    requires i < |labels| && Closed(c, states[i], id, h)
    ensures Closed(c, states[i + 1], id, h)
  {
    assert Moves(c, states, labels, i) && Inv(c, states[i]);
    ClosedStep(c, states[i], labels[i], id, h);
  }

  lemma {:induction false} ClosedStays(c: Config, states: seq<State>, labels: seq<Label>, j: nat, id: Uuid, h: Bytes)
    requires HexInjective(c) && Path(c, states, labels) && AllInv(c, states) && j < |states|
    requires Closed(c, states[0], id, h)
    ensures Closed(c, states[j], id, h)
  {
    if j > 0 {
      ClosedStays(c, states, labels, j - 1, id, h);
      ClosedNext(c, states, labels, j - 1, id, h);
    }
  }

  lemma LateNext(c: Config, states: seq<State>, labels: seq<Label>, i: nat, t: nat, id: Uuid, h: Bytes)
    requires HexInjective(c) && Path(c, states, labels) && AllInv(c, states)
    requires i < |labels| && Closed(c, states[i], id, h)
    requires t in states[i].threads && Late(c, states[i].now, states[i].threads[t], h)
    ensures t in states[i + 1].threads && Late(c, states[i + 1].now, states[i + 1].threads[t], h)
  {
    assert Moves(c, states, labels, i) && Inv(c, states[i]);
    UniqueHash(c, states[i].pg, id);
    LateStep(c, states[i], labels[i], t, id, h);
  }

  lemma LostNext(c: Config, states: seq<State>, labels: seq<Label>, i: nat, t: nat, id: Uuid, h: Bytes)
    requires Path(c, states, labels) && AllInv(c, states) && i < |labels|
    requires Revoked(states[i].pg, id) && states[i].pg.sessions[id].tokenHash == h
    requires t in states[i].threads && Lost(c, states[i].now, states[i].threads[t], h)
    ensures Revoked(states[i + 1].pg, id) && states[i + 1].pg.sessions[id].tokenHash == h
    ensures t in states[i + 1].threads && Lost(c, states[i + 1].now, states[i + 1].threads[t], h)
  {
    assert Moves(c, states, labels, i) && Inv(c, states[i]);
    RevokedStays(c, states[i], labels[i], id);
    UniqueHash(c, states[i].pg, id);
    LostStep(c, states[i], labels[i], t, id, h);
  }

  /** From the state after step `a` on, a late request stays late. */
  lemma {:induction false} LateStays(
      c: Config, states: seq<State>, labels: seq<Label>, a: nat, j: nat, t: nat, id: Uuid, h: Bytes)
    requires HexInjective(c) && Path(c, states, labels) && AllInv(c, states) && a <= j < |states|
    requires Closed(c, states[0], id, h) && t in states[a].threads && Late(c, states[a].now, states[a].threads[t], h)
    ensures t in states[j].threads && Late(c, states[j].now, states[j].threads[t], h)
    decreases j
  {
    if j > a {
      LateStays(c, states, labels, a, j - 1, t, id, h);
      ClosedStays(c, states, labels, j - 1, id, h);
      LateNext(c, states, labels, j - 1, t, id, h);
    }
  }

  lemma {:induction false} LostStays(
      c: Config, states: seq<State>, labels: seq<Label>, j: nat, t: nat, id: Uuid, h: Bytes)
    requires Path(c, states, labels) && AllInv(c, states) && j < |states|
    requires Revoked(states[0].pg, id) && states[0].pg.sessions[id].tokenHash == h
    requires t in states[0].threads && Lost(c, states[0].now, states[0].threads[t], h)
    ensures Revoked(states[j].pg, id) && states[j].pg.sessions[id].tokenHash == h
    ensures t in states[j].threads && Lost(c, states[j].now, states[j].threads[t], h)
  {
    if j > 0 {
      LostStays(c, states, labels, j - 1, t, id, h);
      LostNext(c, states, labels, j - 1, t, id, h);
    }
  }

  lemma ArrivedLate(c: Config, states: seq<State>, labels: seq<Label>, a: nat, id: Uuid, h: Bytes)
    requires HexInjective(c) && Path(c, states, labels) && AllInv(c, states) && Closed(c, states[0], id, h)
    requires a < |labels| && labels[a].Arrive? && labels[a].raw != "" && c.sha(labels[a].raw) == h
    ensures var last := states[|states| - 1]; labels[a].t in last.threads && !last.threads[labels[a].t].Passed?
  {
    assert Moves(c, states, labels, a);
    ArrivesLate(c, states[a], labels[a], h);
    LateStays(c, states, labels, a + 1, |labels|, labels[a].t, id, h);
  }

  lemma NeverServed(
      c: Config, s: State, id: Uuid, h: Bytes, raw: string, states: seq<State>, labels: seq<Label>, a: nat)
    requires ConfigOk(c) && Inv(c, s) && Closed(c, s, id, h) && raw != "" && c.sha(raw) == h
    ensures !ServedBy(c, s, raw, states, labels, a)
  {
    if ServedBy(c, s, raw, states, labels, a) {
      PathAllInv(c, states, labels);
      ArrivedLate(c, states, labels, a, id, h);
    }
  }

  // ---------------------------------------------------------------- a servable session is served

  lemma FreshThread(taken: set<nat>) returns (t: nat)
    ensures forall x :: x in taken ==> x < t
  {
    if taken == {} {
      t := 0;
    } else {
      var x :| x in taken;
      var above := FreshThread(taken - {x});
      t := if x < above then above else x + 1;
      assert forall y :: y in taken ==> y == x || y in taken - {x};
    }
  }

  /** A live decodable entry of an unexpired session serves whoever comes next. */
  lemma HitServes(c: Config, xs: seq<State>, ls: seq<Label>, raw: string, p: CachedSession)
    requires c.cacheOn && Path(c, xs, ls) && raw != ""
    requires var s := xs[|xs| - 1]; Cached(c, s, c.hex(c.sha(raw))) == Some(p) && s.now < p.expiresAt
    ensures ServedLater(c, xs[0], raw)
  {
    var s := xs[|xs| - 1];
    var t := FreshThread(s.threads.Keys);
    var ys, ms := Advance(c, xs, ls, Arrive(t, raw, GetMe));
    ys, ms := Advance(c, ys, ms, Probe(t, false));
    ys, ms := Advance(c, ys, ms, Hit(t));
    assert ServedBy(c, xs[0], raw, ys, ms, |ls|);
  }

  /** The last step of a thread that can write stores a live entry. */
  lemma LastWriteIsLive(c: Config, s: State, t: nat, id: Uuid, h: Bytes)
    requires c.cacheOn && t in s.threads && ThreadOk(c, s.pg, s.now, s.threads[t]) && CanWrite(s.now, s.threads[t], h)
    requires |WriteLabels(s.threads[t], t)| == 1
    requires id in s.pg.sessions && OnlySession(s.pg, id, h) && s.now < s.pg.sessions[id].expiresAt
    ensures Enabled(c, s, WriteLabels(s.threads[t], t)[0])
    ensures var s' := Step(c, s, WriteLabels(s.threads[t], t)[0]);
      s'.now == s.now && Cached(c, s', c.hex(h)) == c.dec(c.enc(PayloadAt(s.pg, id)))
      && t in s'.threads && s'.threads == s.threads[t := s'.threads[t]]
  {}

  /** Steps before the last change neither the clock nor the database. */
  lemma WriterWaits(c: Config, s: State, t: nat, h: Bytes)
    requires c.cacheOn && t in s.threads && ThreadOk(c, s.pg, s.now, s.threads[t]) && CanWrite(s.now, s.threads[t], h)
    requires |WriteLabels(s.threads[t], t)| > 1
    ensures var l := WriteLabels(s.threads[t], t)[0]; Enabled(c, s, l) && MovesOne(s, Step(c, s, l), t)
  {}

  /** No request but `t` has moved. */
  ghost predicate OthersStay(s: State, s': State, t: nat) {
    forall u :: u in s.threads && u != t ==> u in s'.threads && s'.threads[u] == s.threads[u]
  }

  lemma OthersStayOn(a: State, b: State, d: State, t: nat)
    requires t in b.threads && b.threads == a.threads[t := b.threads[t]] && OthersStay(b, d, t)
    ensures OthersStay(a, d, t)
  {}

  /** A thread that can write makes the entry live by running on; no other request moves. */
  lemma {:induction false} WriterMakesLive(c: Config, xs: seq<State>, ls: seq<Label>, t: nat, id: Uuid, h: Bytes)
    returns (ys: seq<State>, ms: seq<Label>)
    requires c.cacheOn && CodecOk(c) && Path(c, xs, ls)
    requires var s := xs[|xs| - 1];
      && t in s.threads && ThreadOk(c, s.pg, s.now, s.threads[t]) && CanWrite(s.now, s.threads[t], h)
      && id in s.pg.sessions && OnlySession(s.pg, id, h) && s.now < s.pg.sessions[id].expiresAt
      && c.dec(c.enc(PayloadAt(s.pg, id))).Some?
    ensures Path(c, ys, ms) && ys[0] == xs[0]
    ensures var s, last := xs[|xs| - 1], ys[|ys| - 1];
      last.now == s.now && Cached(c, last, c.hex(h)) == Some(PayloadAt(s.pg, id)) && OthersStay(s, last, t)
    decreases |WriteLabels(xs[|xs| - 1].threads[t], t)|
  {
    var s := xs[|xs| - 1];
    var l := WriteLabels(s.threads[t], t)[0];
    WriterStep(c, s, t, h);
    ys, ms := Advance(c, xs, ls, l);
    if |WriteLabels(s.threads[t], t)| == 1 {
      LastWriteIsLive(c, s, t, id, h);
    } else {
      WriterWaits(c, s, t, h);
      var s' := ys[|ys| - 1];
      ys, ms := WriterMakesLive(c, ys, ms, t, id, h);
      OthersStayOn(s, s', ys[|ys| - 1], t);
    }
  }

  /** A servable session has a live decodable entry, or gets one while those about to probe wait. */
  lemma MakesLive(c: Config, s: State, id: Uuid, h: Bytes)
    returns (xs: seq<State>, ls: seq<Label>, p: CachedSession)
    requires c.cacheOn && CodecOk(c) && CacheOk(c, s.pg, s.cache) && ThreadsOk(c, s) && HexInjective(c)
    requires id in s.pg.sessions && OnlySession(s.pg, id, h) && Servable(c, s, id, h)
    ensures Path(c, xs, ls) && xs[0] == s
    ensures var last := xs[|xs| - 1];
      && Cached(c, last, c.hex(h)) == Some(p) && last.now < p.expiresAt
      && forall u :: u in s.threads && s.threads[u].AtProbe? ==> u in last.threads && last.threads[u] == s.threads[u]
  {
    var key := c.hex(h);
    if Cached(c, s, key).Some? {
      assert Agrees(c, s.pg, key, Cached(c, s, key).value);
      xs, ls, p := [s], [], Cached(c, s, key).value;
    } else {
      var t :| t in s.threads && CanWrite(s.now, s.threads[t], h);
      assert ThreadOk(c, s.pg, s.now, s.threads[t]);
      xs, ls := WriterMakesLive(c, [s], [], t, id, h);
      p := PayloadAt(s.pg, id);
    }
  }

  /** After a sign-out has committed, a request that arrives later with the token can be let through if and
      only if the session has not expired, and its cache entry is live and decodable or some thread holds an
      unrevoked copy on its way to the cache, whose payload decodes. */
  lemma ServedAgainIff(c: Config, s: State, id: Uuid, raw: string)
    requires ConfigOk(c) && c.cacheOn && Inv(c, s) && Revoked(s.pg, id)
    requires raw != "" && c.sha(raw) == s.pg.sessions[id].tokenHash
    ensures ServedLater(c, s, raw) <==> Servable(c, s, id, c.sha(raw))
  {
    var h := c.sha(raw);
    if Servable(c, s, id, h) {
      UniqueHash(c, s.pg, id);
      var xs, ls, p := MakesLive(c, s, id, h);
      HitServes(c, xs, ls, raw, p);
    } else {
      forall states, labels, a ensures !ServedBy(c, s, raw, states, labels, a) {
        NeverServed(c, s, id, h, raw, states, labels, a);
      }
    }
  }

  // ---------------------------------------------------------------- requests in flight at the revocation

  /** The request is in the middleware, with a token of this hash. */
  predicate Presents(c: Config, th: Thread, h: Bytes) {
    (th.AtProbe? || th.AtHit? || th.AtFind? || th.AtCheck? || th.AtUntil? || th.AtRepopulate?) && c.sha(th.raw) == h
  }

  ghost predicate PassesBy(c: Config, s: State, t: nat, states: seq<State>, labels: seq<Label>) {
    && Path(c, states, labels) && states[0] == s
    && var last := states[|states| - 1];
    t in last.threads && last.threads[t].Passed?
  }

  ghost predicate CanPass(c: Config, s: State, t: nat) {
    exists states, labels :: PassesBy(c, s, t, states, labels)
  }

  /** What it takes at each program point. */
  predicate MayPass(c: Config, s: State, th: Thread, id: Uuid, h: Bytes)
    requires id in s.pg.sessions
  {
    match th
    case AtProbe(_, _) => Servable(c, s, id, h)
    case AtHit(_, _, p) => s.now < p.expiresAt
    case AtCheck(_, _, row) => row.IsActive(s.now)
    case AtUntil(_, _, _, _) => true
    case AtRepopulate(_, _, _, _, _) => true
    case _ => false
  }

  /** The rest of the middleware behind a positive decision. */
  lemma DecidedPasses(c: Config, s: State, t: nat, xs: seq<State>, ls: seq<Label>)
    requires Path(c, xs, ls) && xs[0] == s
    requires var last := xs[|xs| - 1];
      t in last.threads && (last.threads[t].Passed? || last.threads[t].AtUntil? || last.threads[t].AtRepopulate?)
    ensures CanPass(c, s, t)
  {
    var ys, ms := xs, ls;
    if ys[|ys| - 1].threads[t].AtUntil? {
      ys, ms := Advance(c, ys, ms, Until(t));
    }
    if ys[|ys| - 1].threads[t].AtRepopulate? {
      ys, ms := Advance(c, ys, ms, Repopulate(t, true));
    }
    assert PassesBy(c, s, t, ys, ms);
  }

  lemma ProbePasses(c: Config, s: State, t: nat, id: Uuid, h: Bytes)
    requires c.cacheOn && CodecOk(c) && CacheOk(c, s.pg, s.cache) && ThreadsOk(c, s) && HexInjective(c)
    requires id in s.pg.sessions && OnlySession(s.pg, id, h) && Servable(c, s, id, h)
    requires t in s.threads && s.threads[t].AtProbe? && c.sha(s.threads[t].raw) == h
    ensures CanPass(c, s, t)
  {
    var xs, ls, _ := MakesLive(c, s, id, h);
    var ys, ms := Advance(c, xs, ls, Probe(t, false));
    ys, ms := Advance(c, ys, ms, Hit(t));
    assert PassesBy(c, s, t, ys, ms);
  }

  lemma MayPassPasses(c: Config, s: State, t: nat, id: Uuid, h: Bytes)
    requires c.cacheOn && CodecOk(c) && CacheOk(c, s.pg, s.cache) && ThreadsOk(c, s) && HexInjective(c)
    requires id in s.pg.sessions && OnlySession(s.pg, id, h)
    requires t in s.threads && Presents(c, s.threads[t], h) && MayPass(c, s, s.threads[t], id, h)
    ensures CanPass(c, s, t)
  {
    if s.threads[t].AtProbe? {
      ProbePasses(c, s, t, id, h);
    } else {
      var xs, ls := [s], [];
      if s.threads[t].AtHit? {
        xs, ls := Advance(c, xs, ls, Hit(t));
      } else if s.threads[t].AtCheck? {
        xs, ls := Advance(c, xs, ls, Check(t));
      }
      DecidedPasses(c, s, t, xs, ls);
    }
  }

  lemma NeverPasses(c: Config, s: State, t: nat, id: Uuid, h: Bytes, states: seq<State>, labels: seq<Label>)
    requires ConfigOk(c) && Inv(c, s) && Revoked(s.pg, id) && s.pg.sessions[id].tokenHash == h
    requires t in s.threads && Presents(c, s.threads[t], h) && !MayPass(c, s, s.threads[t], id, h)
    ensures !PassesBy(c, s, t, states, labels)
  {
    if PassesBy(c, s, t, states, labels) {
      PathAllInv(c, states, labels);
      if s.threads[t].AtProbe? {
        LateStays(c, states, labels, 0, |labels|, t, id, h);
      } else {
        LostStays(c, states, labels, |labels|, t, id, h);
      }
    }
  }

  /** After a sign-out has committed, a request that is in the middleware at that time can be let through if and
      only if it holds a positive decision, an unexpired cache value, or an unrevoked unexpired copy of the row,
      or has yet to probe the cache while the session is servable. */
  lemma InFlightIff(c: Config, s: State, t: nat, id: Uuid)
    requires ConfigOk(c) && c.cacheOn && Inv(c, s) && Revoked(s.pg, id)
    requires t in s.threads && Presents(c, s.threads[t], s.pg.sessions[id].tokenHash)
    ensures CanPass(c, s, t) <==> MayPass(c, s, s.threads[t], id, s.pg.sessions[id].tokenHash)
  {
    var h := s.pg.sessions[id].tokenHash;
    if MayPass(c, s, s.threads[t], id, h) {
      UniqueHash(c, s.pg, id);
      MayPassPasses(c, s, t, id, h);
    } else {
      forall states, labels ensures !PassesBy(c, s, t, states, labels) {
        NeverPasses(c, s, t, id, h, states, labels);
      }
    }
  }
}
