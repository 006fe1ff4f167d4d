/** The session middleware and the two protected routes behind it. */
module Http {
  import opened Basics
  import opened Domain
  import opened Postgres
  import opened Protocol
  import opened Invariant
  import Runs
  import opened Runtime
  import opened Adapters
  import opened UseCases

  /** Where a request is that was resolved to a context, or refused. */
  ghost predicate Resolved(ledger: Ledger, t: nat, route: Route, r: Result<Ctx, Refusal>)
    reads ledger
  {
    match r
    case Ok(ctx) =>
      t in ledger.last.threads && ledger.last.threads[t].Passed?
      && ledger.last.threads[t].ctx == ctx && ledger.last.threads[t].route == route
    case Err(why) => ledger.At(t, Done(Refused(why)))
  }

  /** No committed row with this token hash is active. */
  predicate NoneActive(pg: Pg, now: int, hash: Bytes) {
    forall id :: id in pg.sessions && pg.sessions[id].tokenHash == hash ==> !pg.sessions[id].IsActive(now)
  }

  /** A row that was read earlier and is inactive now is the only one for its hash, and still inactive. */
  lemma CheckedRow(ledger: Ledger, t: nat, raw: string, route: Route, s: Session)
    requires ledger.Valid() && ledger.At(t, AtCheck(raw, route, s)) && !s.IsActive(ledger.now)
    ensures NoneActive(ledger.pg, ledger.now, ledger.c.sha(raw))
  {
    Runs.RunInv(ledger.c, ledger.states, ledger.labels, |ledger.labels|);
    assert ThreadOk(ledger.c, ledger.pg, ledger.now, ledger.last.threads[t]);
    UniqueHash(ledger.c, ledger.pg, s.id);
  }

  class SessionMiddleware {
    const ledger: Ledger
    const repo: SessionRepository
    const cache: SessionCache?

    constructor (ledger: Ledger, cache: SessionCache?)
      requires ledger.Valid()
      requires (cache != null <==> ledger.c.cacheOn) && (cache != null ==> cache.ledger == ledger)
      ensures Valid() && this.ledger == ledger
    {
      this.ledger, this.cache := ledger, cache;
      repo := new SessionRepository(ledger);
    }

    ghost predicate Valid()
      reads ledger
    {
      && ledger.Valid() && repo.ledger == ledger
      && (cache != null <==> ledger.c.cacheOn) && (cache != null ==> cache.ledger == ledger)
    }

    /** The hot path: an unexpired cache entry answers without the database. */
    method Probe(t: nat, key: string, ghost raw: string, ghost route: Route) returns (r: Option<Ctx>)
      requires Valid() && ledger.At(t, AtProbe(raw, route)) && cache != null
      requires key == ledger.c.hex(ledger.c.sha(raw))
      modifies ledger
      ensures Valid() && ledger.Grown()
      ensures r.Some? ==> Resolved(ledger, t, route, Ok(r.value))
      ensures r.Some? ==> r.value.tokenHashHex == key
      ensures r.None? ==> ledger.At(t, AtFind(raw, route))
    {
      var cached, _ := cache.Get(t, key, raw, route);
      if cached.Err? {
        return None;
      }
      ledger.Others(t);
      var now := ledger.now;
      ledger.Record(Hit(t));
      if now < cached.value.expiresAt {
        return Some(Ctx(cached.value.user, cached.value.session, cached.value.tenant, key));
      }
      return None;
    }

    /** The entry is put back with the remaining lifetime; a failure to store it changes nothing. */
    method Repopulate(t: nat, s: Session, key: string, ghost raw: string, ghost route: Route, ghost decided: int)
      requires Valid() && ledger.At(t, AtUntil(raw, route, s, decided)) && cache != null
      requires key == ledger.c.hex(ledger.c.sha(raw))
      modifies ledger
      ensures Valid() && ledger.Grown()
      ensures ledger.At(t, Passed(CtxOf(ledger.c, raw, PayloadOf(s)), route, FromRow(s, decided)))
    {
      ledger.Others(t);
      var now := ledger.now;
      var remaining := s.expiresAt - now;
      ledger.Record(Until(t));
      if remaining > 0 {
        var _ := cache.Set(t, key, PayloadOf(s), remaining, AtRepopulate(raw, route, s, decided, now));
      }
    }

    /** The row decides, at the time it is looked at. */
    method Admit(t: nat, s: Session, key: string, ghost raw: string, ghost route: Route)
      returns (r: Result<Ctx, Refusal>)
      requires Valid() && ledger.At(t, AtCheck(raw, route, s)) && key == ledger.c.hex(ledger.c.sha(raw))
      modifies ledger
      ensures Valid() && ledger.Grown()
      ensures Resolved(ledger, t, route, r)
      ensures r.Ok? ==> r == Ok(Ctx(s.user, s.id, s.tenant, key)) && s.revokedAt.None? && old(ledger.now) < s.expiresAt
      ensures r.Err? ==> r == Err(SessionInvalid) && NoneActive(ledger.pg, ledger.now, ledger.c.sha(raw))
      ensures r.Err? ==> s.revokedAt.Some? || s.expiresAt <= ledger.now
    {
      ledger.Others(t);
      var now := ledger.now;
      if !s.IsActive(now) {
        CheckedRow(ledger, t, raw, route, s);
      }
      ledger.Record(Check(t));
      if !s.IsActive(now) {
        return Err(SessionInvalid);
      }
      if cache != null {
        Repopulate(t, s, key, raw, route, now);
      }
      return Ok(Ctx(s.user, s.id, s.tenant, key));
    }

    /** The row for the token hash, if the repository answers; the refusal says truthfully why there is none. */
    method LookUp(t: nat, hash: Bytes, key: string, ghost raw: string, ghost route: Route)
      returns (r: Result<Ctx, Refusal>)
      requires Valid() && ledger.At(t, AtFind(raw, route))
      requires hash == ledger.c.sha(raw) && key == ledger.c.hex(hash)
      modifies ledger
      ensures Valid() && ledger.Grown()
      ensures Resolved(ledger, t, route, r)
      ensures r.Ok? ==> r.value.tokenHashHex == key
      ensures r != Err(SessionRequired)
      ensures r == Err(SessionInvalid) ==> NoneActive(ledger.pg, ledger.now, hash)
    {
      var found := repo.FindByTokenHash(t, hash, raw, route);
      if found.Err? {
        return Err(if found.error.NotThere? then SessionInvalid else Unavailable);
      }
      r := Admit(t, found.value, key, raw, route);
    }

    /** From the cookie to the context of the request, or to the refusal. */
    method Resolve(t: nat, raw: string, route: Route) returns (r: Result<Ctx, Refusal>)
      requires Valid() && t !in ledger.last.threads
      modifies ledger
      ensures Valid() && ledger.Grown()
      ensures Resolved(ledger, t, route, r) && Arrive(t, raw, route) in ledger.labels
      ensures r == Err(SessionRequired) <==> raw == ""
      ensures r == Err(SessionInvalid) ==> NoneActive(ledger.pg, ledger.now, ledger.c.sha(raw))
      ensures r.Ok? ==> r.value.tokenHashHex == ledger.c.hex(ledger.c.sha(raw))
    {
      ledger.Record(Arrive(t, raw, route));
      if raw == "" {
        return Err(SessionRequired);
      }
      var hash := ledger.c.sha(raw);
      var key := ledger.c.hex(hash);
      if cache != null {
        var hit := Probe(t, key, raw, route);
        if hit.Some? {
          return Ok(hit.value);
        }
      }
      r := LookUp(t, hash, key, raw, route);
    }
  }

  class ProtectedRoutes {
    const session: SessionMiddleware
    const signOut: SignOut
    const getMe: GetMe

    constructor (session: SessionMiddleware, signOut: SignOut, getMe: GetMe)
      requires session.Valid() && signOut.Valid() && getMe.Valid()
      requires signOut.ledger == session.ledger && getMe.ledger == session.ledger
      ensures Valid() && this.session == session
    {
      this.session, this.signOut, this.getMe := session, signOut, getMe;
    }

    ghost predicate Valid()
      reads session.ledger
    {
      && signOut.ledger == session.ledger && getMe.ledger == session.ledger
      && session.Valid() && signOut.Valid() && getMe.Valid()
    }

    /** The origin is checked only for requests that carry a session. */
    method DeleteCurrentSession(t: nat, raw: string, originOk: bool) returns (reply: Reply)
      requires Valid() && t !in session.ledger.last.threads
      modifies session.ledger
      ensures Valid() && session.ledger.Grown()
      ensures session.ledger.At(t, Done(reply)) && Arrive(t, raw, Route.SignOut) in session.ledger.labels
      ensures !originOk ==> !reply.SignedOut?
    {
      var ledger := session.ledger;
      var resolved := session.Resolve(t, raw, Route.SignOut);
      if resolved.Err? {
        return Refused(resolved.error);
      }
      ghost var evidence := ledger.last.threads[t].evidence;
      if !originOk {
        ledger.Others(t);
        ledger.Record(Origin(t, false));
        return Failed(Forbidden);
      }
      var failure := signOut.Execute(t, resolved.value, evidence);
      return if failure.Some? then Failed(failure.value) else SignedOut;
    }

    method Me(t: nat, raw: string) returns (reply: Reply)
      requires Valid() && t !in session.ledger.last.threads
      modifies session.ledger
      ensures Valid() && session.ledger.Grown()
      ensures session.ledger.At(t, Done(reply)) && Arrive(t, raw, Route.GetMe) in session.ledger.labels
    {
      var ledger := session.ledger;
      var resolved := session.Resolve(t, raw, Route.GetMe);
      if resolved.Err? {
        return Refused(resolved.error);
      }
      var profile := getMe.Execute(t, resolved.value, ledger.last.threads[t].evidence);
      return if profile.Ok? then Profile(profile.value) else Failed(profile.error);
    }
  }
}
