/** Composition of HTTP middlewares. */
module Chain {
  import opened Basics
  import opened Domain
  import opened Protocol

  /** What a middleware does before it calls the next handler: answer itself, or pass the request on. */
  datatype Verdict<Q, R> = Stop(answer: R) | Pass(request: Q)

  type Handler<!Q, !R> = Q -> R

  type Middleware<!Q, !R> = Handler<Q, R> -> Handler<Q, R>

  function Guard<Q, R>(check: Q -> Verdict<Q, R>): Middleware<Q, R> {
    (next: Handler<Q, R>) => (q: Q) =>
      match check(q) {
        case Stop(answer) => answer
        case Pass(q') => next(q')
      }
  }

  /** The first middleware is the outermost. */
  function Wrapped<Q, R>(ms: seq<Middleware<Q, R>>, h: Handler<Q, R>): Handler<Q, R> {
    if ms == [] then h else ms[0](Wrapped(ms[1..], h))
  }

  /** Wraps from the last middleware to the first. */
  method Compose<Q, R>(ms: seq<Middleware<Q, R>>, inner: Handler<Q, R>) returns (h: Handler<Q, R>)
    ensures h == Wrapped(ms, inner)
  {
    h := inner;
    var i := |ms| - 1;
    while i >= 0
      invariant -1 <= i < |ms|
      invariant h == Wrapped(ms[i + 1..], inner)
    {
      assert ms[i..][1..] == ms[i + 1..];
      h := ms[i](h);
      i := i - 1;
    }
  }

  /** One check after the other, each seeing the request as the ones before it left it. */
  function Pipeline<Q, R>(checks: seq<Q -> Verdict<Q, R>>, q: Q): Verdict<Q, R> {
    if checks == [] then Pass(q)
    else match checks[0](q)
      case Stop(answer) => Stop(answer)
      case Pass(q') => Pipeline(checks[1..], q')
  }

  function Guards<Q, R>(checks: seq<Q -> Verdict<Q, R>>): seq<Middleware<Q, R>> {
    if checks == [] then [] else [Guard(checks[0])] + Guards(checks[1..])
  }

  /** A chain of guards answers with the first refusal, or hands the request to the handler. */
  lemma {:induction false} ChainIsPipeline<Q, R>(checks: seq<Q -> Verdict<Q, R>>, h: Handler<Q, R>, q: Q)
    ensures Wrapped(Guards(checks), h)(q) ==
      match Pipeline(checks, q) case Stop(answer) => answer case Pass(q') => h(q')
  {
    if checks != [] {
      assert Guards(checks)[1..] == Guards(checks[1..]);
      match checks[0](q)
      case Stop(_) =>
      case Pass(q') => ChainIsPipeline(checks[1..], h, q');
    }
  }

  // ---------------------------------------------------------------- the protected routes

  /** A request with the tenant and the context its middlewares have set so far. */
  datatype Request = Request(cookie: string, tenant: Option<TenantId>, ctx: Option<Ctx>)

  const DEFAULT_TENANT := TenantId(Uuid([0, 0, 0, 0, 0, 0, 0, 0, 0, 0, 0, 0, 0, 0, 0, 1]))

  function Tenancy(q: Request): Verdict<Request, Reply> {
    Pass(q.(tenant := Some(DEFAULT_TENANT)))
  }

  function Session(resolve: string -> Result<Ctx, Refusal>): Request -> Verdict<Request, Reply> {
    (q: Request) =>
      match resolve(q.cookie) {
        case Ok(ctx) => Pass(q.(tenant := Some(ctx.tenant), ctx := Some(ctx)))
        case Err(why) => Stop(Refused(why))
      }
  }

  function Origin(allow: Request -> bool): Request -> Verdict<Request, Reply> {
    (q: Request) => if allow(q) then Pass(q) else Stop(Failed(Forbidden))
  }

  function ReadChain(resolve: string -> Result<Ctx, Refusal>): seq<Request -> Verdict<Request, Reply>> {
    [Tenancy, Session(resolve)]
  }

  function MutatingChain(
      resolve: string -> Result<Ctx, Refusal>, allow: Request -> bool): seq<Request -> Verdict<Request, Reply>> {
    ReadChain(resolve) + [Origin(allow)]
  }

  /** Behind the protected chains the handler sees the tenant of the session, not the default one; without a
      session nothing else is looked at, and the origin is checked last. */
  lemma ProtectedChains(
      resolve: string -> Result<Ctx, Refusal>, allow: Request -> bool, h: Handler<Request, Reply>, q: Request)
    ensures var read := Wrapped(Guards(ReadChain(resolve)), h)(q);
      var mutate := Wrapped(Guards(MutatingChain(resolve, allow)), h)(q);
      match resolve(q.cookie)
      case Err(why) => read == Refused(why) && mutate == Refused(why)
      case Ok(ctx) =>
        var seen := Request(q.cookie, Some(ctx.tenant), Some(ctx));
        read == h(seen) && mutate == if allow(seen) then h(seen) else Failed(Forbidden)
  {
    var read, mutate := ReadChain(resolve), MutatingChain(resolve, allow);
    ChainIsPipeline(read, h, q);
    ChainIsPipeline(mutate, h, q);
    var q1 := q.(tenant := Some(DEFAULT_TENANT));
    assert Pipeline(read, q) == Pipeline(read[1..], q1) && Pipeline(mutate, q) == Pipeline(mutate[1..], q1);
    match resolve(q.cookie)
    case Err(_) =>
    case Ok(ctx) =>
      var seen := Request(q.cookie, Some(ctx.tenant), Some(ctx));
      assert Pipeline(read[1..], q1) == Pipeline(read[1..][1..], seen);
      assert Pipeline(mutate[1..], q1) == Pipeline(mutate[1..][1..], seen);
      var last := mutate[1..][1..];
      assert last == [Origin(allow)] && last[1..] == [];
      assert Pipeline(last, seen) ==
        match Origin(allow)(seen) case Stop(answer) => Stop(answer) case Pass(x) => Pipeline(last[1..], x);
  }
}
