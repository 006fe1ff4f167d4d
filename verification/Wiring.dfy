/** The service put together: one ledger, one hasher, and the use cases and routes that share them. */
module Wiring {
  import Adapters
  import Hasher
  import Http
  import Runtime
  import Service
  import Tokens
  import UseCases

  /** From an environment to a running service; it fails only when no dummy hash can be made. */
  method Start(e: Service.Env)
    returns (signUp: UseCases.SignUp, signIn: UseCases.SignIn?, routes: Http.ProtectedRoutes)
    requires Service.EnvOk(e)
    ensures signUp.Valid() && routes.Valid() && (signIn != null ==> signIn.Valid())
    ensures signUp.ledger == routes.session.ledger && signUp.ledger.c == Service.ConfigOf(e)
    ensures signIn != null ==> signIn.ledger == signUp.ledger && signIn.hasher == signUp.hasher
  {
    Service.ServiceConfigOk(e);
    var ledger := new Runtime.Ledger(Service.ConfigOf(e));
    var source := new Tokens.RandomSource();
    var hasher := new Hasher.PasswordHasher(e, source);
    var cache: Adapters.SessionCache? := null;
    if e.cacheOn {
      cache := new Adapters.SessionCache(ledger);
    }
    signUp := new UseCases.SignUp(ledger, cache, hasher);
    var made := UseCases.SignIn.New(ledger, cache, hasher);
    signIn := if made.None? then null else made.value;
    var session := new Http.SessionMiddleware(ledger, cache);
    var signOut := new UseCases.SignOut(ledger, cache);
    var getMe := new UseCases.GetMe(ledger);
    routes := new Http.ProtectedRoutes(session, signOut, getMe);
  }
}
