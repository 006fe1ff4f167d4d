/** An account can always be signed in to again. */
module Accounts {
  import opened Basics
  import opened Domain
  import opened Postgres
  import opened Protocol
  import opened Invariant
  import opened Runs
  import Outcomes

  lemma SignUpCommitted(c: Config, states: seq<State>, labels: seq<Label>, i: nat)
    requires ConfigOk(c) && Run(c, states, labels) && i < |labels|
    requires CommitsNow(labels[i]) && labels[i].t in states[i].threads
    requires states[i].threads[labels[i].t].AtExec? && states[i].threads[labels[i].t].job.SignUpJob?
    ensures var job := states[i].threads[labels[i].t].job;
      && JobOk(c, states[i].pg, states[i].now, job)
      && job.newUser.id in states[i + 1].pg.users && states[i + 1].pg.users[job.newUser.id] == job.newUser
  {
    StepFrame(c, states, labels, i);
    RunInv(c, states, labels, i);
    var t := labels[i].t;
    assert TxOk(states[i], t) && ThreadOk(c, states[i].pg, states[i].now, states[i].threads[t]);
  }

  /** The job of a sign-up is made of what the request arrived with. */
  predicate MadeFrom(c: Config, now: int, l: Label, job: Job) {
    l.ArriveSignUp? && SignUpStart(c, now, l) == AtBegin(job)
  }

  lemma StepSignUp(c: Config, s: State, l: Label)
    requires Enabled(c, s, l) && Moving(l)
    requires var th := Step(c, s, l).threads[l.t]; Outcomes.HasJob(th) && th.job.SignUpJob?
    ensures var job := Step(c, s, l).threads[l.t].job;
      MadeFrom(c, s.now, l, job) || (l.t in s.threads && Outcomes.HasJob(s.threads[l.t]) && s.threads[l.t].job == job)
  {}

  lemma {:induction false} SignUpOrigin(c: Config, states: seq<State>, labels: seq<Label>, j: nat, t: nat)
      returns (k: nat)
    requires ConfigOk(c) && Run(c, states, labels) && j < |states| && t in states[j].threads
    requires Outcomes.HasJob(states[j].threads[t]) && states[j].threads[t].job.SignUpJob?
    ensures k < j && Mover(labels[k], t) && MadeFrom(c, states[k].now, labels[k], states[j].threads[t].job)
  {
    k := 0;
    if j > 0 {
      if Mover(labels[j - 1], t) {
        assert Moves(c, states, labels, j - 1);
        StepSignUp(c, states[j - 1], labels[j - 1]);
        if MadeFrom(c, states[j - 1].now, labels[j - 1], states[j].threads[t].job) {
          k := j - 1;
        } else {
          k := SignUpOrigin(c, states, labels, j - 1, t);
        }
      } else {
        StepFrame(c, states, labels, j - 1);
        k := SignUpOrigin(c, states, labels, j - 1, t);
      }
    }
  }

  lemma OnlyThisUser(c: Config, pg: Pg, u: User, a: Answer)
    requires UsersOk(c, pg.users) && u.id in pg.users && pg.users[u.id] == u
    requires EmailAnswer(pg, u.tenant, u.email, a) && !a.Fault?
    ensures a == Row(u.id)
  {
    if a.Row? {
      assert SameUserKey(pg.users[a.id], pg.users[u.id]);
    }
  }

  /** After a sign-up committed with a password, in every later state of the run, signing in to the same
      tenant with that password and any spelling of the email that normalises alike finds exactly that
      user, and the credential check binds the new session to it.  A password that does not verify against
      the stored hash is refused as invalid credentials, never as an internal error. */
  lemma AccountRecoverable(
      c: Config, states: seq<State>, labels: seq<Label>, i: nat, j: nat,
      job: Job, email: string, password: Bytes, a: Answer)
    requires ConfigOk(c) && Run(c, states, labels) && i < j < |states|
    requires CommitsNow(labels[i]) && labels[i].t in states[i].threads
    requires states[i].threads[labels[i].t].AtExec? && states[i].threads[labels[i].t].job == job && job.SignUpJob?
    requires c.normalise(email) == c.normalise(job.input.email)
    requires EmailAnswer(states[j].pg, job.input.tenant, job.newUser.email, a) && !a.Fault?
    ensures var again := Credentials(job.input.tenant, email, password);
      && SignInStart(c, again) == AtLookup(again, job.newUser.email)
      && a == Row(job.newUser.id) && job.newUser.id in states[j].pg.users
      && CredentialCheck(c, again, states[j].pg.users[job.newUser.id]) ==
           (if c.verify(job.newUser.passwordHash, password) == Some(true)
            then AtToken(again, job.newUser) else Done(Failed(InvalidCredentials)))
    ensures c.verify(job.newUser.passwordHash, job.input.password) == Some(true)
  {
    SignUpCommitted(c, states, labels, i);
    RunExtends(c, states, labels, i + 1, j);
    RunInv(c, states, labels, j);
    OnlyThisUser(c, states[j].pg, job.newUser, a);
    assert Parses(c, job.newUser.passwordHash);
  }

  // ---------------------------------------------------------------- failed sign-ins look alike

  /** An account of the tenant with this email, in whatever spelling, and this password. */
  predicate Registered(c: Config, users: map<Uuid, User>, input: Credentials) {
    exists id :: id in users && users[id].tenant == input.tenant
      && c.normalise(input.email) == Some(users[id].email)
      && c.verify(users[id].passwordHash, input.password) == Some(true)
  }

  /** The state in which a sign-in has been decided: on arrival, or by the answer to its lookup. */
  ghost predicate Decided(c: Config, s: State, t: nat, input: Credentials, s': State) {
    Enabled(c, s, ArriveSignIn(t, input))
    && var arrived := Step(c, s, ArriveSignIn(t, input));
    if arrived.threads[t].AtLookup? then LookedUp(c, arrived, t, s') else s' == arrived
  }

  /** The lookup was answered, truthfully. */
  ghost predicate LookedUp(c: Config, s: State, t: nat, s': State) {
    exists a :: Enabled(c, s, Lookup(t, a)) && !a.Fault? && s' == Step(c, s, Lookup(t, a))
  }

  lemma LookupDecides(c: Config, s: State, t: nat, input: Credentials, email: string, a: Answer)
    requires UsersOk(c, s.pg.users) && c.normalise(input.email) == Some(email)
    requires t in s.threads && s.threads[t] == AtLookup(input, email)
    requires Enabled(c, s, Lookup(t, a)) && !a.Fault?
    ensures var s' := Step(c, s, Lookup(t, a));
      t in s'.threads && s' == Move(s, t, s'.threads[t])
      && (if Registered(c, s.pg.users, input) then s'.threads[t].AtToken?
          else s'.threads[t] == Done(Failed(InvalidCredentials)))
  {
    if a.Row? {
      var u := s.pg.users[a.id];
      assert Parses(c, u.passwordHash);
      forall id | id in s.pg.users && s.pg.users[id].tenant == input.tenant && s.pg.users[id].email == email
        ensures id == a.id
      {
        assert SameUserKey(s.pg.users[id], u);
      }
    }
  }

  lemma AnswerDecides(c: Config, s: State, t: nat, input: Credentials, email: string, s': State)
    requires UsersOk(c, s.pg.users) && c.normalise(input.email) == Some(email)
    requires t in s.threads && s.threads[t] == AtLookup(input, email) && LookedUp(c, s, t, s')
    ensures t in s'.threads && s' == Move(s, t, s'.threads[t])
    ensures if Registered(c, s.pg.users, input) then s'.threads[t].AtToken?
            else s'.threads[t] == Done(Failed(InvalidCredentials))
  {
    var a :| Enabled(c, s, Lookup(t, a)) && !a.Fault? && s' == Step(c, s, Lookup(t, a));
    LookupDecides(c, s, t, input, email, a);
  }

  lemma Arrives(c: Config, s: State, t: nat, input: Credentials)
    requires Enabled(c, s, ArriveSignIn(t, input)) && !input.tenant.IsZero()
    ensures Step(c, s, ArriveSignIn(t, input)) == Move(s, t, match c.normalise(input.email)
      case None => Done(Failed(InvalidCredentials))
      case Some(email) => AtLookup(input, email))
  {}

  /** Whether the email is malformed, unknown, or known with another password: when the repository answers,
      the sign-in is refused as invalid credentials, and in no other case, and apart from the reply the two
      states are the same. */
  lemma FailedSignInIsUniform(c: Config, s: State, t: nat, input: Credentials, s': State)
    requires UsersOk(c, s.pg.users) && !input.tenant.IsZero() && Decided(c, s, t, input, s')
    ensures t in s'.threads && s' == Move(s, t, s'.threads[t])
    ensures if Registered(c, s.pg.users, input) then s'.threads[t].AtToken?
            else s'.threads[t] == Done(Failed(InvalidCredentials))
  {
    Arrives(c, s, t, input);
    if c.normalise(input.email).Some? {
      var arrived := Step(c, s, ArriveSignIn(t, input));
      AnswerDecides(c, arrived, t, input, c.normalise(input.email).value, s');
    }
  }
}
