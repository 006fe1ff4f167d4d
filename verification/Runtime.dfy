/** The servers the process talks to, changing in place while other requests are served, and the record of
    every step taken. */
module Runtime {
  import opened Postgres
  import opened Protocol
  import opened Invariant

  /** The protocol state `last` is the state of the servers; the trace of all steps so far is a run. */
  class Ledger {
    const c: Config
    /** The clock, the tables behind the connection pool, and the values on the cache server. */
    var now: int
    var pg: Pg
    var entries: map<string, Entry>
    var last: State
    ghost var states: seq<State>
    ghost var labels: seq<Label>

    constructor (c: Config)
      requires ConfigOk(c)
      ensures Valid() && this.c == c && labels == []
    {
      this.c := c;
      now, pg, entries := *, EMPTY, map[];
      new;
      last := State(now, EMPTY, map[], map[]);
      states, labels := [last], [];
    }

    ghost predicate Recorded()
      reads this
    {
      ConfigOk(c) && Run(c, states, labels) && states[|labels|] == last
    }

    ghost predicate Valid()
      reads this
    {
      Recorded() && last.now == now && last.pg == pg && last.cache == entries
    }

    /** The request is at this program point. */
    predicate At(t: nat, th: Thread)
      reads this
    {
      t in last.threads && last.threads[t] == th
    }

    /** The steps taken before are still the first steps of the trace, and time has not gone back. */
    twostate predicate Grown()
      reads this
    {
      old(labels) <= labels && old(now) <= now
    }

    /** The trace says that request `t` came in with this input. */
    ghost predicate CameIn(t: nat, input: Credentials)
      reads this
    {
      exists i :: 0 <= i < |labels| && (labels[i].ArriveSignUp? || labels[i].ArriveSignIn?)
                  && labels[i].t == t && labels[i].input == input
    }

    /** A step of the protocol whose effect on database, cache and clock has been carried out. */
    method Record(l: Label)
      requires Recorded() && Enabled(c, last, l)
      requires var s := Step(c, last, l); s.now == now && s.pg == pg && s.cache == entries
      modifies this`last, this`states, this`labels
      ensures Valid() && last == Step(c, old(last), l)
      ensures labels == old(labels) + [l] && states == old(states) + [last]
      ensures labels[|labels| - 1] == l && l in labels
    {
      last := Step(c, last, l);
      ghost var before, steps := states, labels;
      states, labels := states + [last], labels + [l];
      forall i | 0 <= i < |labels| ensures Moves(c, states, labels, i) {
        if i < |steps| {
          assert Moves(c, before, steps, i);
        }
      }
    }

    /** Any number of steps of anybody but request `t`. */
    method Others(t: nat)
      requires Valid()
      modifies this
      ensures Valid() && Grown()
      ensures t in last.threads <==> t in old(last.threads)
      ensures t in last.threads ==> last.threads[t] == old(last.threads[t])
      ensures t in pg.open <==> t in old(pg.open)
    {
      var n: nat :| n >= 0;
      for i := 0 to n
        invariant Valid() && Grown()
        invariant t in last.threads <==> t in old(last.threads)
        invariant t in last.threads ==> last.threads[t] == old(last.threads[t])
        invariant t in pg.open <==> t in old(pg.open)
      {
        assert Enabled(c, last, Tick(0)) && !Mover(Tick(0), t);
        var l: Label :| Enabled(c, last, l) && !Mover(l, t);
        Frame(c, last, l);
        var next := Step(c, last, l);
        now, pg, entries := next.now, next.pg, next.cache;
        Record(l);
      }
    }
  }
}
