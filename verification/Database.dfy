/** The shared database as the processes see it: each statement is one action of the system, and
    between two statements of a process any others may run. */
module Database {
  import opened Domain
  import opened System
  import opened Sequences
  import W = Writers
  import D = Delivery
  import R = Readers

  /** The process that issues a statement. */
  datatype Actor = Command(tx: nat) | Publisher(id: nat) | Process(id: nat) | Environment

  function ActorOf(a: Action): Actor {
    match a
    case Write(x) => if x.Tick? then Environment else Command(x.tx)
    case Deliver(x) => Publisher(x.publisher)
    case Read(x) => if x.Expire? then Environment else Process(x.process)
  }

  /** The statements of other processes. */
  function Foreign(me: Actor, actions: seq<Action>): seq<Action> {
    if actions == [] then []
    else
      var rest := Foreign(me, actions[..|actions| - 1]);
      if ActorOf(actions[|actions| - 1]) == me then rest else rest + [actions[|actions| - 1]]
  }

  /** The private state of a process, which only its own statements change. */
  ghost predicate SameMine(me: Actor, s: State, s': State) {
    match me
    case Command(t) =>
      (t in s.store.txs <==> t in s'.store.txs) && (t in s.store.txs ==> s'.store.txs[t] == s.store.txs[t])
    case Publisher(p) =>
      (p in s.channel.publishers <==> p in s'.channel.publishers)
      && (p in s.channel.publishers ==> s'.channel.publishers[p] == s.channel.publishers[p])
    case Process(r) =>
      (r in s.view.processes <==> r in s'.view.processes)
      && (r in s.view.processes ==> s'.view.processes[r] == s.view.processes[r])
    case Environment => true
  }

  lemma ForeignStepKeepsMine(period: int, s: State, a: Action, me: Actor)
    requires ActorOf(a) != me
    ensures SameMine(me, s, Next(period, s, a))
  {
    match a
    case Write(x) => if me.Command? { ForeignWriteKeeps(s.store, x, me.tx); }
    case Deliver(_) =>
    case Read(_) =>
  }

  lemma ForeignWriteKeeps(w: W.Store, a: W.Action, t: nat)
    requires a.Tick? || a.tx != t
    ensures t in w.txs <==> t in W.Next(w, a).txs
    ensures t in w.txs ==> W.Next(w, a).txs[t] == w.txs[t]
  {
  }

  lemma {:induction false} ForeignKeepsMine(period: int, s: State, actions: seq<Action>, me: Actor)
    ensures SameMine(me, s, Run(period, s, Foreign(me, actions)))
  {
    if actions == [] {
    } else {
      var init, a := actions[..|actions| - 1], actions[|actions| - 1];
      ForeignKeepsMine(period, s, init, me);
      if ActorOf(a) != me {
        var rest := Foreign(me, init);
        assert (rest + [a])[..|rest|] == rest;
        ForeignStepKeepsMine(period, Run(period, s, rest), a, me);
      }
    }
  }

  lemma ForeignStep(period: int, s: State, me: Actor, schedule: seq<Action>, i: nat)
    requires i < |schedule|
    ensures var before := Run(period, s, Foreign(me, schedule[..i]));
            Run(period, s, Foreign(me, schedule[..i + 1])) ==
            if ActorOf(schedule[i]) == me then before else Next(period, before, schedule[i])
  {
    assert schedule[..i + 1][..i] == schedule[..i];
    var rest := Foreign(me, schedule[..i]);
    assert (rest + [schedule[i]])[..|rest|] == rest;
  }

  method RunOthers(period: int, s: State, me: Actor, schedule: seq<Action>) returns (s': State)
    ensures s' == Run(period, s, Foreign(me, schedule))
  {
    s' := s;
    for i := 0 to |schedule|
      invariant s' == Run(period, s, Foreign(me, schedule[..i]))
    {
      ForeignStep(period, s, me, schedule, i);
      if ActorOf(schedule[i]) != me { s' := Next(period, s', schedule[i]); }
    }
    assert schedule[..|schedule|] == schedule;
  }

  /** The state after all that the others do while `me` waits. */
  function AfterAll(period: int, s: State, me: Actor, waits: Schedule<Action>): State
    decreases |waits|
  {
    if waits == [] then s else AfterAll(period, Run(period, s, Foreign(me, waits[0])), me, waits[1..])
  }

  lemma AfterMore(period: int, s: State, me: Actor, others: seq<Action>, waits: Schedule<Action>)
    ensures AfterAll(period, s, me, [others] + waits)
            == AfterAll(period, Run(period, s, Foreign(me, others)), me, waits)
  {
    assert ([others] + waits)[1..] == waits;
  }

  class Connection {
    var state: State
    const period: int

    /** The state is that after some run of the system. */
    ghost predicate Valid()
      reads this
    {
      Reachable(period, state)
    }

    constructor (period: int)
      ensures Valid() && state == INIT && this.period == period
    {
      this.period := period;
      state := INIT;
      new;
      InitReachable(period);
    }

    /** One statement of the calling process. */
    method Do(a: Action)
      requires Valid()
      modifies this
      ensures Valid() && Extends(old(state), state)
      ensures state == Next(period, old(state), a)
    {
      NextReachable(period, state, a);
      state := Next(period, state, a);
    }

    /** What other processes do before the next statement of `me`. */
    method Others(me: Actor, schedule: seq<Action>)
      requires Valid()
      modifies this
      ensures Valid() && Extends(old(state), state)
      ensures state == Run(period, old(state), Foreign(me, schedule))
      ensures SameMine(me, old(state), state)
    {
      RunReachable(period, state, Foreign(me, schedule));
      ForeignKeepsMine(period, state, schedule, me);
      state := RunOthers(period, state, me, schedule);
    }
  }
}
