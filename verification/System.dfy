/** The whole system: writers, publishers and replaying processes over the same tables. A run is any
    sequence of actions; theorems are about the state after every run. */
module System {
  import opened Domain
  import opened Aggregates
  import opened EventLog
  import opened ReplayEngine
  import W = Writers
  import D = Delivery
  import R = Readers

  datatype State = State(store: W.Store, channel: D.Channel, view: R.View)

  datatype Action = Write(action: W.Action) | Deliver(step: D.Step) | Read(act: R.Act)

  const INIT := State(W.EMPTY, D.IDLE, R.EMPTY)

  /** `period` is the snapshot period the user service was configured with. */
  function Next(period: int, s: State, a: Action): State {
    match a
    case Write(x) => s.(store := W.Next(s.store, x))
    case Deliver(x) => s.(channel := D.NextStep(s.store.db.outbox, s.channel, x))
    case Read(x) => s.(view := R.NextAct(period, s.store, s.view, x))
  }

  function Run(period: int, s: State, actions: seq<Action>): State {
    if actions == [] then s
    else Next(period, Run(period, s, actions[..|actions| - 1]), actions[|actions| - 1])
  }

  ghost predicate Inv(period: int, s: State) {
    && W.Inv(s.store)
    && D.Inv(s.store.db, s.channel)
    && R.Inv(period, s.store.db.events, s.view)
  }

  /** Histories only grow, and so do the deliveries, the marks and the versions with a snapshot. */
  ghost predicate Extends(s: State, s': State) {
    && s.store.db.events <= s'.store.db.events
    && s.store.db.outbox <= s'.store.db.outbox
    && s.channel.sent <= s'.channel.sent
    && s.channel.published <= s'.channel.published
    && SavedVersions(s.view.snapshots) <= SavedVersions(s'.view.snapshots)
  }

  lemma InitInv(period: int)
    ensures Inv(period, INIT)
  {
    W.InitInv();
  }

  lemma WriteExtends(w: W.Store, a: W.Action)
    ensures w.db.events <= W.Next(w, a).db.events && w.db.outbox <= W.Next(w, a).db.outbox
    ensures !a.Commit? ==> W.Next(w, a).db == w.db
  {
  }

  lemma WriteInv(period: int, s: State, w': W.Store, x: W.Action)
    requires Inv(period, s) && w' == W.Next(s.store, x)
    ensures Inv(period, s.(store := w')) && Extends(s, s.(store := w'))
  {
    W.NextInv(s.store, x);
    WriteExtends(s.store, x);
    D.ExtendInv(s.store.db, w'.db, s.channel);
    R.ExtendInv(period, s.store.db.events, w'.db.events, s.view);
  }

  lemma DeliverInv(period: int, s: State, c': D.Channel, x: D.Step)
    requires Inv(period, s) && c' == D.NextStep(s.store.db.outbox, s.channel, x)
    ensures Inv(period, s.(channel := c')) && Extends(s, s.(channel := c'))
  {
    D.StepInv(s.store.db, s.channel, x);
    DeliverExtends(s.store.db.outbox, s.channel, x);
  }

  lemma DeliverExtends(outbox: seq<W.OutboxRow>, c: D.Channel, x: D.Step)
    ensures c.sent <= D.NextStep(outbox, c, x).sent && c.published <= D.NextStep(outbox, c, x).published
  {
  }

  lemma ReadInv(period: int, s: State, v': R.View, x: R.Act)
    requires Inv(period, s) && v' == R.NextAct(period, s.store, s.view, x)
    ensures Inv(period, s.(view := v')) && Extends(s, s.(view := v'))
  {
    R.ActInv(period, s.store, s.view, x);
    ReadExtends(period, s.store, s.view, x);
  }

  lemma ReadExtends(period: int, w: W.Store, v: R.View, x: R.Act)
    ensures SavedVersions(v.snapshots) <= SavedVersions(R.NextAct(period, w, v, x).snapshots)
  {
    if R.NextAct(period, w, v, x).snapshots != v.snapshots {
      var p := v.processes[x.process];
      var a := if x.SaveSnapshot? then p.result.value else p.row;
      SaveKeepsVersions(v.snapshots, SnapshotRow(p.key, a.Version(), Marshal(a)));
    }
  }

  lemma NextInv(period: int, s: State, a: Action)
    requires Inv(period, s)
    ensures Inv(period, Next(period, s, a))
    ensures Extends(s, Next(period, s, a))
  {
    match a
    case Write(x) => WriteInv(period, s, W.Next(s.store, x), x);
    case Deliver(x) => DeliverInv(period, s, D.NextStep(s.store.db.outbox, s.channel, x), x);
    case Read(x) => ReadInv(period, s, R.NextAct(period, s.store, s.view, x), x);
  }

  lemma {:induction false} RunInv(period: int, s: State, actions: seq<Action>)
    requires Inv(period, s)
    ensures Inv(period, Run(period, s, actions))
    ensures Extends(s, Run(period, s, actions))
  {
    if actions == [] {
    } else {
      RunInv(period, s, actions[..|actions| - 1]);
      NextInv(period, Run(period, s, actions[..|actions| - 1]), actions[|actions| - 1]);
    }
  }

  /** The state after any run from the empty tables. */
  function Reach(period: int, actions: seq<Action>): State {
    Run(period, INIT, actions)
  }

  lemma ReachInv(period: int, actions: seq<Action>)
    ensures Inv(period, Reach(period, actions))
  {
    InitInv(period);
    RunInv(period, INIT, actions);
  }

  lemma {:induction false} RunSplit(period: int, s: State, a: seq<Action>, b: seq<Action>)
    ensures Run(period, s, a + b) == Run(period, Run(period, s, a), b)
  {
    if b == [] {
      assert a + b == a;
    } else {
      assert (a + b)[..|a + b| - 1] == a + b[..|b| - 1];
      RunSplit(period, s, a, b[..|b| - 1]);
    }
  }

  ghost predicate Reachable(period: int, s: State) {
    exists actions :: s == Reach(period, actions)
  }

  lemma InitReachable(period: int)
    ensures Reachable(period, INIT)
  {
    assert Reach(period, []) == INIT;
  }

  lemma ReachableInv(period: int, s: State)
    requires Reachable(period, s)
    ensures Inv(period, s)
  {
    var actions :| s == Reach(period, actions);
    ReachInv(period, actions);
  }

  lemma RunReachable(period: int, s: State, actions: seq<Action>)
    requires Reachable(period, s)
    ensures Reachable(period, Run(period, s, actions)) && Extends(s, Run(period, s, actions))
  {
    var before :| s == Reach(period, before);
    RunSplit(period, INIT, before, actions);
    assert Run(period, s, actions) == Reach(period, before + actions);
    ReachInv(period, before);
    RunInv(period, s, actions);
  }

  lemma NextReachable(period: int, s: State, a: Action)
    requires Reachable(period, s)
    ensures Reachable(period, Next(period, s, a)) && Extends(s, Next(period, s, a))
  {
    RunReachable(period, s, [a]);
    assert [a][..0] == [];
    assert Run(period, s, [a]) == Next(period, s, a);
  }
}
