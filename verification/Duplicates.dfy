/** internal/worker/outbox.go delivers at least once. Three runs that deliver an event twice: in each, a
    single step is not clean, so none of the conditions for delivering once can be dropped. */
module Duplicates {
  import opened Domain
  import opened EventLog
  import opened System
  import opened Scenarios
  import opened DeliveryOnce
  import D = Delivery
  import DeliveryTheorems
  import W = Writers
  import Sorting

  /** The channel after some steps over a table that does not change. */
  function After(outbox: seq<W.OutboxRow>, c: D.Channel, steps: seq<D.Step>): D.Channel {
    if steps == [] then c
    else D.NextStep(outbox, After(outbox, c, steps[..|steps| - 1]), steps[|steps| - 1])
  }

  /** Step `i` is the only one that is not clean. */
  ghost predicate CleanBut(outbox: seq<W.OutboxRow>, c: D.Channel, steps: seq<D.Step>, i: nat) {
    forall j :: 0 <= j < |steps| ==> (Clean(After(outbox, c, steps[..j]), steps[j]) <==> j != i)
  }

  function Deliveries(steps: seq<D.Step>): seq<Action> {
    seq(|steps|, i requires 0 <= i < |steps| => Deliver(steps[i]))
  }

  lemma {:induction false} DeliveriesRun(period: int, s: State, steps: seq<D.Step>)
    ensures Run(period, s, Deliveries(steps)) == s.(channel := After(s.store.db.outbox, s.channel, steps))
  {
    if steps == [] {
    } else {
      var init := steps[..|steps| - 1];
      DeliveriesRun(period, s, init);
      assert Deliveries(steps)[..|steps| - 1] == Deliveries(init);
    }
  }

  lemma OneRowBatch(row: W.OutboxRow)
    ensures D.Batch([row], {}) == [row]
  {
    assert [row][..0] == [];
    assert D.Unpublished([row], {}) == [row];
    assert Sorting.Sort(D.ById, [row]) == [row];
  }

  /** The steps deliver the event of the row twice, and step `i` is the only one that is not clean. */
  ghost predicate Repeats(row: W.OutboxRow, steps: seq<D.Step>, i: nat) {
    After([row], D.IDLE, steps).sent == [row.event, row.event] && CleanBut([row], D.IDLE, steps, i)
  }

  /** The steps lead to the channel `c`; those that are not clean are step `i` alone, if it is reached. */
  ghost predicate Leads(row: W.OutboxRow, steps: seq<D.Step>, c: D.Channel, i: nat) {
    After([row], D.IDLE, steps) == c && CleanBut([row], D.IDLE, steps, i)
  }

  lemma OneStep(row: W.OutboxRow, steps: seq<D.Step>, c: D.Channel, i: nat, x: D.Step, c': D.Channel)
    requires Leads(row, steps, c, i)
    requires c' == D.NextStep([row], c, x) && (Clean(c, x) <==> |steps| != i)
    ensures Leads(row, steps + [x], c', i)
  {
    var all := steps + [x];
    assert all[..|steps|] == steps;
    forall j | 0 <= j < |all| ensures Clean(After([row], D.IDLE, all[..j]), all[j]) <==> j != i {
      if j < |steps| { assert all[..j] == steps[..j]; }
    }
  }

  /** The mark of the first delivery is not stored. */
  const LOST_MARK := [D.Step.Query(0), D.Send(0), D.Mark(0, false), D.Stop(0), D.Step.Query(0), D.Send(0)]

  /** Two publishers read the row before either has marked it. */
  const OVERLAP := [D.Step.Query(0), D.Step.Query(1), D.Send(0), D.Send(1)]

  /** The publisher stops between the send and the mark. */
  const STOPPED := [D.Step.Query(0), D.Send(0), D.Stop(0), D.Step.Query(0), D.Send(0)]

  function Holding(row: W.OutboxRow, pos: nat, sent: bool): D.Publisher {
    D.Publisher([row], pos, sent)
  }

  function One(row: W.OutboxRow, sent: seq<Event>, pos: nat, open: bool): D.Channel {
    D.Channel({}, sent, map[0 := Holding(row, pos, open)])
  }

  function Closed(sent: seq<Event>): D.Channel {
    D.Channel({}, sent, map[])
  }

  lemma QueryOne(row: W.OutboxRow, sent: seq<Event>)
    ensures D.NextStep([row], Closed(sent), D.Step.Query(0)) == One(row, sent, 0, false)
  {
    OneRowBatch(row);
  }

  lemma SendOne(row: W.OutboxRow, sent: seq<Event>)
    ensures D.NextStep([row], One(row, sent, 0, false), D.Send(0)) == One(row, sent + [row.event], 0, true)
  {
  }

  lemma SentOnce(row: W.OutboxRow)
    ensures Leads(row, [] + [D.Step.Query(0)] + [D.Send(0)], One(row, [row.event], 0, true), 2)
  {
    QueryOne(row, []);
    SendOne(row, []);
    OneStep(row, [], Closed([]), 2, D.Step.Query(0), One(row, [], 0, false));
    OneStep(row, [] + [D.Step.Query(0)], One(row, [], 0, false), 2, D.Send(0), One(row, [row.event], 0, true));
  }

  /** A publisher that starts after one delivery that is not marked repeats it. */
  lemma SentAgain(row: W.OutboxRow, steps: seq<D.Step>)
    requires Leads(row, steps, Closed([row.event]), 2) && |steps| > 2
    ensures Repeats(row, steps + [D.Step.Query(0)] + [D.Send(0)], 2)
  {
    QueryOne(row, [row.event]);
    SendOne(row, [row.event]);
    OneStep(row, steps, Closed([row.event]), 2, D.Step.Query(0), One(row, [row.event], 0, false));
    OneStep(row, steps + [D.Step.Query(0)], One(row, [row.event], 0, false), 2, D.Send(0),
            One(row, [row.event] + [row.event], 0, true));
  }

  lemma LostMark(row: W.OutboxRow)
    ensures Repeats(row, LOST_MARK, 2)
  {
    var e, sent := row.event, [] + [D.Step.Query(0)] + [D.Send(0)];
    SentOnce(row);
    OneStep(row, sent, One(row, [e], 0, true), 2, D.Mark(0, false), One(row, [e], 1, false));
    OneStep(row, sent + [D.Mark(0, false)], One(row, [e], 1, false), 2, D.Stop(0), Closed([e]));
    SentAgain(row, sent + [D.Mark(0, false)] + [D.Stop(0)]);
    assert LOST_MARK == sent + [D.Mark(0, false)] + [D.Stop(0)] + [D.Step.Query(0)] + [D.Send(0)];
  }

  lemma Stopped(row: W.OutboxRow)
    ensures Repeats(row, STOPPED, 2)
  {
    var e, sent := row.event, [] + [D.Step.Query(0)] + [D.Send(0)];
    SentOnce(row);
    OneStep(row, sent, One(row, [e], 0, true), 2, D.Stop(0), Closed([e]));
    SentAgain(row, sent + [D.Stop(0)]);
    assert STOPPED == sent + [D.Stop(0)] + [D.Step.Query(0)] + [D.Send(0)];
  }

  function Two(row: W.OutboxRow, sent: seq<Event>, open: bool, open': bool): D.Channel {
    D.Channel({}, sent, map[0 := Holding(row, 0, open), 1 := Holding(row, 0, open')])
  }

  lemma Overlap(row: W.OutboxRow)
    ensures Repeats(row, OVERLAP, 1)
  {
    var e, one := row.event, [] + [D.Step.Query(0)];
    QueryOne(row, []);
    OneRowBatch(row);
    OneStep(row, [], Closed([]), 1, D.Step.Query(0), One(row, [], 0, false));
    OneStep(row, one, One(row, [], 0, false), 1, D.Step.Query(1), Two(row, [], false, false));
    OneStep(row, one + [D.Step.Query(1)], Two(row, [], false, false), 1, D.Send(0), Two(row, [e], true, false));
    OneStep(row, one + [D.Step.Query(1)] + [D.Send(0)], Two(row, [e], true, false), 1, D.Send(1),
            Two(row, [e, e], true, true));
    assert OVERLAP == one + [D.Step.Query(1)] + [D.Send(0)] + [D.Send(1)];
  }

  /** A lost mark, two publishers at once, or a stop between send and mark: each alone makes a run deliver
      an event twice. */
  lemma EachConditionIsNeeded(period: int, steps: seq<D.Step>) returns (actions: seq<Action>)
    requires steps == LOST_MARK || steps == OVERLAP || steps == STOPPED
    ensures var sent := Reach(period, actions).channel.sent; |sent| == 2 && sent[0] == sent[1]
    ensures actions == Alone(0, W.Request(Key(UserType, ""), None, CREATE, true)) + Deliveries(steps)
    ensures var outbox := Reach(period, Alone(0, W.Request(Key(UserType, ""), None, CREATE, true))).store.db.outbox;
            CleanBut(outbox, D.IDLE, steps, if steps == OVERLAP then 1 else 2)
  {
    var first := Alone(0, W.Request(Key(UserType, ""), None, CREATE, true));
    var row := OneOutboxRow(period);
    actions := first + Deliveries(steps);
    RunSplit(period, INIT, first, Deliveries(steps));
    DeliveriesRun(period, Reach(period, first), steps);
    if steps == LOST_MARK {
      LostMark(row);
    } else if steps == OVERLAP {
      Overlap(row);
    } else {
      Stopped(row);
    }
  }

  lemma OneOutboxRow(period: int) returns (row: W.OutboxRow)
    ensures var s := Reach(period, Alone(0, W.Request(Key(UserType, ""), None, CREATE, true)));
            s.channel == D.IDLE && s.store.db.outbox == [row]
  {
    var first := Alone(0, W.Request(Key(UserType, ""), None, CREATE, true));
    CreateFirst(period, Key(UserType, ""));
    DeliveryTheorems.NoEventIsLost(period, first);
    var outbox := Reach(period, first).store.db.outbox;
    row := outbox[0];
    assert outbox == [row];
  }
}
