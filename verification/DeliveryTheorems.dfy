/** What holds of deliveries after every run of the system. */
module DeliveryTheorems {
  import opened Domain
  import opened EventLog
  import opened System
  import opened Delivery
  import opened DeliveryOnce
  import opened Sequences
  import W = Writers

  /** Every committed event has exactly one outbox row; a marked row has been sent; and a row whose
      event has not been sent is still waiting to be queried. No event is lost. */
  lemma NoEventIsLost(period: int, actions: seq<Action>)
    ensures var db, c := Reach(period, actions).store.db, Reach(period, actions).channel;
            && |db.outbox| == |db.events|
            && (forall i :: 0 <= i < |db.events| ==> db.outbox[i].event == db.events[i])
            && (forall i, j :: 0 <= i < j < |db.outbox| ==>
                  db.outbox[i].id != db.outbox[j].id && db.outbox[i].event != db.outbox[j].event)
            && (forall i :: 0 <= i < |db.outbox| && db.outbox[i].id in c.published ==> db.outbox[i].event in c.sent)
            && (forall i :: 0 <= i < |db.outbox| && db.outbox[i].event !in c.sent ==>
                  db.outbox[i] in Unpublished(db.outbox, c.published))
            && (forall e :: e in c.sent ==> e in db.events)
  {
    ReachDelivery(period, actions);
    var db, c := Reach(period, actions).store.db, Reach(period, actions).channel;
    UnpublishedMembers(db.outbox, c.published);
    forall i, j | 0 <= i < j < |db.outbox| ensures db.outbox[i].event != db.outbox[j].event {
      if db.outbox[i].event == db.outbox[j].event {
        OneRowPerEvent(db, db.outbox[i], db.outbox[j]);
      }
    }
  }

  lemma ReachDelivery(period: int, actions: seq<Action>)
    ensures var s := Reach(period, actions);
            W.TablesAgree(s.store.db) && W.OutboxOrdered(s.store.db.outbox) && Delivery.Inv(s.store.db, s.channel)
  {
    ReachInv(period, actions);
  }

  /** The versions of an aggregate that have been delivered are always exactly 1..n for some n. */
  lemma DeliveriesArePrefixes(period: int, actions: seq<Action>, k: Key)
    ensures var s := Reach(period, actions);
            && (forall v :: Delivered(s.channel.sent, k, v) <==> 1 <= v <= LatestVersion(s.channel.sent, k))
            && LatestVersion(s.channel.sent, k) <= |Of(s.store.db.events, k)|
  {
    ReachDelivery(period, actions);
    DeliveredIsPrefix(Reach(period, actions).store.db, Reach(period, actions).channel, k);
  }

  /** Any delivery of a version follows deliveries of all earlier versions of its aggregate, so first
      deliveries come in version order. */
  lemma FirstDeliveriesInOrder(period: int, actions: seq<Action>, j: nat, v: int)
    requires j < |Reach(period, actions).channel.sent|
    requires 1 <= v < Reach(period, actions).channel.sent[j].version
    ensures var sent := Reach(period, actions).channel.sent; Delivered(sent[..j], sent[j].key, v)
  {
    ReachDelivery(period, actions);
    EarlierVersionsFirst(Reach(period, actions).channel.sent, j, v);
  }

  /** Every publishing step of the run stores its mark, does not overlap another publisher, and does not
      stop between a send and its mark. */
  ghost predicate CleanRun(period: int, actions: seq<Action>) {
    forall i :: 0 <= i < |actions| && actions[i].Deliver? ==>
                  Clean(Reach(period, actions[..i]).channel, actions[i].step)
  }

  /** Along clean runs every event is delivered at most once. */
  lemma CleanRunsDeliverOnce(period: int, actions: seq<Action>)
    requires CleanRun(period, actions)
    ensures NoDuplicates(Reach(period, actions).channel.sent)
  {
    CleanRunsKeepOnce(period, actions);
  }

  lemma {:induction false} CleanRunsKeepOnce(period: int, actions: seq<Action>)
    requires CleanRun(period, actions)
    ensures OnceInv(Reach(period, actions).store.db.outbox, Reach(period, actions).channel)
  {
    if actions == [] {
    } else {
      var init, a := actions[..|actions| - 1], actions[|actions| - 1];
      assert forall i :: 0 <= i < |init| ==> init[i] == actions[i] && init[..i] == actions[..i];
      CleanRunsKeepOnce(period, init);
      ReachDelivery(period, init);
      ReachDelivery(period, actions);
      var s := Reach(period, init);
      match a
      case Deliver(x) => StepOnce(s.store.db, s.channel, x);
      case Write(x) =>
        WriteExtends(s.store, x);
        ExtendOnce(s.store.db, W.Next(s.store, x).db, s.channel);
      case Read(_) =>
    }
  }
}
