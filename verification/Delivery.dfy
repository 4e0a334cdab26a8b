/** internal/worker/outbox.go, the publishers: any number of them read bounded batches of unpublished
    rows, send each row and then mark it, and may stop at any point, so that a row can be sent and
    never marked. */
module Delivery {
  import opened Domain
  import opened EventLog
  import opened Writers
  import Sorting

  const BATCH_LIMIT: nat := 100

  /** A batch being published: rows before `pos` are done; `sent` says that `batch[pos]` has been sent
      and is about to be marked. */
  datatype Publisher = Publisher(batch: seq<OutboxRow>, pos: nat, sent: bool)

  /** `published` holds the ids of the outbox rows whose flag is set; `sent` is what the broker
      received, in order. */
  datatype Channel = Channel(published: set<int>, sent: seq<Event>, publishers: map<nat, Publisher>)

  const IDLE := Channel({}, [], map[])

  datatype Step =
    | Query(publisher: nat)
    | Send(publisher: nat)
    | Mark(publisher: nat, stored: bool)
    | Stop(publisher: nat)

  predicate ById(a: OutboxRow, b: OutboxRow) { a.id < b.id }

  function Unpublished(outbox: seq<OutboxRow>, published: set<int>): seq<OutboxRow> {
    if outbox == [] then []
    else
      var rest := Unpublished(outbox[..|outbox| - 1], published);
      if outbox[|outbox| - 1].id in published then rest else rest + [outbox[|outbox| - 1]]
  }

  function Take<T>(s: seq<T>, n: nat): seq<T> {
    if |s| <= n then s else s[..n]
  }

  /** The batch query: the unpublished rows with the smallest ids, in id order, at most a hundred. */
  function Batch(outbox: seq<OutboxRow>, published: set<int>): seq<OutboxRow> {
    Take(Sorting.Sort(ById, Unpublished(outbox, published)), BATCH_LIMIT)
  }

  /** At most a hundred rows are taken, and fewer only when there are fewer. */
  lemma BatchSize(outbox: seq<OutboxRow>, published: set<int>)
    ensures var n := |Unpublished(outbox, published)|; |Batch(outbox, published)| == if n < 100 then n else 100
  {
    Sorting.SortPermutes(ById, Unpublished(outbox, published));
  }

  function NextStep(outbox: seq<OutboxRow>, c: Channel, a: Step): Channel {
    match a
    case Query(p) =>
      if p in c.publishers then c
      else c.(publishers := c.publishers[p := Publisher(Batch(outbox, c.published), 0, false)])
    case _ => if a.publisher in c.publishers then Continue(c, a, c.publishers[a.publisher]) else c
  }

  function Continue(c: Channel, a: Step, p: Publisher): Channel
    requires !a.Query?
  {
    match a
    case Send(i) =>
      if p.pos < |p.batch| && !p.sent then
        c.(sent := c.sent + [p.batch[p.pos].event], publishers := c.publishers[i := p.(sent := true)])
      else c
    case Mark(i, stored) =>
      if p.pos < |p.batch| && p.sent then
        c.(published := if stored then c.published + {p.batch[p.pos].id} else c.published,
           publishers := c.publishers[i := Publisher(p.batch, p.pos + 1, false)])
      else c
    case Stop(i) => c.(publishers := c.publishers - {i})
  }

  // ---------- The invariant ----------

  /** `x` is the event just before `e` in the history of its aggregate. */
  predicate Precedes(x: Event, e: Event) {
    x.key == e.key && x.version + 1 == e.version
  }

  ghost predicate PredecessorIn(e: Event, s: seq<Event>) {
    e.version == 1 || exists i :: 0 <= i < |s| && Precedes(s[i], e)
  }

  /** Every delivery comes after a delivery of the event before it. */
  ghost predicate InVersionOrder(sent: seq<Event>) {
    forall j :: 0 <= j < |sent| ==> PredecessorIn(sent[j], sent[..j])
  }

  /** Each row still to be sent is committed, and the event before it was sent or comes first. */
  ghost predicate BatchFits(outbox: seq<OutboxRow>, sent: seq<Event>, p: Publisher) {
    && p.pos <= |p.batch|
    && (p.sent ==> p.pos < |p.batch| && p.batch[p.pos].event in sent)
    && (forall j :: p.pos <= j < |p.batch| ==> p.batch[j] in outbox)
    && (forall j :: p.pos <= j < |p.batch| ==>
          PredecessorIn(p.batch[j].event, sent) ||
          exists i :: p.pos <= i < j && Precedes(p.batch[i].event, p.batch[j].event))
  }

  /** A row marked published has been sent. */
  ghost predicate MarkedWereSent(outbox: seq<OutboxRow>, c: Channel) {
    && (forall i :: 0 <= i < |outbox| && outbox[i].id in c.published ==> outbox[i].event in c.sent)
    && (forall x :: x in c.published ==> exists i :: 0 <= i < |outbox| && outbox[i].id == x)
  }

  ghost predicate OnlyCommitted(events: seq<Event>, sent: seq<Event>) {
    forall i :: 0 <= i < |sent| ==> sent[i] in events
  }

  ghost predicate Inv(db: Tables, c: Channel) {
    && MarkedWereSent(db.outbox, c)
    && InVersionOrder(c.sent)
    && OnlyCommitted(db.events, c.sent)
    && forall p :: p in c.publishers ==> BatchFits(db.outbox, c.sent, c.publishers[p])
  }

  // ---------- The batch query ----------

  lemma {:induction false} UnpublishedMembers(outbox: seq<OutboxRow>, published: set<int>)
    ensures forall r :: r in Unpublished(outbox, published) <==> r in outbox && r.id !in published
  {
    if outbox == [] {
    } else {
      UnpublishedMembers(outbox[..|outbox| - 1], published);
      assert outbox == outbox[..|outbox| - 1] + [outbox[|outbox| - 1]];
    }
  }

  /** However many rows the limit cuts off, an unpublished row with a smaller id comes earlier in the
      batch. */
  lemma BatchHasSmallerIds(outbox: seq<OutboxRow>, published: set<int>, j: nat, r: OutboxRow)
    requires j < |Batch(outbox, published)|
    ensures Batch(outbox, published)[j] in outbox && Batch(outbox, published)[j].id !in published
    ensures r in outbox && r.id !in published && r.id < Batch(outbox, published)[j].id ==>
              exists i :: 0 <= i < j && Batch(outbox, published)[i] == r
  {
    var rows := Unpublished(outbox, published);
    var sorted := Sorting.Sort(ById, rows);
    UnpublishedMembers(outbox, published);
    Sorting.SortMembers(ById, rows);
    assert Sorting.StrictOrder(ById);
    Sorting.SortSorted(ById, rows);
    assert sorted[j] in sorted;
    if r in outbox && r.id !in published && r.id < sorted[j].id {
      assert r in sorted;
      var i :| 0 <= i < |sorted| && sorted[i] == r;
      assert i < j by {
        assert ById(sorted[i], sorted[j]);
      }
      assert Batch(outbox, published)[i] == r;
    }
  }

  lemma FreshBatchFits(db: Tables, c: Channel)
    requires TablesAgree(db) && OutboxOrdered(db.outbox) && MarkedWereSent(db.outbox, c)
    ensures BatchFits(db.outbox, c.sent, Publisher(Batch(db.outbox, c.published), 0, false))
  {
    var batch := Batch(db.outbox, c.published);
    forall j | 0 <= j < |batch|
      ensures batch[j] in db.outbox
      ensures || PredecessorIn(batch[j].event, c.sent)
              || exists i :: 0 <= i < j && Precedes(batch[i].event, batch[j].event)
    {
      BatchHasSmallerIds(db.outbox, c.published, j, batch[j]);
      var x :| 0 <= x < |db.outbox| && db.outbox[x] == batch[j];
      var e := db.events[x];
      OfMembers(db.events, e.key);
      assert e in Of(db.events, e.key) && Numbered(Of(db.events, e.key));
      if e.version > 1 {
        var y := PredecessorCommitted(db.events, x);
        assert Precedes(db.outbox[y].event, batch[j].event);
        if db.outbox[y].id in c.published {
          var i :| 0 <= i < |c.sent| && c.sent[i] == db.outbox[y].event;
        } else {
          BatchHasSmallerIds(db.outbox, c.published, j, db.outbox[y]);
        }
      }
    }
  }

  // ---------- Preservation ----------

  lemma PredecessorPersists(e: Event, s: seq<Event>, t: seq<Event>)
    requires PredecessorIn(e, s) && s <= t
    ensures PredecessorIn(e, t)
  {
    if e.version != 1 {
      var i :| 0 <= i < |s| && Precedes(s[i], e);
      assert Precedes(t[i], e);
    }
  }

  lemma BatchKeepsFitting(outbox: seq<OutboxRow>, sent: seq<Event>,
                          outbox': seq<OutboxRow>, sent': seq<Event>, p: Publisher)
    requires BatchFits(outbox, sent, p) && outbox <= outbox' && sent <= sent'
    ensures BatchFits(outbox', sent', p)
  {
    forall j | p.pos <= j < |p.batch|
      ensures || PredecessorIn(p.batch[j].event, sent')
              || exists i :: p.pos <= i < j && Precedes(p.batch[i].event, p.batch[j].event)
    {
      if PredecessorIn(p.batch[j].event, sent) {
        PredecessorPersists(p.batch[j].event, sent, sent');
      }
    }
  }

  lemma OrderAppend(sent: seq<Event>, e: Event)
    requires InVersionOrder(sent) && PredecessorIn(e, sent)
    ensures InVersionOrder(sent + [e])
  {
    forall j | 0 <= j < |sent + [e]| ensures PredecessorIn((sent + [e])[j], (sent + [e])[..j]) {
      assert (sent + [e])[..j] == if j < |sent| then sent[..j] else sent;
    }
  }

  lemma SendInv(db: Tables, c: Channel, i: nat)
    requires Inv(db, c) && TablesAgree(db) && i in c.publishers
    requires c.publishers[i].pos < |c.publishers[i].batch| && !c.publishers[i].sent
    ensures Inv(db, NextStep(db.outbox, c, Send(i)))
  {
    var p, c' := c.publishers[i], NextStep(db.outbox, c, Send(i));
    var row := p.batch[p.pos];
    OrderAppend(c.sent, row.event);
    forall j | j in c'.publishers ensures BatchFits(db.outbox, c'.sent, c'.publishers[j]) {
      BatchKeepsFitting(db.outbox, c.sent, db.outbox, c'.sent, c.publishers[j]);
      assert c'.sent[|c.sent|] == row.event;
    }
    var x :| 0 <= x < |db.outbox| && db.outbox[x] == row;
    assert db.events[x] == row.event;
  }

  lemma MarkFits(outbox: seq<OutboxRow>, c: Channel, p: Publisher)
    requires BatchFits(outbox, c.sent, p) && p.pos < |p.batch| && p.sent
    ensures BatchFits(outbox, c.sent, Publisher(p.batch, p.pos + 1, false))
  {
    forall j | p.pos + 1 <= j < |p.batch|
      ensures || PredecessorIn(p.batch[j].event, c.sent)
              || exists i :: p.pos + 1 <= i < j && Precedes(p.batch[i].event, p.batch[j].event)
    {
      if !PredecessorIn(p.batch[j].event, c.sent) {
        var i :| p.pos <= i < j && Precedes(p.batch[i].event, p.batch[j].event);
      }
    }
  }

  lemma MarkKeepsMarks(outbox: seq<OutboxRow>, c: Channel, row: OutboxRow)
    requires OutboxOrdered(outbox) && MarkedWereSent(outbox, c) && row in outbox && row.event in c.sent
    ensures MarkedWereSent(outbox, c.(published := c.published + {row.id}))
  {
    var i :| 0 <= i < |outbox| && outbox[i] == row;
  }

  lemma StepInv(db: Tables, c: Channel, a: Step)
    requires TablesAgree(db) && OutboxOrdered(db.outbox) && Inv(db, c)
    ensures Inv(db, NextStep(db.outbox, c, a))
  {
    var c' := NextStep(db.outbox, c, a);
    match a
    case Query(p) => if c' != c { FreshBatchFits(db, c); }
    case Send(i) => if c' != c { SendInv(db, c, i); }
    case Mark(i, stored) =>
      if c' != c {
        var p := c.publishers[i];
        MarkFits(db.outbox, c, p);
        MarkKeepsMarks(db.outbox, c, p.batch[p.pos]);
      }
    case Stop(_) =>
  }

  /** Commits of writers in between leave the invariant in place. */
  lemma ExtendInv(db: Tables, db': Tables, c: Channel)
    requires Inv(db, c) && db.events <= db'.events && db.outbox <= db'.outbox && OutboxOrdered(db'.outbox)
    ensures Inv(db', c)
  {
    forall p | p in c.publishers ensures BatchFits(db'.outbox, c.sent, c.publishers[p]) {
      BatchKeepsFitting(db.outbox, c.sent, db'.outbox, c.sent, c.publishers[p]);
    }
    forall i | 0 <= i < |db'.outbox| && db'.outbox[i].id in c.published ensures db'.outbox[i].event in c.sent {
      var j :| 0 <= j < |db.outbox| && db.outbox[j].id == db'.outbox[i].id;
      assert db'.outbox[j] == db.outbox[j];
      assert i == j;
    }
    forall x | x in c.published ensures exists i :: 0 <= i < |db'.outbox| && db'.outbox[i].id == x {
      var j :| 0 <= j < |db.outbox| && db.outbox[j].id == x;
      assert db'.outbox[j].id == x;
    }
  }

  // ---------- Delivery order ----------

  ghost predicate Delivered(sent: seq<Event>, k: Key, v: int) {
    exists i :: 0 <= i < |sent| && sent[i].key == k && sent[i].version == v
  }

  /** Before the event of version `v` is delivered for the first time, or again, every earlier version
      of its aggregate has been delivered. */
  lemma {:induction false} EarlierVersionsFirst(sent: seq<Event>, j: nat, v: int)
    requires InVersionOrder(sent) && j < |sent| && 1 <= v < sent[j].version
    ensures Delivered(sent[..j], sent[j].key, v)
    decreases j
  {
    var e := sent[j];
    assert PredecessorIn(e, sent[..j]);
    var i :| 0 <= i < j && Precedes(sent[..j][i], e);
    if sent[i].version == v {
    } else {
      EarlierVersionsFirst(sent, i, v);
      var x :| 0 <= x < i && sent[..i][x].key == sent[i].key && sent[..i][x].version == v;
      assert sent[..j][x] == sent[..i][x];
    }
  }

  lemma {:induction false} LatestDelivered(sent: seq<Event>, k: Key)
    ensures forall i :: 0 <= i < |sent| && sent[i].key == k ==> sent[i].version <= LatestVersion(sent, k)
    ensures LatestVersion(sent, k) > 0 ==> Delivered(sent, k, LatestVersion(sent, k))
    ensures LatestVersion(sent, k) >= 0
  {
    if sent == [] {
    } else {
      var init := sent[..|sent| - 1];
      LatestDelivered(init, k);
      forall i | 0 <= i < |sent| && sent[i].key == k ensures sent[i].version <= LatestVersion(sent, k) {
        if i < |init| { assert init[i] == sent[i]; }
      }
      if LatestVersion(init, k) > 0 {
        var i :| 0 <= i < |init| && init[i].key == k && init[i].version == LatestVersion(init, k);
        assert sent[i] == init[i];
      }
    }
  }

  /** At every moment the versions of an aggregate that have been delivered are exactly 1, ..., n for
      some n, and n never passes the head of its committed history. */
  lemma DeliveredIsPrefix(db: Tables, c: Channel, k: Key)
    requires TablesAgree(db) && Inv(db, c)
    ensures forall v :: Delivered(c.sent, k, v) <==> 1 <= v <= LatestVersion(c.sent, k)
    ensures LatestVersion(c.sent, k) <= |Of(db.events, k)|
  {
    var n := LatestVersion(c.sent, k);
    LatestDelivered(c.sent, k);
    forall i | 0 <= i < |c.sent| && c.sent[i].key == k ensures 1 <= c.sent[i].version <= |Of(db.events, k)| {
      CommittedVersion(db.events, c.sent[i]);
    }
    forall v ensures Delivered(c.sent, k, v) <==> 1 <= v <= n {
      if 1 <= v < n {
        var j :| 0 <= j < |c.sent| && c.sent[j].key == k && c.sent[j].version == n;
        EarlierVersionsFirst(c.sent, j, v);
        var x :| 0 <= x < j && c.sent[..j][x].key == k && c.sent[..j][x].version == v;
        assert c.sent[x] == c.sent[..j][x];
      }
    }
  }
}
