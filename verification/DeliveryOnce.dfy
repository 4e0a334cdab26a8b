/** When a delivery can be repeated, and how fast a backlog drains. */
module DeliveryOnce {
  import opened Domain
  import opened EventLog
  import opened Writers
  import opened Delivery
  import opened Sequences
  import opened Batches
  import Sorting

  // ---------- Duplicates ----------

  /** The steps of publishers that do not overlap, store every mark, and stop only between rows. */
  ghost predicate Clean(c: Channel, a: Step) {
    match a
    case Query(p) => c.publishers == map[]
    case Send(p) => true
    case Mark(p, stored) => stored
    case Stop(p) => p in c.publishers ==> !c.publishers[p].sent
  }

  /** The rows of the batch that have not been sent. */
  ghost predicate Unsent(p: Publisher, j: int) {
    (if p.sent then p.pos + 1 else p.pos) <= j < |p.batch|
  }

  /** The publisher has sent the row and is about to mark it. */
  predicate InHand(c: Channel, p: nat, row: OutboxRow) {
    && p in c.publishers && c.publishers[p].sent
    && c.publishers[p].pos < |c.publishers[p].batch| && c.publishers[p].batch[c.publishers[p].pos] == row
  }

  ghost predicate OnceInv(outbox: seq<OutboxRow>, c: Channel) {
    && NoDuplicates(c.sent)
    && (forall p, q :: p in c.publishers && q in c.publishers ==> p == q)
    && (forall i :: 0 <= i < |outbox| && outbox[i].event in c.sent ==>
          outbox[i].id in c.published || exists p :: InHand(c, p, outbox[i]))
    && (forall p :: p in c.publishers ==> Sorting.NoTies(ById, c.publishers[p].batch))
    && (forall p, j :: p in c.publishers && Unsent(c.publishers[p], j) ==> c.publishers[p].batch[j].id !in c.published)
  }

  lemma {:induction false} UnpublishedDistinct(outbox: seq<OutboxRow>, published: set<int>)
    requires OutboxOrdered(outbox)
    ensures Sorting.NoTies(ById, Unpublished(outbox, published))
  {
    if outbox == [] {
    } else {
      var init, last := outbox[..|outbox| - 1], outbox[|outbox| - 1];
      UnpublishedDistinct(init, published);
      UnpublishedMembers(init, published);
      var rest := Unpublished(init, published);
      forall i | 0 <= i < |rest| ensures rest[i].id != last.id {
        assert rest[i] in init;
        var j :| 0 <= j < |init| && init[j] == rest[i];
        assert outbox[j].id != outbox[|outbox| - 1].id;
      }
    }
  }

  lemma FreshBatchOnce(outbox: seq<OutboxRow>, published: set<int>)
    requires OutboxOrdered(outbox)
    ensures Sorting.StrictlySorted(ById, Batch(outbox, published))
    ensures Sorting.NoTies(ById, Batch(outbox, published))
    ensures forall j :: 0 <= j < |Batch(outbox, published)| ==> Batch(outbox, published)[j].id !in published
  {
    UnpublishedDistinct(outbox, published);
    assert Sorting.StrictOrder(ById);
    Sorting.SortStrict(ById, Unpublished(outbox, published));
    var batch := Batch(outbox, published);
    forall i, j | 0 <= i < j < |batch| ensures ById(batch[i], batch[j]) {
      assert batch[i] == Sorting.Sort(ById, Unpublished(outbox, published))[i];
    }
    forall j | 0 <= j < |batch| ensures batch[j].id !in published {
      BatchHasSmallerIds(outbox, published, j, batch[j]);
    }
  }

  lemma SendOnce(db: Tables, c: Channel, i: nat)
    requires TablesAgree(db) && OutboxOrdered(db.outbox) && Delivery.Inv(db, c) && OnceInv(db.outbox, c)
    requires i in c.publishers && c.publishers[i].pos < |c.publishers[i].batch| && !c.publishers[i].sent
    ensures OnceInv(db.outbox, NextStep(db.outbox, c, Send(i)))
  {
    var row := c.publishers[i].batch[c.publishers[i].pos];
    NextRowUnsent(db, c, i);
    forall y | 0 <= y < |db.outbox| && db.outbox[y].event == row.event ensures db.outbox[y] == row {
      OneRowPerEvent(db, row, db.outbox[y]);
    }
    SendKeepsOnce(db.outbox, c, i, row);
  }

  lemma SendKeepsOnce(outbox: seq<OutboxRow>, c: Channel, i: nat, row: OutboxRow)
    requires OnceInv(outbox, c)
    requires i in c.publishers && c.publishers[i].pos < |c.publishers[i].batch| && !c.publishers[i].sent
    requires row == c.publishers[i].batch[c.publishers[i].pos] && row.event !in c.sent
    requires forall y :: 0 <= y < |outbox| && outbox[y].event == row.event ==> outbox[y] == row
    ensures OnceInv(outbox, NextStep(outbox, c, Send(i)))
  {
    var c' := NextStep(outbox, c, Send(i));
    assert forall q, r :: !InHand(c, q, r);
    assert InHand(c', i, row);
    forall y | 0 <= y < |outbox| && outbox[y].event in c'.sent
      ensures outbox[y].id in c'.published || InHand(c', i, outbox[y])
    {
      assert outbox[y].event in c.sent || outbox[y].event == row.event;
    }
    forall p, j | p in c'.publishers && Unsent(c'.publishers[p], j)
      ensures c'.publishers[p].batch[j].id !in c'.published
    {
      assert p == i && Unsent(c.publishers[i], j);
    }
  }

  /** The row about to be sent has not been sent before. */
  lemma NextRowUnsent(db: Tables, c: Channel, i: nat)
    requires Delivery.Inv(db, c) && OnceInv(db.outbox, c)
    requires i in c.publishers && c.publishers[i].pos < |c.publishers[i].batch| && !c.publishers[i].sent
    ensures var row := c.publishers[i].batch[c.publishers[i].pos];
            row in db.outbox && row.id !in c.published && row.event !in c.sent
  {
    var p := c.publishers[i];
    var row := p.batch[p.pos];
    assert BatchFits(db.outbox, c.sent, p) && Unsent(p, p.pos);
    assert row in db.outbox && row.id !in c.published;
  }

  lemma OneRowPerEvent(db: Tables, a: OutboxRow, b: OutboxRow)
    requires TablesAgree(db) && a in db.outbox && b in db.outbox && a.event == b.event
    ensures a == b
  {
    var x :| 0 <= x < |db.outbox| && db.outbox[x] == a;
    var y :| 0 <= y < |db.outbox| && db.outbox[y] == b;
    assert Numbered(Of(db.events, a.event.key));
    if x < y { CommitOrderIsVersionOrder(db.events, x, y); }
    if y < x { CommitOrderIsVersionOrder(db.events, y, x); }
  }

  lemma MarkOnce(outbox: seq<OutboxRow>, c: Channel, i: nat)
    requires OnceInv(outbox, c) && OutboxOrdered(outbox)
    requires i in c.publishers && c.publishers[i].pos < |c.publishers[i].batch| && c.publishers[i].sent
    ensures OnceInv(outbox, NextStep(outbox, c, Mark(i, true)))
  {
    var p, c' := c.publishers[i], NextStep(outbox, c, Mark(i, true));
    forall q, j | q in c'.publishers && Unsent(c'.publishers[q], j)
      ensures c'.publishers[q].batch[j].id !in c'.published
    {
      assert q == i && Unsent(p, j);
      assert ById(p.batch[p.pos], p.batch[j]) || ById(p.batch[j], p.batch[p.pos]);
    }
  }

  /** A duplicate needs a mark that was not stored, a stop between send and mark, or two publishers
      at work: along clean steps no event is ever sent twice. */
  lemma StepOnce(db: Tables, c: Channel, a: Step)
    requires TablesAgree(db) && OutboxOrdered(db.outbox) && Delivery.Inv(db, c)
    requires OnceInv(db.outbox, c) && Clean(c, a)
    ensures OnceInv(db.outbox, NextStep(db.outbox, c, a))
  {
    if NextStep(db.outbox, c, a) != c {
      match a
      case Query(p) => QueryOnce(db.outbox, c, p);
      case Send(i) => SendOnce(db, c, i);
      case Mark(i, _) => MarkOnce(db.outbox, c, i);
      case Stop(p) => StopOnce(db.outbox, c, p);
    }
  }

  lemma QueryOnce(outbox: seq<OutboxRow>, c: Channel, p: nat)
    requires OutboxOrdered(outbox) && OnceInv(outbox, c) && c.publishers == map[]
    ensures OnceInv(outbox, NextStep(outbox, c, Step.Query(p)))
  {
    FreshBatchOnce(outbox, c.published);
    var c' := NextStep(outbox, c, Step.Query(p));
    assert c'.publishers == map[p := Publisher(Batch(outbox, c.published), 0, false)];
    assert forall q, row :: !InHand(c, q, row);
  }

  lemma StopOnce(outbox: seq<OutboxRow>, c: Channel, p: nat)
    requires OnceInv(outbox, c) && p in c.publishers && !c.publishers[p].sent
    ensures OnceInv(outbox, NextStep(outbox, c, Stop(p)))
  {
    var c' := NextStep(outbox, c, Stop(p));
    assert c'.publishers == map[];
    assert forall q, row :: !InHand(c, q, row);
  }

  lemma ExtendOnce(db: Tables, db': Tables, c: Channel)
    requires TablesAgree(db') && |db.outbox| == |db.events|
    requires db.events <= db'.events && db.outbox <= db'.outbox
    requires OnceInv(db.outbox, c) && OnlyCommitted(db.events, c.sent)
    ensures OnceInv(db'.outbox, c)
  {
    forall i | 0 <= i < |db'.outbox| && db'.outbox[i].event in c.sent
      ensures i < |db.outbox| && db.outbox[i] == db'.outbox[i]
    {
      var x :| 0 <= x < |c.sent| && c.sent[x] == db'.outbox[i].event;
      var j :| 0 <= j < |db.events| && db.events[j] == c.sent[x];
      assert db'.events[j] == db'.events[i];
      if j < i { CommitOrderIsVersionOrder(db'.events, j, i); }
    }
  }

  // ---------- Draining a backlog ----------

  function Ids(rows: seq<OutboxRow>): set<int> {
    set i | 0 <= i < |rows| :: rows[i].id
  }

  /** The rows one publisher sends in `n` successive batches without failures or new events. */
  function Drain(outbox: seq<OutboxRow>, published: set<int>, n: nat): seq<OutboxRow>
    decreases n
  {
    if n == 0 then []
    else
      var batch := Batch(outbox, published);
      batch + Drain(outbox, published + Ids(batch), n - 1)
  }

  function PublishedAfter(outbox: seq<OutboxRow>, published: set<int>, n: nat): set<int>
    decreases n
  {
    if n == 0 then published
    else PublishedAfter(outbox, published + Ids(Batch(outbox, published)), n - 1)
  }

  /** A batch that is sent and marked leaves exactly the rest of the sorted backlog. */
  lemma NextBacklog(outbox: seq<OutboxRow>, published: set<int>)
    requires OutboxOrdered(outbox)
    ensures var backlog, batch := Sorting.Sort(ById, Unpublished(outbox, published)), Batch(outbox, published);
            && |batch| <= |backlog|
            && Sorting.Sort(ById, Unpublished(outbox, published + Ids(batch))) == backlog[|batch|..]
  {
    var rows, batch := Unpublished(outbox, published), Batch(outbox, published);
    var published' := published + Ids(batch);
    var rows' := Unpublished(outbox, published');
    var backlog, backlog' := Sorting.Sort(ById, rows), Sorting.Sort(ById, rows');
    UnpublishedMembers(outbox, published);
    UnpublishedMembers(outbox, published');
    Sorting.SortMembers(ById, rows);
    Sorting.SortMembers(ById, rows');
    UnpublishedDistinct(outbox, published);
    UnpublishedDistinct(outbox, published');
    assert Sorting.StrictOrder(ById);
    Sorting.SortStrict(ById, rows);
    Sorting.SortStrict(ById, rows');
    var rest := backlog[|batch|..];
    assert backlog == batch + rest;
    forall r ensures r in backlog' <==> r in rest {
      StrictSplit(backlog, |batch|, r);
    }
    assert Sorting.StrictlySorted(ById, rest);
    Sorting.StrictlySortedUnique(ById, backlog', rest);
  }

  /** The first rows of a strictly sorted backlog share no id with the rest. */
  lemma StrictSplit(backlog: seq<OutboxRow>, n: nat, r: OutboxRow)
    requires Sorting.StrictlySorted(ById, backlog) && n <= |backlog|
    ensures r in backlog[n..] <==> r in backlog && r.id !in Ids(backlog[..n])
  {
    if r in backlog {
      var i :| 0 <= i < |backlog| && backlog[i] == r;
      if i < n {
        assert backlog[..n][i].id == r.id;
        forall j | 0 <= j < |backlog[n..]| ensures backlog[n..][j] != r {
          assert ById(backlog[i], backlog[n + j]);
        }
      } else {
        assert backlog[n..][i - n] == r;
        forall j | 0 <= j < n ensures backlog[..n][j].id != r.id {
          assert ById(backlog[j], backlog[i]);
        }
      }
    }
  }

  /** The backlog in the order in which it is sent. */
  function Queue(outbox: seq<OutboxRow>, published: set<int>): seq<OutboxRow> {
    Sorting.Sort(ById, Unpublished(outbox, published))
  }

  function MarkBatch(outbox: seq<OutboxRow>, published: set<int>): set<int> {
    published + Ids(Batch(outbox, published))
  }

  /** A batch sends the start of the sorted backlog and leaves the rest. */
  ghost predicate Advances(outbox: seq<OutboxRow>) {
    forall published ::
      Queue(outbox, published) == Batch(outbox, published) + Queue(outbox, MarkBatch(outbox, published))
  }

  lemma OrderedAdvances(outbox: seq<OutboxRow>)
    requires OutboxOrdered(outbox)
    ensures Advances(outbox)
  {
    forall published
      ensures Queue(outbox, published) == Batch(outbox, published) + Queue(outbox, MarkBatch(outbox, published))
    {
      NextBacklog(outbox, published);
    }
  }

  lemma {:induction false} DrainTakes(outbox: seq<OutboxRow>, published: set<int>, n: nat)
    requires Advances(outbox)
    ensures Drain(outbox, published, n) == Take(Queue(outbox, published), BATCH_LIMIT * n)
    decreases n
  {
    if n == 0 {
      TakeNone(Queue(outbox, published));
    } else {
      DrainTakes(outbox, MarkBatch(outbox, published), n - 1);
      OneMoreBatch(outbox, published, n);
    }
  }

  lemma TakeNone<T>(s: seq<T>)
    ensures Take(s, 0) == []
  {
  }

  /** A batch, and what the further batches send of the backlog it leaves. */
  lemma OneMoreBatch(outbox: seq<OutboxRow>, published: set<int>, n: nat)
    requires n > 0 && Advances(outbox)
    requires var rest := MarkBatch(outbox, published);
             Drain(outbox, rest, n - 1) == Take(Queue(outbox, rest), BATCH_LIMIT * (n - 1))
    ensures Drain(outbox, published, n) == Take(Queue(outbox, published), BATCH_LIMIT * n)
  {
    var backlog, batch := Queue(outbox, published), Batch(outbox, published);
    assert backlog == batch + Queue(outbox, MarkBatch(outbox, published));
    assert batch == Take(backlog, BATCH_LIMIT);
    TakeTwice(backlog, BATCH_LIMIT, BATCH_LIMIT * (n - 1));
    assert BATCH_LIMIT + BATCH_LIMIT * (n - 1) == BATCH_LIMIT * n;
  }

  function Backlog(outbox: seq<OutboxRow>, published: set<int>): nat {
    |Unpublished(outbox, published)|
  }

  /** Every batch that is sent and marked leaves a hundred rows fewer, or none. */
  ghost predicate Shrinks(outbox: seq<OutboxRow>) {
    forall published ::
      Backlog(outbox, MarkBatch(outbox, published)) == OneLess(BATCH_LIMIT, Backlog(outbox, published))
  }

  /** How many rows are left after `n` batches. */
  lemma {:induction false} DrainLeaves(outbox: seq<OutboxRow>, published: set<int>, n: nat)
    requires Shrinks(outbox)
    ensures Backlog(outbox, PublishedAfter(outbox, published, n)) == Left(BATCH_LIMIT, Backlog(outbox, published), n)
    decreases n
  {
    if n == 0 {
    } else {
      DrainLeaves(outbox, MarkBatch(outbox, published), n - 1);
    }
  }

  lemma OrderedShrinks(outbox: seq<OutboxRow>)
    requires OutboxOrdered(outbox)
    ensures Shrinks(outbox)
  {
    forall published
      ensures Backlog(outbox, MarkBatch(outbox, published)) == OneLess(BATCH_LIMIT, Backlog(outbox, published))
    {
      NextBacklog(outbox, published);
      Sorting.SortPermutes(ById, Unpublished(outbox, published));
      Sorting.SortPermutes(ById, Unpublished(outbox, MarkBatch(outbox, published)));
    }
  }

  /** `n` batches send the first `100 * n` rows of the backlog, each once and in id order; the backlog
      is then empty exactly when `n` is at least a hundredth of it, rounded up. */
  lemma DrainsInOrder(outbox: seq<OutboxRow>, published: set<int>, n: nat)
    requires OutboxOrdered(outbox)
    ensures var backlog := Sorting.Sort(ById, Unpublished(outbox, published));
            && Drain(outbox, published, n) == Take(backlog, BATCH_LIMIT * n)
            && (Unpublished(outbox, PublishedAfter(outbox, published, n)) == [] <==>
                  n >= Rounds(BATCH_LIMIT, |backlog|))
  {
    OrderedAdvances(outbox);
    DrainTakes(outbox, published, n);
    OrderedShrinks(outbox);
    DrainLeaves(outbox, published, n);
    Sorting.SortPermutes(ById, Unpublished(outbox, published));
    RoundsSuffice(BATCH_LIMIT, |Unpublished(outbox, published)|, n);
    assert Unpublished(outbox, PublishedAfter(outbox, published, n)) == [] <==>
           |Unpublished(outbox, PublishedAfter(outbox, published, n))| == 0;
  }

  lemma TakeTwice<T>(s: seq<T>, a: nat, b: nat)
    ensures Take(s, a) + Take(s[|Take(s, a)|..], b) == Take(s, a + b)
  {
  }
}
