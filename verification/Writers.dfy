/** The append protocol of internal/platform/commands.go and internal/user/service.go as a state
    machine over the shared tables. Every statement is one atomic action, any number of commands
    interleave, and an action that is not enabled does nothing, so that every sequence of actions is
    one interleaving. */
module Writers {
  import opened Domain
  import opened EventLog
  import opened Aggregates
  import opened Projection
  import O = OrderAggregate

  datatype Request = Request(key: Key, expected: Option<int>, payload: Payload, isCreate: bool)

  /** What the user, product and order services pass to the append. */
  predicate WellFormed(req: Request) {
    && (req.isCreate <==> Creates(req.key.aggregateType, req.payload))
    && O.WellPriced(req.payload)
  }

  /** The guards between the version read and the insert, in the order they are checked. */
  function Guard(req: Request, current: int): Option<Error> {
    if req.expected.Some? && req.expected.value != current then Some(VersionMismatch)
    else if req.isCreate && current > 0 then Some(Conflict)
    else if !req.isCreate && current == 0 then Some(NotFound)
    else None
  }

  datatype OutboxRow = OutboxRow(id: int, event: Event)

  /** Where a command stands. `seen` and `at` record how many rows the table had when the version was
      read and when the event was committed; nothing in the protocol depends on them. */
  datatype Phase =
    | Begun
    | VersionRead(current: int, seen: nat)
    | Inserting(current: int, seen: nat, id: int)
    | Inserted(event: Event)
    | Outboxed(event: Event, outboxId: int)
    | Projected(event: Event, outboxId: int, row: Row)
    | Committed(event: Event, at: nat)
    | Unacknowledged(event: Event, at: nat)
    | Refused(error: Error, current: int, seen: nat)
    | RolledBack
  {
    /** Holds an uncommitted row of the events table. */
    predicate Pending() { Inserted? || Outboxed? || Projected? }

    predicate HoldsOutboxId() { Outboxed? || Projected? }

    predicate HasCommitted() { Committed? || Unacknowledged? }

    predicate Ended() { HasCommitted() || Refused? || RolledBack? }
  }

  datatype Tx = Tx(request: Request, start: int, phase: Phase)

  /** The committed rows. `writers[i]` is the transaction that committed `events[i]`. */
  datatype Tables = Tables(events: seq<Event>, outbox: seq<OutboxRow>, writers: seq<nat>, rows: map<Key, Row>)

  /** The tables, the two id sequences, the clock, and every command with its uncommitted writes. */
  datatype Store = Store(db: Tables, nextEventId: int, nextOutboxId: int, clock: int, txs: map<nat, Tx>)

  const EMPTY := Store(Tables([], [], [], map[]), 1, 1, 0, map[])

  datatype Action =
    | Begin(tx: nat, request: Request)
    | ReadVersion(tx: nat)
    | Check(tx: nat)
    | Insert(tx: nat)
    | WriteOutbox(tx: nat)
    | Project(tx: nat)
    | Commit(tx: nat, acknowledged: bool)
    | Rollback(tx: nat)
    | Tick(elapsed: nat)

  /** The unique index makes an insert wait for another transaction that holds the same key. */
  predicate Blocked(txs: map<nat, Tx>, t: nat, k: Key, version: int) {
    exists u :: u in txs && u != t && txs[u].phase.Pending()
                && txs[u].phase.event.key == k && txs[u].phase.event.version == version
  }

  predicate Taken(events: seq<Event>, k: Key, version: int) {
    exists i :: 0 <= i < |events| && events[i].key == k && events[i].version == version
  }

  function Move(w: Store, t: nat, p: Phase): Store
    requires t in w.txs
  {
    w.(txs := w.txs[t := w.txs[t].(phase := p)])
  }

  /** The phase after the guards; an insert that may go ahead draws its id from the sequence first. */
  function AfterCheck(w: Store, tx: Tx): Phase
    requires tx.phase.VersionRead?
  {
    var g := Guard(tx.request, tx.phase.current);
    if g.Some? then Refused(g.value, tx.phase.current, tx.phase.seen)
    else Inserting(tx.phase.current, tx.phase.seen, w.nextEventId)
  }

  function AfterInsert(w: Store, t: nat, tx: Tx): Phase
    requires tx.phase.Inserting?
  {
    var k, current := tx.request.key, tx.phase.current;
    if Blocked(w.txs, t, k, current + 1) then tx.phase
    else if Taken(w.db.events, k, current + 1) then Refused(Conflict, current, tx.phase.seen)
    else Inserted(Event(tx.phase.id, k, current + 1, tx.request.payload, tx.start))
  }

  function AfterProject(db: Tables, tx: Tx): Phase
    requires tx.phase.Outboxed?
  {
    match ProjectEvent(tx.request.key, Lookup(db.rows, tx.request.key), tx.phase.event)
    case Ok(row) => Projected(tx.phase.event, tx.phase.outboxId, row)
    case Err(_) => RolledBack
  }

  /** The event, its outbox row and its read-model row become visible together. */
  function Publish(db: Tables, t: nat, p: Phase): Tables
    requires p.Projected?
  {
    Tables(db.events + [p.event], db.outbox + [OutboxRow(p.outboxId, p.event)], db.writers + [t],
           db.rows[p.event.key := p.row])
  }

  function Next(w: Store, a: Action): Store {
    match a
    case Begin(t, req) => if t in w.txs || !WellFormed(req) then w else w.(txs := w.txs[t := Tx(req, w.clock, Begun)])
    case Tick(d) => w.(clock := w.clock + d)
    case _ => if a.tx in w.txs then Advance(w, a, w.txs[a.tx]) else w
  }

  /** One statement of the transaction `a.tx`, whose state is `tx`. */
  function Advance(w: Store, a: Action, tx: Tx): Store
    requires !a.Begin? && !a.Tick? && a.tx in w.txs && w.txs[a.tx] == tx
  {
    match a
    case ReadVersion(t) =>
      if tx.phase.Begun? then Move(w, t, VersionRead(LatestVersion(w.db.events, tx.request.key), |w.db.events|)) else w
    case Check(t) =>
      if tx.phase.VersionRead? then
        var p := AfterCheck(w, tx);
        Move(w, t, p).(nextEventId := w.nextEventId + if p.Inserting? then 1 else 0)
      else w
    case Insert(t) => if tx.phase.Inserting? then Move(w, t, AfterInsert(w, t, tx)) else w
    case WriteOutbox(t) =>
      if tx.phase.Inserted? then
        Move(w, t, Outboxed(tx.phase.event, w.nextOutboxId)).(nextOutboxId := w.nextOutboxId + 1)
      else w
    case Project(t) => if tx.phase.Outboxed? then Move(w, t, AfterProject(w.db, tx)) else w
    case Commit(t, acknowledged) =>
      if tx.phase.Projected? then
        var e, at := tx.phase.event, |w.db.events|;
        var p := if acknowledged then Committed(e, at) else Unacknowledged(e, at);
        Move(w, t, p).(db := Publish(w.db, t, tx.phase))
      else w
    case Rollback(t) => if tx.phase.Ended() then w else Move(w, t, RolledBack)
  }

  // ---------- The invariant ----------

  /** The committed tables agree: every event has its outbox row and its writer, every history is
      gap-free, and the read model is the projection of the histories. */
  ghost predicate TablesAgree(db: Tables) {
    && WellNumbered(db.events)
    && |db.outbox| == |db.events| && |db.writers| == |db.events|
    && (forall i :: 0 <= i < |db.events| ==> db.outbox[i].event == db.events[i])
    && (forall k: Key :: Lookup(db.rows, k) == RowAfter(k, Of(db.events, k)))
  }

  /** Outbox ids are distinct, and within an aggregate they increase in commit order. */
  ghost predicate OutboxOrdered(outbox: seq<OutboxRow>) {
    && (forall i, j :: 0 <= i < j < |outbox| ==> outbox[i].id != outbox[j].id)
    && (forall i, j :: 0 <= i < j < |outbox| && outbox[i].event.key == outbox[j].event.key ==>
          outbox[i].id < outbox[j].id)
  }

  /** Each history starts with its creation event, decodes, and is priced by the order service. */
  ghost predicate HistoriesWellFormed(events: seq<Event>) {
    && (forall k: Key :: Opened(k.aggregateType, Of(events, k)))
    && (forall i :: 0 <= i < |events| ==>
          Decodes(events[i].key.aggregateType, events[i].payload) && O.WellPriced(events[i].payload))
  }

  /** Every committed row has a writer, which ended by committing exactly that row. */
  ghost predicate RowsHaveWriters(db: Tables, txs: map<nat, Tx>) {
    && |db.writers| == |db.events|
    && forall i :: 0 <= i < |db.events| ==>
         && db.writers[i] in txs && txs[db.writers[i]].phase.HasCommitted()
         && txs[db.writers[i]].phase.event == db.events[i]
  }

  /** Two open transactions never hold pending rows for one aggregate, nor the same outbox id. */
  ghost predicate PendingDistinct(txs: map<nat, Tx>) {
    && (forall t, u :: t in txs && u in txs && t != u && txs[t].phase.Pending() && txs[u].phase.Pending() ==>
          txs[t].request.key != txs[u].request.key)
    && (forall t, u :: t in txs && u in txs && t != u
                       && txs[t].phase.HoldsOutboxId() && txs[u].phase.HoldsOutboxId() ==>
          txs[t].phase.outboxId != txs[u].phase.outboxId)
  }

  /** Ids in use have been drawn from their sequence. */
  ghost predicate IdsDrawn(db: Tables, nextEventId: int, nextOutboxId: int, txs: map<nat, Tx>) {
    && (forall i :: 0 <= i < |db.events| ==> db.events[i].id < nextEventId)
    && (forall i :: 0 <= i < |db.outbox| ==> db.outbox[i].id < nextOutboxId)
    && (forall t :: t in txs && txs[t].phase.Inserting? ==> txs[t].phase.id < nextEventId)
    && (forall t :: t in txs && txs[t].phase.Pending() ==> txs[t].phase.event.id < nextEventId)
    && (forall t :: t in txs && txs[t].phase.HoldsOutboxId() ==> txs[t].phase.outboxId < nextOutboxId)
  }

  /** A version read from the first `seen` rows. */
  ghost predicate WasCurrent(events: seq<Event>, k: Key, current: int, seen: nat) {
    seen <= |events| && current == |Of(events[..seen], k)|
  }

  /** Another command committed the next version after the first `seen` rows. */
  ghost predicate LostRace(db: Tables, t: nat, k: Key, current: int, seen: nat) {
    && |db.writers| == |db.events|
    && exists i :: seen <= i < |db.events| && db.events[i].key == k && db.events[i].version == current + 1
                   && db.writers[i] != t
  }

  ghost predicate IdsBelow(log: seq<Event>, id: int) {
    forall i :: 0 <= i < |log| ==> log[i].id < id
  }

  /** A pending row is the next version of its aggregate. */
  ghost predicate PendingFits(events: seq<Event>, tx: Tx, e: Event) {
    && e.key == tx.request.key && e.payload == tx.request.payload && e.createdAt == tx.start
    && e.version == |Of(events, e.key)| + 1
    && Guard(tx.request, e.version - 1) == None
    && IdsBelow(Of(events, e.key), e.id)
  }

  ghost predicate OutboxIdFits(outbox: seq<OutboxRow>, k: Key, oid: int) {
    && (forall i :: 0 <= i < |outbox| ==> outbox[i].id != oid)
    && (forall i :: 0 <= i < |outbox| && outbox[i].event.key == k ==> outbox[i].id < oid)
  }

  /** The committed row of a successful command. */
  ghost predicate Owns(db: Tables, t: nat, tx: Tx, e: Event, at: nat) {
    && e.key == tx.request.key && e.payload == tx.request.payload && e.createdAt == tx.start
    && Guard(tx.request, e.version - 1) == None
    && at < |db.events| == |db.writers| && db.writers[at] == t && db.events[at] == e
  }

  ghost predicate TxFits(db: Tables, t: nat, tx: Tx) {
    var k := tx.request.key;
    && WellFormed(tx.request)
    && match tx.phase
       case Begun => true
       case VersionRead(current, seen) => WasCurrent(db.events, k, current, seen)
       case Inserting(current, seen, id) =>
         && WasCurrent(db.events, k, current, seen) && Guard(tx.request, current) == None
         && IdsBelow(Of(db.events[..seen], k), id)
       case Inserted(e) => PendingFits(db.events, tx, e)
       case Outboxed(e, oid) => PendingFits(db.events, tx, e) && OutboxIdFits(db.outbox, k, oid)
       case Projected(e, oid, row) =>
         && PendingFits(db.events, tx, e) && OutboxIdFits(db.outbox, k, oid)
         && ProjectEvent(k, Lookup(db.rows, k), e) == Ok(row)
       case Committed(e, at) => Owns(db, t, tx, e, at)
       case Unacknowledged(e, at) => Owns(db, t, tx, e, at)
       case Refused(error, current, seen) =>
         && WasCurrent(db.events, k, current, seen)
         && (Guard(tx.request, current) == Some(error) ||
             (Guard(tx.request, current) == None && error == Conflict && LostRace(db, t, k, current, seen)))
       case RolledBack => true
  }

  ghost predicate AllFit(db: Tables, txs: map<nat, Tx>) {
    forall t :: t in txs ==> TxFits(db, t, txs[t])
  }

  ghost predicate Inv(w: Store) {
    && TablesAgree(w.db) && OutboxOrdered(w.db.outbox) && HistoriesWellFormed(w.db.events)
    && RowsHaveWriters(w.db, w.txs) && PendingDistinct(w.txs)
    && IdsDrawn(w.db, w.nextEventId, w.nextOutboxId, w.txs)
    && AllFit(w.db, w.txs)
  }

  lemma InitInv()
    ensures Inv(EMPTY)
  {
  }

  // ---------- Actions that leave the committed tables alone ----------

  /** What a transaction's new phase must meet for the invariant to survive. */
  ghost predicate MayMove(w: Store, t: nat, p: Phase, nextEventId: int, nextOutboxId: int) {
    && t in w.txs && !w.txs[t].phase.Ended() && !p.HasCommitted()
    && nextEventId >= w.nextEventId && nextOutboxId >= w.nextOutboxId
    && TxFits(w.db, t, w.txs[t].(phase := p))
    && (p.Inserting? ==> p.id < nextEventId)
    && (p.Pending() ==> p.event.id < nextEventId)
    && (p.HoldsOutboxId() ==> p.outboxId < nextOutboxId)
    && (p.Pending() && !w.txs[t].phase.Pending() ==>
          forall u :: u in w.txs && u != t && w.txs[u].phase.Pending() ==> w.txs[u].request.key != w.txs[t].request.key)
    && (p.HoldsOutboxId() ==>
          if w.txs[t].phase.HoldsOutboxId() then p.outboxId == w.txs[t].phase.outboxId
          else p.outboxId >= w.nextOutboxId)
  }

  lemma MoveInv(w: Store, w': Store, t: nat, p: Phase)
    requires Inv(w) && MayMove(w, t, p, w'.nextEventId, w'.nextOutboxId)
    requires w' == Move(w, t, p).(nextEventId := w'.nextEventId, nextOutboxId := w'.nextOutboxId)
    ensures Inv(w')
  {
    MoveKeepsFit(w, t, p);
    MoveKeepsWriters(w, t, p, w'.nextEventId, w'.nextOutboxId);
  }

  lemma MoveKeepsWriters(w: Store, t: nat, p: Phase, nextEventId: int, nextOutboxId: int)
    requires MayMove(w, t, p, nextEventId, nextOutboxId)
    requires RowsHaveWriters(w.db, w.txs) && PendingDistinct(w.txs)
    requires IdsDrawn(w.db, w.nextEventId, w.nextOutboxId, w.txs)
    ensures var txs := Move(w, t, p).txs;
            RowsHaveWriters(w.db, txs) && PendingDistinct(txs) && IdsDrawn(w.db, nextEventId, nextOutboxId, txs)
  {
    MoveKeepsRows(w, t, p);
    MoveKeepsDistinct(w, t, p, nextEventId, nextOutboxId);
    MoveKeepsIds(w, t, p, nextEventId, nextOutboxId);
  }

  lemma MoveKeepsRows(w: Store, t: nat, p: Phase)
    requires t in w.txs && !w.txs[t].phase.Ended() && RowsHaveWriters(w.db, w.txs)
    ensures RowsHaveWriters(w.db, Move(w, t, p).txs)
  {
  }

  lemma MoveKeepsDistinct(w: Store, t: nat, p: Phase, nextEventId: int, nextOutboxId: int)
    requires MayMove(w, t, p, nextEventId, nextOutboxId) && PendingDistinct(w.txs)
    requires forall u :: u in w.txs && w.txs[u].phase.HoldsOutboxId() ==> w.txs[u].phase.outboxId < w.nextOutboxId
    ensures PendingDistinct(Move(w, t, p).txs)
  {
  }

  lemma MoveKeepsIds(w: Store, t: nat, p: Phase, nextEventId: int, nextOutboxId: int)
    requires t in w.txs && nextEventId >= w.nextEventId && nextOutboxId >= w.nextOutboxId
    requires p.Inserting? ==> p.id < nextEventId
    requires p.Pending() ==> p.event.id < nextEventId
    requires p.HoldsOutboxId() ==> p.outboxId < nextOutboxId
    requires IdsDrawn(w.db, w.nextEventId, w.nextOutboxId, w.txs)
    ensures IdsDrawn(w.db, nextEventId, nextOutboxId, Move(w, t, p).txs)
  {
  }

  lemma MoveKeepsFit(w: Store, t: nat, p: Phase)
    requires t in w.txs && AllFit(w.db, w.txs) && TxFits(w.db, t, w.txs[t].(phase := p))
    ensures AllFit(w.db, Move(w, t, p).txs)
  {
  }

  // Each of the next lemmas shows that the phase an action moves to may be moved to; `NextInv` then
  // applies `MoveInv`.

  lemma ReadMoves(w: Store, t: nat)
    requires t in w.txs && w.txs[t].phase.Begun? && TxFits(w.db, t, w.txs[t]) && WellNumbered(w.db.events)
    ensures MayMove(w, t, VersionRead(LatestVersion(w.db.events, w.txs[t].request.key), |w.db.events|),
                    w.nextEventId, w.nextOutboxId)
  {
    var k := w.txs[t].request.key;
    assert Numbered(Of(w.db.events, k));
    LatestVersionIsLength(w.db.events, k);
    assert w.db.events[..|w.db.events|] == w.db.events;
  }

  lemma CheckMoves(w: Store, t: nat)
    requires t in w.txs && w.txs[t].phase.VersionRead? && TxFits(w.db, t, w.txs[t])
    requires forall i :: 0 <= i < |w.db.events| ==> w.db.events[i].id < w.nextEventId
    ensures var p := AfterCheck(w, w.txs[t]);
            MayMove(w, t, p, w.nextEventId + if p.Inserting? then 1 else 0, w.nextOutboxId)
  {
    SeenIdsBelow(w.db.events, w.txs[t].phase.seen, w.txs[t].request.key, w.nextEventId);
  }

  lemma SeenIdsBelow(events: seq<Event>, seen: nat, k: Key, id: int)
    requires seen <= |events| && forall i :: 0 <= i < |events| ==> events[i].id < id
    ensures IdsBelow(Of(events[..seen], k), id)
  {
    OfMembers(events[..seen], k);
    var log := Of(events[..seen], k);
    forall i | 0 <= i < |log| ensures log[i].id < id {
      assert log[i] in events[..seen];
    }
  }

  /** An insert that finds its version free holds the next version of its aggregate. */
  lemma FreeVersionIsNext(events: seq<Event>, k: Key, current: int, seen: nat)
    requires Numbered(Of(events, k)) && WasCurrent(events, k, current, seen)
    ensures Of(events[..seen], k) <= Of(events, k)
    ensures !Taken(events, k, current + 1) ==> Of(events, k) == Of(events[..seen], k)
  {
    OfPrefix(events[..seen], events, k);
    var log := Of(events, k);
    if current < |log| {
      assert log[current].version == current + 1;
      OfMembers(events, k);
      assert log[current] in events;
    }
  }

  /** A taken version was committed after the read, by another command. */
  lemma TakenIsLostRace(db: Tables, txs: map<nat, Tx>, t: nat, k: Key, current: int, seen: nat)
    requires Numbered(Of(db.events, k)) && RowsHaveWriters(db, txs)
    requires t in txs && !txs[t].phase.HasCommitted()
    requires WasCurrent(db.events, k, current, seen)
    requires Taken(db.events, k, current + 1)
    ensures LostRace(db, t, k, current, seen)
  {
    var i :| 0 <= i < |db.events| && db.events[i].key == k && db.events[i].version == current + 1;
    var log := Of(db.events[..seen], k);
    assert i >= seen by {
      FreeVersionIsNext(db.events, k, current, seen);
      assert forall j :: 0 <= j < |log| ==> log[j] == Of(db.events, k)[j] && log[j].version <= current;
      OfMembers(db.events[..seen], k);
      assert db.events[i] !in db.events[..seen];
    }
    assert txs[db.writers[i]].phase.HasCommitted();
  }

  lemma InsertMoves(w: Store, t: nat)
    requires t in w.txs && w.txs[t].phase.Inserting? && AllFit(w.db, w.txs)
    requires WellNumbered(w.db.events) && RowsHaveWriters(w.db, w.txs)
    requires w.txs[t].phase.id < w.nextEventId
    ensures MayMove(w, t, AfterInsert(w, t, w.txs[t]), w.nextEventId, w.nextOutboxId)
  {
    var tx := w.txs[t];
    assert TxFits(w.db, t, tx);
    var k, current, seen := tx.request.key, tx.phase.current, tx.phase.seen;
    assert Numbered(Of(w.db.events, k));
    FreeVersionIsNext(w.db.events, k, current, seen);
    var p := AfterInsert(w, t, tx);
    if p.Refused? {
      TakenIsLostRace(w.db, w.txs, t, k, current, seen);
    } else if p.Inserted? {
      forall u | u in w.txs && u != t && w.txs[u].phase.Pending() ensures w.txs[u].request.key != k {
        assert TxFits(w.db, u, w.txs[u]);
      }
    }
  }

  lemma WriteOutboxMoves(w: Store, t: nat)
    requires t in w.txs && w.txs[t].phase.Inserted? && TxFits(w.db, t, w.txs[t])
    requires IdsDrawn(w.db, w.nextEventId, w.nextOutboxId, w.txs)
    ensures MayMove(w, t, Outboxed(w.txs[t].phase.event, w.nextOutboxId), w.nextEventId, w.nextOutboxId + 1)
  {
  }

  lemma ProjectMoves(w: Store, t: nat)
    requires t in w.txs && w.txs[t].phase.Outboxed? && TxFits(w.db, t, w.txs[t])
    requires IdsDrawn(w.db, w.nextEventId, w.nextOutboxId, w.txs)
    ensures MayMove(w, t, AfterProject(w.db, w.txs[t]), w.nextEventId, w.nextOutboxId)
  {
  }

  // ---------- The commit ----------

  lemma PublishedHistories(events: seq<Event>, e: Event)
    ensures forall k :: Of(events + [e], k) == if k == e.key then Of(events, k) + [e] else Of(events, k)
  {
    forall k ensures Of(events + [e], k) == if k == e.key then Of(events, k) + [e] else Of(events, k) {
      OfAppend(events, e, k);
    }
  }

  lemma CommitNumbers(events: seq<Event>, tx: Tx, e: Event)
    requires WellNumbered(events) && PendingFits(events, tx, e)
    ensures WellNumbered(events + [e])
  {
    PublishedHistories(events, e);
    forall k: Key ensures Numbered(Of(events + [e], k)) && IdsIncrease(Of(events + [e], k)) {
      assert Numbered(Of(events, k)) && IdsIncrease(Of(events, k));
    }
  }

  lemma CommitProjects(db: Tables, k: Key, e: Event, row: Row)
    requires forall k: Key :: Lookup(db.rows, k) == RowAfter(k, Of(db.events, k))
    requires e.key == k && ProjectEvent(k, Lookup(db.rows, k), e) == Ok(row)
    ensures forall j: Key :: Lookup(db.rows[k := row], j) == RowAfter(j, Of(db.events + [e], j))
  {
    PublishedHistories(db.events, e);
    forall j: Key ensures Lookup(db.rows[k := row], j) == RowAfter(j, Of(db.events + [e], j)) {
      assert Lookup(db.rows, j) == RowAfter(j, Of(db.events, j));
      RowAfterStep(k, Of(db.events, k), e);
    }
  }

  lemma CommitHistories(events: seq<Event>, tx: Tx, e: Event)
    requires HistoriesWellFormed(events) && PendingFits(events, tx, e) && WellFormed(tx.request)
    requires Decodes(e.key.aggregateType, e.payload)
    ensures HistoriesWellFormed(events + [e])
  {
    PublishedHistories(events, e);
    forall k: Key ensures Opened(k.aggregateType, Of(events + [e], k)) {
      assert Opened(k.aggregateType, Of(events, k));
    }
  }

  /** A commit leaves every other transaction fitting: those that read earlier keep what they saw, and
      no other transaction has a pending row for the same aggregate. */
  lemma CommitKeepsFit(db: Tables, t: nat, p: Phase, u: nat, tx: Tx)
    requires p.Projected? && u != t && TxFits(db, u, tx)
    requires |db.writers| == |db.events|
    requires tx.phase.Pending() ==> tx.request.key != p.event.key
    requires tx.phase.HoldsOutboxId() ==> tx.phase.outboxId != p.outboxId
    ensures TxFits(Publish(db, t, p), u, tx)
  {
    var db', e := Publish(db, t, p), p.event;
    var k := tx.request.key;
    match tx.phase {
      case VersionRead(_, seen) => assert db'.events[..seen] == db.events[..seen];
      case Inserting(_, seen, _) => assert db'.events[..seen] == db.events[..seen];
      case Refused(_, current, seen) =>
        assert db'.events[..seen] == db.events[..seen];
        if LostRace(db, u, k, current, seen) {
          var i :| seen <= i < |db.events| && db.events[i].key == k && db.events[i].version == current + 1
                   && db.writers[i] != u;
          assert db'.events[i] == db.events[i] && db'.writers[i] == db.writers[i];
        }
      case _ => OfAppend(db.events, e, k);
    }
  }

  lemma CommitAllFit(w: Store, w': Store, t: nat, acknowledged: bool)
    requires t in w.txs && w.txs[t].phase.Projected? && w' == Next(w, Commit(t, acknowledged))
    requires AllFit(w.db, w.txs) && PendingDistinct(w.txs) && |w.db.writers| == |w.db.events|
    ensures AllFit(w'.db, w'.txs)
  {
    var p := w.txs[t].phase;
    assert TxFits(w.db, t, w.txs[t]);
    forall u | u in w'.txs ensures TxFits(w'.db, u, w'.txs[u]) {
      if u == t {
        assert w'.db.writers[|w.db.events|] == t && w'.db.events[|w.db.events|] == p.event;
      } else {
        CommitKeepsFit(w.db, t, p, u, w.txs[u]);
      }
    }
  }

  lemma CommitWriters(w: Store, w': Store, t: nat, acknowledged: bool)
    requires t in w.txs && w.txs[t].phase.Projected? && w' == Next(w, Commit(t, acknowledged))
    requires RowsHaveWriters(w.db, w.txs) && PendingDistinct(w.txs)
    ensures RowsHaveWriters(w'.db, w'.txs) && PendingDistinct(w'.txs)
  {
  }

  lemma CommitIds(w: Store, w': Store, t: nat, acknowledged: bool)
    requires t in w.txs && w.txs[t].phase.Projected? && w' == Next(w, Commit(t, acknowledged))
    requires IdsDrawn(w.db, w.nextEventId, w.nextOutboxId, w.txs)
    requires OutboxOrdered(w.db.outbox) && OutboxIdFits(w.db.outbox, w.txs[t].phase.event.key, w.txs[t].phase.outboxId)
    ensures OutboxOrdered(w'.db.outbox) && IdsDrawn(w'.db, w'.nextEventId, w'.nextOutboxId, w'.txs)
  {
  }

  lemma CommitAgrees(db: Tables, t: nat, p: Phase)
    requires TablesAgree(db) && p.Projected? && WellNumbered(db.events + [p.event])
    requires forall k: Key :: Lookup(db.rows[p.event.key := p.row], k) == RowAfter(k, Of(db.events + [p.event], k))
    ensures TablesAgree(Publish(db, t, p))
  {
    var db' := Publish(db, t, p);
    forall i | 0 <= i < |db'.events| ensures db'.outbox[i].event == db'.events[i] {
      if i < |db.events| { assert db.outbox[i].event == db.events[i]; }
    }
  }

  lemma CommitTables(w: Store, t: nat)
    requires TablesAgree(w.db) && HistoriesWellFormed(w.db.events)
    requires t in w.txs && w.txs[t].phase.Projected? && TxFits(w.db, t, w.txs[t])
    ensures TablesAgree(Publish(w.db, t, w.txs[t].phase))
    ensures HistoriesWellFormed(Publish(w.db, t, w.txs[t].phase).events)
  {
    CommitRow(w.db, w.txs[t]);
    CommitAgrees(w.db, t, w.txs[t].phase);
  }

  lemma CommitRow(db: Tables, tx: Tx)
    requires TablesAgree(db) && HistoriesWellFormed(db.events) && WellFormed(tx.request)
    requires tx.phase.Projected? && PendingFits(db.events, tx, tx.phase.event)
    requires ProjectEvent(tx.request.key, Lookup(db.rows, tx.request.key), tx.phase.event) == Ok(tx.phase.row)
    ensures WellNumbered(db.events + [tx.phase.event]) && HistoriesWellFormed(db.events + [tx.phase.event])
    ensures forall k: Key ::
              Lookup(db.rows[tx.phase.event.key := tx.phase.row], k) == RowAfter(k, Of(db.events + [tx.phase.event], k))
  {
    var e := tx.phase.event;
    CommitNumbers(db.events, tx, e);
    CommitProjects(db, e.key, e, tx.phase.row);
    ProjectedDecodes(e.key, Lookup(db.rows, e.key), e);
    CommitHistories(db.events, tx, e);
  }

  lemma ProjectedDecodes(k: Key, existing: Option<Row>, e: Event)
    requires ProjectEvent(k, existing, e).Ok?
    ensures Decodes(k.aggregateType, e.payload)
  {
    ApplyStamps(New(k), e);
  }

  lemma CommitPublishes(w: Store, w': Store, t: nat, acknowledged: bool)
    requires t in w.txs && w.txs[t].phase.Projected? && w' == Next(w, Commit(t, acknowledged))
    ensures w'.db == Publish(w.db, t, w.txs[t].phase)
    ensures forall u :: u in w.txs && u != t ==> u in w'.txs && w'.txs[u] == w.txs[u]
    ensures t in w'.txs && w'.txs[t].phase.HasCommitted() && w'.txs[t].phase.event == w.txs[t].phase.event
  {
  }

  lemma CommitInv(w: Store, w': Store, t: nat, acknowledged: bool)
    requires Inv(w) && t in w.txs && w.txs[t].phase.Projected? && w' == Next(w, Commit(t, acknowledged))
    ensures Inv(w')
  {
    assert TxFits(w.db, t, w.txs[t]);
    CommitPublishes(w, w', t, acknowledged);
    CommitTables(w, t);
    CommitAllFit(w, w', t, acknowledged);
    CommitWriters(w, w', t, acknowledged);
    CommitIds(w, w', t, acknowledged);
  }

  // ---------- All actions ----------

  lemma BeginInv(w: Store, w': Store, t: nat, req: Request)
    requires Inv(w) && t !in w.txs && WellFormed(req) && w' == Next(w, Begin(t, req))
    ensures Inv(w')
  {
    BeginKeepsWriters(w, t, Tx(req, w.clock, Begun));
  }

  lemma BeginKeepsWriters(w: Store, t: nat, tx: Tx)
    requires RowsHaveWriters(w.db, w.txs) && PendingDistinct(w.txs) && AllFit(w.db, w.txs)
    requires IdsDrawn(w.db, w.nextEventId, w.nextOutboxId, w.txs)
    requires t !in w.txs && tx.phase.Begun? && WellFormed(tx.request)
    ensures RowsHaveWriters(w.db, w.txs[t := tx]) && PendingDistinct(w.txs[t := tx]) && AllFit(w.db, w.txs[t := tx])
    ensures IdsDrawn(w.db, w.nextEventId, w.nextOutboxId, w.txs[t := tx])
  {
  }

  lemma AdvanceInv(w: Store, w': Store, a: Action)
    requires Inv(w) && !a.Begin? && !a.Tick? && !a.Commit? && a.tx in w.txs
    requires w' == Advance(w, a, w.txs[a.tx]) != w
    ensures Inv(w')
  {
    var t, tx := a.tx, w.txs[a.tx];
    assert TxFits(w.db, t, tx);
    match a {
      case ReadVersion(_) =>
        ReadMoves(w, t);
        MoveInv(w, w', t, VersionRead(LatestVersion(w.db.events, tx.request.key), |w.db.events|));
      case Check(_) =>
        CheckMoves(w, t);
        MoveInv(w, w', t, AfterCheck(w, tx));
      case Insert(_) =>
        InsertMoves(w, t);
        MoveInv(w, w', t, AfterInsert(w, t, tx));
      case WriteOutbox(_) =>
        WriteOutboxMoves(w, t);
        MoveInv(w, w', t, Outboxed(tx.phase.event, w.nextOutboxId));
      case Project(_) =>
        ProjectMoves(w, t);
        MoveInv(w, w', t, AfterProject(w.db, tx));
      case Rollback(_) => MoveInv(w, w', t, RolledBack);
    }
  }

  lemma AnyBegin(w: Store, w': Store, t: nat, req: Request)
    requires Inv(w) && w' == Next(w, Begin(t, req))
    ensures Inv(w')
  {
    if t !in w.txs && WellFormed(req) { BeginInv(w, w', t, req); }
  }

  lemma AnyTick(w: Store, w': Store, d: nat)
    requires Inv(w) && w' == Next(w, Tick(d))
    ensures Inv(w')
  {
  }

  lemma AnyCommit(w: Store, w': Store, t: nat, acknowledged: bool)
    requires Inv(w) && w' == Next(w, Commit(t, acknowledged))
    ensures Inv(w')
  {
    if t in w.txs && w.txs[t].phase.Projected? {
      CommitInv(w, w', t, acknowledged);
    } else {
      CommitNotEnabled(w, t, acknowledged);
    }
  }

  lemma CommitNotEnabled(w: Store, t: nat, acknowledged: bool)
    requires !(t in w.txs && w.txs[t].phase.Projected?)
    ensures Next(w, Commit(t, acknowledged)) == w
  {
  }

  lemma AnyAdvance(w: Store, w': Store, a: Action)
    requires Inv(w) && w' == Next(w, a) && !a.Begin? && !a.Tick? && !a.Commit?
    ensures Inv(w')
  {
    if a.tx in w.txs && w' != w { AdvanceInv(w, w', a); }
  }

  /** The invariant holds after every action, hence along every interleaving. */
  lemma NextInv(w: Store, a: Action)
    requires Inv(w)
    ensures Inv(Next(w, a))
  {
    match a
    case Begin(t, req) => AnyBegin(w, Next(w, a), t, req);
    case Tick(d) => AnyTick(w, Next(w, a), d);
    case Commit(t, acknowledged) => AnyCommit(w, Next(w, a), t, acknowledged);
    case _ => AnyAdvance(w, Next(w, a), a);
  }

  // ---------- Consequences ----------

  lemma WellFormedHistory(events: seq<Event>, k: Key)
    requires WellNumbered(events) && HistoriesWellFormed(events)
    ensures var log := Of(events, k);
            && Opened(k.aggregateType, log)
            && Fold(New(k), log).Ok?
            && Fold(New(k), log).value.Type() == k.aggregateType
            && Fold(New(k), log).value.Version() == |log|
            && forall i :: 0 <= i < |log| ==> O.WellPriced(log[i].payload)
  {
    HistoryDecodes(events, k);
    NewHasType(k);
    FoldStamps(New(k), Of(events, k));
    assert Numbered(Of(events, k));
  }

  lemma HistoryDecodes(events: seq<Event>, k: Key)
    requires HistoriesWellFormed(events)
    ensures Opened(k.aggregateType, Of(events, k))
    ensures forall i :: 0 <= i < |Of(events, k)| ==>
              Decodes(k.aggregateType, Of(events, k)[i].payload) && O.WellPriced(Of(events, k)[i].payload)
  {
    var log := Of(events, k);
    OfMembers(events, k);
    forall i | 0 <= i < |log| ensures Decodes(k.aggregateType, log[i].payload) && O.WellPriced(log[i].payload) {
      assert log[i] in events;
    }
  }

  lemma RowTracks(db: Tables, k: Key)
    requires TablesAgree(db) && HistoriesWellFormed(db.events)
    ensures var log := Of(db.events, k);
            && (k in db.rows <==> log != [])
            && (log != [] ==>
                  && Fold(New(k), log).Ok? && Apply(New(k), log[|log| - 1]).Ok?
                  && db.rows[k].version == |log|
                  && db.rows[k].createdAt == Fold(New(k), log).value.CreatedAt()
                  && db.rows[k].updatedAt == Fold(New(k), log).value.UpdatedAt()
                  && db.rows[k] == Columns(Apply(New(k), log[|log| - 1]).value).(createdAt := log[0].createdAt))
            && (|log| == 1 ==> ReadBack(db.rows[k]) == Fold(New(k), log).value)
  {
    WellFormedHistory(db.events, k);
    assert Lookup(db.rows, k) == RowAfter(k, Of(db.events, k));
    RowTracksHistory(k, Of(db.events, k));
  }
}
