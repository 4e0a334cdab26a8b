/** What holds of histories, rows and commands after every run of the system: any number of commands,
    publishers, snapshot builders and cached readers, interleaved in any way. */
module CommandTheorems {
  import opened Domain
  import opened EventLog
  import opened Aggregates
  import opened System
  import W = Writers
  import Projection
  import Int64
  import O = OrderAggregate

  // ---------- Histories ----------

  /** Transaction `t` is open and has inserted a row for the aggregate. */
  predicate HoldsRowOf(w: W.Store, t: nat, k: Key) {
    t in w.txs && w.txs[t].phase.Pending() && w.txs[t].request.key == k
  }

  /** The committed versions of every aggregate are exactly 1..n in commit order, their ids increase,
      and at most one open command holds a pending row for the aggregate, at version n + 1. */
  lemma HistoriesAreGapFree(period: int, actions: seq<Action>, k: Key)
    ensures var s := Reach(period, actions).store; var log := Of(s.db.events, k);
            && Numbered(log) && IdsIncrease(log)
            && (forall t :: HoldsRowOf(s, t, k) ==>
                  s.txs[t].phase.event.key == k && s.txs[t].phase.event.version == |log| + 1)
            && (forall t, u :: HoldsRowOf(s, t, k) && HoldsRowOf(s, u, k) ==> t == u)
  {
    ReachInv(period, actions);
    PendingIsNext(Reach(period, actions).store, k);
  }

  lemma PendingIsNext(w: W.Store, k: Key)
    requires WellNumbered(w.db.events) && W.AllFit(w.db, w.txs) && W.PendingDistinct(w.txs)
    ensures Numbered(Of(w.db.events, k)) && IdsIncrease(Of(w.db.events, k))
    ensures forall t :: HoldsRowOf(w, t, k) ==>
              w.txs[t].phase.event.key == k && w.txs[t].phase.event.version == |Of(w.db.events, k)| + 1
    ensures forall t, u :: HoldsRowOf(w, t, k) && HoldsRowOf(w, u, k) ==> t == u
  {
    forall t | HoldsRowOf(w, t, k)
      ensures w.txs[t].phase.event.key == k && w.txs[t].phase.event.version == |Of(w.db.events, k)| + 1
    {
      assert W.TxFits(w.db, t, w.txs[t]);
    }
  }

  /** A history never changes, it is only extended. */
  lemma HistoriesAreAppendOnly(period: int, actions: seq<Action>, more: seq<Action>, k: Key)
    ensures Of(Reach(period, actions).store.db.events, k) <= Of(Reach(period, actions + more).store.db.events, k)
  {
    ReachInv(period, actions);
    RunInv(period, Reach(period, actions), more);
    RunSplit(period, INIT, actions, more);
    OfPrefix(Reach(period, actions).store.db.events, Reach(period, actions + more).store.db.events, k);
  }

  /** Every history opens with its creation event and has no other; all its events decode; and the
      orders in it are created with the total of their lines. */
  lemma HistoriesAreWellFormed(period: int, actions: seq<Action>, k: Key)
    ensures var log := Of(Reach(period, actions).store.db.events, k);
            && Opened(k.aggregateType, log)
            && Fold(New(k), log).Ok?
            && Fold(New(k), log).value.Type() == k.aggregateType
            && Fold(New(k), log).value.Version() == |log|
            && forall i :: 0 <= i < |log| ==> O.WellPriced(log[i].payload)
  {
    ReachInv(period, actions);
    W.WellFormedHistory(Reach(period, actions).store.db.events, k);
  }

  /** Along the versions of an aggregate the creation time never changes, and a deleted user or product
      and a cancelled order stay so. */
  lemma ClosedStaysClosed(period: int, actions: seq<Action>, k: Key, m: nat, n: nat)
    requires 1 <= m <= n <= |Of(Reach(period, actions).store.db.events, k)|
    ensures var log := Of(Reach(period, actions).store.db.events, k);
            && Fold(New(k), log[..m]).Ok? && Fold(New(k), log[..n]).Ok?
            && Fold(New(k), log[..m]).value.CreatedAt() == Fold(New(k), log[..n]).value.CreatedAt() == log[0].createdAt
            && (Fold(New(k), log[..m]).value.Closed() ==> Fold(New(k), log[..n]).value.Closed())
  {
    HistoriesAreWellFormed(period, actions, k);
    var log := Of(Reach(period, actions).store.db.events, k);
    FoldPrefixOk(New(k), log, n);
    FoldPrefixOk(New(k), log, m);
    LifecycleIsMonotone(k, log[..n], m);
    LifecycleIsMonotone(k, log[..m], m);
    assert log[..n][..m] == log[..m] && log[..m][..m] == log[..m];
  }

  /** In every run and at every version, a user or product is deleted, and an order cancelled, exactly when that is
      among the events up to there. */
  lemma ClosedIffClosing(period: int, actions: seq<Action>, k: Key, n: nat)
    requires n <= |Of(Reach(period, actions).store.db.events, k)|
    ensures var log := Of(Reach(period, actions).store.db.events, k);
            && Fold(New(k), log[..n]).Ok?
            && match Fold(New(k), log[..n]).value
               case AUser(u) => u.deleted <==> exists i :: 0 <= i < n && log[i].payload.UserDeleted?
               case AProduct(p) => p.deleted <==> exists i :: 0 <= i < n && log[i].payload.ProductDeleted?
               case AOrder(o) => o.cancelled <==> exists i :: 0 <= i < n && log[i].payload.OrderCancelled?
  {
    HistoriesAreWellFormed(period, actions, k);
    var log := Of(Reach(period, actions).store.db.events, k);
    FoldPrefixOk(New(k), log, n);
    assert forall i :: 0 <= i < n ==> log[..n][i] == log[i];
    Aggregates.ClosedIffClosing(k, log[..n]);
  }

  /** In every order, at every version, the total is the int64 sum of the lines. */
  lemma OrdersBalance(period: int, actions: seq<Action>, id: string, n: nat)
    requires n <= |Of(Reach(period, actions).store.db.events, Key(OrderType, id))|
    ensures var k := Key(OrderType, id); var log := Of(Reach(period, actions).store.db.events, k);
            && Fold(New(k), log[..n]).Ok?
            && var a := Fold(New(k), log[..n]).value;
               a.AOrder? && a.order.totalCents == Int64.Wrap(O.Sum(a.order.items.Seq()))
  {
    var k := Key(OrderType, id);
    HistoriesAreWellFormed(period, actions, k);
    FoldPrefixOk(New(k), Of(Reach(period, actions).store.db.events, k), n);
    OrderTotalAgrees(id, Of(Reach(period, actions).store.db.events, k)[..n]);
  }

  /** The read-model row exists exactly when the history is nonempty; its version and times are those
      of the full fold, and its other columns those of the last event alone. */
  lemma RowsTrackHistories(period: int, actions: seq<Action>, k: Key)
    ensures var db := Reach(period, actions).store.db; var log := Of(db.events, k);
            && (k in db.rows <==> log != [])
            && (log != [] ==>
                  && Fold(New(k), log).Ok? && Apply(New(k), log[|log| - 1]).Ok?
                  && db.rows[k].version == |log|
                  && db.rows[k].createdAt == Fold(New(k), log).value.CreatedAt()
                  && db.rows[k].updatedAt == Fold(New(k), log).value.UpdatedAt()
                  && db.rows[k]
                     == Projection.Columns(Apply(New(k), log[|log| - 1]).value).(createdAt := log[0].createdAt))
            && (|log| == 1 ==> Projection.ReadBack(db.rows[k]) == Fold(New(k), log).value)
  {
    ReachInv(period, actions);
    HistoriesAreWellFormed(period, actions, k);
    W.RowTracks(Reach(period, actions).store.db, k);
  }

  /** After every run the row of a nonempty history is the projection of its last event onto the row before,
      which the `RowShows` lemmas spell out column by column. */
  lemma LastEventShown(period: int, actions: seq<Action>, k: Key)
    requires Of(Reach(period, actions).store.db.events, k) != []
    ensures var db := Reach(period, actions).store.db; var log := Of(db.events, k);
            && k in db.rows
            && Projection.ProjectEvent(k, Projection.RowAfter(k, log[..|log| - 1]), log[|log| - 1]) == Ok(db.rows[k])
  {
    ReachInv(period, actions);
    HistoriesAreWellFormed(period, actions, k);
    RowIs(Reach(period, actions).store.db, k);
    ShownLast(k, Of(Reach(period, actions).store.db.events, k));
  }

  lemma ShownLast(k: Key, log: seq<Event>)
    requires log != [] && Fold(New(k), log).Ok?
    ensures Projection.RowAfter(k, log).Some?
    ensures Projection.ProjectEvent(k, Projection.RowAfter(k, log[..|log| - 1]), log[|log| - 1])
            == Ok(Projection.RowAfter(k, log).value)
  {
    FoldStamps(New(k), log);
    NewHasType(k);
    ApplyStamps(New(k), log[|log| - 1]);
  }

  /** After every run the row of a nonempty history equals the columns of its fold if and only if, before
      the last event, the aggregate was still as new in every column that this event does not set. */
  lemma RowAgreesWithFoldIff(period: int, actions: seq<Action>, k: Key)
    requires Of(Reach(period, actions).store.db.events, k) != []
    ensures var db := Reach(period, actions).store.db; var log := Of(db.events, k);
            && k in db.rows && Fold(New(k), log).Ok? && Fold(New(k), log[..|log| - 1]).Ok?
            && (db.rows[k] == Projection.Columns(Fold(New(k), log).value) <==>
                  Projection.LeavesNew(Fold(New(k), log[..|log| - 1]).value, log[|log| - 1]))
  {
    ReachInv(period, actions);
    HistoriesAreWellFormed(period, actions, k);
    RowIs(Reach(period, actions).store.db, k);
    Projection.RowAgreesIff(k, Of(Reach(period, actions).store.db.events, k));
  }

  lemma RowIs(db: W.Tables, k: Key)
    requires W.TablesAgree(db)
    ensures Projection.Lookup(db.rows, k) == Projection.RowAfter(k, Of(db.events, k))
  {
  }

  // ---------- Commands ----------

  /** An atomic conditional append to one history, the specification of a command. */
  function CompareAndAppend(log: seq<Event>, req: W.Request, id: int, at: int): Result<seq<Event>> {
    var refused := W.Guard(req, |log|);
    if refused.Some? then Err(refused.value)
    else Ok(log + [Event(id, req.key, |log| + 1, req.payload, at)])
  }

  /** Refinement: in every reachable state, every action either leaves all histories alone or commits
      one command, which appends to one history exactly as the atomic operation does. */
  lemma StepsRefineCompareAndAppend(period: int, actions: seq<Action>, a: Action)
    ensures var s, s' := Reach(period, actions).store, Next(period, Reach(period, actions), a).store;
            || (forall k :: Of(s'.db.events, k) == Of(s.db.events, k))
            || (&& a.Write? && a.action.Commit? && a.action.tx in s.txs && s.txs[a.action.tx].phase.Projected?
                && var tx := s.txs[a.action.tx];
                && CompareAndAppend(Of(s.db.events, tx.request.key), tx.request, tx.phase.event.id, tx.start)
                   == Ok(Of(s'.db.events, tx.request.key))
                && forall k :: k != tx.request.key ==> Of(s'.db.events, k) == Of(s.db.events, k))
  {
    var s := Reach(period, actions).store;
    if a.Write? && a.action.Commit? && a.action.tx in s.txs && s.txs[a.action.tx].phase.Projected? {
      CommandFits(period, actions, a.action.tx);
      CommitRefines(s, W.Next(s, a.action), a.action.tx, a.action.acknowledged);
    } else if a.Write? {
      NoCommitNoChange(s, a.action);
    }
  }

  lemma CommandFits(period: int, actions: seq<Action>, t: nat)
    requires t in Reach(period, actions).store.txs
    ensures var s := Reach(period, actions).store; W.TxFits(s.db, t, s.txs[t])
  {
    ReachInv(period, actions);
  }

  /** No statement but a commit changes the committed tables. */
  lemma NoCommitNoChange(w: W.Store, a: W.Action)
    requires !(a.Commit? && a.tx in w.txs && w.txs[a.tx].phase.Projected?)
    ensures W.Next(w, a).db == w.db
  {
  }

  lemma CommitRefines(w: W.Store, w': W.Store, t: nat, acknowledged: bool)
    requires t in w.txs && w.txs[t].phase.Projected? && W.TxFits(w.db, t, w.txs[t])
    requires w' == W.Next(w, W.Commit(t, acknowledged))
    ensures var tx := w.txs[t];
            && CompareAndAppend(Of(w.db.events, tx.request.key), tx.request, tx.phase.event.id, tx.start)
               == Ok(Of(w'.db.events, tx.request.key))
            && forall k :: k != tx.request.key ==> Of(w'.db.events, k) == Of(w.db.events, k)
  {
    W.CommitPublishes(w, w', t, acknowledged);
    W.PublishedHistories(w.db.events, w.txs[t].phase.event);
  }

  /** `e` is the one row that transaction `t` wrote, at position `at`, and there the atomic operation
      appends exactly it. */
  ghost predicate CommittedExactly(db: W.Tables, t: nat, req: W.Request, e: Event, at: nat) {
    && at < |db.events| == |db.writers| && db.events[at] == e
    && (forall i :: 0 <= i < |db.writers| ==> (db.writers[i] == t <==> i == at))
    && CompareAndAppend(Of(db.events[..at], req.key), req, e.id, e.createdAt) == Ok(Of(db.events[..at + 1], req.key))
  }

  lemma OwnsExactly(db: W.Tables, txs: map<nat, W.Tx>, t: nat)
    requires WellNumbered(db.events) && W.RowsHaveWriters(db, txs)
    requires t in txs && txs[t].phase.HasCommitted() && W.Owns(db, t, txs[t], txs[t].phase.event, txs[t].phase.at)
    ensures CommittedExactly(db, t, txs[t].request, txs[t].phase.event, txs[t].phase.at)
  {
    var e, at := txs[t].phase.event, txs[t].phase.at;
    CommittedHere(db.events, at);
    forall i | 0 <= i < |db.writers| && db.writers[i] == t ensures i == at {
      assert db.events[i] == e;
      SameEventSameRow(db.events, i, at);
    }
  }

  lemma CommittedFits(w: W.Store, t: nat)
    requires W.Inv(w) && t in w.txs && w.txs[t].phase.HasCommitted()
    ensures CommittedExactly(w.db, t, w.txs[t].request, w.txs[t].phase.event, w.txs[t].phase.at)
    ensures w.txs[t].phase.event.createdAt == w.txs[t].start
  {
    assert W.TxFits(w.db, t, w.txs[t]);
    OwnsExactly(w.db, w.txs, t);
  }

  /** A command that committed appended one row, its own, dated by its start, to a history of exactly
      the length it expected; its guards held there. */
  lemma SuccessIsExact(period: int, actions: seq<Action>, t: nat)
    requires var s := Reach(period, actions).store; t in s.txs && s.txs[t].phase.HasCommitted()
    ensures var s := Reach(period, actions).store; var tx := s.txs[t];
            && CommittedExactly(s.db, t, tx.request, tx.phase.event, tx.phase.at)
            && tx.phase.event.createdAt == tx.start
            && (tx.request.expected.Some? ==>
                  |Of(s.db.events[..tx.phase.at], tx.request.key)| == tx.request.expected.value)
  {
    ReachInv(period, actions);
    CommittedFits(Reach(period, actions).store, t);
  }

  lemma CommittedHere(events: seq<Event>, at: nat)
    requires WellNumbered(events) && at < |events|
    ensures Of(events[..at + 1], events[at].key) == Of(events[..at], events[at].key) + [events[at]]
    ensures events[at].version == |Of(events[..at], events[at].key)| + 1
  {
    var k := events[at].key;
    assert events[..at + 1] == events[..at] + [events[at]];
    OfAppend(events[..at], events[at], k);
    OfPrefix(events[..at + 1], events, k);
    assert Numbered(Of(events, k));
    assert Of(events, k)[|Of(events[..at], k)|] == events[at];
  }

  lemma SameEventSameRow(events: seq<Event>, i: nat, j: nat)
    requires WellNumbered(events) && i < |events| && j < |events| && events[i] == events[j]
    ensures i == j
  {
    assert Numbered(Of(events, events[i].key));
    if i < j { CommitOrderIsVersionOrder(events, i, j); }
    if j < i { CommitOrderIsVersionOrder(events, j, i); }
  }

  /** No two successful commands on one aggregate share a version, hence none an expected version. */
  lemma SuccessesAreDistinct(period: int, actions: seq<Action>, t: nat, u: nat)
    requires var s := Reach(period, actions).store;
             && t in s.txs && u in s.txs && t != u && s.txs[t].phase.HasCommitted() && s.txs[u].phase.HasCommitted()
             && s.txs[t].request.key == s.txs[u].request.key
    ensures var s := Reach(period, actions).store;
            && s.txs[t].phase.event.version != s.txs[u].phase.event.version
            && (s.txs[t].request.expected.Some? ==> s.txs[t].request.expected != s.txs[u].request.expected)
  {
    SuccessIsExact(period, actions, t);
    SuccessIsExact(period, actions, u);
    CommandFits(period, actions, t);
    CommandFits(period, actions, u);
    ReachNumbered(period, actions);
    var s := Reach(period, actions).store;
    var i, j := s.txs[t].phase.at, s.txs[u].phase.at;
    assert Numbered(Of(s.db.events, s.db.events[i].key));
    if i < j { CommitOrderIsVersionOrder(s.db.events, i, j); } else { CommitOrderIsVersionOrder(s.db.events, j, i); }
  }

  lemma ReachNumbered(period: int, actions: seq<Action>)
    ensures WellNumbered(Reach(period, actions).store.db.events)
  {
    ReachInv(period, actions);
  }

  ghost predicate WroteNothing(db: W.Tables, t: nat) {
    forall i :: 0 <= i < |db.writers| ==> db.writers[i] != t
  }

  /** A refusal is justified by the first `seen` rows of the table: the atomic operation refuses there
      with the same error, or the guards held there and another command committed the next version
      later. */
  ghost predicate Justified(db: W.Tables, t: nat, req: W.Request, error: Error, seen: nat) {
    && seen <= |db.events|
    && var log := Of(db.events[..seen], req.key);
       || (forall id, at :: CompareAndAppend(log, req, id, at) == Err(error))
       || (error == Conflict && W.Guard(req, |log|) == None && W.LostRace(db, t, req.key, |log|, seen))
  }

  lemma RefusedFits(w: W.Store, t: nat)
    requires W.Inv(w) && t in w.txs && w.txs[t].phase.Refused?
    ensures WroteNothing(w.db, t)
    ensures Justified(w.db, t, w.txs[t].request, w.txs[t].phase.error, w.txs[t].phase.seen)
  {
    UncommittedWroteNothing(w, t);
    RefusedByTable(w.db, t, w.txs[t]);
  }

  lemma RefusedByTable(db: W.Tables, t: nat, tx: W.Tx)
    requires W.TxFits(db, t, tx) && tx.phase.Refused?
    ensures Justified(db, t, tx.request, tx.phase.error, tx.phase.seen)
  {
  }

  lemma UncommittedWroteNothing(w: W.Store, t: nat)
    requires W.RowsHaveWriters(w.db, w.txs) && (t in w.txs ==> !w.txs[t].phase.HasCommitted())
    ensures WroteNothing(w.db, t)
  {
    forall i | 0 <= i < |w.db.writers| ensures w.db.writers[i] != t {
      assert w.txs[w.db.writers[i]].phase.HasCommitted();
    }
  }

  /** A refused command has written nothing, and its refusal is justified by the table as it was when
      the version was read. */
  lemma RefusalIsJustified(period: int, actions: seq<Action>, t: nat)
    requires var s := Reach(period, actions).store; t in s.txs && s.txs[t].phase.Refused?
    ensures var s := Reach(period, actions).store;
            WroteNothing(s.db, t) && Justified(s.db, t, s.txs[t].request, s.txs[t].phase.error, s.txs[t].phase.seen)
  {
    ReachInv(period, actions);
    RefusedFits(Reach(period, actions).store, t);
  }

  /** A command that was rolled back has written nothing; the outcome of a command is final. */
  lemma OutcomesAreFinal(period: int, actions: seq<Action>, more: seq<Action>, t: nat)
    requires var s := Reach(period, actions).store; t in s.txs && s.txs[t].phase.Ended()
    ensures var s, s' := Reach(period, actions).store, Reach(period, actions + more).store;
            && t in s'.txs && s'.txs[t] == s.txs[t]
            && (!s.txs[t].phase.HasCommitted() ==> WroteNothing(s'.db, t))
  {
    var s, s' := Reach(period, actions), Reach(period, actions + more);
    RunSplit(period, INIT, actions, more);
    EndedStays(period, s, more, t);
    ReachInv(period, actions + more);
    assert W.Inv(s'.store);
    if !s.store.txs[t].phase.HasCommitted() { UncommittedWroteNothing(s'.store, t); }
  }

  lemma {:induction false} EndedStays(period: int, s: State, more: seq<Action>, t: nat)
    requires t in s.store.txs && s.store.txs[t].phase.Ended()
    ensures t in Run(period, s, more).store.txs && Run(period, s, more).store.txs[t] == s.store.txs[t]
  {
    if more == [] {
    } else {
      EndedStays(period, s, more[..|more| - 1], t);
      var before, a := Run(period, s, more[..|more| - 1]), more[|more| - 1];
      if a.Write? { EndedIgnores(before.store, a.action, t); }
    }
  }

  lemma EndedIgnores(w: W.Store, a: W.Action, t: nat)
    requires t in w.txs && w.txs[t].phase.Ended()
    ensures t in W.Next(w, a).txs && W.Next(w, a).txs[t] == w.txs[t]
  {
  }
}
