/** internal/worker/outbox.go, the publisher as a program against the shared database. */
module Publishing {
  import opened Domain
  import opened Database
  import opened Sequences
  import opened Batches
  import opened System
  import opened DeliveryOnce
  import W = Writers
  import D = Delivery
  import Sorting

  /** Publisher `p` has a batch in hand of which `pos` rows are done. */
  predicate Holds(s: State, p: nat, batch: seq<W.OutboxRow>, pos: nat) {
    p in s.channel.publishers && s.channel.publishers[p] == D.Publisher(batch, pos, false)
  }

  lemma SendStep(outbox: seq<W.OutboxRow>, c: D.Channel, p: nat, batch: seq<W.OutboxRow>, pos: nat)
    requires p in c.publishers && c.publishers[p] == D.Publisher(batch, pos, false) && pos < |batch|
    ensures var c' := D.NextStep(outbox, c, D.Send(p));
            && c'.sent == c.sent + [batch[pos].event] && c'.published == c.published
            && c'.publishers - {p} == c.publishers - {p}
            && p in c'.publishers && c'.publishers[p] == D.Publisher(batch, pos, true)
  {
  }

  lemma MarkStep(outbox: seq<W.OutboxRow>, c: D.Channel, p: nat, batch: seq<W.OutboxRow>, pos: nat, stored: bool)
    requires p in c.publishers && c.publishers[p] == D.Publisher(batch, pos, true) && pos < |batch|
    ensures var c' := D.NextStep(outbox, c, D.Mark(p, stored));
            && c'.sent == c.sent && c'.published == c.published + (if stored then {batch[pos].id} else {})
            && c'.publishers - {p} == c.publishers - {p}
            && p in c'.publishers && c'.publishers[p] == D.Publisher(batch, pos + 1, false)
  {
  }

  /** The state after one turn of the loop, with the statements of others in its two gaps. */
  function AfterTurn(period: int, s: State, p: nat, others: seq<Action>, others': seq<Action>, stored: bool): State {
    var sent := Next(period, Run(period, s, Foreign(Publisher(p), others)), Deliver(D.Send(p)));
    Next(period, Run(period, sent, Foreign(Publisher(p), others')), Deliver(D.Mark(p, stored)))
  }

  /** The states of a batch: after its query, and after each of its turns. */
  ghost predicate TurnByTurn(period: int, states: seq<State>, p: nat, env: Schedule<Action>, lost: set<nat>) {
    forall i :: 0 <= i < |states| - 1 ==> IsTurn(period, states[i], states[i + 1], p, env, lost, i)
  }

  ghost predicate IsTurn(period: int, s: State, s': State, p: nat, env: Schedule<Action>, lost: set<nat>, i: nat) {
    s' == AfterTurn(period, s, p, Gap(env, 2 * i), Gap(env, 2 * i + 1), i !in lost)
  }

  lemma OneMoreTurn(period: int, states: seq<State>, s': State, p: nat, env: Schedule<Action>, lost: set<nat>)
    requires states != [] && TurnByTurn(period, states, p, env, lost)
    requires IsTurn(period, states[|states| - 1], s', p, env, lost, |states| - 1)
    ensures TurnByTurn(period, states + [s'], p, env, lost)
  {
    var all := states + [s'];
    forall i | 0 <= i < |all| - 1 ensures IsTurn(period, all[i], all[i + 1], p, env, lost, i) {
      assert i < |states| - 1 ==> IsTurn(period, states[i], states[i + 1], p, env, lost, i);
    }
  }

  /** One turn of the loop: `Publish`, then the update, whose error is ignored. */
  method SendAndMark(db: Connection, p: nat, ghost batch: seq<W.OutboxRow>, ghost pos: nat,
                     others: seq<Action>, others': seq<Action>, stored: bool) returns (ghost at: nat)
    requires db.Valid() && Holds(db.state, p, batch, pos) && pos < |batch|
    modifies db
    ensures db.Valid() && Extends(old(db.state), db.state)
    ensures Holds(db.state, p, batch, pos + 1)
    ensures |old(db.state).channel.sent| <= at < |db.state.channel.sent|
    ensures db.state.channel.sent[at] == batch[pos].event
    ensures stored ==> batch[pos].id in db.state.channel.published
    ensures db.state == AfterTurn(db.period, old(db.state), p, others, others', stored)
    ensures others == [] && others' == [] ==>
              && db.state.store == old(db.state).store
              && db.state.channel.publishers - {p} == old(db.state).channel.publishers - {p}
              && db.state.channel.sent == old(db.state).channel.sent + [batch[pos].event]
              && db.state.channel.published
                 == old(db.state).channel.published + (if stored then {batch[pos].id} else {})
  {
    db.Others(Publisher(p), others);
    SendStep(db.state.store.db.outbox, db.state.channel, p, batch, pos);
    at := |db.state.channel.sent|;
    db.Do(Deliver(D.Send(p)));
    db.Others(Publisher(p), others');
    MarkStep(db.state.store.db.outbox, db.state.channel, p, batch, pos, stored);
    db.Do(Deliver(D.Mark(p, stored)));
  }

  function EventsOf(rows: seq<W.OutboxRow>): (r: seq<Event>)
    ensures |r| == |rows|
    ensures forall i :: 0 <= i < |rows| ==> r[i] == rows[i].event
  {
    if rows == [] then [] else EventsOf(rows[..|rows| - 1]) + [rows[|rows| - 1].event]
  }

  lemma EventsAppend(a: seq<W.OutboxRow>, b: seq<W.OutboxRow>)
    ensures EventsOf(a + b) == EventsOf(a) + EventsOf(b)
  {
  }

  /** The rows before `n` were sent by this batch, one after the other, at the positions `at`. */
  ghost predicate SentInOrder(before: seq<Event>, sent: seq<Event>, batch: seq<W.OutboxRow>, n: nat, at: seq<nat>) {
    && n <= |batch| && |at| == n
    && (forall i :: 0 <= i < n ==> |before| <= at[i] < |sent| && sent[at[i]] == batch[i].event)
    && (forall i, j :: 0 <= i < j < n ==> at[i] < at[j])
  }

  ghost predicate Marked(published: set<int>, batch: seq<W.OutboxRow>, n: nat, lost: set<nat>) {
    n <= |batch| && forall i :: 0 <= i < n && i !in lost ==> batch[i].id in published
  }

  /** The ids of the first `n` rows whose mark was stored. */
  function StoredIds(batch: seq<W.OutboxRow>, n: nat, lost: set<nat>): set<int>
    requires n <= |batch|
  {
    set i | 0 <= i < n && i !in lost :: batch[i].id
  }

  lemma AllStored(batch: seq<W.OutboxRow>)
    ensures StoredIds(batch, |batch|, {}) == Ids(batch)
  {
    forall r | r in batch ensures r.id in StoredIds(batch, |batch|, {}) {
      var i :| 0 <= i < |batch| && batch[i] == r;
      assert batch[i].id in StoredIds(batch, |batch|, {});
    }
  }

  /** How far a batch that started in channel `c` has come in channel `c'`; `alone` when nobody else is
      at work. */
  ghost predicate Progress(c: D.Channel, c': D.Channel, batch: seq<W.OutboxRow>, n: nat, at: seq<nat>, lost: set<nat>,
                           alone: bool) {
    && c.sent <= c'.sent && c.published <= c'.published
    && SentInOrder(c.sent, c'.sent, batch, n, at)
    && Marked(c'.published, batch, n, lost)
    && (alone ==>
          && c'.sent == c.sent + EventsOf(batch[..n])
          && c'.published == c.published + StoredIds(batch, n, lost))
  }

  lemma ProgressStep(c: D.Channel, c1: D.Channel, c2: D.Channel, batch: seq<W.OutboxRow>, n: nat, at: seq<nat>,
                     there: nat, lost: set<nat>, alone: bool)
    requires Progress(c, c1, batch, n, at, lost, alone) && n < |batch|
    requires c1.sent <= c2.sent && c1.published <= c2.published
    requires |c1.sent| <= there < |c2.sent| && c2.sent[there] == batch[n].event
    requires n !in lost ==> batch[n].id in c2.published
    requires alone ==> c2.sent == c1.sent + [batch[n].event]
                       && c2.published == c1.published + (if n !in lost then {batch[n].id} else {})
    ensures Progress(c, c2, batch, n + 1, at + [there], lost, alone)
  {
    OneMore(batch, n, lost);
    SetsRegroup(c.published, StoredIds(batch, n, lost), if n in lost then {} else {batch[n].id});
    SentOneMore(c.sent, c1.sent, c2.sent, batch, n, at, there);
    MarkedOneMore(c1.published, c2.published, batch, n, lost);
  }

  lemma MarkedOneMore(published: set<int>, published': set<int>, batch: seq<W.OutboxRow>, n: nat, lost: set<nat>)
    requires Marked(published, batch, n, lost) && n < |batch| && published <= published'
    requires n !in lost ==> batch[n].id in published'
    ensures Marked(published', batch, n + 1, lost)
  {
  }

  lemma SentOneMore(before: seq<Event>, sent: seq<Event>, sent': seq<Event>, batch: seq<W.OutboxRow>, n: nat,
                    at: seq<nat>, there: nat)
    requires SentInOrder(before, sent, batch, n, at) && n < |batch| && before <= sent <= sent'
    requires |sent| <= there < |sent'| && sent'[there] == batch[n].event
    ensures SentInOrder(before, sent', batch, n + 1, at + [there])
  {
  }

  lemma SetsRegroup(a: set<int>, b: set<int>, c: set<int>)
    ensures a + (b + c) == (a + b) + c
  {
  }

  lemma OneMore(batch: seq<W.OutboxRow>, n: nat, lost: set<nat>)
    requires n < |batch|
    ensures EventsOf(batch[..n + 1]) == EventsOf(batch[..n]) + [batch[n].event]
    ensures StoredIds(batch, n + 1, lost) == StoredIds(batch, n, lost) + if n in lost then {} else {batch[n].id}
  {
    assert batch[..n + 1] == batch[..n] + [batch[n]];
  }

  /** A batch under way: it began in state `s`. */
  ghost predicate UnderWay(s: State, s': State, p: nat, batch: seq<W.OutboxRow>, n: nat, at: seq<nat>, lost: set<nat>,
                           alone: bool) {
    && n <= |batch| && Holds(s', p, batch, n) && Extends(s, s')
    && Progress(s.channel, s'.channel, batch, n, at, lost, alone)
    && (alone ==> s'.store == s.store && s'.channel.publishers - {p} == s.channel.publishers)
  }

  method Turn(db: Connection, ghost before: State, p: nat, batch: seq<W.OutboxRow>, n: nat, env: Schedule<Action>,
              lost: set<nat>, ghost at: seq<nat>)
    returns (ghost at': seq<nat>)
    requires db.Valid() && UnderWay(before, db.state, p, batch, n, at, lost, env == []) && n < |batch|
    modifies db
    ensures db.Valid() && UnderWay(before, db.state, p, batch, n + 1, at', lost, env == [])
    ensures IsTurn(db.period, old(db.state), db.state, p, env, lost, n)
  {
    ghost var c := db.state.channel;
    ghost var there := SendAndMark(db, p, batch, n, Gap(env, 2 * n), Gap(env, 2 * n + 1), n !in lost);
    ProgressStep(before.channel, c, db.state.channel, batch, n, at, there, lost, env == []);
    at' := at + [there];
  }

  /** The loop over the rows. */
  method SendRows(db: Connection, ghost before: State, p: nat, rows: seq<W.OutboxRow>, env: Schedule<Action>,
                  failAt: Option<nat>, lost: set<nat>)
    returns (n: nat, ghost at: seq<nat>, ghost states: seq<State>)
    requires db.Valid() && UnderWay(before, db.state, p, rows, 0, [], lost, env == [])
    modifies db
    ensures n == if failAt.Some? && failAt.value < |rows| then failAt.value else |rows|
    ensures db.Valid() && UnderWay(before, db.state, p, rows, n, at, lost, env == [])
    ensures |states| == n + 1 && states[0] == old(db.state) && states[n] == db.state
    ensures TurnByTurn(db.period, states, p, env, lost)
  {
    at, n, states := [], 0, [db.state];
    while n < |rows| && failAt != Some(n)
      invariant db.Valid() && UnderWay(before, db.state, p, rows, n, at, lost, env == [])
      invariant failAt.Some? && failAt.value < |rows| ==> n <= failAt.value
      invariant |states| == n + 1 && states[0] == old(db.state) && states[n] == db.state
      invariant TurnByTurn(db.period, states, p, env, lost)
    {
      at := Turn(db, before, p, rows, n, env, lost, at);
      OneMoreTurn(db.period, states, db.state, p, env, lost);
      states := states + [db.state];
      n := n + 1;
    }
  }

  /** `publishBatch`: the send fails at row `failAt` if there is such a row, which ends the batch; the
      marks of the rows in `lost` are not stored. Nothing happens but the query, the turns up to there, the
      end, and what others do in the gaps. */
  method PublishBatch(db: Connection, p: nat, env: Schedule<Action>, failAt: Option<nat>, lost: set<nat>)
    returns (n: nat, ghost batch: seq<W.OutboxRow>, ghost at: seq<nat>, ghost states: seq<State>)
    requires db.Valid() && p !in db.state.channel.publishers
    modifies db
    ensures db.Valid() && Extends(old(db.state), db.state)
    ensures p !in db.state.channel.publishers
    ensures batch == D.Batch(old(db.state).store.db.outbox, old(db.state).channel.published)
    ensures |batch| == var rows := |D.Unpublished(old(db.state).store.db.outbox, old(db.state).channel.published)|;
                       if rows < 100 then rows else 100
    ensures n == if failAt.Some? && failAt.value < |batch| then failAt.value else |batch|
    ensures |states| == n + 1 && TurnByTurn(db.period, states, p, env, lost)
    ensures states[0] == Next(db.period, old(db.state), Deliver(D.Query(p)))
    ensures db.state == Next(db.period, states[n], Deliver(D.Stop(p)))
    ensures Progress(old(db.state).channel, db.state.channel, batch, n, at, lost, env == [])
    ensures env == [] ==> db.state.store == old(db.state).store
                          && db.state.channel.publishers == old(db.state).channel.publishers
  {
    ghost var before := db.state;
    QueryStep(db.period, before, p, lost, env == []);
    D.BatchSize(before.store.db.outbox, before.channel.published);
    db.Do(Deliver(D.Query(p)));
    batch := db.state.channel.publishers[p].batch;
    n, at, states := SendRows(db, before, p, db.state.channel.publishers[p].batch, env, failAt, lost);
    StopStep(db.period, before, db.state, p, batch, n, at, lost, env == []);
    db.Do(Deliver(D.Stop(p)));
  }

  lemma QueryStep(period: int, s: State, p: nat, lost: set<nat>, alone: bool)
    requires p !in s.channel.publishers
    ensures var batch := D.Batch(s.store.db.outbox, s.channel.published);
            UnderWay(s, Next(period, s, Deliver(D.Query(p))), p, batch, 0, [], lost, alone)
  {
    var s' := Next(period, s, Deliver(D.Query(p)));
    StartProgress(s.channel, s'.channel, D.Batch(s.store.db.outbox, s.channel.published), lost, alone);
  }

  lemma StopStep(period: int, s: State, s': State, p: nat, batch: seq<W.OutboxRow>, n: nat, at: seq<nat>,
                 lost: set<nat>, alone: bool)
    requires p !in s.channel.publishers && UnderWay(s, s', p, batch, n, at, lost, alone)
    ensures var s2 := Next(period, s', Deliver(D.Stop(p)));
            && Extends(s, s2) && Progress(s.channel, s2.channel, batch, n, at, lost, alone)
            && p !in s2.channel.publishers
            && (alone ==> s2.store == s.store && s2.channel.publishers == s.channel.publishers)
  {
  }

  lemma StartProgress(c: D.Channel, c': D.Channel, batch: seq<W.OutboxRow>, lost: set<nat>, alone: bool)
    requires c'.sent == c.sent && c'.published == c.published
    ensures Progress(c, c', batch, 0, [], lost, alone)
  {
    assert batch[..0] == [] && StoredIds(batch, 0, lost) == {};
  }

  /** A batch is sent and marked. */
  ghost predicate Tick(outbox: seq<W.OutboxRow>, c: D.Channel, c': D.Channel) {
    var batch := D.Batch(outbox, c.published);
    c'.sent == c.sent + EventsOf(batch) && c'.published == c.published + Ids(batch)
  }

  /** The channel before and after each tick. */
  ghost predicate Ticks(outbox: seq<W.OutboxRow>, cs: seq<D.Channel>) {
    forall i :: 0 <= i < |cs| - 1 ==> Tick(outbox, cs[i], cs[i + 1])
  }

  lemma OneMoreTick(outbox: seq<W.OutboxRow>, cs: seq<D.Channel>, c: D.Channel)
    requires cs != [] && Ticks(outbox, cs) && Tick(outbox, cs[|cs| - 1], c)
    ensures Ticks(outbox, cs + [c])
  {
  }

  lemma {:induction false} TicksDrain(outbox: seq<W.OutboxRow>, cs: seq<D.Channel>)
    requires cs != [] && Ticks(outbox, cs)
    ensures var n, c, c' := |cs| - 1, cs[0], cs[|cs| - 1];
            && c'.sent == c.sent + EventsOf(DeliveryOnce.Drain(outbox, c.published, n))
            && c'.published == PublishedAfter(outbox, c.published, n)
    decreases |cs|
  {
    if |cs| > 1 {
      assert Tick(outbox, cs[0], cs[1]) && cs[1..][|cs| - 2] == cs[|cs| - 1];
      forall i | 0 <= i < |cs[1..]| - 1 ensures Tick(outbox, cs[1..][i], cs[1..][i + 1]) {
        assert Tick(outbox, cs[i + 1], cs[i + 2]);
      }
      TicksDrain(outbox, cs[1..]);
      TickFirst(outbox, cs[0], cs[1], cs[|cs| - 1], |cs| - 1);
    }
  }

  lemma TickFirst(outbox: seq<W.OutboxRow>, c: D.Channel, c1: D.Channel, c': D.Channel, n: nat)
    requires n > 0 && Tick(outbox, c, c1)
    requires c'.sent == c1.sent + EventsOf(DeliveryOnce.Drain(outbox, c1.published, n - 1))
    requires c'.published == PublishedAfter(outbox, c1.published, n - 1)
    ensures c'.sent == c.sent + EventsOf(DeliveryOnce.Drain(outbox, c.published, n))
    ensures c'.published == PublishedAfter(outbox, c.published, n)
  {
    var batch, rest := D.Batch(outbox, c.published), DeliveryOnce.Drain(outbox, c1.published, n - 1);
    assert DeliveryOnce.Drain(outbox, c.published, n) == batch + rest;
    EventsAppend(batch, rest);
    Regroup(c.sent, EventsOf(batch), EventsOf(rest));
  }

  /** A tick without failures, with nobody else at work. */
  method WholeBatch(db: Connection, p: nat)
    requires db.Valid() && p !in db.state.channel.publishers
    modifies db
    ensures db.Valid() && p !in db.state.channel.publishers && db.state.store == old(db.state).store
    ensures Tick(old(db.state).store.db.outbox, old(db.state).channel, db.state.channel)
  {
    var n, batch, at, states := PublishBatch(db, p, [], None, {});
    assert batch[..n] == batch;
    AllStored(batch);
  }

  /** One publisher on its own, over `rounds` ticks without failures: it sends the unpublished rows in id
      order, a hundred at a time, each once, and nothing is left exactly when `rounds` is at least a
      hundredth of the backlog, rounded up. */
  method Drain(db: Connection, p: nat, rounds: nat)
    requires db.Valid() && p !in db.state.channel.publishers
    modifies db
    ensures db.Valid() && db.state.store == old(db.state).store
    ensures var outbox := old(db.state).store.db.outbox;
            var backlog := Sorting.Sort(D.ById, D.Unpublished(outbox, old(db.state).channel.published));
            && db.state.channel.sent == old(db.state).channel.sent + EventsOf(D.Take(backlog, D.BATCH_LIMIT * rounds))
            && (D.Unpublished(outbox, db.state.channel.published) == [] <==> rounds >= Rounds(D.BATCH_LIMIT, |backlog|))
  {
    ghost var before, cs := db.state, [db.state.channel];
    for i := 0 to rounds
      invariant db.Valid() && p !in db.state.channel.publishers && db.state.store == before.store
      invariant |cs| == i + 1 && cs[0] == before.channel && cs[i] == db.state.channel
      invariant Ticks(before.store.db.outbox, cs)
    {
      WholeBatch(db, p);
      OneMoreTick(before.store.db.outbox, cs, db.state.channel);
      cs := cs + [db.state.channel];
    }
    DrainFacts(db.period, before, cs);
  }

  lemma Regroup(a: seq<Event>, b: seq<Event>, c: seq<Event>)
    ensures a + (b + c) == (a + b) + c
  {
  }

  lemma DrainFacts(period: int, s: State, cs: seq<D.Channel>)
    requires Reachable(period, s) && cs != [] && cs[0] == s.channel && Ticks(s.store.db.outbox, cs)
    ensures var outbox, published, rounds, c' := s.store.db.outbox, s.channel.published, |cs| - 1, cs[|cs| - 1];
            var backlog := Sorting.Sort(D.ById, D.Unpublished(outbox, published));
            && c'.sent == s.channel.sent + EventsOf(D.Take(backlog, D.BATCH_LIMIT * rounds))
            && (D.Unpublished(outbox, c'.published) == [] <==> rounds >= Rounds(D.BATCH_LIMIT, |backlog|))
  {
    ReachableInv(period, s);
    TicksDrain(s.store.db.outbox, cs);
    DrainsInOrder(s.store.db.outbox, s.channel.published, |cs| - 1);
  }
}
