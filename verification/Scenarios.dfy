/** Runs built command by command, for the theorems that exhibit one. */
module Scenarios {
  import opened Domain
  import opened EventLog
  import opened Aggregates
  import opened ReplayEngine
  import opened System
  import C = CommandTheorems
  import W = Writers
  import R = Readers

  /** No command holds a pending row. */
  ghost predicate Idle(w: W.Store) {
    forall t :: t in w.txs ==> !w.txs[t].phase.Pending()
  }

  /** The statements of a command after it has begun. */
  function Rest(t: nat): seq<Action> {
    [] + [Write(W.ReadVersion(t))] + [Write(W.Check(t))] + [Write(W.Insert(t))]
    + [Write(W.WriteOutbox(t))] + [Write(W.Project(t))] + [Write(W.Commit(t, true))]
  }

  function AfterInsert(w: W.Store, t: nat): W.Store {
    W.Next(W.Next(W.Next(w, W.ReadVersion(t)), W.Check(t)), W.Insert(t))
  }

  function AfterRest(w: W.Store, t: nat): W.Store {
    W.Next(W.Next(W.Next(AfterInsert(w, t), W.WriteOutbox(t)), W.Project(t)), W.Commit(t, true))
  }

  lemma RunStep(period: int, s: State, actions: seq<Action>, x: W.Action)
    ensures Run(period, s, actions + [Write(x)]) ==
            Run(period, s, actions).(store := W.Next(Run(period, s, actions).store, x))
  {
    assert (actions + [Write(x)])[..|actions|] == actions;
  }

  lemma RestRuns(period: int, s: State, t: nat)
    ensures Run(period, s, Rest(t)) == s.(store := AfterRest(s.store, t))
  {
    var p1 := [] + [Write(W.ReadVersion(t))];
    var p2 := p1 + [Write(W.Check(t))];
    var p3 := p2 + [Write(W.Insert(t))];
    var p4 := p3 + [Write(W.WriteOutbox(t))];
    var p5 := p4 + [Write(W.Project(t))];
    RunStep(period, s, [], W.ReadVersion(t));
    RunStep(period, s, p1, W.Check(t));
    RunStep(period, s, p2, W.Insert(t));
    RunStep(period, s, p3, W.WriteOutbox(t));
    RunStep(period, s, p4, W.Project(t));
    RunStep(period, s, p5, W.Commit(t, true));
  }

  /** A begun command that meets no other and whose guards hold. */
  ghost predicate Ready(w: W.Store, t: nat) {
    && WellNumbered(w.db.events) && Idle(w) && t in w.txs && w.txs[t].phase.Begun?
    && W.Guard(w.txs[t].request, |Of(w.db.events, w.txs[t].request.key)|) == None
    && Decodes(w.txs[t].request.key.aggregateType, w.txs[t].request.payload)
  }

  lemma ReadyInserts(w: W.Store, t: nat)
    requires Ready(w, t)
    ensures var tx := w.txs[t];
            var version := |Of(w.db.events, tx.request.key)| + 1;
            var e := Event(w.nextEventId, tx.request.key, version, tx.request.payload, tx.start);
            AfterInsert(w, t)
            == W.Store(w.db, w.nextEventId + 1, w.nextOutboxId, w.clock, w.txs[t := tx.(phase := W.Inserted(e))])
  {
    var tx := w.txs[t];
    var k := tx.request.key;
    var log := Of(w.db.events, k);
    assert Numbered(log);
    LatestVersionIsLength(w.db.events, k);
    var w2 := W.Next(w, W.ReadVersion(t));
    assert w2 == w.(txs := w.txs[t := tx.(phase := W.VersionRead(|log|, |w.db.events|))]);
    var w3 := W.Next(w2, W.Check(t));
    assert w3 == w.(nextEventId := w.nextEventId + 1,
                    txs := w.txs[t := tx.(phase := W.Inserting(|log|, |w.db.events|, w.nextEventId))]);
    assert !W.Taken(w.db.events, k, |log| + 1) by {
      forall i | 0 <= i < |w.db.events| && w.db.events[i].key == k ensures w.db.events[i].version <= |log| {
        CommittedVersion(w.db.events, w.db.events[i]);
      }
    }
    assert !W.Blocked(w3.txs, t, k, |log| + 1);
    var e := Event(w.nextEventId, k, |log| + 1, tx.request.payload, tx.start);
    assert W.Next(w3, W.Insert(t)).txs == w.txs[t := tx.(phase := W.Inserted(e))];
  }

  lemma InsertedCommits(w4: W.Store, t: nat)
    requires t in w4.txs && w4.txs[t].phase.Inserted? && w4.txs[t].phase.event.key == w4.txs[t].request.key
    requires Decodes(w4.txs[t].request.key.aggregateType, w4.txs[t].phase.event.payload)
    ensures var e := w4.txs[t].phase.event;
            var w5 := W.Next(w4, W.WriteOutbox(t));
            var w6 := W.Next(w5, W.Project(t));
            var w7 := W.Next(w6, W.Commit(t, true));
            && w7.db.events == w4.db.events + [e] && w7.clock == w4.clock
            && w7.txs == w4.txs[t := w4.txs[t].(phase := W.Committed(e, |w4.db.events|))]
  {
    var tx, e := w4.txs[t], w4.txs[t].phase.event;
    var w5 := W.Next(w4, W.WriteOutbox(t));
    assert w5.txs[t] == tx.(phase := W.Outboxed(e, w4.nextOutboxId)) && w5.db == w4.db;
    ApplyStamps(New(tx.request.key), e);
    NewHasType(tx.request.key);
    var w6 := W.Next(w5, W.Project(t));
    assert w6.txs[t].phase.Projected? && w6.txs[t].phase.event == e && w6.db == w4.db;
    var w7 := W.Next(w6, W.Commit(t, true));
    assert w7.txs == w4.txs[t := tx.(phase := W.Committed(e, |w4.db.events|))];
  }

  /** What a command that ran undisturbed did: it committed the next version of its aggregate, dated by
      the moment it began, and left every other command alone. */
  ghost predicate Appended(s: State, s': State, t: nat, start: int, req: W.Request) {
    && s'.view == s.view && s'.channel == s.channel && Idle(s'.store) && s'.store.clock == s.store.clock
    && s'.store.txs.Keys == s.store.txs.Keys + {t} && |s'.store.db.events| == |s.store.db.events| + 1
    && (forall u :: u in s.store.txs && u != t ==> s'.store.txs[u] == s.store.txs[u])
    && (var log, log' := Of(s.store.db.events, req.key), Of(s'.store.db.events, req.key);
        && |log'| == |log| + 1 && log'[..|log|] == log
        && log'[|log|].payload == req.payload && log'[|log|].createdAt == start
        && s'.store.txs[t].phase.Committed? && s'.store.txs[t].request == req
        && s'.store.txs[t].phase.event.version == |log'|)
  }

  lemma RestAppends(period: int, s: State, t: nat)
    requires Ready(s.store, t)
    ensures Appended(s, Run(period, s, Rest(t)), t, s.store.txs[t].start, s.store.txs[t].request)
  {
    var w := s.store;
    RestRuns(period, s, t);
    ReadyInserts(w, t);
    InsertedCommits(AfterInsert(w, t), t);
    OfAppend(w.db.events, AfterInsert(w, t).txs[t].phase.event, w.txs[t].request.key);
  }

  /** One command run on its own. */
  function Alone(t: nat, req: W.Request): seq<Action> {
    [Write(W.Begin(t, req))] + Rest(t)
  }

  lemma AloneAppends(period: int, s: State, t: nat, req: W.Request)
    requires WellNumbered(s.store.db.events) && Idle(s.store) && t !in s.store.txs && W.WellFormed(req)
    requires W.Guard(req, |Of(s.store.db.events, req.key)|) == None
    requires Decodes(req.key.aggregateType, req.payload)
    ensures Appended(s, Run(period, s, Alone(t, req)), t, s.store.clock, req)
  {
    var first := [Write(W.Begin(t, req))];
    var s1 := s.(store := s.store.(txs := s.store.txs[t := W.Tx(req, s.store.clock, W.Begun)]));
    RunStep(period, s, [], W.Begin(t, req));
    assert [] + first == first && Run(period, s, first) == s1;
    RunSplit(period, s, first, Rest(t));
    RestAppends(period, s1, t);
    BegunAppends(s, s1, Run(period, s1, Rest(t)), t, req);
  }

  lemma BegunAppends(s: State, s1: State, s2: State, t: nat, req: W.Request)
    requires t !in s.store.txs
    requires s1 == s.(store := s.store.(txs := s.store.txs[t := W.Tx(req, s.store.clock, W.Begun)]))
    requires Appended(s1, s2, t, s.store.clock, req)
    ensures Appended(s, s2, t, s.store.clock, req)
  {
    assert s1.store.txs.Keys == s.store.txs.Keys + {t};
  }

  // ---------- Commands on one user ----------

  const CREATE := UserCreated("a", "m")
  const RENAME := UserUpdated(Some("b"), None, None, None)
  const MOVE := UserUpdated(None, None, Some("c"), None)

  lemma CreateFirst(period: int, k: Key)
    requires k.aggregateType == UserType
    ensures var s := Reach(period, Alone(0, W.Request(k, None, CREATE, true)));
            && s.view == INIT.view && s.channel == INIT.channel
            && Idle(s.store) && s.store.clock == 0 && s.store.txs.Keys == {0}
            && |s.store.db.events| == 1
            && Created(Of(s.store.db.events, k))
  {
    InitInv(period);
    AloneAppends(period, INIT, 0, W.Request(k, None, CREATE, true));
    CreatedAlone(Run(period, INIT, Alone(0, W.Request(k, None, CREATE, true))), k);
  }

  lemma CreatedAlone(s: State, k: Key)
    requires Appended(INIT, s, 0, 0, W.Request(k, None, CREATE, true))
    ensures Created(Of(s.store.db.events, k)) && s.store.txs.Keys == {0} && |s.store.db.events| == 1
  {
  }

  ghost predicate Created(log: seq<Event>) {
    |log| == 1 && log[0].createdAt == 0 && log[0].payload == CREATE
  }

  lemma CreateThenTick(period: int, k: Key) returns (actions: seq<Action>)
    requires k.aggregateType == UserType
    ensures var s := Reach(period, actions);
            && s.view == R.EMPTY && Idle(s.store) && 1 !in s.store.txs && s.store.clock == 10
            && Created(Of(s.store.db.events, k))
  {
    var first := Alone(0, W.Request(k, None, CREATE, true));
    CreateFirst(period, k);
    RunStep(period, INIT, first, W.Tick(10));
    actions := first + [Write(W.Tick(10))];
  }

  /** A user created at time 0 and renamed at time 10; nobody has replayed it. */
  ghost predicate Renamed(s: State, k: Key) {
    && s.view == R.EMPTY
    && var log := Of(s.store.db.events, k);
       && |log| == 2 && Created(log[..1]) && log[1].createdAt == 10 && log[1].payload == RENAME
  }

  lemma RenameLater(period: int, k: Key) returns (actions: seq<Action>)
    requires k.aggregateType == UserType
    ensures Renamed(Reach(period, actions), k)
  {
    var rename := W.Request(k, None, RENAME, false);
    var before := CreateThenTick(period, k);
    C.ReachNumbered(period, before);
    AloneAppends(period, Reach(period, before), 1, rename);
    RunSplit(period, INIT, before, Alone(1, rename));
    actions := before + Alone(1, rename);
  }

  /** Renaming a user blanks the email of the row, which the fold keeps. */
  lemma RowCanForget(period: int, id: string) returns (actions: seq<Action>)
    ensures var db, k := Reach(period, actions).store.db, Key(UserType, id);
            var full := Fold(New(k), Of(db.events, k));
            && k in db.rows && db.rows[k].UserRow? && db.rows[k].name == "b" && db.rows[k].email == ""
            && full.Ok? && full.value.AUser? && full.value.user.name == "b" && full.value.user.email == "m"
  {
    var k := Key(UserType, id);
    actions := RenameLater(period, k);
    var log := Of(Reach(period, actions).store.db.events, k);
    C.RowsTrackHistories(period, actions, k);
    assert log[..1][0] == log[0];
    TwoFold(k, log);
  }

  lemma TwoFold(k: Key, log: seq<Event>)
    requires k.aggregateType == UserType && |log| == 2 && log[0].payload == CREATE && log[1].payload == RENAME
    ensures var all := Fold(New(k), log);
            all.Ok? && all.value.AUser? && all.value.user.name == "b" && all.value.user.email == "m"
  {
    assert log == [] + [log[0]] + [log[1]];
    FoldStep(New(k), [], log[0]);
    FoldStep(New(k), [] + [log[0]], log[1]);
  }

  // ---------- Replays ----------

  lemma ReadStep(period: int, s: State, actions: seq<Action>, x: R.Act)
    ensures var s1 := Run(period, s, actions);
            Run(period, s, actions + [Read(x)]) == s1.(view := R.NextAct(period, s1.store, s1.view, x))
  {
    assert (actions + [Read(x)])[..|actions|] == actions;
  }

  /** A replay by process 0, which then does `last` with the result. */
  function ReplayThen(k: Key, q: Query, last: R.Act): seq<Action> {
    [] + [Read(R.StartReplay(0, k, q))] + [Read(R.Load(0))] + [Read(last)]
  }

  /** The view in which process 0 has loaded its events and nothing is saved or cached. */
  function LoadedView(events: seq<Event>, k: Key, q: Query): R.View {
    R.View([], map[], map[0 := R.Loaded(k, q, None, |events|, Replay(None, events, k, q))])
  }

  lemma ReplayRuns(period: int, s: State, k: Key, q: Query, last: R.Act)
    requires s.view == R.EMPTY
    ensures Run(period, s, ReplayThen(k, q, last)) ==
            s.(view := R.NextAct(period, s.store, LoadedView(s.store.db.events, k, q), last))
  {
    var a := [] + [Read(R.StartReplay(0, k, q))];
    var b := a + [Read(R.Load(0))];
    ReadStep(period, s, [], R.StartReplay(0, k, q));
    ReadStep(period, s, a, R.Load(0));
    ReadStep(period, s, b, last);
    var v1 := R.NextAct(period, s.store, R.EMPTY, R.StartReplay(0, k, q));
    assert 0 in v1.processes && v1.processes[0] == R.Snapped(k, q, None);
    assert R.NextAct(period, s.store, v1, R.Load(0)) == LoadedView(s.store.db.events, k, q);
  }

  /** A cached replay that misses. */
  lemma FillRuns(period: int, s: State, k: Key, q: Query)
    requires s.view == R.EMPTY && k.aggregateType == UserType
    requires Replay(None, s.store.db.events, k, q).Ok? && Replay(None, s.store.db.events, k, q).value.AUser?
    ensures var s' := Run(period, s, ReplayThen(k, q, R.FillCache(0)));
            && s'.store == s.store && s'.view.snapshots == []
            && R.CacheHit(s'.view, k.id, q) == Some(Replay(None, s.store.db.events, k, q).value.user)
  {
    ReplayRuns(period, s, k, q, R.FillCache(0));
    R.U.RoundTrip(Replay(None, s.store.db.events, k, q).value.user, R.U.New(""));
  }

  /** The builder's turn at one aggregate. */
  lemma BuildRuns(period: int, s: State, k: Key)
    requires s.view == R.EMPTY && Replay(None, s.store.db.events, k, CURRENT).Ok?
    ensures var s' := Run(period, s, ReplayThen(k, CURRENT, R.SaveSnapshot(0)));
            && s'.store == s.store
            && s'.view.snapshots == [R.RowOf(k, Replay(None, s.store.db.events, k, CURRENT).value)]
  {
    ReplayRuns(period, s, k, CURRENT, R.SaveSnapshot(0));
  }

  // ---------- Creation times ----------

  /** Command 0 has created the user at time 0, and command 1 has begun at time 0; it is now 10. */
  ghost predicate OneBegan(s: State, k: Key) {
    && s.view == R.EMPTY && Idle(s.store) && s.store.clock == 10 && s.store.txs.Keys == {0, 1}
    && s.store.txs[1] == W.Tx(W.Request(k, None, RENAME, false), 0, W.Begun)
    && Created(Of(s.store.db.events, k))
  }

  lemma BeginThenTick(w: W.Store, t: nat, req: W.Request, d: nat)
    requires t !in w.txs && W.WellFormed(req)
    ensures W.Next(W.Next(w, W.Begin(t, req)), W.Tick(d)) ==
            w.(clock := w.clock + d, txs := w.txs[t := W.Tx(req, w.clock, W.Begun)])
  {
  }

  lemma BeginEarly(period: int, k: Key) returns (actions: seq<Action>)
    requires k.aggregateType == UserType
    ensures OneBegan(Reach(period, actions), k)
  {
    var first := Alone(0, W.Request(k, None, CREATE, true));
    CreateFirst(period, k);
    actions := BeginAfter(period, first, k);
  }

  lemma BeginAfter(period: int, first: seq<Action>, k: Key) returns (actions: seq<Action>)
    requires var s := Reach(period, first);
             && s.view == R.EMPTY && Idle(s.store) && s.store.clock == 0 && s.store.txs.Keys == {0}
             && Created(Of(s.store.db.events, k))
    requires k.aggregateType == UserType
    ensures OneBegan(Reach(period, actions), k)
  {
    var rename := W.Request(k, None, RENAME, false);
    var second := first + [Write(W.Begin(1, rename))];
    RunStep(period, INIT, first, W.Begin(1, rename));
    RunStep(period, INIT, second, W.Tick(10));
    BeginThenTick(Reach(period, first).store, 1, rename, 10);
    actions := second + [Write(W.Tick(10))];
  }

  /** Command 2 runs before command 1 reads the version. */
  lemma OvertakeAppends(period: int, s: State, k: Key)
    requires k.aggregateType == UserType && WellNumbered(s.store.db.events) && OneBegan(s, k)
    ensures var s' := Run(period, s, Alone(2, W.Request(k, None, MOVE, false)));
            && Appended(s, s', 2, 10, W.Request(k, None, MOVE, false))
            && s'.store.txs[1] == s.store.txs[1]
  {
    AloneAppends(period, s, 2, W.Request(k, None, MOVE, false));
  }

  /** A user created at time 0, moved at time 10 and then renamed as of time 0. */
  ghost predicate Overtaken(s: State, k: Key) {
    && s.view == R.EMPTY
    && var log := Of(s.store.db.events, k);
       && |log| == 3 && Created(log[..1])
       && log[1].createdAt == 10 && log[1].payload == MOVE
       && log[2].createdAt == 0 && log[2].payload == RENAME
  }

  /** Creation times are transaction start times: a command that begins early and reads late appends an
      event dated before the one below it. Loads bounded by time are then no prefix of the history. */
  lemma TimesMayDecrease(period: int, id: string) returns (actions: seq<Action>)
    ensures Overtaken(Reach(period, actions), Key(UserType, id))
    ensures var events, k := Reach(period, actions).store.db.events, Key(UserType, id);
            && !TimesIncrease(Of(events, k))
            && LoadUntil(events, k, Query(Some(0), None, None)) == [Of(events, k)[0], Of(events, k)[2]]
  {
    var k := Key(UserType, id);
    actions := Overtake(period, k);
    C.ReachNumbered(period, actions);
    var events, q := Reach(period, actions).store.db.events, Query(Some(0), None, None);
    var log := Of(events, k);
    assert Numbered(log);
    LoadIsMatching(events, k, q);
    assert log[0] == log[..1][0];
    MiddleLeftOut(q, log);
  }

  lemma Overtake(period: int, k: Key) returns (actions: seq<Action>)
    requires k.aggregateType == UserType
    ensures Overtaken(Reach(period, actions), k)
  {
    var move := W.Request(k, None, MOVE, false);
    var early := BeginEarly(period, k);
    C.ReachNumbered(period, early);
    OvertakeAppends(period, Reach(period, early), k);
    RunSplit(period, INIT, early, Alone(2, move));
    var late := early + Alone(2, move);
    C.ReachNumbered(period, late);
    RestAppends(period, Reach(period, late), 1);
    RunSplit(period, INIT, late, Rest(1));
    actions := late + Rest(1);
    ThreeEvents(Of(Reach(period, early).store.db.events, k), Of(Reach(period, late).store.db.events, k),
                Of(Reach(period, actions).store.db.events, k));
  }

  lemma ThreeEvents(one: seq<Event>, two: seq<Event>, three: seq<Event>)
    requires |one| == 1 && |two| == 2 && |three| == 3 && two[..1] == one && three[..2] == two
    ensures three[..1] == one && three[1] == two[1]
  {
    assert three[..2][..1] == three[..1] && three[..2][1] == three[1];
  }

  lemma MiddleLeftOut(q: Query, log: seq<Event>)
    requires |log| == 3 && Matches(q, log[0]) && !Matches(q, log[1]) && Matches(q, log[2])
    ensures Matching(q, log) == [log[0], log[2]]
  {
    var a, b, c := [log[0]], [log[1]], [log[2]];
    assert log == (a + b) + c;
    MatchingSplit(q, a + b, c);
    MatchingSplit(q, a, b);
    MatchingAll(q, a);
    MatchingNone(q, b);
    MatchingAll(q, c);
  }

  lemma FirstOnly(q: Query, log: seq<Event>)
    requires |log| >= 2 && Matches(q, log[0])
    requires forall i :: 1 <= i < |log| ==> !Matches(q, log[i])
    ensures Matching(q, log) == log[..1]
  {
    assert log == log[..1] + log[1..];
    MatchingSplit(q, log[..1], log[1..]);
    MatchingAll(q, log[..1]);
    MatchingNone(q, log[1..]);
  }
}
