/** internal/worker/outbox.go, `buildSnapshots` and `snapshotOne`, as programs. */
module SnapshotBuilding {
  import opened Domain
  import opened EventLog
  import opened Aggregates
  import opened ReplayEngine
  import opened Database
  import opened System
  import opened Replaying
  import opened CachedReplay
  import W = Writers
  import R = Readers
  import D = Delivery
  import opened Sequences
  import opened Batches

  const AGGREGATES_PER_TYPE: nat := 20

  /** Some snapshot of the aggregate is at version `v` or beyond. */
  predicate Covered(saved: set<(Key, int)>, k: Key, v: int) {
    exists s :: s in saved && s.0 == k && s.1 >= v
  }

  /** The aggregates of a type that have no snapshot at their latest version, each once. */
  function Stale(events: seq<Event>, all: seq<Event>, saved: set<(Key, int)>, t: AggregateType): seq<string> {
    if events == [] then []
    else
      var rest, k := Stale(events[..|events| - 1], all, saved, t), events[|events| - 1].key;
      if k.aggregateType == t && k.id !in rest && !Covered(saved, k, LatestVersion(all, k)) then rest + [k.id] else rest
  }

  lemma {:induction false} StaleMembers(events: seq<Event>, all: seq<Event>, saved: set<(Key, int)>, t: AggregateType)
    ensures forall id :: id in Stale(events, all, saved, t) <==>
                           Of(events, Key(t, id)) != [] && !Covered(saved, Key(t, id), LatestVersion(all, Key(t, id)))
  {
    if events == [] {
    } else {
      StaleMembers(events[..|events| - 1], all, saved, t);
    }
  }

  lemma SaveStep(period: int, s: State, p: nat, k: Key)
    requires p in s.view.processes && s.view.processes[p].Loaded? && s.view.processes[p].query == CURRENT
    requires s.view.processes[p].key == k && s.view.processes[p].result.Ok?
    ensures var s' := Next(period, s, Read(R.SaveSnapshot(p)));
            && s'.store == s.store && p !in s'.view.processes
            && SavedVersions(s'.view.snapshots)
               == SavedVersions(s.view.snapshots) + {(k, s.view.processes[p].result.value.Version())}
  {
    var a := s.view.processes[p].result.value;
    SaveKeepsVersions(s.view.snapshots, SnapshotRow(k, a.Version(), Marshal(a)));
  }

  /** An unbounded replay that began when the history was nonempty succeeds, at the head that it finds when
      it loads the events, whatever snapshot it starts from. */
  lemma ReplayReachesHead(period: int, s: State, s': State, k: Key)
    requires Reachable(period, s) && Reachable(period, s') && Extends(s, s') && Of(s.store.db.events, k) != []
    ensures var r := Replay(Latest(s.view.snapshots, k), s'.store.db.events, k, CURRENT);
            && r.Ok? && r.value.Version() == LatestVersion(s'.store.db.events, k)
            && r.value.Version() >= LatestVersion(s.store.db.events, k)
  {
    SnapshotStillFits(period, s, s', k);
    ReachableInv(period, s');
    W.HistoryDecodes(s'.store.db.events, k);
    OfPrefix(s.store.db.events, s'.store.db.events, k);
    CurrentReachesHead(s'.store.db.events, k, Latest(s.view.snapshots, k));
    HeadIsLength(period, s, k);
    HeadIsLength(period, s', k);
  }

  lemma HeadIsLength(period: int, s: State, k: Key)
    requires Reachable(period, s)
    ensures LatestVersion(s.store.db.events, k) == |Of(s.store.db.events, k)|
  {
    ReachableInv(period, s);
    assert Numbered(Of(s.store.db.events, k));
    LatestVersionIsLength(s.store.db.events, k);
  }

  /** State `s'` has a snapshot at the head that the history had in `s`, or beyond. */
  predicate CoversHead(s: State, s': State, k: Key) {
    Covered(SavedVersions(s'.view.snapshots), k, LatestVersion(s.store.db.events, k))
  }

  function StaleIn(s: State, t: AggregateType): seq<string> {
    Stale(s.store.db.events, s.store.db.events, SavedVersions(s.view.snapshots), t)
  }

  /** The aggregate's snapshot at its head is all that was added. */
  predicate OnlySaved(s: State, s': State, k: Key) {
    && s'.store == s.store
    && SavedVersions(s'.view.snapshots) == SavedVersions(s.view.snapshots) + {(k, LatestVersion(s.store.db.events, k))}
  }

  /** `snapshotOne`: afterwards the aggregate has a snapshot at the head it had before, or beyond; with
      nobody else at work that is all it adds. */
  method SnapshotOne(db: Connection, p: nat, k: Key, env: Schedule<Action>)
    requires db.Valid() && p !in db.state.view.processes
    modifies db
    ensures db.Valid() && Extends(old(db.state), db.state) && p !in db.state.view.processes
    ensures Of(old(db.state).store.db.events, k) != [] ==> CoversHead(old(db.state), db.state, k)
    ensures env == [] && Of(old(db.state).store.db.events, k) != [] ==> OnlySaved(old(db.state), db.state, k)
    ensures var loaded := AfterReplay(db.period, old(db.state), p, k, CURRENT, Gap(env, 0));
            || db.state == Next(db.period, loaded, Read(R.Finish(p)))
            || db.state == Next(db.period, Run(db.period, loaded, Foreign(Process(p), Gap(env, 1))),
                                Read(R.SaveSnapshot(p)))
  {
    var agg, snap := ReplayAggregate(db, p, k, CURRENT, Gap(env, 0));
    if Of(old(db.state).store.db.events, k) != [] { ReplayReachesHead(db.period, old(db.state), db.state, k); }
    if agg.Err? {
      FinishStep(db.period, db.state, p);
      db.Do(Read(R.Finish(p)));
    } else {
      var state, version := Marshal(agg.value.Value()), agg.value.Value().Version();
      db.Others(Process(p), Gap(env, 1));
      SaveStep(db.period, db.state, p, k);
      db.Do(Read(R.SaveSnapshot(p)));
      assert Covered(SavedVersions(db.state.view.snapshots), k, version);
    }
  }

  lemma CoverageStays(s: State, s1: State, s2: State, k: Key)
    requires CoversHead(s, s1, k) && Extends(s1, s2)
    ensures CoversHead(s, s2, k)
  {
    var x :| x in SavedVersions(s1.view.snapshots) && x.0 == k && x.1 >= LatestVersion(s.store.db.events, k);
    assert x in SavedVersions(s2.view.snapshots);
  }

  lemma {:induction false} LatestGrows(events: seq<Event>, events': seq<Event>, k: Key)
    requires events <= events'
    ensures LatestVersion(events, k) <= LatestVersion(events', k)
  {
    if events == events' {
    } else {
      LatestGrows(events, events'[..|events'| - 1], k);
    }
  }

  /** Covering the head of a later state covers that of an earlier one. */
  lemma CoverageGrows(s: State, s1: State, s2: State, k: Key)
    requires Extends(s, s1)
    ensures CoversHead(s1, s2, k) ==> CoversHead(s, s2, k)
    ensures Of(s.store.db.events, k) != [] ==> Of(s1.store.db.events, k) != []
  {
    LatestGrows(s.store.db.events, s1.store.db.events, k);
    OfPrefix(s.store.db.events, s1.store.db.events, k);
  }

  ghost predicate AllCovered(s: State, s': State, t: AggregateType, ids: seq<string>, n: nat) {
    n <= |ids| && forall i :: 0 <= i < n ==> CoversHead(s, s', Key(t, ids[i]))
  }

  lemma AllCoverageStays(s: State, s1: State, s2: State, t: AggregateType, ids: seq<string>, n: nat)
    requires AllCovered(s, s1, t, ids, n) && Extends(s1, s2)
    ensures AllCovered(s, s2, t, ids, n)
  {
    forall i | 0 <= i < n ensures CoversHead(s, s2, Key(t, ids[i])) {
      CoverageStays(s, s1, s2, Key(t, ids[i]));
    }
  }

  // ---------- What one pass leaves stale ----------

  lemma {:induction false} StaleDistinct(events: seq<Event>, all: seq<Event>, saved: set<(Key, int)>, t: AggregateType)
    ensures NoDuplicates(Stale(events, all, saved, t))
  {
    if events == [] {
    } else {
      StaleDistinct(events[..|events| - 1], all, saved, t);
    }
  }

  function Members(ids: seq<string>): set<string> {
    set id | id in ids
  }

  lemma {:induction false} DistinctCounts(ids: seq<string>)
    requires NoDuplicates(ids)
    ensures |Members(ids)| == |ids|
  {
    if ids == [] {
    } else {
      var init, last := ids[..|ids| - 1], ids[|ids| - 1];
      DistinctCounts(init);
      assert ids == init + [last] && last !in init;
      assert Members(ids) == Members(init) + {last};
    }
  }

  /** Of the stale aggregates only those of type `t` with an id in `done` are stale no longer. */
  ghost predicate Loses(s: State, s': State, t: AggregateType, done: set<string>) {
    && s'.store == s.store
    && forall u :: Members(StaleIn(s', u)) == Members(StaleIn(s, u)) - if u == t then done else {}
  }

  lemma SavedIsLost(s: State, s': State, t: AggregateType, id: string)
    requires OnlySaved(s, s', Key(t, id))
    ensures Loses(s, s', t, {id})
  {
    var events := s.store.db.events;
    forall u ensures Members(StaleIn(s', u)) == Members(StaleIn(s, u)) - if u == t then {id} else {} {
      StaleMembers(events, events, SavedVersions(s.view.snapshots), u);
      StaleMembers(events, events, SavedVersions(s'.view.snapshots), u);
      forall j ensures CoversHead(s, s', Key(u, j)) <==> CoversHead(s, s, Key(u, j)) || (u == t && j == id) {
        SavedCovers(s, s', Key(t, id), Key(u, j));
      }
    }
  }

  lemma SavedCovers(s: State, s': State, k: Key, j: Key)
    requires OnlySaved(s, s', k)
    ensures CoversHead(s, s', j) <==> CoversHead(s, s, j) || j == k
  {
    var saved, saved' := SavedVersions(s.view.snapshots), SavedVersions(s'.view.snapshots);
    var v := LatestVersion(s.store.db.events, j);
    if Covered(saved, j, v) {
      var x :| x in saved && x.0 == j && x.1 >= v;
      assert x in saved';
    }
    if j == k { assert (j, v) in saved'; }
  }

  lemma LosesMore(s: State, s1: State, s2: State, t: AggregateType, done: set<string>, id: string)
    requires Loses(s, s1, t, done) && Loses(s1, s2, t, {id})
    ensures Loses(s, s2, t, done + {id})
  {
    forall u ensures Members(StaleIn(s2, u)) == Members(StaleIn(s, u)) - if u == t then done + {id} else {} {
      assert Members(StaleIn(s1, u)) == Members(StaleIn(s, u)) - if u == t then done else {};
      assert Members(StaleIn(s2, u)) == Members(StaleIn(s1, u)) - if u == t then {id} else {};
    }
  }

  /** What a query with LIMIT 20 and no order may return. */
  ghost predicate Selects(stale: seq<string>, ids: seq<string>) {
    NoDuplicates(stale) ==>
      && NoDuplicates(ids) && Members(ids) <= Members(stale)
      && |ids| == if |stale| < 20 then |stale| else 20
  }

  /** PostgreSQL's choice of at most twenty. */
  type Choice = choose: seq<string> -> seq<string> | forall stale :: Selects(stale, choose(stale))
    witness (stale: seq<string>) => D.Take(stale, AGGREGATES_PER_TYPE)

  /** How many stay stale of each type. */
  lemma LosesCounts(s: State, s': State, t: AggregateType, ids: seq<string>)
    requires Selects(StaleIn(s, t), ids) && Loses(s, s', t, Members(ids))
    ensures forall u :: |StaleIn(s', u)| ==
                        if u == t then OneLess(AGGREGATES_PER_TYPE, |StaleIn(s, u)|) else |StaleIn(s, u)|
  {
    var events := s.store.db.events;
    forall u ensures |StaleIn(s', u)| ==
                     if u == t then OneLess(AGGREGATES_PER_TYPE, |StaleIn(s, u)|) else |StaleIn(s, u)|
    {
      StaleDistinct(events, events, SavedVersions(s.view.snapshots), u);
      StaleDistinct(events, events, SavedVersions(s'.view.snapshots), u);
      DistinctCounts(StaleIn(s, u));
      DistinctCounts(StaleIn(s', u));
      if u == t { DistinctCounts(ids); }
    }
  }

  ghost predicate AllExist(s: State, t: AggregateType, ids: seq<string>) {
    forall id :: id in ids ==> Of(s.store.db.events, Key(t, id)) != []
  }

  lemma SelectedExist(s: State, t: AggregateType, ids: seq<string>)
    requires Selects(StaleIn(s, t), ids)
    ensures AllExist(s, t, ids)
  {
    var events, saved := s.store.db.events, SavedVersions(s.view.snapshots);
    StaleMembers(events, events, saved, t);
    StaleDistinct(events, events, saved, t);
    forall id | id in ids ensures Of(s.store.db.events, Key(t, id)) != [] {
      assert id in Members(ids);
    }
  }

  /** How far the loop over the ids is, from `s` to `s'`. */
  ghost predicate TypeProgress(s: State, s': State, t: AggregateType, ids: seq<string>, i: nat, alone: bool) {
    && Extends(s, s') && AllCovered(s, s', t, ids, i)
    && (alone ==> Loses(s, s', t, Members(ids[..i])))
  }

  lemma TypeStep(s: State, s1: State, s2: State, t: AggregateType, ids: seq<string>, i: nat, alone: bool)
    requires i < |ids| && TypeProgress(s, s1, t, ids, i, alone)
    requires Extends(s1, s2) && CoversHead(s1, s2, Key(t, ids[i]))
    requires alone ==> OnlySaved(s1, s2, Key(t, ids[i]))
    ensures TypeProgress(s, s2, t, ids, i + 1, alone)
  {
    CoverageGrows(s, s1, s2, Key(t, ids[i]));
    AllCoverageStays(s, s1, s2, t, ids, i);
    if alone {
      SavedIsLost(s1, s2, t, ids[i]);
      LosesMore(s, s1, s2, t, Members(ids[..i]), ids[i]);
      assert Members(ids[..i + 1]) == Members(ids[..i]) + {ids[i]};
    }
  }

  /** The loop of `buildSnapshots` over the ids of one type: every id that the query selected is covered
      afterwards, whatever ran meanwhile; with nobody else at work exactly these are stale no longer. */
  method BuildType(db: Connection, p: nat, t: AggregateType, choose: Choice, env: seq<Schedule<Action>>)
    returns (ids: seq<string>)
    requires db.Valid() && p !in db.state.view.processes
    modifies db
    ensures db.Valid() && Extends(old(db.state), db.state) && p !in db.state.view.processes
    ensures ids == choose(StaleIn(old(db.state), t))
    ensures AllCovered(old(db.state), db.state, t, ids, |ids|)
    ensures env == [] ==> Loses(old(db.state), db.state, t, Members(ids))
  {
    ghost var start := db.state;
    ids := choose(StaleIn(db.state, t));
    SelectedExist(start, t, ids);
    for i := 0 to |ids|
      invariant db.Valid() && p !in db.state.view.processes
      invariant TypeProgress(start, db.state, t, ids, i, env == [])
    {
      ghost var before := db.state;
      assert ids[i] in ids;
      CoverageGrows(start, before, before, Key(t, ids[i]));
      SnapshotOne(db, p, Key(t, ids[i]), if i < |env| then env[i] else []);
      TypeStep(start, before, db.state, t, ids, i, env == []);
    }
    assert ids[..|ids|] == ids;
  }

  // ---------- One pass, and several ----------

  const TYPES := [UserType, ProductType, OrderType]

  /** One type's turn: it began in `start`, a state of the run after `s`, and what its query selected then is
      covered in `s'`. */
  ghost predicate TurnAt(period: int, s: State, start: State, s': State, t: AggregateType,
                         choose: AggregateType -> Choice)
  {
    && Reachable(period, start) && Extends(s, start) && Extends(start, s')
    && var ids := choose(t)(StaleIn(start, t)); AllCovered(start, s', t, ids, |ids|)
  }

  ghost predicate HadTurn(period: int, s: State, s': State, t: AggregateType, choose: AggregateType -> Choice) {
    exists start :: TurnAt(period, s, start, s', t, choose)
  }

  ghost predicate TurnsDone(period: int, s: State, s': State, i: nat, choose: AggregateType -> Choice) {
    i <= |TYPES| && forall j :: 0 <= j < i ==> HadTurn(period, s, s', TYPES[j], choose)
  }

  /** With nobody else at work, how many are stale after the turns of the first `i` types. */
  ghost predicate TurnsCount(s: State, s': State, i: nat) {
    && s'.store == s.store && i <= |TYPES|
    && forall j :: 0 <= j < |TYPES| ==>
         |StaleIn(s', TYPES[j])| ==
         if j < i then OneLess(AGGREGATES_PER_TYPE, |StaleIn(s, TYPES[j])|) else |StaleIn(s, TYPES[j])|
  }

  /** `buildSnapshots`. Each type has its turn in some state of the pass, and what is selected there is
      covered when the pass ends, whatever ran meanwhile. With nobody else at work a pass leaves twenty
      stale aggregates of each type fewer, or none. */
  method BuildSnapshots(db: Connection, p: nat, choose: AggregateType -> Choice, env: seq<seq<Schedule<Action>>>)
    requires db.Valid() && p !in db.state.view.processes
    modifies db
    ensures db.Valid() && Extends(old(db.state), db.state) && p !in db.state.view.processes
    ensures forall t :: HadTurn(db.period, old(db.state), db.state, t, choose)
    ensures env == [] ==> TurnsCount(old(db.state), db.state, |TYPES|)
  {
    for i := 0 to |TYPES|
      invariant db.Valid() && Extends(old(db.state), db.state) && p !in db.state.view.processes
      invariant TurnsDone(db.period, old(db.state), db.state, i, choose)
      invariant env == [] ==> TurnsCount(old(db.state), db.state, i)
    {
      ghost var before := db.state;
      var ids := BuildType(db, p, TYPES[i], choose(TYPES[i]), if i < |env| then env[i] else []);
      TurnEnds(db.period, old(db.state), before, db.state, i, ids, choose);
      if env == [] { TurnCounts(old(db.state), before, db.state, i, ids); }
    }
    AllTypes(db.period, old(db.state), db.state, choose);
  }

  lemma AllTypes(period: int, s: State, s': State, choose: AggregateType -> Choice)
    requires TurnsDone(period, s, s', |TYPES|, choose)
    ensures forall t :: HadTurn(period, s, s', t, choose)
  {
    forall t ensures HadTurn(period, s, s', t, choose) {
      assert t == TYPES[Place(t)];
    }
  }

  lemma TurnEnds(period: int, s: State, s1: State, s2: State, i: nat, ids: seq<string>, choose: AggregateType -> Choice)
    requires Reachable(period, s1) && Extends(s, s1) && Extends(s1, s2)
    requires i < |TYPES| && TurnsDone(period, s, s1, i, choose)
    requires ids == choose(TYPES[i])(StaleIn(s1, TYPES[i])) && AllCovered(s1, s2, TYPES[i], ids, |ids|)
    ensures TurnsDone(period, s, s2, i + 1, choose)
  {
    assert TurnAt(period, s, s1, s2, TYPES[i], choose);
    forall j | 0 <= j < i ensures HadTurn(period, s, s2, TYPES[j], choose) {
      TurnStays(period, s, s1, s2, TYPES[j], choose);
    }
  }

  function Place(t: AggregateType): nat {
    match t
    case UserType => 0
    case ProductType => 1
    case OrderType => 2
  }

  lemma TurnStays(period: int, s: State, s1: State, s2: State, t: AggregateType, choose: AggregateType -> Choice)
    requires HadTurn(period, s, s1, t, choose) && Extends(s1, s2)
    ensures HadTurn(period, s, s2, t, choose)
  {
    var start :| TurnAt(period, s, start, s1, t, choose);
    var ids := choose(t)(StaleIn(start, t));
    AllCoverageStays(start, s1, s2, t, ids, |ids|);
    assert TurnAt(period, s, start, s2, t, choose);
  }

  lemma TurnCounts(s: State, s1: State, s2: State, i: nat, ids: seq<string>)
    requires i < |TYPES| && TurnsCount(s, s1, i)
    requires Selects(StaleIn(s1, TYPES[i]), ids) && Loses(s1, s2, TYPES[i], Members(ids))
    ensures TurnsCount(s, s2, i + 1)
  {
    LosesCounts(s1, s2, TYPES[i], ids);
  }

  /** With nobody else at work, whichever aggregates each query selects, every pass leaves twenty stale
      aggregates of each type fewer; n of them are all covered exactly from ceil(n/20) passes on. */
  method CatchUp(db: Connection, p: nat, passes: nat, choose: nat -> AggregateType -> Choice)
    requires db.Valid() && p !in db.state.view.processes
    modifies db
    ensures db.Valid() && db.state.store == old(db.state).store
    ensures forall t :: |StaleIn(db.state, t)| == Left(AGGREGATES_PER_TYPE, |StaleIn(old(db.state), t)|, passes)
    ensures forall t :: StaleIn(db.state, t) == [] <==>
                        passes >= Rounds(AGGREGATES_PER_TYPE, |StaleIn(old(db.state), t)|)
  {
    for i := 0 to passes
      invariant db.Valid() && p !in db.state.view.processes && db.state.store == old(db.state).store
      invariant forall t :: |StaleIn(db.state, t)| == Left(AGGREGATES_PER_TYPE, |StaleIn(old(db.state), t)|, i)
    {
      ghost var before := db.state;
      BuildSnapshots(db, p, choose(i), []);
      PassCounts(old(db.state), before, db.state, i);
    }
    forall t
      ensures StaleIn(db.state, t) == [] <==> passes >= Rounds(AGGREGATES_PER_TYPE, |StaleIn(old(db.state), t)|)
    {
      RoundsSuffice(AGGREGATES_PER_TYPE, |StaleIn(old(db.state), t)|, passes);
    }
  }

  lemma PassCounts(s: State, s1: State, s2: State, i: nat)
    requires TurnsCount(s1, s2, |TYPES|)
    requires forall t :: |StaleIn(s1, t)| == Left(AGGREGATES_PER_TYPE, |StaleIn(s, t)|, i)
    ensures forall t :: |StaleIn(s2, t)| == Left(AGGREGATES_PER_TYPE, |StaleIn(s, t)|, i + 1)
  {
    forall t ensures |StaleIn(s2, t)| == Left(AGGREGATES_PER_TYPE, |StaleIn(s, t)|, i + 1) {
      assert t == TYPES[Place(t)];
      LeftStep(AGGREGATES_PER_TYPE, |StaleIn(s, t)|, i);
    }
  }
}
