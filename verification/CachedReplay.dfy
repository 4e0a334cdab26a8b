/** internal/cache/redis.go, `ReplayUser`, as a program. */
module CachedReplay {
  import opened Domain
  import opened EventLog
  import opened Aggregates
  import opened ReplayEngine
  import opened CacheKeys
  import opened Database
  import opened Sequences
  import opened System
  import opened Replaying
  import R = Readers
  import U = UserAggregate

  lemma ReplayKeepsType(snap: Option<SnapshotRow>, events: seq<Event>, k: Key, q: Query)
    ensures Replay(snap, events, k, q).Ok? ==> Replay(snap, events, k, q).value.Type() == k.aggregateType
  {
    var start := Start(k, snap, q);
    if start.Ok? {
      StartHasType(k, snap, q);
      FoldStamps(start.value, Beyond(StartVersion(snap, q), LoadUntil(events, k, q)));
    }
  }

  lemma StartHasType(k: Key, snap: Option<SnapshotRow>, q: Query)
    ensures Start(k, snap, q).Ok? ==> Start(k, snap, q).value.Type() == k.aggregateType
  {
  }

  lemma FillStep(period: int, s: State, p: nat, id: string, q: Query)
    requires p in s.view.processes && s.view.processes[p].Loaded?
    requires s.view.processes[p].key == Key(UserType, id) && s.view.processes[p].query == q
    requires s.view.processes[p].result.Ok? && s.view.processes[p].result.value.AUser?
    ensures var s' := Next(period, s, Read(R.FillCache(p)));
            && s'.store == s.store && p !in s'.view.processes && s'.view.snapshots == s.view.snapshots
            && s'.view.cache - {CacheKey(UserType, id, q)} == s.view.cache - {CacheKey(UserType, id, q)}
            && R.CacheHit(s'.view, id, q) == Some(s.view.processes[p].result.value.user)
  {
    U.RoundTrip(s.view.processes[p].result.value.user, U.New(""));
  }

  lemma FinishStep(period: int, s: State, p: nat)
    requires p in s.view.processes && s.view.processes[p].Loaded?
    ensures var s' := Next(period, s, Read(R.Finish(p)));
            && s'.store == s.store && p !in s'.view.processes
            && s'.view.snapshots == s.view.snapshots && s'.view.cache == s.view.cache
  {
  }

  predicate SameTables(s: State, s': State) {
    s'.store == s.store && s'.view.snapshots == s.view.snapshots && s'.view.cache == s.view.cache
  }

  /** The answer that a replay gives for a user. */
  predicate Answers(r: Result<U.UserState>, result: Result<Aggregate>) {
    Map(r, (u: U.UserState) => AUser(u)) == result
  }

  /** The replay behind a miss. The process still holds its result. */
  method ReplayInner(db: Connection, p: nat, id: string, q: Query, others: seq<Action>)
    returns (r: Result<U.UserState>, ghost seen: nat)
    requires db.Valid() && p !in db.state.view.processes
    modifies db
    ensures db.Valid() && Extends(old(db.state), db.state)
    ensures seen == |db.state.store.db.events|
    ensures var k, snap := Key(UserType, id), Latest(old(db.state).view.snapshots, Key(UserType, id));
            && HasLoaded(db.state, p, k, q, snap, Map(r, (u: U.UserState) => AUser(u)))
            && Answers(r, Replay(snap, db.state.store.db.events, k, q))
    ensures others == [] ==> SameTables(old(db.state), db.state)
    ensures db.state == AfterReplay(db.period, old(db.state), p, Key(UserType, id), q, others)
  {
    var agg, snap := ReplayAggregate(db, p, Key(UserType, id), q, others);
    seen := |db.state.store.db.events|;
    ReplayKeepsType(snap, db.state.store.db.events, Key(UserType, id), q);
    if agg.Err? {
      r := Err(agg.error);
    } else {
      r := Ok(agg.value.Value().user);
    }
  }

  /** `Set`, whose error is ignored. */
  method Conclude(db: Connection, p: nat, id: string, q: Query, ghost snap: Option<SnapshotRow>, ghost seen: nat,
                  r: Result<U.UserState>, fill: bool)
    requires db.Valid() && p in db.state.view.processes
    requires db.state.view.processes[p]
             == R.Loaded(Key(UserType, id), q, snap, seen, Map(r, (u: U.UserState) => AUser(u)))
    modifies db
    ensures db.Valid() && Extends(old(db.state), db.state) && p !in db.state.view.processes
    ensures fill && r.Ok? ==> R.CacheHit(db.state.view, id, q) == Some(r.value)
    ensures var key := CacheKey(UserType, id, q);
            && db.state.view.cache - {key} == old(db.state).view.cache - {key}
            && (!(fill && r.Ok?) ==> db.state.view.cache == old(db.state).view.cache)
    ensures db.state.store == old(db.state).store && db.state.view.snapshots == old(db.state).view.snapshots
    ensures db.state == Next(db.period, old(db.state), Read(if fill && r.Ok? then R.FillCache(p) else R.Finish(p)))
  {
    if fill && r.Ok? {
      FillStep(db.period, db.state, p, id, q);
      db.Do(Read(R.FillCache(p)));
    } else {
      FinishStep(db.period, db.state, p);
      db.Do(Read(R.Finish(p)));
    }
  }

  /** `ReplayUser`: without a client there is no cache; `stored` says whether the final `Set` succeeds.
      A hit is what the cache holds; a miss is a replay, whose answer the next same query then hits. With
      nobody else at work no other entry changes, and none is added when there is nothing to store. */
  method ReplayUser(db: Connection, p: nat, id: string, q: Query, connected: bool, stored: bool, env: Schedule<Action>)
    returns (r: Result<U.UserState>, ghost seen: nat)
    requires db.Valid() && p !in db.state.view.processes
    modifies db
    ensures db.Valid() && Extends(old(db.state), db.state) && p !in db.state.view.processes
    ensures connected && R.CacheHit(old(db.state).view, id, q).Some? ==>
              r == Ok(R.CacheHit(old(db.state).view, id, q).value) && db.state == old(db.state)
    ensures !(connected && R.CacheHit(old(db.state).view, id, q).Some?) ==>
              && |old(db.state).store.db.events| <= seen <= |db.state.store.db.events|
              && Answers(r, Replay(Latest(old(db.state).view.snapshots, Key(UserType, id)),
                                   db.state.store.db.events[..seen], Key(UserType, id), q))
    ensures connected && stored && r.Ok? ==> R.CacheHit(db.state.view, id, q) == Some(r.value)
    ensures !(connected && R.CacheHit(old(db.state).view, id, q).Some?) ==>
              var loaded := AfterReplay(db.period, old(db.state), p, Key(UserType, id), q, Gap(env, 0));
              db.state == Next(db.period, Run(db.period, loaded, Foreign(Process(p), Gap(env, 1))),
                               Read(if connected && stored && r.Ok? then R.FillCache(p) else R.Finish(p)))
    ensures env == [] ==>
              var key := CacheKey(UserType, id, q);
              && db.state.store == old(db.state).store && db.state.view.snapshots == old(db.state).view.snapshots
              && db.state.view.cache - {key} == old(db.state).view.cache - {key}
              && (!(connected && stored && r.Ok?) ==> db.state.view.cache == old(db.state).view.cache)
  {
    seen := 0;
    if connected {
      var hit := R.CacheHit(db.state.view, id, q);
      if hit.Some? { return Ok(hit.value), 0; }
    }
    r, seen := ReplayInner(db, p, id, q, Gap(env, 0));
    ghost var loaded := db.state;
    db.Others(Process(p), Gap(env, 1));
    Conclude(db, p, id, q, Latest(old(db.state).view.snapshots, Key(UserType, id)), seen, r, connected && stored);
    assert db.state.store.db.events[..seen] == loaded.store.db.events;
  }
}
