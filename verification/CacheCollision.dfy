/** internal/cache/redis.go, `cacheKey`: queries that share a key although their answers differ, and runs
    in which the cache then answers one of them with the result of the other. */
module CacheCollision {
  import opened Domain
  import opened EventLog
  import opened Aggregates
  import opened ReplayEngine
  import opened CacheKeys
  import opened System
  import opened Scenarios
  import C = CommandTheorems
  import Int64
  import R = Readers

  /** A replay without a snapshot, of a query that selects exactly the first `n` events, is at version n. */
  lemma SelectsFirst(events: seq<Event>, k: Key, q: Query, n: nat)
    requires WellNumbered(events) && k.aggregateType == UserType && Fold(New(k), Of(events, k)).Ok?
    requires 1 <= n <= |Of(events, k)| && Matching(q, Of(events, k)) == Of(events, k)[..n]
    ensures var r := Replay(None, events, k, q); r.Ok? && r.value.AUser? && r.value.Version() == n
  {
    var log := Of(events, k);
    assert Numbered(log);
    ReplayFoldsSnapshotThenMatches(events, k, q, None);
    assert log[0..] == log && log[..0] + log[..n] == log[..n];
    FoldPrefixOk(New(k), log, n);
    FoldStamps(New(k), log[..n]);
  }

  /** In the run of `RenameLater`, a query that selects only the creation fills the cache, and another query
      with its key that selects both events is answered from there. */
  lemma Mislead(period: int, id: string, narrow: Query, wide: Query) returns (actions: seq<Action>)
    requires SameBound(narrow, wide)
    requires forall log: seq<Event> :: TwoEvents(log) ==>
               Matching(narrow, log) == log[..1] && Matching(wide, log) == log
    ensures var s, k := Reach(period, actions), Key(UserType, id);
            && R.CacheHit(s.view, id, wide).Some? && R.CacheHit(s.view, id, wide).value.version == 1
            && Replay(Latest(s.view.snapshots, k), s.store.db.events, k, wide).Ok?
            && Replay(Latest(s.view.snapshots, k), s.store.db.events, k, wide).value.Version() == 2
  {
    var k := Key(UserType, id);
    var before := RenameLater(period, k);
    var s := Reach(period, before);
    var log := Of(s.store.db.events, k);
    C.ReachNumbered(period, before);
    C.HistoriesAreWellFormed(period, before, k);
    TwoVersions(log);
    SelectsFirst(s.store.db.events, k, narrow, 1);
    assert log[..2] == log;
    SelectsFirst(s.store.db.events, k, wide, 2);
    FillRuns(period, s, k, narrow);
    KeysCoincide(UserType, id, narrow, UserType, id, wide);
    RunSplit(period, INIT, before, ReplayThen(k, narrow, R.FillCache(0)));
    actions := before + ReplayThen(k, narrow, R.FillCache(0));
  }

  /** The versions and times of the two events of `RenameLater`. */
  ghost predicate TwoEvents(log: seq<Event>) {
    && |log| == 2 && log[0].version == 1 && log[1].version == 2
    && log[0].createdAt == 0 && log[1].createdAt == 10
  }

  lemma TwoVersions(log: seq<Event>)
    requires Numbered(log) && |log| == 2 && Created(log[..1]) && log[1].createdAt == 10
    ensures TwoEvents(log)
  {
    assert log[0] == log[..1][0];
  }

  /** The key of a query with a version drops its time: the cache answers the replay at version 2 with
      the state at version 1. */
  lemma TwoBoundsMislead(period: int, id: string) returns (actions: seq<Action>)
    ensures var s, k, q := Reach(period, actions), Key(UserType, id), Query(None, Some(2), None);
            && R.CacheHit(s.view, id, q).Some? && R.CacheHit(s.view, id, q).value.version == 1
            && Replay(Latest(s.view.snapshots, k), s.store.db.events, k, q).Ok?
            && Replay(Latest(s.view.snapshots, k), s.store.db.events, k, q).value.Version() == 2
  {
    var narrow, wide := Query(Some(0), Some(2), None), Query(None, Some(2), None);
    forall log: seq<Event> | TwoEvents(log) ensures Matching(narrow, log) == log[..1] && Matching(wide, log) == log {
      FirstOnly(narrow, log);
      MatchingAll(wide, log);
    }
    actions := Mislead(period, id, narrow, wide);
  }

  /** The key of a time is an int64 of nanoseconds: the cache answers the replay at a time 2^64 nanoseconds
      after the creation with the state at the creation. */
  lemma DistantTimesMislead(period: int, id: string) returns (actions: seq<Action>)
    ensures var s, k, q := Reach(period, actions), Key(UserType, id), Query(Some(Int64.TWO64), None, None);
            && SingleBound(q) && !TimeInRange(q)
            && R.CacheHit(s.view, id, q).Some? && R.CacheHit(s.view, id, q).value.version == 1
            && Replay(Latest(s.view.snapshots, k), s.store.db.events, k, q).Ok?
            && Replay(Latest(s.view.snapshots, k), s.store.db.events, k, q).value.Version() == 2
  {
    var narrow, wide := Query(Some(0), None, None), Query(Some(Int64.TWO64), None, None);
    assert (0 - Int64.TWO64) % Int64.TWO64 == 0;
    forall log: seq<Event> | TwoEvents(log) ensures Matching(narrow, log) == log[..1] && Matching(wide, log) == log {
      FirstOnly(narrow, log);
      MatchingAll(wide, log);
    }
    actions := Mislead(period, id, narrow, wide);
  }
}
