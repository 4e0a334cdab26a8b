/** Every process that replays: the snapshot builder of internal/worker/outbox.go, the cached reader of
    internal/cache/redis.go, and the snapshot hook of internal/user/service.go. A replay reads the
    latest snapshot and loads events in two statements, between which anything may happen. */
module Readers {
  import opened Domain
  import opened EventLog
  import opened Aggregates
  import opened ReplayEngine
  import opened CacheKeys
  import W = Writers
  import Projection
  import U = UserAggregate

  /** `snapshot` and `seen` record which snapshot a result was computed from and how many event rows
      were committed when its events were loaded. */
  datatype Process =
    | Snapped(key: Key, query: Query, snapshot: Option<SnapshotRow>)
    | Loaded(key: Key, query: Query, snapshot: Option<SnapshotRow>, seen: nat, result: Result<Aggregate>)
    | Hooked(key: Key, row: Aggregate)

  /** A cached user; the fields after the first record where it came from. */
  datatype CacheEntry = CacheEntry(user: U.UserDoc, id: string, query: Query, snapshot: Option<SnapshotRow>, seen: nat)

  datatype View = View(snapshots: seq<SnapshotRow>, cache: map<string, CacheEntry>, processes: map<nat, Process>)

  const EMPTY := View([], map[], map[])

  datatype Act =
    | StartReplay(process: nat, key: Key, query: Query)
    | Load(process: nat)
    | SaveSnapshot(process: nat)
    | FillCache(process: nat)
    | Finish(process: nat)
    | Expire(entry: string)
    | HookRead(process: nat, tx: nat)
    | HookSave(process: nat)

  /** `period` is the `SNAPSHOT_EVERY` setting of the user service. */
  function HookFires(period: int, version: int): bool {
    period > 0 && version % period == 0
  }

  function NextAct(period: int, w: W.Store, v: View, a: Act): View {
    match a
    case StartReplay(p, k, q) =>
      if p in v.processes then v
      else v.(processes := v.processes[p := Snapped(k, q, Latest(v.snapshots, k))])
    case Expire(entry) => v.(cache := v.cache - {entry})
    case HookRead(p, t) =>
      if p !in v.processes && t in w.txs && w.txs[t].phase.Committed? && w.txs[t].request.key.aggregateType == UserType
         && HookFires(period, w.txs[t].phase.event.version) && w.txs[t].request.key in w.db.rows
      then
        var k := w.txs[t].request.key;
        v.(processes := v.processes[p := Hooked(k, Projection.ReadBack(w.db.rows[k]))])
      else v
    case _ => if a.process in v.processes then Proceed(w.db.events, v, a, v.processes[a.process]) else v
  }

  function Proceed(events: seq<Event>, v: View, a: Act, p: Process): View
    requires a.Load? || a.SaveSnapshot? || a.FillCache? || a.Finish? || a.HookSave?
  {
    match a
    case Load(i) =>
      if p.Snapped? then
        var result := Replay(p.snapshot, events, p.key, p.query);
        v.(processes := v.processes[i := Loaded(p.key, p.query, p.snapshot, |events|, result)])
      else v
    case SaveSnapshot(i) =>
      if p.Loaded? && p.query == CURRENT && p.result.Ok? then
        var a := p.result.value;
        View(Save(v.snapshots, SnapshotRow(p.key, a.Version(), Marshal(a))), v.cache, v.processes - {i})
      else v
    case FillCache(i) =>
      if p.Loaded? && p.key.aggregateType == UserType && p.result.Ok? && p.result.value.AUser? then
        var entry := CacheEntry(U.Marshal(p.result.value.user), p.key.id, p.query, p.snapshot, p.seen);
        View(v.snapshots, v.cache[CacheKey(UserType, p.key.id, p.query) := entry], v.processes - {i})
      else v
    case Finish(i) => v.(processes := v.processes - {i})
    case HookSave(i) =>
      if p.Hooked? then
        View(Save(v.snapshots, SnapshotRow(p.key, p.row.Version(), Marshal(p.row))), v.cache, v.processes - {i})
      else v
  }

  /** What `ReplayUser` answers from the cache, decoding the entry into a zero user. */
  function CacheHit(v: View, id: string, q: Query): Option<U.UserState> {
    var key := CacheKey(UserType, id, q);
    if key in v.cache then Some(U.Overlay(U.New(""), v.cache[key].user)) else None
  }

  // ---------- The invariant ----------

  /** Snapshots at version `v` of the aggregate hold the fold, because the hook has not fired at or below
      `v`; or because `v` is 1, where the row the hook saves is the fold. */
  predicate Trusted(period: int, k: Key, v: int) {
    k.aggregateType != UserType || period <= 0 || v < period || v <= 1
  }

  /** A snapshot is built on the row at version `h` that the hook saved, or from scratch. */
  predicate MayBeRoot(period: int, k: Key, h: nat) {
    h == 0 || (k.aggregateType == UserType && 0 < period <= h)
  }

  /** The snapshot holds the row as it was at version `h`, followed by the events up to its own version. */
  ghost predicate RootedAt(period: int, events: seq<Event>, row: SnapshotRow, h: nat) {
    var log := Of(events, row.key);
    && MayBeRoot(period, row.key, h) && h <= row.version <= |log|
    && Fold(Projection.RowState(row.key, log[..h]), log[h..row.version]).Ok?
    && row.state == Marshal(Fold(Projection.RowState(row.key, log[..h]), log[h..row.version]).value)
  }

  ghost predicate RowFits(period: int, events: seq<Event>, row: SnapshotRow) {
    && Plausible(events, row) && (Trusted(period, row.key, row.version) ==> Faithful(events, row))
    && exists h: nat :: RootedAt(period, events, row, h)
  }

  ghost predicate SnapshotsFit(period: int, events: seq<Event>, snapshots: seq<SnapshotRow>) {
    forall row :: row in snapshots ==> RowFits(period, events, row)
  }

  ghost predicate ReadFits(period: int, events: seq<Event>, k: Key, snap: Option<SnapshotRow>) {
    snap.Some? ==> snap.value.key == k && RowFits(period, events, snap.value)
  }

  function RowOf(k: Key, a: Aggregate): SnapshotRow {
    SnapshotRow(k, a.Version(), Marshal(a))
  }

  ghost predicate ProcessFits(period: int, events: seq<Event>, p: Process) {
    match p
    case Snapped(k, q, snap) => ReadFits(period, events, k, snap)
    case Loaded(k, q, snap, seen, result) =>
      && seen <= |events| && ReadFits(period, events[..seen], k, snap)
      && result == Replay(snap, events[..seen], k, q)
    case Hooked(k, row) => RowFits(period, events, RowOf(k, row))
  }

  /** An entry sits under the key of the query that filled it and holds the replay's answer then. */
  ghost predicate EntryFits(period: int, events: seq<Event>, key: string, e: CacheEntry) {
    var k := Key(UserType, e.id);
    && key == CacheKey(UserType, e.id, e.query)
    && e.seen <= |events| && ReadFits(period, events[..e.seen], k, e.snapshot)
    && var result := Replay(e.snapshot, events[..e.seen], k, e.query);
       result.Ok? && result.value.AUser? && e.user == U.Marshal(result.value.user)
  }

  ghost predicate Inv(period: int, events: seq<Event>, v: View) {
    && SnapshotsFit(period, events, v.snapshots)
    && (forall p :: p in v.processes ==> ProcessFits(period, events, v.processes[p]))
    && (forall key :: key in v.cache ==> EntryFits(period, events, key, v.cache[key]))
  }

  // ---------- Preservation ----------

  lemma LatestFits(period: int, events: seq<Event>, snapshots: seq<SnapshotRow>, k: Key)
    requires SnapshotsFit(period, events, snapshots)
    ensures ReadFits(period, events, k, Latest(snapshots, k))
  {
    LatestIsGreatest(snapshots, k);
  }

  lemma RowFitsPersists(period: int, events: seq<Event>, events': seq<Event>, row: SnapshotRow)
    requires RowFits(period, events, row) && events <= events'
    ensures RowFits(period, events', row)
  {
    PlausiblePersists(events, events', row);
    if Trusted(period, row.key, row.version) { FaithfulPersists(events, events', row); }
    RootPersists(period, events, events', row);
  }

  lemma RootPersists(period: int, events: seq<Event>, events': seq<Event>, row: SnapshotRow)
    requires events <= events' && exists h: nat :: RootedAt(period, events, row, h)
    ensures exists h: nat :: RootedAt(period, events', row, h)
  {
    var h: nat :| RootedAt(period, events, row, h);
    OfPrefix(events, events', row.key);
    var log, log' := Of(events, row.key), Of(events', row.key);
    assert log'[..h] == log[..h] && log'[h..row.version] == log[h..row.version];
    assert RootedAt(period, events', row, h);
  }

  lemma ReadFitsPersists(period: int, events: seq<Event>, events': seq<Event>, k: Key, snap: Option<SnapshotRow>)
    requires ReadFits(period, events, k, snap) && events <= events'
    ensures ReadFits(period, events', k, snap)
  {
    if snap.Some? { RowFitsPersists(period, events, events', snap.value); }
  }

  /** The greatest version at which a replay of the query can use a snapshot, on a history of length `n`. */
  function Reaches(q: Query, n: nat): int {
    if q.version.Some? && q.version.value < n then q.version.value else n
  }

  lemma StartIsSound(period: int, events: seq<Event>, k: Key, q: Query, snap: Option<SnapshotRow>)
    requires ReadFits(period, events, k, snap) && Trusted(period, k, Reaches(q, |Of(events, k)|))
    ensures SoundStart(events, k, q, snap)
  {
  }

  /** What a replay returns, whatever snapshot it reads: the fold, onto a new aggregate or onto a row that
      the hook may have saved, of the events after that row which the snapshot covers and of the later
      events that meet the query. */
  lemma ReplayFromRoot(period: int, events: seq<Event>, k: Key, q: Query, snap: Option<SnapshotRow>) returns (h: nat)
    requires WellNumbered(events) && ReadFits(period, events, k, snap)
    ensures var log, s := Of(events, k), StartVersion(snap, q);
            && MayBeRoot(period, k, h) && h <= s <= |log|
            && Replay(snap, events, k, q)
               == Found(Fold(Projection.RowState(k, log[..h]), log[h..s] + Matching(q, log[s..])))
  {
    var log, s := Of(events, k), StartVersion(snap, q);
    assert Numbered(log);
    LoadIsMatching(events, k, q);
    BeyondMatching(q, log, s);
    if UsesSnapshot(snap, q) {
      h :| RootedAt(period, events, snap.value, h);
      var a := Fold(Projection.RowState(k, log[..h]), log[h..s]).value;
      SnapshotRoundTrip(a, k);
      FoldSplit(Projection.RowState(k, log[..h]), log[h..s], Matching(q, log[s..]));
    } else {
      h := 0;
      assert log[..0] == [] && log[0..0] + Matching(q, log[0..]) == Matching(q, log[0..]);
    }
  }

  /** What the builder saves: an unbounded replay ends at the head of the history it loaded, and is the
      fold of it when the snapshot it started from can be trusted. */
  lemma BuiltSnapshotFits(period: int, events: seq<Event>, seen: nat, k: Key, snap: Option<SnapshotRow>)
    requires seen <= |events| && WellNumbered(events[..seen]) && ReadFits(period, events[..seen], k, snap)
    requires Replay(snap, events[..seen], k, CURRENT).Ok?
    ensures RowFits(period, events, RowOf(k, Replay(snap, events[..seen], k, CURRENT).value))
  {
    var log, a := Of(events[..seen], k), Replay(snap, events[..seen], k, CURRENT).value;
    CurrentReachesHead(events[..seen], k, snap);
    SnapshotRoundTrip(a, k);
    var h := CurrentFromRoot(period, events[..seen], k, snap);
    FoldIsRooted(period, events[..seen], k, h, a);
    if Trusted(period, k, |log|) {
      StartIsSound(period, events[..seen], k, CURRENT, snap);
      VersionReplay(events[..seen], k, None, snap);
      assert log[..|log|] == log;
    }
    RowFitsPersists(period, events[..seen], events, RowOf(k, a));
  }

  lemma UnboundedTail(log: seq<Event>, h: nat, s: nat)
    requires h <= s <= |log|
    ensures log[h..s] + Matching(CURRENT, log[s..]) == log[h..|log|]
  {
    MatchingAll(CURRENT, log[s..]);
  }

  /** Without a bound every event after the root takes part. */
  lemma CurrentFromRoot(period: int, events: seq<Event>, k: Key, snap: Option<SnapshotRow>) returns (h: nat)
    requires WellNumbered(events) && ReadFits(period, events, k, snap)
    ensures var log := Of(events, k);
            && MayBeRoot(period, k, h) && h <= |log|
            && Replay(snap, events, k, CURRENT) == Found(Fold(Projection.RowState(k, log[..h]), log[h..|log|]))
  {
    h := ReplayFromRoot(period, events, k, CURRENT, snap);
    UnboundedTail(Of(events, k), h, StartVersion(snap, CURRENT));
  }

  lemma FoldIsRooted(period: int, events: seq<Event>, k: Key, h: nat, a: Aggregate)
    requires var log := Of(events, k);
             && MayBeRoot(period, k, h) && h <= |log| && a.Version() == |log|
             && Found(Fold(Projection.RowState(k, log[..h]), log[h..|log|])) == Ok(a)
    ensures RootedAt(period, events, RowOf(k, a), h)
  {
  }

  lemma SaveKeepsFit(period: int, events: seq<Event>, snapshots: seq<SnapshotRow>, row: SnapshotRow)
    requires SnapshotsFit(period, events, snapshots) && RowFits(period, events, row)
    ensures SnapshotsFit(period, events, Save(snapshots, row))
  {
    SaveMembers(snapshots, row);
  }

  lemma PrefixWellNumbered(events: seq<Event>, seen: nat)
    requires WellNumbered(events) && seen <= |events|
    ensures WellNumbered(events[..seen])
  {
    forall k: Key ensures Numbered(Of(events[..seen], k)) && IdsIncrease(Of(events[..seen], k)) {
      OfPrefix(events[..seen], events, k);
      var log, log' := Of(events[..seen], k), Of(events, k);
      assert Numbered(log') && IdsIncrease(log');
      assert forall i :: 0 <= i < |log| ==> log[i] == log'[i];
    }
  }

  lemma SaveSnapshotInv(period: int, events: seq<Event>, v: View, v': View, i: nat)
    requires WellNumbered(events) && Inv(period, events, v) && i in v.processes
    requires v' == Proceed(events, v, SaveSnapshot(i), v.processes[i]) != v
    ensures Inv(period, events, v')
  {
    var p := v.processes[i];
    assert ProcessFits(period, events, p);
    PrefixWellNumbered(events, p.seen);
    BuiltSnapshotFits(period, events, p.seen, p.key, p.snapshot);
    SaveKeepsFit(period, events, v.snapshots, RowOf(p.key, p.result.value));
  }

  lemma FillCacheInv(period: int, events: seq<Event>, v: View, v': View, i: nat)
    requires Inv(period, events, v) && i in v.processes
    requires v' == Proceed(events, v, FillCache(i), v.processes[i]) != v
    ensures Inv(period, events, v')
  {
    var p := v.processes[i];
    assert ProcessFits(period, events, p);
    assert EntryFits(period, events, CacheKey(UserType, p.key.id, p.query),
                     CacheEntry(U.Marshal(p.result.value.user), p.key.id, p.query, p.snapshot, p.seen));
  }

  /** The row that the hook reads after a commit is at least as new as the event that made it fire, and
      at version 1 it is the fold. */
  lemma HookRowFits(period: int, db: W.Tables, k: Key, version: int)
    requires W.TablesAgree(db) && W.HistoriesWellFormed(db.events)
    requires k.aggregateType == UserType && k in db.rows
    requires HookFires(period, version) && 1 <= version <= |Of(db.events, k)|
    ensures RowFits(period, db.events, RowOf(k, Projection.ReadBack(db.rows[k])))
  {
    var log, a := Of(db.events, k), Projection.ReadBack(db.rows[k]);
    W.RowTracks(db, k);
    FiresAtLeast(period, version);
    assert a.AUser? && a.Version() == |log|;
    SnapshotRoundTrip(a, k);
    if |log| == 1 { assert log[..1] == log; }
    RowIsRoot(period, db, k);
  }

  lemma RowIsRoot(period: int, db: W.Tables, k: Key)
    requires W.TablesAgree(db) && k in db.rows && Projection.ReadBack(db.rows[k]).Version() == |Of(db.events, k)|
    requires MayBeRoot(period, k, |Of(db.events, k)|)
    ensures RootedAt(period, db.events, RowOf(k, Projection.ReadBack(db.rows[k])), |Of(db.events, k)|)
  {
    var log := Of(db.events, k);
    assert Projection.Lookup(db.rows, k) == Projection.RowAfter(k, log);
    assert log[..|log|] == log && log[|log|..|log|] == [];
  }

  lemma FiresAtLeast(period: int, version: int)
    requires HookFires(period, version) && version >= 1
    ensures version >= period
  {
    var m := version / period;
    assert version == m * period;
    assert m >= 1 ==> (m - 1) * period >= 0;
  }

  lemma HookReadInv(period: int, w: W.Store, v: View, i: nat, t: nat)
    requires W.Inv(w) && Inv(period, w.db.events, v)
    requires NextAct(period, w, v, HookRead(i, t)) != v
    ensures Inv(period, w.db.events, NextAct(period, w, v, HookRead(i, t)))
  {
    CommittedStands(w, t);
    HookRowFits(period, w.db, w.txs[t].request.key, w.txs[t].phase.event.version);
    HookReadAdds(period, w, v, i, t, Projection.ReadBack(w.db.rows[w.txs[t].request.key]));
  }

  lemma CommittedStands(w: W.Store, t: nat)
    requires W.AllFit(w.db, w.txs) && WellNumbered(w.db.events) && t in w.txs && w.txs[t].phase.Committed?
    ensures 1 <= w.txs[t].phase.event.version <= |Of(w.db.events, w.txs[t].request.key)|
  {
    assert W.TxFits(w.db, t, w.txs[t]);
    assert w.txs[t].phase.event in w.db.events;
    CommittedVersion(w.db.events, w.txs[t].phase.event);
  }

  lemma HookReadAdds(period: int, w: W.Store, v: View, i: nat, t: nat, row: Aggregate)
    requires Inv(period, w.db.events, v) && t in w.txs
    requires NextAct(period, w, v, HookRead(i, t))
             == v.(processes := v.processes[i := Hooked(w.txs[t].request.key, row)])
    requires RowFits(period, w.db.events, RowOf(w.txs[t].request.key, row))
    ensures Inv(period, w.db.events, NextAct(period, w, v, HookRead(i, t)))
  {
  }

  lemma HookSaveInv(period: int, events: seq<Event>, v: View, v': View, i: nat)
    requires Inv(period, events, v) && i in v.processes
    requires v' == Proceed(events, v, HookSave(i), v.processes[i]) != v
    ensures Inv(period, events, v')
  {
    var p := v.processes[i];
    assert ProcessFits(period, events, p);
    SaveKeepsFit(period, events, v.snapshots, RowOf(p.key, p.row));
  }

  lemma ActInv(period: int, w: W.Store, v: View, a: Act)
    requires W.Inv(w) && Inv(period, w.db.events, v)
    ensures Inv(period, w.db.events, NextAct(period, w, v, a))
  {
    if a.HookRead? {
      if NextAct(period, w, v, a) != v { HookReadInv(period, w, v, a.process, a.tx); }
    } else {
      PlainActInv(period, w, v, a);
    }
  }

  lemma PlainActInv(period: int, w: W.Store, v: View, a: Act)
    requires WellNumbered(w.db.events) && Inv(period, w.db.events, v) && !a.HookRead?
    ensures Inv(period, w.db.events, NextAct(period, w, v, a))
  {
    var events, v' := w.db.events, NextAct(period, w, v, a);
    if v' != v {
      match a
      case StartReplay(_, k, _) => LatestFits(period, events, v.snapshots, k);
      case Load(i) => assert events[..|events|] == events;
      case SaveSnapshot(i) => SaveSnapshotInv(period, events, v, v', i);
      case FillCache(i) => FillCacheInv(period, events, v, v', i);
      case HookSave(i) => HookSaveInv(period, events, v, v', i);
      case _ =>
    }
  }

  /** Commits of writers in between leave the invariant in place. */
  lemma ExtendInv(period: int, events: seq<Event>, events': seq<Event>, v: View)
    requires Inv(period, events, v) && events <= events'
    ensures Inv(period, events', v)
  {
    forall row | row in v.snapshots ensures RowFits(period, events', row) {
      RowFitsPersists(period, events, events', row);
    }
    forall p | p in v.processes ensures ProcessFits(period, events', v.processes[p]) {
      assert ProcessFits(period, events, v.processes[p]);
      match v.processes[p]
      case Snapped(k, _, snap) => ReadFitsPersists(period, events, events', k, snap);
      case Loaded(_, _, _, seen, _) => assert events'[..seen] == events[..seen];
      case Hooked(k, row) => RowFitsPersists(period, events, events', RowOf(k, row));
    }
    forall key | key in v.cache ensures EntryFits(period, events', key, v.cache[key]) {
      assert EntryFits(period, events, key, v.cache[key]);
      assert events'[..v.cache[key].seen] == events[..v.cache[key].seen];
    }
  }

  // ---------- Consequences ----------

  /** A finished replay bounded by a version that was committed when it loaded its events holds the
      fold of exactly that many events, and agrees with the history ever after. */
  lemma LoadedVersionIsStable(period: int, events: seq<Event>, p: Process)
    requires WellNumbered(events) && ProcessFits(period, events, p) && p.Loaded?
    requires p.query == Query(None, p.query.version, None) && p.query.version.Some?
    requires Trusted(period, p.key, p.query.version.value)
    requires Fold(New(p.key), Of(events, p.key)).Ok?
    ensures var version := p.query.version.value;
            && (1 <= version <= |Of(events[..p.seen], p.key)| ==>
                  && version <= |Of(events, p.key)| && Fold(New(p.key), Of(events, p.key)[..version]).Ok?
                  && p.result == Ok(Fold(New(p.key), Of(events, p.key)[..version]).value)
                  && p.result.value.Version() == version)
            && (version <= 0 ==> p.result == Err(NotFound))
  {
    TrustedBelow(period, p.key, p.query.version.value, Reaches(p.query, |Of(events[..p.seen], p.key)|));
    OfPrefix(events[..p.seen], events, p.key);
    LoadedVersionAnswer(period, events, p);
  }

  lemma LoadedVersionAnswer(period: int, events: seq<Event>, p: Process)
    requires WellNumbered(events) && ProcessFits(period, events, p) && p.Loaded?
    requires p.query == Query(None, p.query.version, None) && p.query.version.Some?
    requires Trusted(period, p.key, Reaches(p.query, |Of(events[..p.seen], p.key)|))
    requires Fold(New(p.key), Of(events, p.key)).Ok?
    ensures var n := Clamp(p.query.version.value, |Of(events[..p.seen], p.key)|);
            && n <= |Of(events, p.key)|
            && (if n == 0 then p.result == Err(NotFound)
                else && Fold(New(p.key), Of(events, p.key)[..n]).Ok?
                     && p.result == Ok(Fold(New(p.key), Of(events, p.key)[..n]).value)
                     && p.result.value.Version() == n)
  {
    PrefixWellNumbered(events, p.seen);
    StartIsSound(period, events[..p.seen], p.key, p.query, p.snapshot);
    VersionReplay(events[..p.seen], p.key, p.query.version, p.snapshot);
    OfPrefix(events[..p.seen], events, p.key);
    var log := Of(events[..p.seen], p.key);
    SamePrefixes(p.key, log, Of(events, p.key), Clamp(p.query.version.value, |log|));
  }

  lemma SamePrefixes(k: Key, log: seq<Event>, log': seq<Event>, n: int)
    requires log <= log' && Fold(New(k), log').Ok?
    ensures Fold(New(k), log).Ok?
    ensures 1 <= n <= |log| ==> log[..n] == log'[..n]
  {
    FoldPrefixOk(New(k), log', |log|);
    assert log'[..|log|] == log;
  }

  lemma TrustedBelow(period: int, k: Key, v: int, u: int)
    requires Trusted(period, k, v) && u <= v
    ensures Trusted(period, k, u)
  {
  }

  /** A cache hit answers with what the replay that filled the entry answered, for a query that records
      the same bound; if both queries have a single bound, and a time in range, they are the same query. */
  lemma HitIsFillersAnswer(period: int, events: seq<Event>, v: View, id: string, q: Query)
    requires Inv(period, events, v) && CacheHit(v, id, q).Some?
    ensures var e := v.cache[CacheKey(UserType, id, q)];
            && e.id == id && SameBound(e.query, q)
            && (SingleBound(q) && TimeInRange(q) && SingleBound(e.query) && TimeInRange(e.query) ==> e.query == q)
            && e.seen <= |events|
            && Replay(e.snapshot, events[..e.seen], Key(UserType, id), e.query) == Ok(AUser(CacheHit(v, id, q).value))
  {
    var key := CacheKey(UserType, id, q);
    var e := v.cache[key];
    assert EntryFits(period, events, key, e);
    KeysCoincide(UserType, e.id, e.query, UserType, id, q);
    if SingleBound(q) && SingleBound(e.query) { SingleBoundKeysCoincide(UserType, e.id, e.query, UserType, id, q); }
    var u := Replay(e.snapshot, events[..e.seen], Key(UserType, id), e.query).value.user;
    U.RoundTrip(u, U.New(""));
  }

  /** A hit for a version equals what an uncached replay returns now, from whatever snapshot it reads, if
      and only if the hit is at that version or still at the head. */
  lemma VersionHitIsCurrentIff(period: int, events: seq<Event>, v: View, id: string, version: int,
                               snap: Option<SnapshotRow>)
    requires WellNumbered(events) && Inv(period, events, v)
    requires var k, q := Key(UserType, id), Query(None, Some(version), None);
             && Fold(New(k), Of(events, k)).Ok? && Trusted(period, k, Reaches(q, |Of(events, k)|))
             && CacheHit(v, id, q).Some? && SingleBound(v.cache[CacheKey(UserType, id, q)].query)
             && ReadFits(period, events, k, snap)
    ensures var k, q := Key(UserType, id), Query(None, Some(version), None);
            var hit := CacheHit(v, id, q).value;
            && 1 <= hit.version <= version && hit.version <= |Of(events, k)|
            && (Replay(snap, events, k, q) == Ok(AUser(hit)) <==>
                  hit.version == version || hit.version == |Of(events, k)|)
  {
    var k, q := Key(UserType, id), Query(None, Some(version), None);
    var seen := VersionHitHolds(period, events, v, id, version);
    assert events[..|events|] == events;
    LoadedVersionAnswer(period, events, Loaded(k, q, snap, |events|, Replay(snap, events, k, q)));
  }

  /** A hit for a version holds the fold of as many events as there were, up to that version, when `seen`
      events were committed. */
  lemma VersionHitHolds(period: int, events: seq<Event>, v: View, id: string, version: int) returns (seen: nat)
    requires WellNumbered(events) && Inv(period, events, v)
    requires var k, q := Key(UserType, id), Query(None, Some(version), None);
             && Fold(New(k), Of(events, k)).Ok? && Trusted(period, k, Reaches(q, |Of(events, k)|))
             && CacheHit(v, id, q).Some? && SingleBound(v.cache[CacheKey(UserType, id, q)].query)
    ensures var k, q := Key(UserType, id), Query(None, Some(version), None);
            var log, hit := Of(events, k), CacheHit(v, id, q).value;
            && seen <= |log| && hit.version == Clamp(version, seen) && 1 <= hit.version <= |log|
            && Fold(New(k), log[..hit.version]) == Ok(AUser(hit))
  {
    var k, q := Key(UserType, id), Query(None, Some(version), None);
    var e := v.cache[CacheKey(UserType, id, q)];
    assert EntryFits(period, events, CacheKey(UserType, id, q), e);
    HitIsFillersAnswer(period, events, v, id, q);
    OfPrefix(events[..e.seen], events, k);
    seen := |Of(events[..e.seen], k)|;
    TrustedBelow(period, k, Reaches(q, |Of(events, k)|), Reaches(q, seen));
    LoadedVersionAnswer(period, events, Loaded(k, q, e.snapshot, e.seen, Replay(e.snapshot, events[..e.seen], k, q)));
  }
}
