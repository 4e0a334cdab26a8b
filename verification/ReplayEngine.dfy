/** internal/snapshot/store.go and internal/replay/engine.go as functions of the tables they read: what
    a replay returns, given the snapshot it read first and the events it loaded later. */
module ReplayEngine {
  import opened Domain
  import opened EventLog
  import opened Aggregates

  // ---------- The snapshots table ----------

  datatype SnapshotRow = SnapshotRow(key: Key, version: int, state: Document)

  /** The aggregate's snapshot with the greatest version. */
  function Latest(snapshots: seq<SnapshotRow>, k: Key): Option<SnapshotRow> {
    if snapshots == [] then None
    else
      var rest, last := Latest(snapshots[..|snapshots| - 1], k), snapshots[|snapshots| - 1];
      if last.key == k && (rest.None? || rest.value.version < last.version) then Some(last) else rest
  }

  /** A save overwrites the state of the same aggregate and version, or adds a row. */
  function Save(snapshots: seq<SnapshotRow>, row: SnapshotRow): seq<SnapshotRow> {
    if snapshots == [] then [row]
    else
      var last := snapshots[|snapshots| - 1];
      if last.key == row.key && last.version == row.version then snapshots[..|snapshots| - 1] + [row]
      else Save(snapshots[..|snapshots| - 1], row) + [last]
  }

  /** The latest snapshot is one of the aggregate's, and none of them has a greater version. */
  lemma {:induction false} LatestIsGreatest(snapshots: seq<SnapshotRow>, k: Key)
    ensures Latest(snapshots, k).None? <==> forall r :: r in snapshots ==> r.key != k
    ensures Latest(snapshots, k).Some? ==>
              && Latest(snapshots, k).value in snapshots && Latest(snapshots, k).value.key == k
              && forall r :: r in snapshots && r.key == k ==> r.version <= Latest(snapshots, k).value.version
  {
    if snapshots == [] {
    } else {
      LatestIsGreatest(snapshots[..|snapshots| - 1], k);
      assert snapshots == snapshots[..|snapshots| - 1] + [snapshots[|snapshots| - 1]];
    }
  }

  lemma {:induction false} SaveMembers(snapshots: seq<SnapshotRow>, row: SnapshotRow)
    ensures row in Save(snapshots, row)
    ensures forall r :: r in Save(snapshots, row) ==> r == row || r in snapshots
    ensures forall r :: r in snapshots && !(r.key == row.key && r.version == row.version) ==> r in Save(snapshots, row)
  {
    if snapshots == [] {
    } else {
      SaveMembers(snapshots[..|snapshots| - 1], row);
      assert snapshots == snapshots[..|snapshots| - 1] + [snapshots[|snapshots| - 1]];
    }
  }

  /** The unique index on the aggregate and the version. */
  ghost predicate OnePerVersion(snapshots: seq<SnapshotRow>) {
    forall i, j :: 0 <= i < j < |snapshots| ==> !SameVersion(snapshots[i], snapshots[j])
  }

  predicate SameVersion(a: SnapshotRow, b: SnapshotRow) {
    a.key == b.key && a.version == b.version
  }

  /** A save leaves one row of its version, its own. */
  lemma {:induction false} SaveOverwrites(snapshots: seq<SnapshotRow>, row: SnapshotRow)
    requires OnePerVersion(snapshots)
    ensures OnePerVersion(Save(snapshots, row))
    ensures forall r :: r in Save(snapshots, row) && r.key == row.key && r.version == row.version ==> r == row
  {
    if snapshots == [] {
    } else {
      var init, last := snapshots[..|snapshots| - 1], snapshots[|snapshots| - 1];
      assert snapshots == init + [last];
      LastIsAlone(init, last);
      if last.key == row.key && last.version == row.version {
        AppendOther(init, row);
      } else {
        SaveOverwrites(init, row);
        SaveMembers(init, row);
        AppendOther(Save(init, row), last);
      }
    }
  }

  lemma LastIsAlone(rows: seq<SnapshotRow>, last: SnapshotRow)
    requires OnePerVersion(rows + [last])
    ensures OnePerVersion(rows) && forall r :: r in rows ==> !SameVersion(r, last)
  {
    var all := rows + [last];
    assert forall i :: 0 <= i < |rows| ==> all[i] == rows[i];
    assert all[|rows|] == last;
  }

  lemma AppendOther(rows: seq<SnapshotRow>, row: SnapshotRow)
    requires OnePerVersion(rows) && forall r :: r in rows ==> !SameVersion(r, row)
    ensures OnePerVersion(rows + [row])
  {
    var all := rows + [row];
    forall i, j | 0 <= i < j < |all| ensures !SameVersion(all[i], all[j]) {
      if j == |rows| { assert rows[i] in rows; }
    }
  }

  /** The aggregates and versions of which there is a snapshot. */
  function SavedVersions(snapshots: seq<SnapshotRow>): set<(Key, int)> {
    set r | r in snapshots :: (r.key, r.version)
  }

  /** A save never loses the snapshot of another version. */
  lemma SaveKeepsVersions(snapshots: seq<SnapshotRow>, row: SnapshotRow)
    ensures SavedVersions(Save(snapshots, row)) == SavedVersions(snapshots) + {(row.key, row.version)}
  {
    SaveMembers(snapshots, row);
    var saved := Save(snapshots, row);
    forall r | r in snapshots ensures (r.key, r.version) in SavedVersions(saved) {
      assert r in saved || row in saved;
    }
  }

  // ---------- Replay ----------

  /** The snapshot is skipped only when the query names an older version. */
  predicate UsesSnapshot(snap: Option<SnapshotRow>, q: Query) {
    snap.Some? && !(q.version.Some? && q.version.value < snap.value.version)
  }

  function StartVersion(snap: Option<SnapshotRow>, q: Query): int {
    if UsesSnapshot(snap, q) then snap.value.version else 0
  }

  function Start(k: Key, snap: Option<SnapshotRow>, q: Query): Result<Aggregate> {
    if UsesSnapshot(snap, q) then Unmarshal(New(k), snap.value.state) else Ok(New(k))
  }

  /** The loaded events that the replay loop does not skip. */
  function Beyond(v: int, log: seq<Event>): seq<Event> {
    if log == [] then []
    else
      var rest := Beyond(v, log[..|log| - 1]);
      if log[|log| - 1].version <= v then rest else rest + [log[|log| - 1]]
  }

  /** An aggregate that no event has reached does not exist. */
  function Found(r: Result<Aggregate>): Result<Aggregate> {
    match r
    case Ok(a) => if a.Version() == 0 then Err(NotFound) else r
    case Err(_) => r
  }

  function ReplayFrom(k: Key, snap: Option<SnapshotRow>, q: Query, loaded: seq<Event>): Result<Aggregate> {
    match Start(k, snap, q)
    case Ok(a) => Found(Fold(a, Beyond(StartVersion(snap, q), loaded)))
    case Err(x) => Err(x)
  }

  /** The outcome of a replay that read `snap` and later loaded its events from the table `events`. */
  function Replay(snap: Option<SnapshotRow>, events: seq<Event>, k: Key, q: Query): Result<Aggregate> {
    ReplayFrom(k, snap, q, LoadUntil(events, k, q))
  }

  /** The reference: fold the given events from scratch. */
  function FullReplay(k: Key, log: seq<Event>): Result<Aggregate> {
    Found(Fold(New(k), log))
  }

  /** A snapshot at version s holds the fold of events 1..s, and s is at most the head. */
  ghost predicate Faithful(events: seq<Event>, row: SnapshotRow) {
    && 1 <= row.version <= |Of(events, row.key)|
    && Fold(New(row.key), Of(events, row.key)[..row.version]).Ok?
    && row.state == Marshal(Fold(New(row.key), Of(events, row.key)[..row.version]).value)
  }

  /** The replay does not start from an unfaithful snapshot. */
  ghost predicate SoundStart(events: seq<Event>, k: Key, q: Query, snap: Option<SnapshotRow>) {
    UsesSnapshot(snap, q) ==> snap.value.key == k && Faithful(events, snap.value)
  }

  /** Appends cannot invalidate a snapshot. */
  lemma FaithfulPersists(events: seq<Event>, events': seq<Event>, row: SnapshotRow)
    requires Faithful(events, row) && events <= events'
    ensures Faithful(events', row)
  {
    OfPrefix(events, events', row.key);
    assert Of(events', row.key)[..row.version] == Of(events, row.key)[..row.version];
  }

  /** A snapshot that a replay can start from: it decodes, to its own version, which is at most the head. */
  ghost predicate Plausible(events: seq<Event>, row: SnapshotRow) {
    && 1 <= row.version <= |Of(events, row.key)|
    && Unmarshal(New(row.key), row.state).Ok?
    && Unmarshal(New(row.key), row.state).value.Version() == row.version
    && Unmarshal(New(row.key), row.state).value.Type() == row.key.aggregateType
  }

  lemma PlausiblePersists(events: seq<Event>, events': seq<Event>, row: SnapshotRow)
    requires Plausible(events, row) && events <= events'
    ensures Plausible(events', row)
  {
    OfPrefix(events, events', row.key);
  }

  lemma {:induction false} BeyondAll(v: int, log: seq<Event>)
    requires forall i :: 0 <= i < |log| ==> log[i].version > v
    ensures Beyond(v, log) == log
  {
    if log == [] {
    } else {
      BeyondAll(v, log[..|log| - 1]);
    }
  }

  lemma {:induction false} BeyondNone(v: int, log: seq<Event>)
    requires forall i :: 0 <= i < |log| ==> log[i].version <= v
    ensures Beyond(v, log) == []
  {
    if log == [] {
    } else {
      BeyondNone(v, log[..|log| - 1]);
    }
  }

  lemma {:induction false} BeyondSplit(v: int, a: seq<Event>, b: seq<Event>)
    ensures Beyond(v, a + b) == Beyond(v, a) + Beyond(v, b)
  {
    if b == [] {
      assert a + b == a;
    } else {
      assert (a + b)[..|a + b| - 1] == a + b[..|b| - 1];
      BeyondSplit(v, a, b[..|b| - 1]);
    }
  }

  /** Skipping what a snapshot covers leaves the matching events after it. */
  lemma BeyondMatching(q: Query, log: seq<Event>, s: nat)
    requires Numbered(log) && s <= |log|
    ensures Beyond(s, Matching(q, log)) == Matching(q, log[s..])
  {
    var a, b := log[..s], log[s..];
    assert log == a + b;
    MatchingSplit(q, a, b);
    MatchingMembers(q, a);
    MatchingMembers(q, b);
    BeyondSplit(s, Matching(q, a), Matching(q, b));
    forall i | 0 <= i < |Matching(q, a)| ensures Matching(q, a)[i].version <= s {
      assert Matching(q, a)[i] in a;
    }
    forall i | 0 <= i < |Matching(q, b)| ensures Matching(q, b)[i].version > s {
      assert Matching(q, b)[i] in b;
    }
    BeyondNone(s, Matching(q, a));
    BeyondAll(s, Matching(q, b));
  }

  /** What a replay computes, for every query: the events its snapshot covers, whether or not they
      meet the bound, followed by the later events that do. */
  lemma ReplayFoldsSnapshotThenMatches(events: seq<Event>, k: Key, q: Query, snap: Option<SnapshotRow>)
    requires WellNumbered(events) && SoundStart(events, k, q, snap)
    ensures var log, s := Of(events, k), StartVersion(snap, q);
            && 0 <= s <= |log|
            && Replay(snap, events, k, q) == FullReplay(k, log[..s] + Matching(q, log[s..]))
  {
    var log, s := Of(events, k), StartVersion(snap, q);
    assert Numbered(log);
    LoadIsMatching(events, k, q);
    BeyondMatching(q, log, s);
    FoldSplit(New(k), log[..s], Matching(q, log[s..]));
    if UsesSnapshot(snap, q) {
      var a := Fold(New(k), log[..s]).value;
      FoldStamps(New(k), log[..s]);
      SnapshotRoundTrip(a, k);
    } else {
      assert log[..0] == [];
    }
  }

  /** For every query, the events that a replay accounts for are the events it loads if and only if every
      event its snapshot covers meets the query. */
  lemma AccountsForLoadedIff(events: seq<Event>, k: Key, q: Query, s: nat)
    requires WellNumbered(events) && s <= |Of(events, k)|
    ensures var log := Of(events, k);
            log[..s] + Matching(q, log[s..]) == LoadUntil(events, k, q) <==>
            forall i :: 0 <= i < s ==> Matches(q, log[i])
  {
    var log := Of(events, k);
    var covered, later := log[..s], Matching(q, log[s..]);
    assert Numbered(log);
    LoadIsMatching(events, k, q);
    assert log == covered + log[s..];
    MatchingSplit(q, covered, log[s..]);
    MatchingMembers(q, covered);
    if forall i :: 0 <= i < s ==> Matches(q, log[i]) { MatchingAll(q, covered); }
    if covered + later == LoadUntil(events, k, q) {
      assert (covered + later)[..|covered + later| - |later|] == covered;
      assert (Matching(q, covered) + later)[..|covered + later| - |later|] == Matching(q, covered);
      forall i | 0 <= i < s ensures Matches(q, log[i]) {
        assert covered[i] in covered;
      }
    }
  }

  /** When every event the snapshot covers meets the query, starting from it is invisible: the replay
      equals the full fold of the events it loaded. */
  lemma ReplayEqualsFullReplay(events: seq<Event>, k: Key, q: Query, snap: Option<SnapshotRow>)
    requires WellNumbered(events) && SoundStart(events, k, q, snap)
    requires forall i :: 0 <= i < StartVersion(snap, q) <= |Of(events, k)| ==> Matches(q, Of(events, k)[i])
    ensures Replay(snap, events, k, q) == FullReplay(k, LoadUntil(events, k, q))
  {
    var log, s := Of(events, k), StartVersion(snap, q);
    ReplayFoldsSnapshotThenMatches(events, k, q, snap);
    assert Numbered(log);
    LoadIsMatching(events, k, q);
    assert log == log[..s] + log[s..];
    MatchingSplit(q, log[..s], log[s..]);
    MatchingAll(q, log[..s]);
  }

  /** For queries that select a prefix of the history (any bounded by version or id, and those bounded
      by time when creation times do not decrease) the replay equals the full fold of the loaded
      events exactly when the last event the snapshot covers meets the query, or no snapshot is used. */
  lemma ReplayExactOnPrefixes(events: seq<Event>, k: Key, q: Query, snap: Option<SnapshotRow>)
    requires WellNumbered(events) && SoundStart(events, k, q, snap)
    requires DownwardClosed(q, Of(events, k))
    ensures var log, s := Of(events, k), StartVersion(snap, q);
            && 0 <= s <= |log|
            && (Replay(snap, events, k, q) == FullReplay(k, LoadUntil(events, k, q))
                <==> s == 0 || Matches(q, log[s - 1]))
  {
    var log, s := Of(events, k), StartVersion(snap, q);
    assert Numbered(log);
    if s == 0 || Matches(q, log[s - 1]) {
      ReplayEqualsFullReplay(events, k, q, snap);
    } else {
      ReplayFoldsSnapshotThenMatches(events, k, q, snap);
      LoadIsMatching(events, k, q);
      ClosedMatchingIsPrefix(q, log);
      MatchingNone(q, log[s..]);
      assert log[..s] + [] == log[..s];
      FoldStamps(New(k), log[..s]);
      FoldStamps(New(k), Matching(q, log));
    }
  }

  /** A replay at version v, and a replay with no bound, are full folds whatever snapshot was read;
      nothing exists at version 0 or below. */
  lemma VersionReplay(events: seq<Event>, k: Key, v: Option<int>, snap: Option<SnapshotRow>)
    requires WellNumbered(events) && SoundStart(events, k, Query(None, v, None), snap)
    ensures var log := Of(events, k);
            var n := if v.None? then |log| else Clamp(v.value, |log|);
            && Replay(snap, events, k, Query(None, v, None)) == FullReplay(k, log[..n])
            && (Fold(New(k), log).Ok? && n > 0 ==>
                  && Fold(New(k), log[..n]).Ok?
                  && Replay(snap, events, k, Query(None, v, None)) == Ok(Fold(New(k), log[..n]).value)
                  && Fold(New(k), log[..n]).value.Version() == n)
            && (n == 0 ==> Replay(snap, events, k, Query(None, v, None)) == Err(NotFound))
  {
    var q := Query(None, v, None);
    var log := Of(events, k);
    var n := if v.None? then |log| else Clamp(v.value, |log|);
    assert Numbered(log);
    BoundedLoadIsPrefix(events, k, q);
    ReplayEqualsFullReplay(events, k, q, snap);
    assert log[..|log|] == log;
    FoldStamps(New(k), log[..n]);
    if Fold(New(k), log).Ok? { FoldPrefixOk(New(k), log, n); }
  }

  /** An unbounded replay from any plausible snapshot ends at the head, whatever the snapshot holds; it
      succeeds when the history is nonempty and decodes. */
  lemma CurrentReachesHead(events: seq<Event>, k: Key, snap: Option<SnapshotRow>)
    requires WellNumbered(events)
    requires snap.Some? ==> snap.value.key == k && Plausible(events, snap.value)
    ensures var r, log := Replay(snap, events, k, CURRENT), Of(events, k);
            && (r.Ok? ==> r.value.Version() == |log| && r.value.Type() == k.aggregateType && log != [])
            && (log != [] && (forall i :: 0 <= i < |log| ==> Decodes(k.aggregateType, log[i].payload)) ==> r.Ok?)
  {
    var log, s := Of(events, k), StartVersion(snap, CURRENT);
    assert Numbered(log);
    LoadIsMatching(events, k, CURRENT);
    BeyondMatching(CURRENT, log, s);
    MatchingAll(CURRENT, log[s..]);
    StartsAt(k, snap);
    FoldToHead(Start(k, snap, CURRENT).value, log, s);
  }

  lemma FoldToHead(start: Aggregate, log: seq<Event>, s: nat)
    requires Numbered(log) && s <= |log| && start.Version() == s
    ensures var r := Fold(start, log[s..]);
            && (r.Ok? ==> r.value.Version() == |log| && r.value.Type() == start.Type())
            && ((forall i :: 0 <= i < |log| ==> Decodes(start.Type(), log[i].payload)) ==> r.Ok?)
  {
    FoldStamps(start, log[s..]);
  }

  lemma StartsAt(k: Key, snap: Option<SnapshotRow>)
    requires snap.Some? ==> snap.value.key == k && Unmarshal(New(k), snap.value.state).Ok?
    ensures Start(k, snap, CURRENT).Ok?
    ensures snap.None? ==>
              Start(k, snap, CURRENT).value.Version() == 0 && Start(k, snap, CURRENT).value.Type() == k.aggregateType
  {
  }
}
