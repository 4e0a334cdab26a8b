/** What holds of snapshots, replays and cached answers after every run of the system. */
module ReplayTheorems {
  import opened Domain
  import opened EventLog
  import opened Aggregates
  import opened ReplayEngine
  import opened CacheKeys
  import opened System
  import C = CommandTheorems
  import W = Writers
  import R = Readers
  import Projection
  import U = UserAggregate

  lemma ReachReaders(period: int, actions: seq<Action>)
    ensures var s := Reach(period, actions);
            && WellNumbered(s.store.db.events) && R.Inv(period, s.store.db.events, s.view)
  {
    ReachInv(period, actions);
  }

  // ---------- Loads ----------

  /** After every run, all loads of an aggregate bounded by a time are prefixes of its history if and only
      if its creation times do not decrease. */
  lemma TimeLoadsArePrefixes(period: int, actions: seq<Action>, k: Key)
    ensures var events := Reach(period, actions).store.db.events;
            (forall t :: LoadUntil(events, k, Query(Some(t), None, None)) <= Of(events, k)) <==>
            TimesIncrease(Of(events, k))
  {
    ReachReaders(period, actions);
    TimeLoadsArePrefixesIff(Reach(period, actions).store.db.events, k);
  }

  // ---------- Snapshots ----------

  /** Every stored snapshot is at a committed version and restores an aggregate at that version. It holds
      the fold of the events up to there: for products and orders always, for users at every version below
      the first at which the hook fires, and at version 1. */
  lemma SnapshotsAreFaithful(period: int, actions: seq<Action>, row: SnapshotRow)
    requires row in Reach(period, actions).view.snapshots
    ensures Plausible(Reach(period, actions).store.db.events, row)
    ensures R.Trusted(period, row.key, row.version) ==> Faithful(Reach(period, actions).store.db.events, row)
  {
    ReachReaders(period, actions);
    assert R.RowFits(period, Reach(period, actions).store.db.events, row);
  }

  /** After every run there is at most one snapshot of an aggregate and version, and the next save of that version
      replaces it. */
  lemma SnapshotsAreUnique(period: int, actions: seq<Action>, row: SnapshotRow)
    ensures var snapshots := Reach(period, actions).view.snapshots;
            && (forall i, j :: 0 <= i < j < |snapshots| ==>
                  snapshots[i].key != snapshots[j].key || snapshots[i].version != snapshots[j].version)
            && (forall r :: r in Save(snapshots, row) && r.key == row.key && r.version == row.version ==> r == row)
  {
    OneIsKept(period, actions);
    SaveOverwrites(Reach(period, actions).view.snapshots, row);
  }

  lemma {:induction false} OneIsKept(period: int, actions: seq<Action>)
    ensures OnePerVersion(Reach(period, actions).view.snapshots)
  {
    if actions == [] {
    } else {
      var init, a := actions[..|actions| - 1], actions[|actions| - 1];
      OneIsKept(period, init);
      if a.Read? { ActKeepsOne(period, Reach(period, init).store, Reach(period, init).view, a.act); }
    }
  }

  lemma ActKeepsOne(period: int, w: W.Store, v: R.View, a: R.Act)
    requires OnePerVersion(v.snapshots)
    ensures OnePerVersion(R.NextAct(period, w, v, a).snapshots)
  {
    if (a.SaveSnapshot? || a.HookSave?) && a.process in v.processes {
      var p := v.processes[a.process];
      if a.SaveSnapshot? && p.Loaded? && p.result.Ok? {
        SaveOverwrites(v.snapshots, R.RowOf(p.key, p.result.value));
      } else if a.HookSave? && p.Hooked? {
        SaveOverwrites(v.snapshots, R.RowOf(p.key, p.row));
      }
    }
  }

  /** The snapshot read in one state fits every later one. */
  lemma LatestStaysFit(period: int, actions: seq<Action>, more: seq<Action>, k: Key)
    ensures var snap := Latest(Reach(period, actions).view.snapshots, k);
            var events := Reach(period, actions + more).store.db.events;
            R.ReadFits(period, events, k, snap) && WellNumbered(events)
  {
    ReachReaders(period, actions);
    ReachReaders(period, actions + more);
    RunSplit(period, INIT, actions, more);
    ReachInv(period, actions);
    RunInv(period, Reach(period, actions), more);
    var s, s' := Reach(period, actions), Reach(period, actions + more);
    R.LatestFits(period, s.store.db.events, s.view.snapshots, k);
    R.ReadFitsPersists(period, s.store.db.events, s'.store.db.events, k, Latest(s.view.snapshots, k));
  }

  // ---------- Replays ----------

  /** A replay of the query can use only snapshots that hold the fold. */
  ghost predicate Reliable(period: int, events: seq<Event>, k: Key, q: Query) {
    R.Trusted(period, k, R.Reaches(q, |Of(events, k)|))
  }

  /** A replay whose two reads are separated by any further actions equals the full fold of the events
      it loaded, when the events its snapshot covers meet the query. */
  lemma ReplayIsFullReplay(period: int, actions: seq<Action>, more: seq<Action>, k: Key, q: Query)
    requires Reliable(period, Reach(period, actions + more).store.db.events, k, q)
    requires var snap := Latest(Reach(period, actions).view.snapshots, k);
             var events := Reach(period, actions + more).store.db.events;
             forall i :: 0 <= i < StartVersion(snap, q) <= |Of(events, k)| ==> Matches(q, Of(events, k)[i])
    ensures var snap := Latest(Reach(period, actions).view.snapshots, k);
            var events := Reach(period, actions + more).store.db.events;
            Replay(snap, events, k, q) == FullReplay(k, LoadUntil(events, k, q))
  {
    var snap, events := Latest(Reach(period, actions).view.snapshots, k), Reach(period, actions + more).store.db.events;
    LatestStaysFit(period, actions, more, k);
    R.StartIsSound(period, events, k, q, snap);
    ReplayEqualsFullReplay(events, k, q, snap);
  }

  /** For every query on a history whose creation times do not decrease, and for queries without a time
      bound on any history, the equality holds exactly when the last event the snapshot covers meets the
      query, or no snapshot is used; with a version bound alone, or none, it always holds. */
  lemma ReplayIsExact(period: int, actions: seq<Action>, more: seq<Action>, k: Key, q: Query)
    requires var events := Reach(period, actions + more).store.db.events;
             Reliable(period, events, k, q) && (q.at.None? || TimesIncrease(Of(events, k)))
    ensures var snap := Latest(Reach(period, actions).view.snapshots, k);
            var events := Reach(period, actions + more).store.db.events;
            var log, s := Of(events, k), StartVersion(snap, q);
            && 0 <= s <= |log|
            && (Replay(snap, events, k, q) == FullReplay(k, LoadUntil(events, k, q)) <==>
                  s == 0 || Matches(q, log[s - 1]))
            && (q.at.None? && q.untilId.None? ==> Replay(snap, events, k, q) == FullReplay(k, LoadUntil(events, k, q)))
  {
    var snap, events := Latest(Reach(period, actions).view.snapshots, k), Reach(period, actions + more).store.db.events;
    LatestStaysFit(period, actions, more, k);
    R.StartIsSound(period, events, k, q, snap);
    BoundedReplayIsExact(events, k, q, snap);
  }

  lemma BoundedReplayIsExact(events: seq<Event>, k: Key, q: Query, snap: Option<SnapshotRow>)
    requires WellNumbered(events) && SoundStart(events, k, q, snap) && (q.at.None? || TimesIncrease(Of(events, k)))
    ensures var log, s := Of(events, k), StartVersion(snap, q);
            && 0 <= s <= |log|
            && (Replay(snap, events, k, q) == FullReplay(k, LoadUntil(events, k, q)) <==>
                  s == 0 || Matches(q, log[s - 1]))
            && (q.at.None? && q.untilId.None? ==> Replay(snap, events, k, q) == FullReplay(k, LoadUntil(events, k, q)))
  {
    BoundedLoadIsPrefix(events, k, q);
    ReplayExactOnPrefixes(events, k, q, snap);
    assert Numbered(Of(events, k));
  }

  /** Time travel is stable. Once version v is committed, a replay at v returns the same state, at
      version exactly v, in every later state of every run, whatever is appended or snapshotted in the
      meantime and even if the replay's two reads are far apart. For a user, v must be 1 or lie below the
      first version at which the hook fires; what happens above v does not matter. That this is needed is
      `SnapshotHook.ReplaysExactIff`. */
  lemma TimeTravelIsStable(period: int, past: seq<Action>, meanwhile: seq<Action>, between: seq<Action>, k: Key, v: int)
    requires R.Trusted(period, k, v)
    requires 1 <= v <= |Of(Reach(period, past).store.db.events, k)|
    ensures var snap := Latest(Reach(period, past + meanwhile).view.snapshots, k);
            var events := Reach(period, past + meanwhile + between).store.db.events;
            var state := Fold(New(k), Of(Reach(period, past).store.db.events, k)[..v]);
            && state.Ok? && state.value.Version() == v
            && Replay(snap, events, k, Query(None, Some(v), None)) == state
  {
    C.HistoriesAreAppendOnly(period, past, meanwhile, k);
    C.HistoriesAreAppendOnly(period, past + meanwhile, between, k);
    var events := Reach(period, past + meanwhile + between).store.db.events;
    assert Of(Reach(period, past).store.db.events, k)[..v] == Of(events, k)[..v];
    VersionAnswer(period, past + meanwhile, between, k, v);
  }

  lemma VersionAnswer(period: int, actions: seq<Action>, more: seq<Action>, k: Key, v: int)
    requires R.Trusted(period, k, v)
    ensures var snap := Latest(Reach(period, actions).view.snapshots, k);
            var events := Reach(period, actions + more).store.db.events;
            var log := Of(events, k);
            && (v <= 0 ==> Replay(snap, events, k, Query(None, Some(v), None)) == Err(NotFound))
            && (1 <= v <= |log| ==>
                  && Fold(New(k), log[..v]).Ok? && Fold(New(k), log[..v]).value.Version() == v
                  && Replay(snap, events, k, Query(None, Some(v), None)) == Fold(New(k), log[..v]))
  {
    var snap, events := Latest(Reach(period, actions).view.snapshots, k), Reach(period, actions + more).store.db.events;
    var q := Query(None, Some(v), None);
    LatestStaysFit(period, actions, more, k);
    C.HistoriesAreWellFormed(period, actions + more, k);
    R.TrustedBelow(period, k, v, R.Reaches(q, |Of(events, k)|));
    R.StartIsSound(period, events, k, q, snap);
    VersionReplay(events, k, Some(v), snap);
  }

  /** Nothing exists at version 0 or below. An unbounded replay of a nonempty history always succeeds, at
      the head, and returns the fold when no snapshot can be off. */
  lemma ReplayEnds(period: int, actions: seq<Action>, more: seq<Action>, k: Key, v: int)
    ensures var snap := Latest(Reach(period, actions).view.snapshots, k);
            var events := Reach(period, actions + more).store.db.events;
            var log, head := Of(events, k), Replay(snap, events, k, CURRENT);
            && (v <= 0 ==> Replay(snap, events, k, Query(None, Some(v), None)) == Err(NotFound))
            && (if log == [] then head == Err(NotFound)
                else head.Ok? && head.value.Version() == |log|
                     && (R.Trusted(period, k, |log|) ==> head == Fold(New(k), log)))
  {
    var snap, events := Latest(Reach(period, actions).view.snapshots, k), Reach(period, actions + more).store.db.events;
    if v <= 0 { VersionAnswer(period, actions, more, k, v); }
    LatestStaysFit(period, actions, more, k);
    HeadAnswer(period, actions + more, k, snap);
  }

  /** What a replay returns when its snapshot may come from the user hook: it continues the row that was
      read at some version `h`, or a new aggregate when `h` is 0, with every later event that the snapshot
      covers and then with the events that meet the query. */
  lemma ReplayContinuesRow(period: int, actions: seq<Action>, more: seq<Action>, k: Key, q: Query) returns (h: nat)
    ensures var snap := Latest(Reach(period, actions).view.snapshots, k);
            var events := Reach(period, actions + more).store.db.events;
            var log, s := Of(events, k), StartVersion(snap, q);
            && (h == 0 || (k.aggregateType == UserType && 0 < period <= h)) && h <= s <= |log|
            && Replay(snap, events, k, q)
               == Found(Fold(Projection.RowState(k, log[..h]), log[h..s] + Matching(q, log[s..])))
  {
    var snap, events := Latest(Reach(period, actions).view.snapshots, k), Reach(period, actions + more).store.db.events;
    LatestStaysFit(period, actions, more, k);
    h := R.ReplayFromRoot(period, events, k, q, snap);
  }

  lemma HeadAnswer(period: int, actions: seq<Action>, k: Key, snap: Option<SnapshotRow>)
    requires var events := Reach(period, actions).store.db.events;
             WellNumbered(events) && R.ReadFits(period, events, k, snap)
    ensures var events := Reach(period, actions).store.db.events;
            var log, head := Of(events, k), Replay(snap, events, k, CURRENT);
            if log == [] then head == Err(NotFound)
            else head.Ok? && head.value.Version() == |log|
                 && (R.Trusted(period, k, |log|) ==> head == Fold(New(k), log))
  {
    var events := Reach(period, actions).store.db.events;
    C.HistoriesAreWellFormed(period, actions, k);
    NewHasType(k);
    FoldStamps(New(k), Of(events, k));
    CurrentReachesHead(events, k, snap);
    if R.Trusted(period, k, |Of(events, k)|) {
      R.StartIsSound(period, events, k, CURRENT, snap);
      SoundHead(events, k, snap);
    }
  }

  lemma SoundHead(events: seq<Event>, k: Key, snap: Option<SnapshotRow>)
    requires WellNumbered(events) && SoundStart(events, k, CURRENT, snap) && Fold(New(k), Of(events, k)).Ok?
    ensures Of(events, k) != [] ==> Replay(snap, events, k, CURRENT) == Fold(New(k), Of(events, k))
    ensures Of(events, k) == [] ==> Replay(snap, events, k, CURRENT) == Err(NotFound)
  {
    VersionReplay(events, k, None, snap);
    assert Of(events, k)[..|Of(events, k)|] == Of(events, k);
  }

  // ---------- The cache ----------

  /** The action begins a replay of the aggregate, and so reads a snapshot. */
  predicate Starts(a: Action, k: Key) {
    a.Read? && a.act.StartReplay? && a.act.key == k
  }

  /** Action `i` began a replay of the query, with this as the latest snapshot. */
  ghost predicate Began(period: int, actions: seq<Action>, i: nat, k: Key, q: Query, snap: Option<SnapshotRow>) {
    && i < |actions| && Starts(actions[i], k) && actions[i].act.query == q
    && snap == Latest(Reach(period, actions[..i]).view.snapshots, k)
  }

  /** Action `i` began a replay of the query, and the first `seen` events were the table after `j` actions. */
  ghost predicate Traced(period: int, actions: seq<Action>, i: nat, j: nat,
                         k: Key, q: Query, snap: Option<SnapshotRow>, seen: nat)
  {
    && i <= j <= |actions| && Began(period, actions, i, k, q, snap)
    && seen == |Reach(period, actions[..j]).store.db.events|
  }

  ghost predicate ProcessTraced(period: int, actions: seq<Action>, p: R.Process) {
    && (p.Snapped? ==> exists i: nat :: Began(period, actions, i, p.key, p.query, p.snapshot))
    && (p.Loaded? ==> exists i: nat, j: nat :: Traced(period, actions, i, j, p.key, p.query, p.snapshot, p.seen))
  }

  ghost predicate EntryTraced(period: int, actions: seq<Action>, e: R.CacheEntry) {
    exists i: nat, j: nat :: Traced(period, actions, i, j, Key(UserType, e.id), e.query, e.snapshot, e.seen)
  }

  ghost predicate AllTraced(period: int, actions: seq<Action>, v: R.View) {
    && (forall p :: p in v.processes ==> ProcessTraced(period, actions, v.processes[p]))
    && (forall key :: key in v.cache ==> EntryTraced(period, actions, v.cache[key]))
  }

  lemma BeganLonger(period: int, actions: seq<Action>, a: Action, i: nat, k: Key, q: Query, snap: Option<SnapshotRow>)
    requires Began(period, actions, i, k, q, snap)
    ensures Began(period, actions + [a], i, k, q, snap)
  {
    assert (actions + [a])[..i] == actions[..i];
  }

  lemma LoadLonger(period: int, actions: seq<Action>, a: Action, k: Key, q: Query, snap: Option<SnapshotRow>, seen: nat)
    requires exists i: nat, j: nat :: Traced(period, actions, i, j, k, q, snap, seen)
    ensures exists i: nat, j: nat :: Traced(period, actions + [a], i, j, k, q, snap, seen)
  {
    var i: nat, j: nat :| Traced(period, actions, i, j, k, q, snap, seen);
    BeganLonger(period, actions, a, i, k, q, snap);
    assert (actions + [a])[..j] == actions[..j];
    assert Traced(period, actions + [a], i, j, k, q, snap, seen);
  }

  lemma TracedLonger(period: int, actions: seq<Action>, a: Action, v: R.View)
    requires AllTraced(period, actions, v)
    ensures AllTraced(period, actions + [a], v)
  {
    forall n | n in v.processes ensures ProcessTraced(period, actions + [a], v.processes[n]) {
      var p := v.processes[n];
      assert ProcessTraced(period, actions, p);
      if p.Snapped? {
        var i: nat :| Began(period, actions, i, p.key, p.query, p.snapshot);
        BeganLonger(period, actions, a, i, p.key, p.query, p.snapshot);
      } else if p.Loaded? {
        LoadLonger(period, actions, a, p.key, p.query, p.snapshot, p.seen);
      }
    }
    forall key | key in v.cache ensures EntryTraced(period, actions + [a], v.cache[key]) {
      var e := v.cache[key];
      assert EntryTraced(period, actions, e);
      LoadLonger(period, actions, a, Key(UserType, e.id), e.query, e.snapshot, e.seen);
    }
  }

  /** An action of a reader keeps every trace: what it reads, it reads in the state after `actions`. */
  lemma ActTraced(period: int, actions: seq<Action>, a: R.Act)
    requires AllTraced(period, actions, Reach(period, actions).view)
    ensures AllTraced(period, actions + [Read(a)], Reach(period, actions + [Read(a)]).view)
  {
    var all, s := actions + [Read(a)], Reach(period, actions);
    assert all[..|actions|] == actions;
    var v, v' := s.view, R.NextAct(period, s.store, s.view, a);
    TracedLonger(period, actions, Read(a), v);
    if v' != v {
      match a
      case StartReplay(p, k, q) => assert Began(period, all, |actions|, k, q, Latest(v.snapshots, k));
      case Load(p) =>
        assert ProcessTraced(period, actions, v.processes[p]);
        LoadTraced(period, actions, a, v.processes[p].key, v.processes[p].query, v.processes[p].snapshot);
      case _ =>
    }
  }

  lemma LoadTraced(period: int, actions: seq<Action>, a: R.Act, k: Key, q: Query, snap: Option<SnapshotRow>)
    requires exists i: nat :: Began(period, actions, i, k, q, snap)
    ensures var seen := |Reach(period, actions).store.db.events|;
            exists i: nat, j: nat :: Traced(period, actions + [Read(a)], i, j, k, q, snap, seen)
  {
    var i: nat :| Began(period, actions, i, k, q, snap);
    BeganLonger(period, actions, Read(a), i, k, q, snap);
    assert (actions + [Read(a)])[..|actions|] == actions;
    assert Traced(period, actions + [Read(a)], i, |actions|, k, q, snap, |Reach(period, actions).store.db.events|);
  }

  lemma {:induction false} EntriesTraced(period: int, actions: seq<Action>)
    ensures AllTraced(period, actions, Reach(period, actions).view)
  {
    if actions == [] {
    } else {
      var init, a := actions[..|actions| - 1], actions[|actions| - 1];
      assert actions == init + [a];
      EntriesTraced(period, init);
      if a.Read? {
        ActTraced(period, init, a.act);
      } else {
        TracedLonger(period, init, a, Reach(period, init).view);
      }
    }
  }

  /** Every hit is the answer of a replay made earlier in the run, from the latest snapshot when action `i`
      began it and the table after the first `j`, of a query that records the same bound. */
  lemma HitsAnswerAReplay(period: int, actions: seq<Action>, id: string, q: Query) returns (i: nat, j: nat)
    requires R.CacheHit(Reach(period, actions).view, id, q).Some?
    ensures i <= j <= |actions| && i < |actions| && Starts(actions[i], Key(UserType, id))
    ensures var filler := actions[i].act.query;
            && SameBound(filler, q)
            && Replay(Latest(Reach(period, actions[..i]).view.snapshots, Key(UserType, id)),
                      Reach(period, actions[..j]).store.db.events, Key(UserType, id), filler)
               == Ok(AUser(R.CacheHit(Reach(period, actions).view, id, q).value))
  {
    i, j := FillerTraced(period, actions, id, q);
  }

  lemma FillerTraced(period: int, actions: seq<Action>, id: string, q: Query) returns (i: nat, j: nat)
    requires R.CacheHit(Reach(period, actions).view, id, q).Some?
    ensures var e, k := Reach(period, actions).view.cache[CacheKey(UserType, id, q)], Key(UserType, id);
            && SameBound(e.query, q) && Traced(period, actions, i, j, k, e.query, e.snapshot, e.seen)
            && Replay(e.snapshot, Reach(period, actions[..j]).store.db.events, k, e.query)
               == Ok(AUser(R.CacheHit(Reach(period, actions).view, id, q).value))
  {
    var s, key := Reach(period, actions), CacheKey(UserType, id, q);
    ReachReaders(period, actions);
    EntriesTraced(period, actions);
    R.HitIsFillersAnswer(period, s.store.db.events, s.view, id, q);
    var e := s.view.cache[key];
    assert EntryTraced(period, actions, e);
    i, j :| Traced(period, actions, i, j, Key(UserType, e.id), e.query, e.snapshot, e.seen);
    TableThen(period, actions, j);
  }

  /** An entry that expires is missed, and no other. */
  lemma ExpiryMisses(period: int, actions: seq<Action>, id: string, q: Query, id': string, q': Query)
    ensures var v := Reach(period, actions).view;
            var v' := Next(period, Reach(period, actions), Read(R.Expire(CacheKey(UserType, id, q)))).view;
            R.CacheHit(v', id', q') == if id == id' && SameBound(q, q') then None else R.CacheHit(v, id', q')
  {
    KeysCoincide(UserType, id, q, UserType, id', q');
  }

  /** The user is not replayed for another query that records the same bound. */
  ghost predicate KeptApart(actions: seq<Action>, id: string, q: Query) {
    forall i :: 0 <= i < |actions| && Starts(actions[i], Key(UserType, id)) && SameBound(actions[i].act.query, q) ==>
                  actions[i].act.query == q
  }

  /** If queries have a single bound, and times are within the years that an int64 of nanoseconds covers,
      no two of them record the same bound. */
  lemma SafeQueriesAreKeptApart(actions: seq<Action>, id: string, q: Query)
    requires CacheSafe(q)
    requires forall i :: 0 <= i < |actions| && Starts(actions[i], Key(UserType, id)) ==> CacheSafe(actions[i].act.query)
    ensures KeptApart(actions, id, q)
  {
    forall i | 0 <= i < |actions| && Starts(actions[i], Key(UserType, id)) && SameBound(actions[i].act.query, q)
      ensures actions[i].act.query == q
    {
      var filler := actions[i].act.query;
      KeysCoincide(UserType, id, filler, UserType, id, q);
      SingleBoundKeysCoincide(UserType, id, filler, UserType, id, q);
    }
  }

  /** Cache agreement: if the user is not replayed for another query that records the same bound, every hit
      is the answer of a replay of the very same query, at two earlier moments of the run. */
  lemma HitsAgreeWithReplay(period: int, actions: seq<Action>, id: string, q: Query) returns (i: nat, j: nat)
    requires KeptApart(actions, id, q)
    requires R.CacheHit(Reach(period, actions).view, id, q).Some?
    ensures i <= j <= |actions|
    ensures Replay(Latest(Reach(period, actions[..i]).view.snapshots, Key(UserType, id)),
                   Reach(period, actions[..j]).store.db.events, Key(UserType, id), q)
            == Ok(AUser(R.CacheHit(Reach(period, actions).view, id, q).value))
  {
    i, j := HitsAnswerAReplay(period, actions, id, q);
    assert actions[i].act.query == q;
  }

  /** The table at an earlier moment is what the first rows of the table are now. */
  lemma TableThen(period: int, actions: seq<Action>, j: nat)
    requires j <= |actions|
    ensures var earlier, now := Reach(period, actions[..j]).store.db.events, Reach(period, actions).store.db.events;
            |earlier| <= |now| && now[..|earlier|] == earlier
  {
    assert actions == actions[..j] + actions[j..];
    TableGrows(period, actions[..j], actions[j..]);
  }

  lemma TableGrows(period: int, past: seq<Action>, later: seq<Action>)
    ensures Reach(period, past).store.db.events <= Reach(period, past + later).store.db.events
  {
    RunSplit(period, INIT, past, later);
    ReachInv(period, past);
    RunInv(period, Reach(period, past), later);
  }

  /** A hit for a version is what an uncached replay returns now if and only if it is at that version, or
      still at the head. So once it has reached its version it never goes stale. */
  lemma VersionHitIsCurrentIff(period: int, actions: seq<Action>, id: string, v: int)
    requires KeptApart(actions, id, Query(None, Some(v), None))
    requires var s := Reach(period, actions); var q := Query(None, Some(v), None);
             R.CacheHit(s.view, id, q).Some? && Reliable(period, s.store.db.events, Key(UserType, id), q)
    ensures var s := Reach(period, actions); var k, q := Key(UserType, id), Query(None, Some(v), None);
            var hit, head := R.CacheHit(s.view, id, q).value, |Of(s.store.db.events, k)|;
            && 1 <= hit.version <= v && hit.version <= head
            && (Replay(Latest(s.view.snapshots, k), s.store.db.events, k, q) == Ok(AUser(hit)) <==>
                  hit.version == v || hit.version == head)
  {
    var s, k, q := Reach(period, actions), Key(UserType, id), Query(None, Some(v), None);
    var i, j := FillerTraced(period, actions, id, q);
    assert s.view.cache[CacheKey(UserType, id, q)].query == q;
    ReachReaders(period, actions);
    C.HistoriesAreWellFormed(period, actions, k);
    R.LatestFits(period, s.store.db.events, s.view.snapshots, k);
    R.VersionHitIsCurrentIff(period, s.store.db.events, s.view, id, v, Latest(s.view.snapshots, k));
  }
}
