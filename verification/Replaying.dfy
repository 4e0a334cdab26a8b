/** internal/replay/engine.go, `replay`, as a program: it mutates an aggregate object while it reads the
    snapshot and then the events, with other processes running in between. */
module Replaying {
  import opened Domain
  import opened EventLog
  import opened Aggregates
  import opened AggregateObjects
  import opened ReplayEngine
  import opened Database
  import opened System
  import LoadQuery
  import R = Readers
  import RT = ReplayTheorems

  lemma BeyondStep(v: int, log: seq<Event>, i: nat)
    requires i < |log|
    ensures Beyond(v, log[..i + 1]) ==
            if log[i].version <= v then Beyond(v, log[..i]) else Beyond(v, log[..i]) + [log[i]]
  {
    assert log[..i + 1][..i] == log[..i];
  }

  /** An event that fails to apply ends the fold. */
  lemma FailureStays(a: Aggregate, v: int, log: seq<Event>, i: nat)
    requires i <= |log| && Fold(a, Beyond(v, log[..i])).Err?
    ensures Fold(a, Beyond(v, log)) == Fold(a, Beyond(v, log[..i]))
  {
    assert log == log[..i] + log[i..];
    BeyondSplit(v, log[..i], log[i..]);
    FoldSplit(a, Beyond(v, log[..i]), Beyond(v, log[i..]));
  }

  lemma FoldOneMore(start: Aggregate, v: int, events: seq<Event>, i: nat, a: Aggregate)
    requires i < |events| && Fold(start, Beyond(v, events[..i])) == Ok(a)
    ensures Fold(start, Beyond(v, events[..i + 1])) == if events[i].version <= v then Ok(a) else Apply(a, events[i])
  {
    BeyondStep(v, events, i);
    FoldStep(start, Beyond(v, events[..i]), events[i]);
  }

  /** One turn of the replay loop: an event the snapshot covers is skipped. */
  method SkipOrApply(agg: Ref, e: Event, startVersion: int) returns (r: Result<()>)
    requires agg.Valid()
    modifies agg.Objects()
    ensures agg.Valid() && fresh(agg.Objects() - old(agg.Objects()))
    ensures e.version <= startVersion ==> r.Ok? && agg.Value() == old(agg.Value())
    ensures e.version > startVersion ==>
              Apply(old(agg.Value()), e) == match r { case Ok(_) => Ok(agg.Value()) case Err(x) => Err(x) }
  {
    if e.version <= startVersion { return Ok(()); }
    ApplyStamps(agg.Value(), e);
    var ok := ApplyTo(agg, e);
    r := if ok then Ok(()) else Err(ApplyFailed(e.version));
  }

  /** The replay loop over the loaded events. */
  method ApplyLoaded(agg: Ref, events: seq<Event>, startVersion: int) returns (r: Result<()>)
    requires agg.Valid()
    modifies agg.Objects()
    ensures agg.Valid() && fresh(agg.Objects() - old(agg.Objects()))
    ensures Fold(old(agg.Value()), Beyond(startVersion, events)) ==
            match r { case Ok(_) => Ok(agg.Value()) case Err(x) => Err(x) }
  {
    ghost var start := agg.Value();
    assert events[..0] == [];
    for i := 0 to |events|
      invariant agg.Valid() && fresh(agg.Objects() - old(agg.Objects()))
      invariant Fold(start, Beyond(startVersion, events[..i])) == Ok(agg.Value())
    {
      FoldOneMore(start, startVersion, events, i, agg.Value());
      r := SkipOrApply(agg, events[i], startVersion);
      if r.Err? {
        FailureStays(start, startVersion, events, i + 1);
        return;
      }
    }
    assert events[..|events|] == events;
    r := Ok(());
  }

  /** The first half of a replay: a fresh aggregate, overwritten by the snapshot unless the query names
      an older version. */
  method Restore(k: Key, snap: Option<SnapshotRow>, q: Query) returns (agg: Ref, startVersion: int, ok: bool)
    ensures agg.Valid() && fresh(agg.Objects())
    ensures startVersion == if ok then StartVersion(snap, q) else 0
    ensures Start(k, snap, q) == if ok then Ok(agg.Value()) else Err(SnapshotUnreadable)
  {
    agg := Create(k);
    startVersion, ok := 0, true;
    if snap.Some? {
      var useSnapshot := true;
      if q.version.Some? && q.version.value < snap.value.version { useSnapshot := false; }
      if useSnapshot {
        ok := UnmarshalInto(agg, snap.value.state);
        if ok { startVersion := snap.value.version; }
      } else {
        agg := Create(k);
      }
    }
  }

  /** What a replay hands to its caller. */
  function Returned(r: Result<Ref>): Result<Aggregate>
    requires r.Ok? ==> r.value.Valid()
    reads if r.Ok? && r.value.OrderRef? then {r.value.order} else {}, if r.Ok? then r.value.Objects() else {}
  {
    match r
    case Ok(a) => Ok(a.Value())
    case Err(x) => Err(x)
  }

  /** The two reads of a replay, with the statements of others between them. */
  function AfterReplay(period: int, s: State, p: nat, k: Key, q: Query, others: seq<Action>): State {
    var started := Next(period, s, Read(R.StartReplay(p, k, q)));
    Next(period, Run(period, started, Foreign(Process(p), others)), Read(R.Load(p)))
  }

  predicate HasLoaded(s: State, p: nat, k: Key, q: Query, snap: Option<SnapshotRow>, result: Result<Aggregate>) {
    && p in s.view.processes
    && s.view.processes[p] == R.Loaded(k, q, snap, |s.store.db.events|, result)
  }

  lemma StartStep(period: int, s: State, p: nat, k: Key, q: Query)
    requires p !in s.view.processes
    ensures var s' := Next(period, s, Read(R.StartReplay(p, k, q)));
            && s'.store == s.store && s'.view.snapshots == s.view.snapshots && s'.view.cache == s.view.cache
            && p in s'.view.processes
            && s'.view.processes[p] == R.Snapped(k, q, Latest(s.view.snapshots, k))
  {
  }

  lemma LoadStep(period: int, s: State, p: nat, k: Key, q: Query, snap: Option<SnapshotRow>)
    requires p in s.view.processes && s.view.processes[p] == R.Snapped(k, q, snap)
    ensures var s' := Next(period, s, Read(R.Load(p)));
            && s'.store == s.store && s'.view.snapshots == s.view.snapshots && s'.view.cache == s.view.cache
            && HasLoaded(s', p, k, q, snap, Replay(snap, s.store.db.events, k, q))
  {
  }

  /** The snapshot that a replay read first fits the state in which it loads the events. */
  lemma SnapshotStillFits(period: int, s: State, s': State, k: Key)
    requires Reachable(period, s) && Reachable(period, s') && Extends(s, s')
    ensures WellNumbered(s'.store.db.events)
    ensures R.ReadFits(period, s'.store.db.events, k, Latest(s.view.snapshots, k))
  {
    ReachableInv(period, s);
    ReachableInv(period, s');
    R.LatestFits(period, s.store.db.events, s.view.snapshots, k);
    R.ReadFitsPersists(period, s.store.db.events, s'.store.db.events, k, Latest(s.view.snapshots, k));
  }

  lemma EngineIsFullReplay(period: int, s: State, s': State, k: Key, q: Query)
    requires Reachable(period, s) && Reachable(period, s') && Extends(s, s')
    requires RT.Reliable(period, s'.store.db.events, k, q) && q.at.None? && q.untilId.None?
    ensures Replay(Latest(s.view.snapshots, k), s'.store.db.events, k, q)
            == FullReplay(k, LoadUntil(s'.store.db.events, k, q))
  {
    SnapshotStillFits(period, s, s', k);
    R.StartIsSound(period, s'.store.db.events, k, q, Latest(s.view.snapshots, k));
    RT.BoundedReplayIsExact(s'.store.db.events, k, q, Latest(s.view.snapshots, k));
  }

  /** `replay`: the object it returns, or the error, is what the replay function gives for the snapshot
      it read first and the events it loaded later. Without time and id bounds that is
      the full fold of the loaded events, when no snapshot it can use is off. */
  method ReplayAggregate(db: Connection, p: nat, k: Key, q: Query, others: seq<Action>)
    returns (r: Result<Ref>, ghost snap: Option<SnapshotRow>)
    requires db.Valid() && p !in db.state.view.processes
    modifies db
    ensures db.Valid() && Extends(old(db.state), db.state)
    ensures r.Ok? ==> r.value.Valid() && fresh(r.value.Objects())
    ensures snap == Latest(old(db.state).view.snapshots, k)
    ensures HasLoaded(db.state, p, k, q, snap, Returned(r))
    ensures Returned(r) == Replay(snap, db.state.store.db.events, k, q)
    ensures RT.Reliable(db.period, db.state.store.db.events, k, q) && q.at.None? && q.untilId.None? ==>
              Returned(r) == FullReplay(k, LoadUntil(db.state.store.db.events, k, q))
    ensures db.state == AfterReplay(db.period, old(db.state), p, k, q, others)
    ensures others == [] ==>
              && db.state.store == old(db.state).store && db.state.view.snapshots == old(db.state).view.snapshots
              && db.state.view.cache == old(db.state).view.cache
  {
    StartStep(db.period, db.state, p, k, q);
    db.Do(Read(R.StartReplay(p, k, q)));
    var latest := db.state.view.processes[p].snapshot;
    snap := latest;
    db.Others(Process(p), others);
    LoadStep(db.period, db.state, p, k, q, snap);
    db.Do(Read(R.Load(p)));
    r := Evaluate(k, q, latest, db.state.store.db.events);
    if RT.Reliable(db.period, db.state.store.db.events, k, q) && q.at.None? && q.untilId.None? {
      EngineIsFullReplay(db.period, old(db.state), db.state, k, q);
    }
  }

  /** What the engine computes from the two reads. */
  method Evaluate(k: Key, q: Query, snap: Option<SnapshotRow>, events: seq<Event>) returns (r: Result<Ref>)
    ensures r.Ok? ==> r.value.Valid() && fresh(r.value.Objects())
    ensures Returned(r) == Replay(snap, events, k, q)
  {
    var agg, startVersion, ok := Restore(k, snap, q);
    if !ok { return Err(SnapshotUnreadable); }
    var loaded := LoadQuery.LoadEventsUntil(events, k, q);
    var done := ApplyLoaded(agg, loaded, startVersion);
    if done.Err? { return Err(done.error); }
    if agg.Value().Version() == 0 { return Err(NotFound); }
    r := Ok(agg);
  }
}
