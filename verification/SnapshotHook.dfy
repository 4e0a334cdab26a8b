/** internal/user/service.go, `maybeSnapshot`: the user service saves the read-model row as a snapshot
    every `period` versions. The row is the last event alone, not the fold, so the hook is harmless
    exactly when it never fires. */
module SnapshotHook {
  import opened Domain
  import opened EventLog
  import opened Aggregates
  import opened ReplayEngine
  import opened System
  import C = CommandTheorems
  import RT = ReplayTheorems
  import W = Writers
  import R = Readers
  import opened Scenarios
  import Projection
  import Batches
  import U = UserAggregate

  const NO_CHANGE := UserUpdated(None, None, None, None)

  /** A user named "a", followed by updates that set nothing. */
  ghost predicate Plain(log: seq<Event>) {
    && (|log| > 0 ==> log[0].payload == CREATE)
    && (forall i :: 1 <= i < |log| ==> log[i].payload == NO_CHANGE)
  }

  ghost predicate MadeNext(s: State, k: Key, t: nat) {
    && t in s.store.txs && s.store.txs[t].phase.Committed?
    && s.store.txs[t].request.key == k && s.store.txs[t].phase.event.version == t + 1
  }

  /** `n` commands have made a plain history of `n` events, command `j` the one at version `j + 1`. */
  ghost predicate PlainState(s: State, k: Key, n: nat) {
    && |Of(s.store.db.events, k)| == n && Plain(Of(s.store.db.events, k))
    && s.view == R.EMPTY && Idle(s.store) && (forall t :: t in s.store.txs ==> t < n)
    && (forall j :: 0 <= j < n ==> MadeNext(s, k, j))
  }

  function PlainRequest(k: Key, n: nat): W.Request {
    W.Request(k, None, if n == 0 then CREATE else NO_CHANGE, n == 0)
  }

  lemma PlainStep(period: int, s: State, k: Key, n: nat)
    requires k.aggregateType == UserType && WellNumbered(s.store.db.events) && PlainState(s, k, n)
    ensures PlainState(Run(period, s, Alone(n, PlainRequest(k, n))), k, n + 1)
  {
    AloneAppends(period, s, n, PlainRequest(k, n));
    PlainAppended(s, Run(period, s, Alone(n, PlainRequest(k, n))), k, n);
  }

  lemma PlainAppended(s: State, s': State, k: Key, n: nat)
    requires PlainState(s, k, n) && Appended(s, s', n, s.store.clock, PlainRequest(k, n))
    ensures PlainState(s', k, n + 1)
  {
    PlainGrows(Of(s.store.db.events, k), Of(s'.store.db.events, k));
    forall j | 0 <= j < n ensures MadeNext(s', k, j) {
      assert MadeNext(s, k, j);
    }
  }

  lemma PlainGrows(log: seq<Event>, log': seq<Event>)
    requires Plain(log) && |log'| == |log| + 1 && log'[..|log|] == log
    requires log'[|log|].payload == if log == [] then CREATE else NO_CHANGE
    ensures Plain(log')
  {
    assert forall i :: 0 <= i < |log| ==> log'[i] == log[i];
  }

  lemma {:induction false} PlainHistory(period: int, k: Key, n: nat) returns (actions: seq<Action>)
    requires k.aggregateType == UserType
    ensures PlainState(Reach(period, actions), k, n)
  {
    if n == 0 {
      actions := [];
    } else {
      actions := PlainHistory(period, k, n - 1);
      C.ReachNumbered(period, actions);
      PlainStep(period, Reach(period, actions), k, n - 1);
      RunSplit(period, INIT, actions, Alone(n - 1, PlainRequest(k, n - 1)));
      actions := actions + Alone(n - 1, PlainRequest(k, n - 1));
    }
  }

  lemma {:induction false} PlainKeepsName(k: Key, log: seq<Event>)
    requires k.aggregateType == UserType && Plain(log) && log != []
    ensures Fold(New(k), log).Ok? && Fold(New(k), log).value.AUser? && Fold(New(k), log).value.user.name == "a"
  {
    var init := log[..|log| - 1];
    if init != [] {
      PlainKeepsName(k, init);
    } else {
      assert Fold(New(k), init) == Ok(New(k));
    }
  }

  ghost predicate ReturnsUser(r: Result<Aggregate>, name: string, v: int) {
    r.Ok? && r.value.AUser? && r.value.user.name == name && r.value.Version() == v
  }

  /** A plain history of `v` events, and then the hook reads the row, whose name is
      blank, and saves it. From version 2 on that row is not the fold. */
  lemma HookSavesBlank(period: int, k: Key, v: nat) returns (before: seq<Action>, hook: seq<Action>, row: Aggregate)
    requires period > 0 && v >= period && v >= 2 && k.aggregateType == UserType
    ensures var s, s' := Reach(period, before), Reach(period, before + hook);
            && PlainState(s, k, v) && s'.store == s.store && WellNumbered(s.store.db.events)
            && ReturnsUser(Ok(row), "", v) && !Faithful(s.store.db.events, SnapshotRow(k, v, Marshal(row)))
            && s'.view.snapshots == [SnapshotRow(k, v, Marshal(row))]
  {
    before := PlainHistory(period, k, v);
    var s := Reach(period, before);
    assert MadeNext(s, k, period - 1);
    PlainRow(period, before, k, v);
    HookRuns(period, before, k, period - 1);
    hook := [Read(R.HookRead(0, period - 1))] + [Read(R.HookSave(0))];
    assert before + hook == before + [Read(R.HookRead(0, period - 1))] + [Read(R.HookSave(0))];
    C.ReachNumbered(period, before);
    row := Projection.ReadBack(s.store.db.rows[k]);
  }

  /** When the hook fires at version `period` it reads the row, which by then may be at any later version
      `v`, and stores it. */
  lemma HookBreaksSnapshots(period: int, id: string, v: int) returns (actions: seq<Action>, row: SnapshotRow)
    requires period > 0 && v >= period && v >= 2
    ensures row in Reach(period, actions).view.snapshots && row.key == Key(UserType, id) && row.version == v
    ensures !Faithful(Reach(period, actions).store.db.events, row)
  {
    var before, hook, saved := HookSavesBlank(period, Key(UserType, id), v);
    actions, row := before + hook, SnapshotRow(Key(UserType, id), v, Marshal(saved));
  }

  /** The row of a plain history holds no name, so as a snapshot it is unfaithful. */
  lemma PlainRow(period: int, before: seq<Action>, k: Key, v: int)
    requires v >= 2 && k.aggregateType == UserType && PlainState(Reach(period, before), k, v)
    ensures var db := Reach(period, before).store.db;
            && k in db.rows && Projection.ReadBack(db.rows[k]).Version() == v
            && Projection.ReadBack(db.rows[k]).AUser? && Projection.ReadBack(db.rows[k]).user.name == ""
            && !Faithful(db.events, SnapshotRow(k, v, Marshal(Projection.ReadBack(db.rows[k]))))
  {
    var s := Reach(period, before);
    var log := Of(s.store.db.events, k);
    C.RowsTrackHistories(period, before, k);
    PlainKeepsName(k, log);
    assert log[..v] == log && log[v - 1].payload == NO_CHANGE;
    var state := Projection.ReadBack(s.store.db.rows[k]);
    assert state.AUser? && state.user.name == "";
  }

  lemma HookRuns(period: int, before: seq<Action>, k: Key, t: nat)
    requires period > 0 && k.aggregateType == UserType
    requires var s := Reach(period, before);
             s.view == R.EMPTY && k in s.store.db.rows && t + 1 == period && MadeNext(s, k, t)
    ensures var s := Reach(period, before);
            var state := Projection.ReadBack(s.store.db.rows[k]);
            var s' := Reach(period, before + [Read(R.HookRead(0, t))] + [Read(R.HookSave(0))]);
            && s'.store == s.store && s'.view.snapshots == [SnapshotRow(k, state.Version(), Marshal(state))]
  {
    var s := Reach(period, before);
    var a, b := [Read(R.HookRead(0, t))], [Read(R.HookSave(0))];
    assert R.HookFires(period, period);
    assert (before + a)[..|before|] == before && (before + a + b)[..|before + a|] == before + a;
    var s1 := Reach(period, before + a);
    assert s1 == s.(view := R.View([], map[], map[0 := R.Hooked(k, Projection.ReadBack(s.store.db.rows[k]))]));
  }

  // ---------- What the hook does ----------

  /** After a committed command on a user the hook reads the row exactly when it is configured and the version
      that was written is a multiple of the period. */
  lemma HookReadsIff(period: int, actions: seq<Action>, p: nat, t: nat)
    requires var s := Reach(period, actions);
             && p !in s.view.processes && t in s.store.txs && s.store.txs[t].phase.Committed?
             && s.store.txs[t].request.key.aggregateType == UserType
    ensures var s, s' := Reach(period, actions), Next(period, Reach(period, actions), Read(R.HookRead(p, t)));
            var k, version := s.store.txs[t].request.key, s.store.txs[t].phase.event.version;
            && (period > 0 && (exists m: nat :: version == m * period) <==> s' != s)
            && (s' != s ==> k in s.store.db.rows
                            && s' == s.(view := s.view.(processes :=
                                 s.view.processes[p := R.Hooked(k, Projection.ReadBack(s.store.db.rows[k]))])))
  {
    var s := Reach(period, actions);
    var k, version := s.store.txs[t].request.key, s.store.txs[t].phase.event.version;
    ReachInv(period, actions);
    R.CommittedStands(s.store, t);
    C.RowsTrackHistories(period, actions, k);
    FiresAtMultiples(period, version);
    HookReadSteps(period, s, p, t);
  }

  lemma FiresAtMultiples(period: int, version: int)
    requires version >= 1
    ensures R.HookFires(period, version) <==> period > 0 && exists m: nat :: version == m * period
  {
    if R.HookFires(period, version) {
      var m: nat := version / period;
      assert version == m * period;
    }
    if period > 0 && exists m: nat :: version == m * period {
      var m: nat :| version == m * period;
      Batches.Quotient(version, period, m, 0);
    }
  }

  lemma HookReadSteps(period: int, s: State, p: nat, t: nat)
    requires p !in s.view.processes && t in s.store.txs && s.store.txs[t].phase.Committed?
    requires s.store.txs[t].request.key.aggregateType == UserType && s.store.txs[t].request.key in s.store.db.rows
    ensures var k := s.store.txs[t].request.key;
            Next(period, s, Read(R.HookRead(p, t)))
            == if R.HookFires(period, s.store.txs[t].phase.event.version)
               then s.(view := s.view.(processes :=
                         s.view.processes[p := R.Hooked(k, Projection.ReadBack(s.store.db.rows[k]))]))
               else s
  {
  }

  /** What the hook saves of a user whose last event is the deletion: a deleted user without name and email, at
      the version of the deletion. */
  lemma HookSavesDeletion(period: int, actions: seq<Action>, id: string, p: nat, t: nat, m: nat)
    returns (row: SnapshotRow)
    requires var s := Reach(period, actions); var log := Of(s.store.db.events, Key(UserType, id));
             && p !in s.view.processes && t in s.store.txs && s.store.txs[t].phase.Committed?
             && s.store.txs[t].request.key == Key(UserType, id)
             && period > 0 && s.store.txs[t].phase.event.version == m * period
             && log != [] && log[|log| - 1].payload == UserDeleted
    ensures var k, s := Key(UserType, id), Reach(period, actions);
            var s' := Next(period, Next(period, s, Read(R.HookRead(p, t))), Read(R.HookSave(p)));
            && row in s'.view.snapshots && row.key == k && row.version == |Of(s.store.db.events, k)|
            && var u := Unmarshal(New(k), row.state);
               u.Ok? && u.value.AUser? && u.value.user.deleted && u.value.user.name == "" && u.value.user.email == ""
  {
    var k, s := Key(UserType, id), Reach(period, actions);
    HookReadsIff(period, actions, p, t);
    C.LastEventShown(period, actions, k);
    C.RowsTrackHistories(period, actions, k);
    var stored := s.store.db.rows[k];
    DeletionShows(k, Of(s.store.db.events, k), stored);
    var a := Projection.ReadBack(stored);
    row := SnapshotRow(k, a.Version(), Marshal(a));
    SnapshotRoundTrip(a, k);
    SaveMembers(s.view.snapshots, row);
  }

  lemma DeletionShows(k: Key, log: seq<Event>, row: Projection.Row)
    requires k.aggregateType == UserType && log != [] && log[|log| - 1].payload == UserDeleted
    requires Projection.ProjectEvent(k, Projection.RowAfter(k, log[..|log| - 1]), log[|log| - 1]) == Ok(row)
    ensures var a := Projection.ReadBack(row);
            a.AUser? && a.user.deleted && a.user.name == "" && a.user.email == ""
  {
    Projection.UserRowShows(k, Projection.RowAfter(k, log[..|log| - 1]), log[|log| - 1]);
    Projection.ReadBackKeeps(row);
  }

  // ---------- When snapshots are faithful ----------

  /** The snapshots of users at version `v` are faithful after every run if and only if the hook does not
      fire at or below `v`, or `v` is at most 1. */
  lemma UserSnapshotsFaithfulIff(period: int, v: int)
    ensures (period <= 0 || v < period || v <= 1) <==>
            forall actions, row :: row in Reach(period, actions).view.snapshots
                                   && row.key.aggregateType == UserType && row.version == v ==>
                                     Faithful(Reach(period, actions).store.db.events, row)
  {
    if period <= 0 || v < period || v <= 1 {
      forall actions, row | row in Reach(period, actions).view.snapshots
                            && row.key.aggregateType == UserType && row.version == v
        ensures Faithful(Reach(period, actions).store.db.events, row)
      {
        RT.SnapshotsAreFaithful(period, actions, row);
      }
    } else {
      var actions, row := HookBreaksSnapshots(period, "", v);
    }
  }

  // ---------- Replays ----------

  /** With the latest snapshot after `actions` and the table as it is after `more` as well, a replay at
      version `v` returns the fold of the first `v` events, once there are that many. */
  ghost predicate ExactAt(period: int, actions: seq<Action>, more: seq<Action>, k: Key, v: nat) {
    var snap, events := Latest(Reach(period, actions).view.snapshots, k), Reach(period, actions + more).store.db.events;
    v <= |Of(events, k)| ==> Replay(snap, events, k, Query(None, Some(v), None)) == Fold(New(k), Of(events, k)[..v])
  }

  /** The same for an unbounded replay that finds the head at `v`. */
  ghost predicate ExactAtHead(period: int, actions: seq<Action>, more: seq<Action>, k: Key, v: nat) {
    var snap, events := Latest(Reach(period, actions).view.snapshots, k), Reach(period, actions + more).store.db.events;
    |Of(events, k)| == v ==> Replay(snap, events, k, CURRENT) == Fold(New(k), Of(events, k))
  }

  /** A run in which time travel goes wrong: a user named "a" is at version `v`, and a replay at `v`, like
      an unbounded one, returns the fold before the hook has saved the row, and a blank name after. */
  lemma ReplayLosesName(period: int, id: string, v: nat) returns (before: seq<Action>, hook: seq<Action>)
    requires period > 0 && v >= period && v >= 2
    ensures var k, at := Key(UserType, id), Query(None, Some(v), None);
            var s, s' := Reach(period, before), Reach(period, before + hook);
            var events := s.store.db.events;
            && s'.store == s.store && |Of(events, k)| == v && ReturnsUser(Fold(New(k), Of(events, k)), "a", v)
            && Replay(Latest(s.view.snapshots, k), events, k, at) == Fold(New(k), Of(events, k))
            && Replay(Latest(s.view.snapshots, k), events, k, CURRENT) == Fold(New(k), Of(events, k))
            && ReturnsUser(Replay(Latest(s'.view.snapshots, k), events, k, at), "", v)
            && ReturnsUser(Replay(Latest(s'.view.snapshots, k), events, k, CURRENT), "", v)
  {
    var k := Key(UserType, id);
    var row;
    before, hook, row := HookSavesBlank(period, k, v);
    var events := Reach(period, before).store.db.events;
    PlainReplays(events, k, v);
    LatestIsGreatest([SnapshotRow(k, v, Marshal(row))], k);
    RowReplays(events, k, row, Query(None, Some(v), None));
    RowReplays(events, k, row, CURRENT);
  }

  /** Without a snapshot the replays of a plain history return its fold. */
  lemma PlainReplays(events: seq<Event>, k: Key, v: nat)
    requires WellNumbered(events) && v == |Of(events, k)| >= 1
    requires k.aggregateType == UserType && Plain(Of(events, k))
    ensures ReturnsUser(Fold(New(k), Of(events, k)), "a", v)
    ensures Replay(None, events, k, Query(None, Some(v), None)) == Fold(New(k), Of(events, k))
    ensures Replay(None, events, k, CURRENT) == Fold(New(k), Of(events, k))
  {
    var log := Of(events, k);
    PlainKeepsName(k, log);
    VersionReplay(events, k, Some(v), None);
    VersionReplay(events, k, None, None);
    assert log[..v] == log;
  }

  /** A replay from the saved row, at the head, returns that row. */
  lemma RowReplays(events: seq<Event>, k: Key, row: Aggregate, q: Query)
    requires WellNumbered(events) && row.AUser? && k.aggregateType == UserType
    requires row.Version() == |Of(events, k)| >= 1
    requires q == CURRENT || q == Query(None, Some(row.Version()), None)
    ensures Replay(Some(SnapshotRow(k, row.Version(), Marshal(row))), events, k, q) == Ok(row)
  {
    var log := Of(events, k);
    assert Numbered(log);
    LoadIsMatching(events, k, q);
    BeyondMatching(q, log, |log|);
    SnapshotRoundTrip(row, k);
    assert log[|log|..] == [];
  }

  /** Replays at version `v` return the fold in all runs if and only if the hook does not fire at or below
      `v`, or `v` is 1; and likewise for unbounded replays that find the head at `v`. */
  lemma ReplaysExactIff(period: int, k: Key, v: nat)
    requires v >= 1
    ensures R.Trusted(period, k, v) <==> forall actions, more :: ExactAt(period, actions, more, k, v)
    ensures R.Trusted(period, k, v) <==> forall actions, more :: ExactAtHead(period, actions, more, k, v)
  {
    if R.Trusted(period, k, v) {
      forall actions, more ensures ExactAt(period, actions, more, k, v) {
        RT.VersionAnswer(period, actions, more, k, v);
      }
      forall actions, more ensures ExactAtHead(period, actions, more, k, v) {
        RT.ReplayEnds(period, actions, more, k, v);
      }
    } else {
      var before, hook := ReplayLosesName(period, k.id, v);
      assert k == Key(UserType, k.id) && before + hook + [] == before + hook;
      var log := Of(Reach(period, before).store.db.events, k);
      assert log[..v] == log;
      assert !ExactAt(period, before + hook, [], k, v) && !ExactAtHead(period, before + hook, [], k, v);
    }
  }

  /** Every snapshot is faithful after every run if and only if the hook never fires. */
  lemma SnapshotsFaithfulIffHookSilent(period: int)
    ensures period <= 0 <==>
            forall actions, row :: row in Reach(period, actions).view.snapshots ==>
                                     Faithful(Reach(period, actions).store.db.events, row)
  {
    if period <= 0 {
      forall actions, row | row in Reach(period, actions).view.snapshots
        ensures Faithful(Reach(period, actions).store.db.events, row)
      {
        RT.SnapshotsAreFaithful(period, actions, row);
      }
    } else {
      var actions, row := HookBreaksSnapshots(period, "", period + 1);
    }
  }
}
