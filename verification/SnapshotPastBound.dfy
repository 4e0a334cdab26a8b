/** internal/replay/engine.go chooses a snapshot by its version alone. Runs in which a replay bounded by a
    time then starts from a snapshot that holds events the load leaves out. */
module SnapshotPastBound {
  import opened Domain
  import opened EventLog
  import opened Aggregates
  import opened ReplayEngine
  import opened System
  import opened Scenarios
  import C = CommandTheorems
  import R = Readers

  const AT_ZERO := Query(Some(0), None, None)

  /** After the builder's turn at an aggregate that nobody has replayed yet, its snapshot is the fold of
      its history, and a replay at time 0 folds that and the matching rest, which is nothing. */
  lemma BuiltThenReplayed(period: int, before: seq<Action>, k: Key) returns (actions: seq<Action>)
    requires Reach(period, before).view == R.EMPTY && Of(Reach(period, before).store.db.events, k) != []
    ensures var s, events := Reach(period, actions), Reach(period, before).store.db.events;
            && s.store.db.events == events && WellNumbered(events) && Fold(New(k), Of(events, k)).Ok?
            && Latest(s.view.snapshots, k).Some? && Latest(s.view.snapshots, k).value.version == |Of(events, k)|
            && Replay(Latest(s.view.snapshots, k), events, k, AT_ZERO) == Fold(New(k), Of(events, k))
            && Fold(New(k), Of(events, k)).value.Version() == |Of(events, k)|
  {
    var s := Reach(period, before);
    var events := s.store.db.events;
    var log := Of(events, k);
    C.ReachNumbered(period, before);
    C.HistoriesAreWellFormed(period, before, k);
    assert log[..|log|] == log;
    VersionReplay(events, k, None, None);
    BuildRuns(period, s, k);
    RunSplit(period, INIT, before, ReplayThen(k, CURRENT, R.SaveSnapshot(0)));
    actions := before + ReplayThen(k, CURRENT, R.SaveSnapshot(0));
    WholeSnapshot(events, k, R.RowOf(k, Fold(New(k), log).value));
  }

  lemma WholeSnapshot(events: seq<Event>, k: Key, row: SnapshotRow)
    requires WellNumbered(events) && Of(events, k) != [] && Fold(New(k), Of(events, k)).Ok?
    requires Fold(New(k), Of(events, k)).value.Version() == |Of(events, k)|
    requires row == R.RowOf(k, Fold(New(k), Of(events, k)).value)
    ensures Replay(Some(row), events, k, AT_ZERO) == Fold(New(k), Of(events, k))
  {
    var log := Of(events, k);
    assert log[..|log|] == log;
    ReplayFoldsSnapshotThenMatches(events, k, AT_ZERO, Some(row));
    assert log[|log|..] == [] && log + [] == log;
  }

  /** A user created at time 0 and renamed at time 10, with a snapshot at version 2: the replay at time 0
      is the renamed user, although only the creation is loaded. */
  lemma SnapshotIsPastTime(period: int, id: string) returns (actions: seq<Action>)
    ensures var s, k := Reach(period, actions), Key(UserType, id);
            var events := s.store.db.events;
            var replayed := Replay(Latest(s.view.snapshots, k), events, k, AT_ZERO);
            var full := FullReplay(k, LoadUntil(events, k, AT_ZERO));
            && TimesIncrease(Of(events, k))
            && replayed.Ok? && replayed.value.Version() == 2 && full.Ok? && full.value.Version() == 1
  {
    var k := Key(UserType, id);
    var before := RenameLater(period, k);
    actions := BuiltThenReplayed(period, before, k);
    OnlyCreationLoaded(Reach(period, before).store.db.events, k);
  }

  lemma OnlyCreationLoaded(events: seq<Event>, k: Key)
    requires WellNumbered(events) && Fold(New(k), Of(events, k)).Ok? && |Of(events, k)| == 2
    requires Created(Of(events, k)[..1]) && Of(events, k)[1].createdAt == 10
    ensures TimesIncrease(Of(events, k))
    ensures var full := FullReplay(k, LoadUntil(events, k, AT_ZERO)); full.Ok? && full.value.Version() == 1
  {
    var log := Of(events, k);
    assert log[0] == log[..1][0];
    assert Numbered(log);
    LoadIsMatching(events, k, AT_ZERO);
    FirstOnly(AT_ZERO, log);
    FoldPrefixOk(New(k), log, 1);
    FoldStamps(New(k), log[..1]);
  }

  /** When creation times decrease, it is not enough that the last event the snapshot covers meets the
      bound: here it does, and the replay has the address of an event that is not loaded. */
  lemma LastCoveredIsNotEnough(period: int, id: string) returns (actions: seq<Action>)
    ensures var s, k := Reach(period, actions), Key(UserType, id);
            var events, snap := s.store.db.events, Latest(s.view.snapshots, k);
            var replayed, full := Replay(snap, events, k, AT_ZERO), FullReplay(k, LoadUntil(events, k, AT_ZERO));
            && StartVersion(snap, AT_ZERO) == 3 == |Of(events, k)| && Matches(AT_ZERO, Of(events, k)[2])
            && replayed.Ok? && replayed.value.AUser? && replayed.value.user.address == "c"
            && full.Ok? && full.value.AUser? && full.value.user.address == ""
  {
    var k := Key(UserType, id);
    var before := TimesMayDecrease(period, id);
    actions := BuiltThenReplayed(period, before, k);
    var events := Reach(period, before).store.db.events;
    var log := Of(events, k);
    assert log[0] == log[..1][0];
    assert Numbered(log);
    ThreeFold(k, log);
  }

  lemma ThreeFold(k: Key, log: seq<Event>)
    requires k.aggregateType == UserType && |log| == 3 && Numbered(log)
    requires log[0].payload == CREATE && log[1].payload == MOVE && log[2].payload == RENAME
    ensures var all, two := Fold(New(k), log), FullReplay(k, [log[0], log[2]]);
            && all.Ok? && all.value.AUser? && all.value.user.address == "c"
            && two.Ok? && two.value.AUser? && two.value.user.address == ""
  {
    assert log == [] + [log[0]] + [log[1]] + [log[2]];
    FoldStep(New(k), [], log[0]);
    FoldStep(New(k), [] + [log[0]], log[1]);
    FoldStep(New(k), [] + [log[0]] + [log[1]], log[2]);
    assert [log[0], log[2]] == [] + [log[0]] + [log[2]];
    FoldStep(New(k), [] + [log[0]], log[2]);
  }
}
