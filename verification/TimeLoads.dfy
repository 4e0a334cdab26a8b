/** When a load bounded by a time stops changing. An event is dated by the start of its transaction, so a
    command that began early may still add to the past. */
module TimeLoads {
  import opened Domain
  import opened EventLog
  import opened System
  import opened Scenarios
  import W = Writers
  import A = Aggregates
  import Projection

  /** An open command can still commit onto a history of length `n`: its payload decodes, and either it
      holds a pending row, or it has read the length that there is, or it has read none and its guards will
      hold of a length that the history has or can reach. */
  predicate MayCommit(tx: W.Tx, n: nat) {
    var req := tx.request;
    && A.Decodes(req.key.aggregateType, req.payload)
    && match tx.phase
       case Begun =>
         if req.isCreate then n == 0 && (req.expected.None? || req.expected.value == 0)
         else req.expected.None? || (req.expected.value >= 1 && req.expected.value >= n)
       case VersionRead(current, _) => current == n && W.Guard(req, n) == None
       case Inserting(current, _, _) => current == n
       case _ => tx.phase.Pending()
  }

  /** Of the commands on the aggregate that began by `t`, none may still commit. */
  predicate NoneMay(txs: map<nat, W.Tx>, k: Key, n: nat, t: int) {
    forall u :: u in txs && txs[u].request.key == k && txs[u].start <= t ==> !MayCommit(txs[u], n)
  }

  /** The clock has passed `t`, and no command on the aggregate that began by then may still commit. */
  predicate Settled(w: W.Store, k: Key, t: int) {
    w.clock > t && NoneMay(w.txs, k, |Of(w.db.events, k)|, t)
  }

  // ---------- Once settled, always settled ----------

  /** The history has only gained events after `t`. */
  ghost predicate GainsLater(log: seq<Event>, log': seq<Event>, t: int) {
    log <= log' && forall i :: |log| <= i < |log'| ==> log'[i].createdAt > t
  }

  /** No statement but the commit makes a command able to commit. */
  lemma AdvanceKeeps(w: W.Store, a: W.Action, t: nat)
    requires !a.Begin? && !a.Tick? && !a.Commit? && t in w.txs && a.tx == t
    requires W.TxFits(w.db, t, w.txs[t]) && WellNumbered(w.db.events)
    ensures var w', n := W.Next(w, a), |Of(w.db.events, w.txs[t].request.key)|;
            && w'.db == w.db && w'.clock == w.clock && w'.txs == w.txs[t := w'.txs[t]]
            && w'.txs[t].request == w.txs[t].request && w'.txs[t].start == w.txs[t].start
            && (MayCommit(w'.txs[t], n) ==> MayCommit(w.txs[t], n))
  {
    var tx := w.txs[t];
    var k := tx.request.key;
    assert Numbered(Of(w.db.events, k));
    LatestVersionIsLength(w.db.events, k);
    if tx.phase.Inserting? { W.FreeVersionIsNext(w.db.events, k, tx.phase.current, tx.phase.seen); }
  }

  lemma OneMoves(txs: map<nat, W.Tx>, u: nat, tx': W.Tx, k: Key, n: nat, t: int)
    requires NoneMay(txs, k, n, t) && u in txs && tx'.request == txs[u].request && tx'.start == txs[u].start
    requires tx'.request.key == k && tx'.start <= t && MayCommit(tx', n) ==> MayCommit(txs[u], n)
    ensures NoneMay(txs[u := tx'], k, n, t)
  {
  }

  lemma AdvanceSettled(w: W.Store, w': W.Store, a: W.Action, k: Key, t: int)
    requires W.AllFit(w.db, w.txs) && WellNumbered(w.db.events) && Settled(w, k, t)
    requires !a.Begin? && !a.Tick? && !a.Commit? && a.tx in w.txs && w' == W.Next(w, a)
    ensures Settled(w', k, t) && w'.db == w.db
  {
    assert W.TxFits(w.db, a.tx, w.txs[a.tx]);
    AdvanceKeeps(w, a, a.tx);
    OneMoves(w.txs, a.tx, w'.txs[a.tx], k, |Of(w.db.events, k)|, t);
  }

  /** Those that have read the version have read at most `n`. */
  ghost predicate ReadAtMost(txs: map<nat, W.Tx>, k: Key, n: nat) {
    forall u :: u in txs && txs[u].request.key == k && (txs[u].phase.VersionRead? || txs[u].phase.Inserting?) ==>
                  txs[u].phase.current <= n
  }

  lemma FitReads(db: W.Tables, txs: map<nat, W.Tx>, k: Key)
    requires W.AllFit(db, txs)
    ensures ReadAtMost(txs, k, |Of(db.events, k)|)
  {
    forall u | u in txs && txs[u].request.key == k && (txs[u].phase.VersionRead? || txs[u].phase.Inserting?)
      ensures txs[u].phase.current <= |Of(db.events, k)|
    {
      assert W.TxFits(db, u, txs[u]);
      OfPrefix(db.events[..txs[u].phase.seen], db.events, k);
    }
  }

  /** A commit by another command takes the next version away from those that have read it. */
  lemma LongerKeeps(txs: map<nat, W.Tx>, k: Key, n: nat, t: int)
    requires NoneMay(txs, k, n, t) && ReadAtMost(txs, k, n)
    ensures NoneMay(txs, k, n + 1, t)
  {
    forall u | u in txs && txs[u].request.key == k && txs[u].start <= t ensures !MayCommit(txs[u], n + 1) {
      assert !MayCommit(txs[u], n);
    }
  }

  /** What a commit by an unsettled command would need. */
  lemma ProjectedMay(db: W.Tables, u: nat, tx: W.Tx)
    requires W.TxFits(db, u, tx) && tx.phase.Projected?
    ensures var e := tx.phase.event;
            e.key == tx.request.key && e.createdAt == tx.start && forall n :: MayCommit(tx, n)
  {
    W.ProjectedDecodes(tx.request.key, Projection.Lookup(db.rows, tx.request.key), tx.phase.event);
  }

  /** No other command is let in by a commit, and one that began by `t` would not commit. */
  lemma CommitLetsNoneIn(db: W.Tables, txs: map<nat, W.Tx>, u: nat, tx': W.Tx, k: Key, t: int)
    requires W.AllFit(db, txs) && NoneMay(txs, k, |Of(db.events, k)|, t) && u in txs && txs[u].phase.Projected?
    requires tx'.request == txs[u].request && tx'.start == txs[u].start && tx'.phase.HasCommitted()
    ensures var log, log' := Of(db.events, k), Of(db.events + [txs[u].phase.event], k);
            NoneMay(txs[u := tx'], k, |log'|, t) && GainsLater(log, log', t)
  {
    var e, n := txs[u].phase.event, |Of(db.events, k)|;
    assert W.TxFits(db, u, txs[u]);
    ProjectedMay(db, u, txs[u]);
    OfAppend(db.events, e, k);
    if e.key == k {
      FitReads(db, txs, k);
      LongerKeeps(txs, k, n, t);
      OneMoves(txs, u, tx', k, n + 1, t);
    } else {
      OneMoves(txs, u, tx', k, n, t);
    }
  }

  lemma CommitSettled(w: W.Store, w': W.Store, u: nat, acknowledged: bool, k: Key, t: int)
    requires W.AllFit(w.db, w.txs) && Settled(w, k, t) && w' == W.Next(w, W.Commit(u, acknowledged))
    requires u in w.txs && w.txs[u].phase.Projected?
    ensures Settled(w', k, t) && GainsLater(Of(w.db.events, k), Of(w'.db.events, k), t)
  {
    CommitLetsNoneIn(w.db, w.txs, u, w'.txs[u], k, t);
  }

  lemma BeginSettled(w: W.Store, w': W.Store, a: W.Action, k: Key, t: int)
    requires Settled(w, k, t) && (a.Begin? || a.Tick?) && w' == W.Next(w, a)
    ensures Settled(w', k, t) && w'.db == w.db
  {
  }

  lemma WriteSettled(w: W.Store, w': W.Store, a: W.Action, k: Key, t: int)
    requires W.AllFit(w.db, w.txs) && WellNumbered(w.db.events) && Settled(w, k, t) && w' == W.Next(w, a)
    ensures Settled(w', k, t) && GainsLater(Of(w.db.events, k), Of(w'.db.events, k), t)
  {
    if a.Begin? || a.Tick? {
      BeginSettled(w, w', a, k, t);
    } else if a.tx in w.txs && !a.Commit? {
      AdvanceSettled(w, w', a, k, t);
    } else if a.tx in w.txs && w.txs[a.tx].phase.Projected? {
      CommitSettled(w, w', a.tx, a.acknowledged, k, t);
    } else {
      assert w' == w;
    }
  }

  lemma StepSettled(period: int, s: State, s': State, a: Action, k: Key, t: int)
    requires Inv(period, s) && Settled(s.store, k, t) && s' == Next(period, s, a)
    ensures Settled(s'.store, k, t) && GainsLater(Of(s.store.db.events, k), Of(s'.store.db.events, k), t)
  {
    if a.Write? { WriteSettled(s.store, s'.store, a.action, k, t); }
  }

  lemma GainsMore(a: seq<Event>, b: seq<Event>, c: seq<Event>, t: int)
    requires GainsLater(a, b, t) && GainsLater(b, c, t)
    ensures GainsLater(a, c, t)
  {
  }

  lemma {:induction false} RunSettled(period: int, s: State, more: seq<Action>, k: Key, t: int)
    requires Inv(period, s) && Settled(s.store, k, t)
    ensures var s' := Run(period, s, more);
            Settled(s'.store, k, t) && GainsLater(Of(s.store.db.events, k), Of(s'.store.db.events, k), t)
  {
    if more == [] {
    } else {
      var init := more[..|more| - 1];
      RunSettled(period, s, init, k, t);
      RunInv(period, s, init);
      var s1, s' := Run(period, s, init), Run(period, s, more);
      StepSettled(period, s1, s', more[|more| - 1], k, t);
      GainsMore(Of(s.store.db.events, k), Of(s1.store.db.events, k), Of(s'.store.db.events, k), t);
    }
  }

  lemma LaterUnmatched(q: Query, log: seq<Event>, log': seq<Event>, t: int)
    requires GainsLater(log, log', t) && q.at.Some? && q.at.value <= t
    ensures Matching(q, log') == Matching(q, log)
  {
    assert log' == log + log'[|log|..];
    MatchingSplit(q, log, log'[|log|..]);
    MatchingNone(q, log'[|log|..]);
  }

  // ---------- Not settled: a continuation that changes the load ----------

  /** Every transaction below `n` but `u` has ended, and nothing else has changed. */
  ghost predicate OthersEnded(w: W.Store, w': W.Store, u: nat, n: nat) {
    && w'.db == w.db && w'.clock == w.clock && w'.txs.Keys == w.txs.Keys
    && (u in w.txs ==> w'.txs[u] == w.txs[u])
    && forall i :: i in w'.txs && i < n && i != u ==> w'.txs[i].phase.Ended()
  }

  lemma OneEnds(w: W.Store, w1: W.Store, u: nat, i: nat)
    requires OthersEnded(w, w1, u, i) && i != u
    ensures OthersEnded(w, W.Next(w1, W.Rollback(i)), u, i + 1)
  {
    if i in w1.txs && !w1.txs[i].phase.Ended() {
      assert W.Next(w1, W.Rollback(i)) == w1.(txs := w1.txs[i := w1.txs[i].(phase := W.RolledBack)]);
    } else {
      assert W.Next(w1, W.Rollback(i)) == w1;
    }
  }

  lemma {:induction false} EndOthers(period: int, s: State, u: nat, n: nat) returns (more: seq<Action>)
    ensures OthersEnded(s.store, Run(period, s, more).store, u, n)
  {
    if n == 0 {
      more := [];
    } else {
      more := EndOthers(period, s, u, n - 1);
      if n - 1 != u {
        RunStep(period, s, more, W.Rollback(n - 1));
        OneEnds(s.store, Run(period, s, more).store, u, n - 1);
        more := more + [Write(W.Rollback(n - 1))];
      }
    }
  }

  lemma {:induction false} Above(ids: set<nat>) returns (n: nat)
    ensures forall i :: i in ids ==> i < n
    decreases |ids|
  {
    if ids == {} {
      n := 0;
    } else {
      var i :| i in ids;
      var m := Above(ids - {i});
      n := if m <= i then i + 1 else m;
      assert forall j :: j in ids ==> j == i || j in ids - {i};
    }
  }

  /** A creation when there is no history, otherwise an update that sets nothing. */
  function Change(k: Key, n: nat): W.Request {
    var payload := match k.aggregateType
      case UserType => if n == 0 then CREATE else UserUpdated(None, None, None, None)
      case ProductType => if n == 0 then ProductCreated("a", "b", 1, "EUR") else ProductUpdated(None, None, None, None)
      case OrderType => if n == 0 then OrderCreated("a", "USD", 0, Nil) else OrderUpdated(None);
    W.Request(k, None, payload, n == 0)
  }

  /** `m` events dated `at` were appended. */
  ghost predicate Extended(log: seq<Event>, log': seq<Event>, m: nat, at: int) {
    && log <= log' && |log'| == |log| + m
    && forall i :: |log| <= i < |log'| ==> log'[i].createdAt == at
  }

  /** Fresh commands have appended `m` events to the aggregate, and `u` stands where it stood. */
  ghost predicate Filled(s: State, s': State, k: Key, m: nat, u: nat, next: nat) {
    && Idle(s'.store) && s'.store.clock == s.store.clock
    && (forall i :: i in s'.store.txs ==> i < next)
    && (u in s.store.txs ==> u in s'.store.txs && s'.store.txs[u] == s.store.txs[u])
    && Extended(Of(s.store.db.events, k), Of(s'.store.db.events, k), m, s.store.clock)
  }

  lemma {:induction false} Fill(period: int, s: State, k: Key, m: nat, u: nat, next: nat) returns (more: seq<Action>)
    requires Reachable(period, s) && Idle(s.store) && (forall i :: i in s.store.txs ==> i < next)
    ensures Filled(s, Run(period, s, more), k, m, u, next + m)
  {
    if m == 0 {
      more := [];
    } else {
      var init := Fill(period, s, k, m - 1, u, next);
      more := FillMore(period, s, k, m - 1, u, next + m - 1, init);
    }
  }

  lemma FillMore(period: int, s: State, k: Key, m: nat, u: nat, id: nat, init: seq<Action>) returns (more: seq<Action>)
    requires Reachable(period, s) && Filled(s, Run(period, s, init), k, m, u, id)
    ensures Filled(s, Run(period, s, more), k, m + 1, u, id + 1)
  {
    var s1 := Run(period, s, init);
    var req := Change(k, |Of(s1.store.db.events, k)|);
    RunReachable(period, s, init);
    FillOne(period, s1, k, id);
    RunSplit(period, s, init, Alone(id, req));
    more := init + Alone(id, req);
    FilledMore(s, s1, Run(period, s, more), k, m, u, id, req);
  }

  lemma ReachableNumbered(period: int, s: State)
    requires Reachable(period, s)
    ensures WellNumbered(s.store.db.events)
  {
    ReachableInv(period, s);
  }

  lemma FillOne(period: int, s: State, k: Key, id: nat)
    requires Reachable(period, s) && Idle(s.store) && id !in s.store.txs
    ensures var req := Change(k, |Of(s.store.db.events, k)|);
            Appended(s, Run(period, s, Alone(id, req)), id, s.store.clock, req)
  {
    ReachableNumbered(period, s);
    AloneAppends(period, s, id, Change(k, |Of(s.store.db.events, k)|));
  }

  lemma FilledMore(s: State, s1: State, s2: State, k: Key, m: nat, u: nat, id: nat, req: W.Request)
    requires Filled(s, s1, k, m, u, id) && Appended(s1, s2, id, s1.store.clock, req) && req.key == k
    ensures Filled(s, s2, k, m + 1, u, id + 1)
  {
    var log, log1, log2 := Of(s.store.db.events, k), Of(s1.store.db.events, k), Of(s2.store.db.events, k);
    assert log2[..|log1|] == log1;
    forall i | |log| <= i < |log2| ensures log2[i].createdAt == s.store.clock {
      if i < |log1| { assert log2[i] == log1[i]; }
    }
  }

  // ---------- An open command that may commit does so when left alone ----------

  /** With nobody else at work, the next statements of `u` go through. */
  ghost predicate OnTrack(w: W.Store, u: nat) {
    && u in w.txs && MayCommit(w.txs[u], |Of(w.db.events, w.txs[u].request.key)|)
    && (w.txs[u].phase.Begun? ==> W.Guard(w.txs[u].request, |Of(w.db.events, w.txs[u].request.key)|) == None)
    && (w.txs[u].phase.Pending() ==> Carries(w.txs[u], w.txs[u].phase.event))
    && forall i :: i in w.txs && i != u ==> !w.txs[i].phase.Pending()
  }

  predicate Carries(tx: W.Tx, e: Event) {
    e.key == tx.request.key && e.payload == tx.request.payload && e.createdAt == tx.start
  }

  /** A statement of `u` that commits nothing. */
  ghost predicate Kept(w: W.Store, w': W.Store, u: nat) {
    && w'.db == w.db && u in w.txs && u in w'.txs && w'.txs == w.txs[u := w'.txs[u]]
    && w'.txs[u].request == w.txs[u].request && w'.txs[u].start == w.txs[u].start
  }

  lemma ReadsOn(w: W.Store, u: nat)
    requires OnTrack(w, u) && WellNumbered(w.db.events)
    ensures var w' := W.Next(w, W.ReadVersion(u));
            Kept(w, w', u) && OnTrack(w', u) && !w'.txs[u].phase.Begun?
  {
    assert Numbered(Of(w.db.events, w.txs[u].request.key));
    LatestVersionIsLength(w.db.events, w.txs[u].request.key);
  }

  lemma ChecksOn(w: W.Store, u: nat)
    requires OnTrack(w, u) && !w.txs[u].phase.Begun?
    ensures var w' := W.Next(w, W.Check(u));
            Kept(w, w', u) && OnTrack(w', u) && (w'.txs[u].phase.Inserting? || w'.txs[u].phase.Pending())
  {
  }

  lemma InsertsOn(w: W.Store, u: nat)
    requires OnTrack(w, u) && WellNumbered(w.db.events) && (w.txs[u].phase.Inserting? || w.txs[u].phase.Pending())
    ensures var w' := W.Next(w, W.Insert(u));
            Kept(w, w', u) && OnTrack(w', u) && w'.txs[u].phase.Pending()
  {
    if w.txs[u].phase.Inserting? { NextIsFree(w.db.events, w.txs[u].request.key); }
  }

  lemma NextIsFree(events: seq<Event>, k: Key)
    requires WellNumbered(events)
    ensures !W.Taken(events, k, |Of(events, k)| + 1)
  {
    forall i | 0 <= i < |events| && events[i].key == k ensures events[i].version <= |Of(events, k)| {
      CommittedVersion(events, events[i]);
    }
  }

  lemma WritesOn(w: W.Store, u: nat)
    requires OnTrack(w, u) && w.txs[u].phase.Pending()
    ensures var w' := W.Next(w, W.WriteOutbox(u));
            Kept(w, w', u) && OnTrack(w', u) && (w'.txs[u].phase.Outboxed? || w'.txs[u].phase.Projected?)
  {
  }

  lemma ProjectsOn(w: W.Store, u: nat)
    requires OnTrack(w, u) && (w.txs[u].phase.Outboxed? || w.txs[u].phase.Projected?)
    ensures var w' := W.Next(w, W.Project(u));
            Kept(w, w', u) && OnTrack(w', u) && w'.txs[u].phase.Projected?
  {
    A.ApplyStamps(A.New(w.txs[u].request.key), w.txs[u].phase.event);
    A.NewHasType(w.txs[u].request.key);
  }

  /** Its event is added to the history, dated by its start. */
  ghost predicate Adds(w: W.Store, w': W.Store, u: nat) {
    && u in w.txs && |w'.db.events| == |w.db.events| + 1 && w.db.events == w'.db.events[..|w.db.events|]
    && w'.db.events[|w.db.events|].key == w.txs[u].request.key
    && w'.db.events[|w.db.events|].createdAt == w.txs[u].start
  }

  lemma CommitsOn(w: W.Store, u: nat)
    requires OnTrack(w, u) && w.txs[u].phase.Projected?
    ensures Adds(w, W.Next(w, W.Commit(u, true)), u)
  {
  }

  lemma Completes(period: int, s: State, u: nat)
    requires OnTrack(s.store, u) && WellNumbered(s.store.db.events)
    ensures Adds(s.store, Run(period, s, Rest(u)).store, u)
  {
    RestRuns(period, s, u);
    var w := s.store;
    ReadsOn(w, u);
    var w1 := W.Next(w, W.ReadVersion(u));
    ChecksOn(w1, u);
    var w2 := W.Next(w1, W.Check(u));
    InsertsOn(w2, u);
    var w3 := W.Next(w2, W.Insert(u));
    WritesOn(w3, u);
    var w4 := W.Next(w3, W.WriteOutbox(u));
    ProjectsOn(w4, u);
    CommitsOn(W.Next(w4, W.Project(u)), u);
  }

  // ---------- The exact condition ----------

  function LoadAt(s: State, k: Key, q: Query): seq<Event> {
    LoadUntil(s.store.db.events, k, q)
  }

  function At(t: int): Query {
    Query(Some(t), None, None)
  }

  /** How long the history must be for the guards of the command to hold. */
  function Awaited(req: W.Request, n: nat): int {
    if req.isCreate then n else if req.expected.Some? then req.expected.value else if n == 0 then 1 else n
  }

  lemma AwaitedFits(tx: W.Tx, n: nat)
    requires tx.phase.Begun? && MayCommit(tx, n)
    ensures Awaited(tx.request, n) >= n && W.Guard(tx.request, Awaited(tx.request, n)) == None
    ensures MayCommit(tx, Awaited(tx.request, n))
  {
  }

  /** The history gains events after `t`, and then one that is not. */
  lemma LoadGrows(events: seq<Event>, events1: seq<Event>, events2: seq<Event>, k: Key, t: int)
    requires WellNumbered(events) && WellNumbered(events2) && GainsLater(Of(events, k), Of(events1, k), t)
    requires |events2| == |events1| + 1 && events1 == events2[..|events1|]
    requires events2[|events1|].key == k && events2[|events1|].createdAt <= t
    ensures LoadUntil(events2, k, At(t)) == LoadUntil(events, k, At(t)) + [events2[|events1|]]
  {
    var e := events2[|events1|];
    assert events2 == events1 + [e];
    OfAppend(events1, e, k);
    assert Numbered(Of(events, k)) && Numbered(Of(events2, k));
    LoadIsMatching(events, k, At(t));
    LoadIsMatching(events2, k, At(t));
    LaterUnmatched(At(t), Of(events, k), Of(events1, k), t);
    MatchingSplit(At(t), Of(events1, k), [e]);
    MatchingAll(At(t), [e]);
  }

  /** While the clock has not passed `t`, a new command can change the load. */
  lemma EarlyChanges(period: int, s: State, k: Key, t: int) returns (more: seq<Action>)
    requires Reachable(period, s) && s.store.clock <= t
    ensures LoadAt(Run(period, s, more), k, At(t)) != LoadAt(s, k, At(t))
  {
    var n := Above(s.store.txs.Keys);
    var first := EndOthers(period, s, n, n);
    RunReachable(period, s, first);
    var s1 := Run(period, s, first);
    var second := Fill(period, s1, k, 1, n, n);
    RunReachable(period, s1, second);
    RunSplit(period, s, first, second);
    more := first + second;
    ReachableNumbered(period, s);
    ReachableNumbered(period, Run(period, s1, second));
    OneMatches(s.store.db.events, Run(period, s1, second).store.db.events, k, t, s.store.clock);
  }

  lemma OneMatches(events: seq<Event>, events': seq<Event>, k: Key, t: int, at: int)
    requires WellNumbered(events) && WellNumbered(events') && at <= t && Extended(Of(events, k), Of(events', k), 1, at)
    ensures LoadUntil(events', k, At(t)) != LoadUntil(events, k, At(t))
  {
    assert Numbered(Of(events, k)) && Numbered(Of(events', k));
    LoadIsMatching(events, k, At(t));
    LoadIsMatching(events', k, At(t));
    OneMore(Of(events, k), Of(events', k), t, at);
  }

  lemma OneMore(log: seq<Event>, log': seq<Event>, t: int, at: int)
    requires at <= t && Extended(log, log', 1, at)
    ensures Matching(At(t), log') == Matching(At(t), log) + [log'[|log|]]
  {
    var e := log'[|log|];
    assert log' == log + [e];
    MatchingSplit(At(t), log, [e]);
    MatchingAll(At(t), [e]);
  }

  /** An open command that began by `t` and may still commit can change the load. */
  lemma OpenChanges(period: int, s: State, k: Key, t: int, u: nat) returns (more: seq<Action>)
    requires Reachable(period, s) && s.store.clock > t
    requires u in s.store.txs && s.store.txs[u].request.key == k && s.store.txs[u].start <= t
    requires MayCommit(s.store.txs[u], |Of(s.store.db.events, k)|)
    ensures LoadAt(Run(period, s, more), k, At(t)) != LoadAt(s, k, At(t))
  {
    var n := Above(s.store.txs.Keys);
    var first := EndOthers(period, s, u, n);
    RunReachable(period, s, first);
    var s1 := Run(period, s, first);
    var second := Await(period, s1, k, u, n);
    RunReachable(period, s1, second);
    var s2 := Run(period, s1, second);
    ReachableNumbered(period, s2);
    Completes(period, s2, u);
    RunReachable(period, s2, Rest(u));
    RunSplit(period, s, first, second);
    RunSplit(period, s, first + second, Rest(u));
    more := first + second + Rest(u);
    ReachableNumbered(period, s);
    ReachableNumbered(period, Run(period, s2, Rest(u)));
    LoadGrows(s.store.db.events, s2.store.db.events, Run(period, s2, Rest(u)).store.db.events, k, t);
  }

  /** If the command has read no version yet, others append until its guards hold. */
  lemma Await(period: int, s: State, k: Key, u: nat, n: nat) returns (more: seq<Action>)
    requires Reachable(period, s) && (forall i :: i in s.store.txs ==> i < n)
    requires forall i :: i in s.store.txs && i != u ==> s.store.txs[i].phase.Ended()
    requires u in s.store.txs && s.store.txs[u].request.key == k
    requires MayCommit(s.store.txs[u], |Of(s.store.db.events, k)|)
    ensures var s' := Run(period, s, more);
            && OnTrack(s'.store, u) && s'.store.txs[u] == s.store.txs[u]
            && exists m :: Extended(Of(s.store.db.events, k), Of(s'.store.db.events, k), m, s.store.clock)
  {
    var log, tx := Of(s.store.db.events, k), s.store.txs[u];
    if tx.phase.Begun? {
      AwaitedFits(tx, |log|);
      more := Fill(period, s, k, Awaited(tx.request, |log|) - |log|, u, n);
    } else {
      more := [];
      PendingCarries(period, s, u);
      assert Extended(log, log, 0, s.store.clock);
    }
  }

  lemma PendingCarries(period: int, s: State, u: nat)
    requires Reachable(period, s) && u in s.store.txs
    ensures s.store.txs[u].phase.Pending() ==> Carries(s.store.txs[u], s.store.txs[u].phase.event)
  {
    ReachableInv(period, s);
    assert W.TxFits(s.store.db, u, s.store.txs[u]);
  }

  /** A load bounded by `t` never changes again if and only if the clock has passed `t` and no open command
      on the aggregate that began by `t` may still commit. */
  lemma TimeLoadsSettleIff(period: int, actions: seq<Action>, k: Key, t: int)
    ensures var s := Reach(period, actions);
            Settled(s.store, k, t) <==>
            forall more :: LoadAt(Reach(period, actions + more), k, At(t)) == LoadAt(s, k, At(t))
  {
    var s := Reach(period, actions);
    assert Reachable(period, s);
    if Settled(s.store, k, t) {
      forall more ensures LoadAt(Reach(period, actions + more), k, At(t)) == LoadAt(s, k, At(t)) {
        SettledLoadsStay(period, actions, more, k, t, At(t));
      }
    } else {
      var more;
      if s.store.clock <= t {
        more := EarlyChanges(period, s, k, t);
      } else {
        var u :| u in s.store.txs && s.store.txs[u].request.key == k && s.store.txs[u].start <= t
                 && MayCommit(s.store.txs[u], |Of(s.store.db.events, k)|);
        more := OpenChanges(period, s, k, t, u);
      }
      RunSplit(period, INIT, actions, more);
    }
  }

  /** Once settled, every load with a time bound of at most `t` stays as it is, whatever its other bounds. */
  lemma SettledLoadsStay(period: int, actions: seq<Action>, more: seq<Action>, k: Key, t: int, q: Query)
    requires Settled(Reach(period, actions).store, k, t) && q.at.Some? && q.at.value <= t
    ensures LoadAt(Reach(period, actions + more), k, q) == LoadAt(Reach(period, actions), k, q)
  {
    var s, s' := Reach(period, actions), Reach(period, actions + more);
    ReachInv(period, actions);
    RunSplit(period, INIT, actions, more);
    RunSettled(period, s, more, k, t);
    RunInv(period, s, more);
    LaterUnmatched(q, Of(s.store.db.events, k), Of(s'.store.db.events, k), t);
    SameLoad(s.store.db.events, s'.store.db.events, k, q);
  }

  lemma SameLoad(events: seq<Event>, events': seq<Event>, k: Key, q: Query)
    requires Matching(q, Of(events', k)) == Matching(q, Of(events, k))
    ensures LoadUntil(events', k, q) == LoadUntil(events, k, q)
  {
  }

  /** A run in which the past changes: at time 10 a load at time 0 finds the creation alone, and later the
      renaming as well, whose command had begun at time 0. */
  lemma OpenCommandChangesPast(period: int, id: string) returns (actions: seq<Action>, more: seq<Action>)
    ensures var k, s, s' := Key(UserType, id), Reach(period, actions), Reach(period, actions + more);
            && s.store.clock == 10 && !Settled(s.store, k, 0)
            && LoadAt(s, k, At(0)) == Of(s.store.db.events, k) && Created(LoadAt(s, k, At(0)))
            && LoadAt(s', k, At(0)) == Of(s'.store.db.events, k) && |LoadAt(s', k, At(0))| == 2
            && LoadAt(s', k, At(0))[1].payload == RENAME
  {
    var k := Key(UserType, id);
    actions := BeginEarly(period, k);
    more := Rest(1);
    RunSplit(period, INIT, actions, more);
    ReachableNumbered(period, Reach(period, actions));
    ReachableNumbered(period, Reach(period, actions + more));
    RestAppends(period, Reach(period, actions), 1);
    OpenUnsettles(Reach(period, actions), k);
    PastChanges(Reach(period, actions), Reach(period, actions + more), k);
  }

  lemma PastChanges(s: State, s': State, k: Key)
    requires WellNumbered(s.store.db.events) && WellNumbered(s'.store.db.events)
    requires OneBegan(s, k) && Appended(s, s', 1, 0, W.Request(k, None, RENAME, false))
    ensures LoadAt(s, k, At(0)) == Of(s.store.db.events, k) && Created(LoadAt(s, k, At(0)))
    ensures LoadAt(s', k, At(0)) == Of(s'.store.db.events, k) && |LoadAt(s', k, At(0))| == 2
    ensures LoadAt(s', k, At(0))[1].payload == RENAME
  {
    ZeroTimes(Of(s.store.db.events, k), Of(s'.store.db.events, k));
    AllAtZero(s.store.db.events, k);
    AllAtZero(s'.store.db.events, k);
  }

  lemma ZeroTimes(log: seq<Event>, log': seq<Event>)
    requires Created(log) && |log'| == 2 && log'[..1] == log && log'[1].createdAt == 0
    ensures forall i :: 0 <= i < |log'| ==> log'[i].createdAt == 0
  {
    assert log'[0] == log'[..1][0];
  }

  lemma OpenUnsettles(s: State, k: Key)
    requires OneBegan(s, k) && k.aggregateType == UserType
    ensures !Settled(s.store, k, 0)
  {
    assert MayCommit(s.store.txs[1], 1);
  }

  lemma AllAtZero(events: seq<Event>, k: Key)
    requires WellNumbered(events) && forall i :: 0 <= i < |Of(events, k)| ==> Of(events, k)[i].createdAt == 0
    ensures LoadUntil(events, k, At(0)) == Of(events, k)
  {
    assert Numbered(Of(events, k));
    LoadIsMatching(events, k, At(0));
    MatchingAll(At(0), Of(events, k));
  }
}
