/** internal/platform/commands.go, `CommandService.Append`, and internal/user/service.go, `append`, as
    programs: statements against the shared database, before each of which other processes may run. */
module Commands {
  import opened Domain
  import opened EventLog
  import opened AggregateObjects
  import opened Aggregates
  import opened Database
  import opened Projection
  import opened Sequences
  import opened System
  import W = Writers
  import C = CommandTheorems

  /** Transaction `t` works for `req` and stands at `p`. */
  predicate At(s: State, t: nat, req: W.Request, p: W.Phase) {
    t in s.store.txs && s.store.txs[t].request == req && s.store.txs[t].phase == p
  }

  /** No transaction but `t` holds an uncommitted event row. */
  ghost predicate Undisturbed(s: State, t: nat) {
    forall u :: u in s.store.txs && u != t ==> !s.store.txs[u].phase.Pending()
  }

  /** With nobody else at work, the tables stay as they were and no row is waited for. */
  ghost predicate Quiet(s: State, s': State, t: nat) {
    s'.store.db == s.store.db && (Undisturbed(s, t) ==> Undisturbed(s', t))
  }

  lemma StatementQuiet(w: W.Store, a: W.Action, t: nat)
    requires t in w.txs && !a.Tick? && a.tx == t
    ensures !a.Commit? ==> W.Next(w, a).db == w.db
    ensures forall u :: u in W.Next(w, a).txs && u != t ==> u in w.txs && W.Next(w, a).txs[u] == w.txs[u]
  {
  }

  /** The others run, then the transaction issues one statement. */
  method Statement(db: Connection, t: nat, others: seq<Action>, a: W.Action) returns (ghost before: State)
    requires db.Valid() && t in db.state.store.txs && !a.Tick? && a.tx == t
    modifies db
    ensures db.Valid() && Extends(old(db.state), db.state)
    ensures old(db.state).store.db.events <= before.store.db.events
    ensures t in before.store.txs && before.store.txs[t] == old(db.state).store.txs[t]
    ensures before == Run(db.period, old(db.state), Foreign(Command(t), others))
    ensures db.state == before.(store := W.Next(before.store, a))
    ensures others == [] ==> before == old(db.state) && (!a.Commit? ==> Quiet(old(db.state), db.state, t))
  {
    db.Others(Command(t), others);
    before := db.state;
    StatementQuiet(before.store, a, t);
    db.Do(Write(a));
  }

  /** internal/eventstore/store.go, `LatestVersion`: read through the pool, outside the transaction. It is
      the length that the history had at some moment during the call, when the table had `seen` rows. */
  method LatestVersion(db: Connection, t: nat, req: W.Request, others: seq<Action>)
    returns (current: int, ghost seen: nat)
    requires db.Valid() && At(db.state, t, req, W.Begun)
    modifies db
    ensures db.Valid() && Extends(old(db.state), db.state)
    ensures At(db.state, t, req, W.VersionRead(current, seen))
    ensures |old(db.state).store.db.events| <= seen <= |db.state.store.db.events|
    ensures current == |Of(db.state.store.db.events[..seen], req.key)|
    ensures others == [] ==> Quiet(old(db.state), db.state, t)
  {
    ghost var before := Statement(db, t, others, W.ReadVersion(t));
    current := db.state.store.txs[t].phase.current;
    seen := |before.store.db.events|;
    ReadWasCurrent(db.period, db.state, t, req, current, seen);
  }

  lemma ReadWasCurrent(period: int, s: State, t: nat, req: W.Request, current: int, seen: nat)
    requires Reachable(period, s) && At(s, t, req, W.VersionRead(current, seen))
    ensures W.WasCurrent(s.store.db.events, req.key, current, seen)
  {
    ReachableInv(period, s);
    assert W.TxFits(s.store.db, t, s.store.txs[t]);
  }

  /** The command asks for the version there is. */
  predicate ExpectsCurrent(req: W.Request, current: int) {
    req.expected.None? || req.expected.value == current
  }

  /** The guards let a command through when it expects the current version, if any, and creates what is
      not there or changes what is. Another version is reported first, then a creation of what exists,
      then a change of what does not. */
  method CheckGuards(req: W.Request, current: int) returns (refused: Option<Error>)
    ensures refused == W.Guard(req, current)
    ensures current >= 0 ==> (refused.None? <==> ExpectsCurrent(req, current) && (req.isCreate <==> current == 0))
    ensures refused == Some(VersionMismatch) <==> !ExpectsCurrent(req, current)
    ensures refused == Some(Conflict) <==> ExpectsCurrent(req, current) && req.isCreate && current > 0
    ensures refused == Some(NotFound) <==> ExpectsCurrent(req, current) && !req.isCreate && current == 0
  {
    if req.expected.Some? {
      if req.expected.value != current { return Some(VersionMismatch); }
    }
    if req.isCreate && current > 0 { return Some(Conflict); }
    if !req.isCreate && current == 0 { return Some(NotFound); }
    return None;
  }

  /** Transaction `t` holds the uncommitted row `e` that `req` asks for. */
  predicate Holds(s: State, t: nat, req: W.Request, e: Event) {
    && t in s.store.txs && s.store.txs[t].request == req
    && s.store.txs[t].phase.Pending() && s.store.txs[t].phase.event == e
    && e.key == req.key && e.payload == req.payload
  }

  /** Transaction `t`, having read `current` from the first `seen` rows, has not inserted yet, has
      inserted, or has met the row of another command. */
  predicate Inserts(s: State, t: nat, req: W.Request, current: int, seen: nat) {
    && t in s.store.txs && s.store.txs[t].request == req
    && var p := s.store.txs[t].phase;
       || (p.Inserted? && Holds(s, t, req, p.event))
       || p == W.Refused(Conflict, current, seen)
       || (p.Inserting? && p.current == current && p.seen == seen)
  }

  /** Another transaction holds an uncommitted row at the version that `t` wants to insert. */
  predicate KeyHeld(s: State, t: nat, req: W.Request) {
    && t in s.store.txs && s.store.txs[t].phase.Inserting?
    && exists u :: u in s.store.txs && u != t && s.store.txs[u].phase.Pending()
                   && s.store.txs[u].phase.event.key == req.key
                   && s.store.txs[u].phase.event.version == s.store.txs[t].phase.current + 1
  }

  /** The command could not go on in state `stuck`, between `s` and `s'`: after all that the others do while it
      waits, another transaction still held its key. */
  ghost predicate Stuck(period: int, s: State, stuck: State, s': State, t: nat, req: W.Request,
                        waits: Schedule<Action>)
  {
    && Reachable(period, stuck) && Extends(s, stuck) && Extends(stuck, s') && KeyHeld(stuck, t, req)
    && exists from: State :: Extends(s, from) && stuck == AfterAll(period, from, Command(t), waits)
  }

  lemma StuckEarlier(period: int, s: State, s1: State, stuck: State, s': State, t: nat, req: W.Request,
                     waits: Schedule<Action>)
    requires Extends(s, s1) && Stuck(period, s1, stuck, s', t, req, waits)
    ensures Stuck(period, s, stuck, s', t, req, waits)
  {
    var from: State :| Extends(s1, from) && stuck == AfterAll(period, from, Command(t), waits);
    assert Extends(s, from);
  }

  lemma InsertStep(w: W.Store, t: nat)
    requires t in w.txs && w.txs[t].phase.Inserting?
    ensures var w' := W.Next(w, W.Insert(t));
            && t in w'.txs && w'.txs[t].request == w.txs[t].request
            && w'.txs[t].phase == W.AfterInsert(w, t, w.txs[t])
            && (w'.txs[t].phase.Inserting? ==>
                  w' == w && W.Blocked(w.txs, t, w.txs[t].request.key, w.txs[t].phase.current + 1))
  {
  }

  lemma InsertWaits(s: State, t: nat, req: W.Request)
    requires t in s.store.txs && s.store.txs[t].request == req && s.store.txs[t].phase.Inserting?
    requires W.Next(s.store, W.Insert(t)).txs[t].phase.Inserting?
    ensures KeyHeld(s, t, req) && s.(store := W.Next(s.store, W.Insert(t))) == s
  {
    InsertStep(s.store, t);
  }

  /** The event insert of internal/eventstore/store.go, `Append`. It waits while another transaction
      holds the same key; `waits` is what the others do meanwhile. It is still waiting only when all of that has
      happened and the key is still held. */
  method InsertEvent(db: Connection, t: nat, req: W.Request, others: seq<Action>, waits: Schedule<Action>,
                     ghost current: int, ghost seen: nat)
    requires db.Valid() && Inserts(db.state, t, req, current, seen) && db.state.store.txs[t].phase.Inserting?
    modifies db
    ensures db.Valid() && Extends(old(db.state), db.state)
    ensures Inserts(db.state, t, req, current, seen)
    ensures db.state.store.txs[t].phase.Inserting? ==>
              KeyHeld(db.state, t, req) && db.state == AfterAll(db.period, old(db.state), Command(t), [others] + waits)
    ensures others == [] && waits == [] ==>
              && Quiet(old(db.state), db.state, t)
              && (Undisturbed(old(db.state), t) ==> !db.state.store.txs[t].phase.Inserting?)
    decreases |waits|
  {
    ghost var before := Statement(db, t, others, W.Insert(t));
    InsertStep(before.store, t);
    AfterMore(db.period, old(db.state), Command(t), others, waits);
    if db.state.store.txs[t].phase.Inserting? {
      InsertWaits(before, t, req);
      if waits != [] {
        assert [waits[0]] + waits[1..] == waits;
        InsertEvent(db, t, req, waits[0], waits[1..], current, seen);
      }
    }
  }

  /** What transaction `t` has come to, and what its caller is told. */
  ghost predicate Outcome(s: State, t: nat, req: W.Request, from: nat, r: Result<Event>) {
    && t in s.store.txs && s.store.txs[t].request == req
    && match s.store.txs[t].phase
       case Committed(e, at) => r == Ok(e) && from <= at
       case Unacknowledged(_, at) => r == Err(Aborted) && from <= at
       case Refused(error, _, seen) => r == Err(error) && from <= seen
       case RolledBack =>
         || r == Err(Aborted)
         || (r.Err? && r.error.ApplyFailed? && !Decodes(req.key.aggregateType, req.payload))
       case _ => false
  }

  /** The deferred rollback after a failed statement. */
  method Abort(db: Connection, t: nat, req: W.Request, ghost from: nat) returns (r: Result<Event>)
    requires db.Valid() && t in db.state.store.txs && db.state.store.txs[t].request == req
    requires !db.state.store.txs[t].phase.Ended()
    modifies db
    ensures db.Valid() && Extends(old(db.state), db.state)
    ensures r == Err(Aborted) && Outcome(db.state, t, req, from, r) && db.state.store.txs[t].phase.RolledBack?
    ensures Quiet(old(db.state), db.state, t)
  {
    StatementQuiet(db.state.store, W.Rollback(t), t);
    RollbackStep(db.state.store, t);
    db.Do(Write(W.Rollback(t)));
    r := Err(Aborted);
  }

  lemma RollbackStep(w: W.Store, t: nat)
    requires t in w.txs && !w.txs[t].phase.Ended()
    ensures var w' := W.Next(w, W.Rollback(t));
            t in w'.txs && w'.txs[t].request == w.txs[t].request && w'.txs[t].phase == W.RolledBack
  {
  }

  /** Transaction `t` has read `current` from the first `seen` rows, and its guards let it through. */
  predicate Passed(s: State, t: nat, req: W.Request, current: int, seen: nat) {
    At(s, t, req, W.VersionRead(current, seen)) && W.Guard(req, current) == None
  }

  /** The version read and the guards. */
  method ReadAndCheck(db: Connection, t: nat, req: W.Request, others: seq<Action>)
    returns (refused: Option<Error>, ghost current: int, ghost seen: nat)
    requires db.Valid() && At(db.state, t, req, W.Begun)
    modifies db
    ensures db.Valid() && Extends(old(db.state), db.state) && seen >= |old(db.state).store.db.events|
    ensures refused == W.Guard(req, current) && current >= |Of(old(db.state).store.db.events, req.key)|
    ensures refused.Some? ==> At(db.state, t, req, W.Refused(refused.value, current, seen))
    ensures refused.None? ==> Passed(db.state, t, req, current, seen)
    ensures others == [] ==> Quiet(old(db.state), db.state, t)
  {
    var version;
    version, seen := LatestVersion(db, t, req, others);
    current := version;
    OfPrefix(old(db.state).store.db.events, db.state.store.db.events[..seen], req.key);
    refused := CheckGuards(req, version);
    if refused.Some? {
      CheckStep(db.state.store, t);
      StatementQuiet(db.state.store, W.Check(t), t);
      db.Do(Write(W.Check(t)));
    }
  }

  /** The insert draws its id from the sequence before it meets the unique index. */
  method DrawId(db: Connection, t: nat, req: W.Request, others: seq<Action>, ghost current: int, ghost seen: nat)
    requires db.Valid() && Passed(db.state, t, req, current, seen)
    modifies db
    ensures db.Valid() && Extends(old(db.state), db.state)
    ensures Inserts(db.state, t, req, current, seen) && db.state.store.txs[t].phase.Inserting?
    ensures others == [] ==> Quiet(old(db.state), db.state, t)
  {
    ghost var before := Statement(db, t, others, W.Check(t));
    CheckStep(before.store, t);
  }

  lemma CheckStep(w: W.Store, t: nat)
    requires t in w.txs && w.txs[t].phase.VersionRead?
    ensures var w' := W.Next(w, W.Check(t));
            && t in w'.txs && w'.txs[t].request == w.txs[t].request
            && w'.txs[t].phase == W.AfterCheck(w, w.txs[t])
  {
  }

  /** The outbox row of the inserted event. */
  method InsertOutbox(db: Connection, t: nat, req: W.Request, ghost e: Event, others: seq<Action>)
    requires db.Valid() && Holds(db.state, t, req, e) && db.state.store.txs[t].phase.Inserted?
    modifies db
    ensures db.Valid() && Extends(old(db.state), db.state)
    ensures Holds(db.state, t, req, e) && db.state.store.txs[t].phase.Outboxed?
    ensures others == [] ==> Quiet(old(db.state), db.state, t)
  {
    ghost var before := Statement(db, t, others, W.WriteOutbox(t));
    WriteOutboxStep(before.store, t);
  }

  lemma WriteOutboxStep(w: W.Store, t: nat)
    requires t in w.txs && w.txs[t].phase.Inserted?
    ensures var w' := W.Next(w, W.WriteOutbox(t));
            && t in w'.txs && w'.txs[t].request == w.txs[t].request
            && w'.txs[t].phase == W.Outboxed(w.txs[t].phase.event, w.nextOutboxId)
  {
  }

  /** The projector: the event is applied to a fresh aggregate and the row upserted. */
  method ApplyProjection(db: Connection, t: nat, req: W.Request, e: Event, others: seq<Action>)
    returns (r: Result<Event>)
    requires db.Valid() && Holds(db.state, t, req, e) && db.state.store.txs[t].phase.Outboxed?
    modifies db
    ensures db.Valid() && Extends(old(db.state), db.state)
    ensures r.Ok? ==> r.value == e && Holds(db.state, t, req, e) && db.state.store.txs[t].phase.Projected?
    ensures r.Err? ==> r != Err(Aborted) && forall from :: Outcome(db.state, t, req, from, r)
    ensures others == [] ==> Quiet(old(db.state), db.state, t)
  {
    db.Others(Command(t), others);
    ghost var before := db.state.store;
    var row := ProjectRow(req.key, Lookup(db.state.store.db.rows, req.key), e);
    db.Do(Write(W.Project(t)));
    ProjectStep(before, t);
    StatementQuiet(before, W.Project(t), t);
    ApplyStamps(New(req.key), e);
    NewHasType(req.key);
    r := if row.Ok? then Ok(e) else Err(row.error);
  }

  lemma ProjectStep(w: W.Store, t: nat)
    requires t in w.txs && w.txs[t].phase.Outboxed?
    ensures var w' := W.Next(w, W.Project(t));
            && t in w'.txs && w'.txs[t].request == w.txs[t].request
            && w'.txs[t].phase == W.AfterProject(w.db, w.txs[t])
  {
  }

  /** `tx.Commit`. It may fail without effect, and a commit that takes effect may lose its
      acknowledgement. */
  method Commit(db: Connection, t: nat, req: W.Request, e: Event, others: seq<Action>, fails: bool, acknowledged: bool,
                ghost from: nat)
    returns (r: Result<Event>)
    requires db.Valid() && Holds(db.state, t, req, e) && db.state.store.txs[t].phase.Projected?
    requires from <= |db.state.store.db.events|
    modifies db
    ensures db.Valid() && Extends(old(db.state), db.state)
    ensures Outcome(db.state, t, req, from, r)
    ensures r == if acknowledged && !fails then Ok(e) else Err(Aborted)
    ensures fails ==> db.state.store.txs[t].phase.RolledBack?
    ensures !fails ==> db.state.store.txs[t].phase.HasCommitted()
    ensures others == [] ==>
              db.state.store.db.events == old(db.state).store.db.events + if fails then [] else [e]
  {
    if fails {
      db.Others(Command(t), others);
      r := Abort(db, t, req, from);
      return;
    }
    ghost var before := Statement(db, t, others, W.Commit(t, acknowledged));
    CommitStep(before.store, t, acknowledged);
    r := if acknowledged then Ok(e) else Err(Aborted);
  }

  lemma CommitStep(w: W.Store, t: nat, acknowledged: bool)
    requires t in w.txs && w.txs[t].phase.Projected?
    ensures var w', e, at := W.Next(w, W.Commit(t, acknowledged)), w.txs[t].phase.event, |w.db.events|;
            && t in w'.txs && w'.txs[t].request == w.txs[t].request
            && w'.txs[t].phase == (if acknowledged then W.Committed(e, at) else W.Unacknowledged(e, at))
            && w'.db.events == w.db.events + [e]
  {
  }

  /** internal/eventstore/store.go, `Append`: the event and its outbox row. */
  method Store(db: Connection, t: nat, req: W.Request, env: Schedule<Action>, waits: Schedule<Action>,
               failAt: Option<nat>, ghost current: int, ghost seen: nat, ghost from: nat)
    returns (r: Result<Event>, ghost stuck: State)
    requires db.Valid() && Passed(db.state, t, req, current, seen)
    requires from <= seen
    modifies db
    ensures db.Valid() && Extends(old(db.state), db.state)
    ensures r.Ok? ==> Holds(db.state, t, req, r.value) && db.state.store.txs[t].phase.Outboxed?
    ensures r.Err? ==> Outcome(db.state, t, req, from, r) && !db.state.store.txs[t].phase.HasCommitted()
    ensures failAt == Some(1) || failAt == Some(2) ==> r.Err?
    ensures r == Err(Aborted) && failAt.None? ==>
              Stuck(db.period, old(db.state), stuck, db.state, t, req, [Gap(env, 2)] + waits)
    ensures env == [] && waits == [] ==>
              && Quiet(old(db.state), db.state, t)
              && (Undisturbed(old(db.state), t) && failAt.None? ==> r != Err(Aborted))
  {
    stuck := db.state;
    if failAt == Some(1) {
      r := Abort(db, t, req, from);
      return;
    }
    DrawId(db, t, req, Gap(env, 1), current, seen);
    InsertEvent(db, t, req, Gap(env, 2), waits, current, seen);
    stuck := db.state;
    if db.state.store.txs[t].phase.Refused? { return Err(Conflict), stuck; }
    if db.state.store.txs[t].phase.Inserting? || failAt == Some(2) {
      r := Abort(db, t, req, from);
      return;
    }
    var e := db.state.store.txs[t].phase.event;
    InsertOutbox(db, t, req, e, Gap(env, 3));
    r := Ok(e);
  }

  /** The writes of the transaction. */
  method WriteAll(db: Connection, t: nat, req: W.Request, env: Schedule<Action>, waits: Schedule<Action>,
                  failAt: Option<nat>, acknowledged: bool,
                  ghost current: int, ghost seen: nat, ghost from: nat)
    returns (r: Result<Event>, ghost stuck: State)
    requires db.Valid() && Passed(db.state, t, req, current, seen)
    requires from <= seen && from <= |db.state.store.db.events|
    modifies db
    ensures db.Valid() && Extends(old(db.state), db.state)
    ensures Outcome(db.state, t, req, from, r)
    ensures failAt.Some? && 1 <= failAt.value <= 4 ==> r.Err? && !db.state.store.txs[t].phase.HasCommitted()
    ensures !acknowledged ==> r.Err?
    ensures r == Err(Aborted) && failAt.None? && acknowledged ==>
              Stuck(db.period, old(db.state), stuck, db.state, t, req, [Gap(env, 2)] + waits)
    ensures env == [] && waits == [] && Undisturbed(old(db.state), t) && failAt.None? && acknowledged ==>
              && r != Err(Aborted)
              && db.state.store.db.events == old(db.state).store.db.events + if r.Ok? then [r.value] else []
  {
    r, stuck := Store(db, t, req, env, waits, failAt, current, seen, from);
    if r.Err? { return; }
    if failAt == Some(3) {
      r := Abort(db, t, req, from);
      return;
    }
    r := ApplyProjection(db, t, req, r.value, Gap(env, 4));
    if r.Err? { return; }
    r := Commit(db, t, req, r.value, Gap(env, 5), failAt == Some(4), acknowledged, from);
  }

  /** The transaction from its version read to its end. `failAt` is the statement, counted from the
      version read, at which the database fails. */
  method Transact(db: Connection, t: nat, req: W.Request, env: Schedule<Action>, waits: Schedule<Action>,
                  failAt: Option<nat>, acknowledged: bool)
    returns (r: Result<Event>, ghost stuck: State)
    requires db.Valid() && At(db.state, t, req, W.Begun)
    modifies db
    ensures db.Valid() && Extends(old(db.state), db.state)
    ensures Outcome(db.state, t, req, |old(db.state).store.db.events|, r)
    ensures failAt.Some? && failAt.value <= 4 ==> r.Err? && !db.state.store.txs[t].phase.HasCommitted()
    ensures !acknowledged ==> r.Err?
    ensures r == Err(Aborted) && failAt.None? && acknowledged ==>
              Stuck(db.period, old(db.state), stuck, db.state, t, req, [Gap(env, 2)] + waits)
    ensures failAt != Some(0) ==>
              StaleRefused(req, |Of(old(db.state).store.db.events, req.key)|, r)
    ensures env == [] && waits == [] && Undisturbed(old(db.state), t) && failAt.None? && acknowledged ==>
              && r != Err(Aborted)
              && db.state.store.db.events == old(db.state).store.db.events + if r.Ok? then [r.value] else []
  {
    ghost var from := |db.state.store.db.events|;
    stuck := db.state;
    if failAt == Some(0) {
      r := Abort(db, t, req, from);
      return;
    }
    var refused, current, seen := ReadAndCheck(db, t, req, Gap(env, 0));
    if refused.Some? { return Err(refused.value), stuck; }
    ghost var read := db.state;
    r, stuck := WriteAll(db, t, req, env, waits, failAt, acknowledged, current, seen, from);
    if r == Err(Aborted) && failAt.None? && acknowledged {
      StuckEarlier(db.period, old(db.state), read, stuck, db.state, t, req, [Gap(env, 2)] + waits);
    }
  }

  /** A command that expects less than the `n` versions there were when it began is refused, and so is one that
      creates what there was. */
  predicate StaleRefused(req: W.Request, n: nat, r: Result<Event>) {
    && (req.expected.Some? && req.expected.value < n ==> r == Err(VersionMismatch))
    && (req.expected.None? && req.isCreate && n > 0 ==> r == Err(Conflict))
  }

  /** What the answer to a command means for the table, whoever else wrote to it in the meantime. */
  ghost predicate Answer(db: W.Tables, from: nat, t: nat, req: W.Request, r: Result<Event>) {
    match r
    case Ok(e) => exists at :: from <= at && C.CommittedExactly(db, t, req, e, at)
    case Err(Aborted) => C.WroteNothing(db, t) || exists e, at :: from <= at && C.CommittedExactly(db, t, req, e, at)
    case Err(ApplyFailed(_)) => C.WroteNothing(db, t) && !Decodes(req.key.aggregateType, req.payload)
    case Err(error) => C.WroteNothing(db, t) && exists seen :: from <= seen && C.Justified(db, t, req, error, seen)
  }

  lemma OutcomeAnswers(period: int, s: State, t: nat, req: W.Request, from: nat, r: Result<Event>)
    requires Reachable(period, s) && Outcome(s, t, req, from, r)
    ensures Answer(s.store.db, from, t, req, r)
  {
    ReachableInv(period, s);
    match s.store.txs[t].phase {
      case Committed(_, _) => C.CommittedFits(s.store, t);
      case Unacknowledged(_, _) => C.CommittedFits(s.store, t);
      case Refused(_, _, _) => C.RefusedFits(s.store, t);
      case RolledBack => C.UncommittedWroteNothing(s.store, t);
    }
  }

  lemma UncommittedAnswer(period: int, s: State, t: nat)
    requires Reachable(period, s) && t in s.store.txs && !s.store.txs[t].phase.HasCommitted()
    ensures C.WroteNothing(s.store.db, t)
  {
    ReachableInv(period, s);
    C.UncommittedWroteNothing(s.store, t);
  }

  /** Alone, a command is the atomic operation on the history it finds. */
  ghost predicate Sequential(db: W.Tables, db': W.Tables, req: W.Request, r: Result<Event>) {
    var log := Of(db.events, req.key);
    match r
    case Ok(e) =>
      && db'.events == db.events + [e]
      && C.CompareAndAppend(log, req, e.id, e.createdAt) == Ok(Of(db'.events, req.key))
    case Err(ApplyFailed(_)) => db'.events == db.events && !Decodes(req.key.aggregateType, req.payload)
    case Err(error) => db'.events == db.events && forall id, at :: C.CompareAndAppend(log, req, id, at) == Err(error)
  }

  lemma AnswerSequential(db: W.Tables, db': W.Tables, t: nat, req: W.Request, r: Result<Event>)
    requires Answer(db', |db.events|, t, req, r) && r != Err(Aborted)
    requires db'.events == db.events + if r.Ok? then [r.value] else []
    ensures Sequential(db, db', req, r)
  {
    assert db'.events[..|db.events|] == db.events;
    if r.Ok? {
      var at :| |db.events| <= at && C.CommittedExactly(db', t, req, r.value, at);
      assert db'.events[..at] == db.events && db'.events[..at + 1] == db'.events;
    } else if !r.error.ApplyFailed? {
      var seen :| |db.events| <= seen && C.Justified(db', t, req, r.error, seen);
      assert seen == |db.events|;
    }
  }

  /** Success is linearizable: it is an atomic compare-and-append at some moment during the call. A refusal
      wrote nothing; the atomic operation would have refused alike at some moment during the call, or, for
      a conflict, another command took the version after it had been read. After any other error the
      command has either written nothing or been carried out once. When one of its statements fails, at
      `failAt`, it has written nothing. Unless the database fails or loses the acknowledgement, there is no
      such error but for a payload that does not decode, or in the state `stuck`, in which another transaction
      held the key after all that the schedule lets it wait for. */
  method Append(db: Connection, t: nat, req: W.Request, env: Schedule<Action>, waits: Schedule<Action>,
                failAt: Option<nat>, acknowledged: bool)
    returns (r: Result<Event>, ghost stuck: State)
    requires db.Valid() && t !in db.state.store.txs && W.WellFormed(req)
    modifies db
    ensures db.Valid() && Extends(old(db.state), db.state)
    ensures Answer(db.state.store.db, |old(db.state).store.db.events|, t, req, r)
    ensures failAt.Some? && failAt.value <= 4 ==> r.Err? && C.WroteNothing(db.state.store.db, t)
    ensures !acknowledged ==> r.Err?
    ensures r == Err(Aborted) && failAt.None? && acknowledged ==>
              Stuck(db.period, old(db.state), stuck, db.state, t, req, [Gap(env, 2)] + waits)
    ensures failAt != Some(0) ==>
              StaleRefused(req, |Of(old(db.state).store.db.events, req.key)|, r)
    ensures env == [] && waits == [] && Undisturbed(old(db.state), t) && failAt.None? && acknowledged ==>
              Sequential(old(db.state).store.db, db.state.store.db, req, r)
  {
    db.Do(Write(W.Begin(t, req)));
    ghost var begun := db.state;
    r, stuck := Transact(db, t, req, env, waits, failAt, acknowledged);
    OutcomeAnswers(db.period, db.state, t, req, |old(db.state).store.db.events|, r);
    if failAt.Some? && failAt.value <= 4 { UncommittedAnswer(db.period, db.state, t); }
    if r == Err(Aborted) && failAt.None? && acknowledged {
      StuckEarlier(db.period, old(db.state), begun, stuck, db.state, t, req, [Gap(env, 2)] + waits);
    }
    if env == [] && waits == [] && Undisturbed(old(db.state), t) && failAt.None? && acknowledged {
      AnswerSequential(old(db.state).store.db, db.state.store.db, t, req, r);
    }
  }
}
