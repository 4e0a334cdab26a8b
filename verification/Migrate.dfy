/** pkg/migrate/migrate.go: `Up` applies the pending migrations of a directory in order. Several processes
    may run it at once, and any of them may fail or be stopped at any point. */
module Migrate {
  import opened Sequences
  import Sorting

  // ---------- The files of a directory ----------

  datatype Entry = Entry(name: string, isDir: bool)

  /** The order of `sort.Strings`. */
  predicate Before(a: string, b: string) {
    b != [] && (a == [] || a[0] < b[0] || (a[0] == b[0] && Before(a[1..], b[1..])))
  }

  lemma {:induction false} BeforeTotal(a: string, b: string)
    ensures Before(a, b) || Before(b, a) || a == b
    ensures !(Before(a, b) && Before(b, a)) && !Before(a, a)
  {
    if a == [] {
    } else {
      BeforeTotal(a[1..], a[1..]);
      if b != [] && a[0] == b[0] {
        BeforeTotal(a[1..], b[1..]);
        assert a == [a[0]] + a[1..] && b == [b[0]] + b[1..];
      }
    }
  }

  lemma {:induction false} BeforeTransitive(a: string, b: string, c: string)
    requires Before(a, b) && Before(b, c)
    ensures Before(a, c)
  {
    if a == [] || a[0] != b[0] || b[0] != c[0] {
    } else {
      BeforeTransitive(a[1..], b[1..], c[1..]);
    }
  }

  /** The names first differ at `i`, and `a` has the smaller character there. */
  predicate SmallerAt(a: string, b: string, i: nat) {
    i < |a| && i < |b| && a[..i] == b[..i] && a[i] < b[i]
  }

  /** One name comes before another when it is a proper prefix of it, or has the smaller character where they
      first differ. */
  lemma {:induction false} BeforeIff(a: string, b: string)
    ensures Before(a, b) <==> (|a| < |b| && b[..|a|] == a) || exists i: nat :: SmallerAt(a, b, i)
  {
    if a == [] || b == [] {
      if b != [] { assert b[..0] == a; }
    } else if a[0] != b[0] {
      if a[0] < b[0] { assert SmallerAt(a, b, 0); }
      forall i: nat | i >= 1 ensures !SmallerAt(a, b, i) {
        if i < |a| && i < |b| { assert a[..i][0] != b[..i][0]; }
      }
    } else {
      BeforeIff(a[1..], b[1..]);
      SameHead(a, b);
    }
  }

  /** A common first character changes nothing. */
  lemma SameHead(a: string, b: string)
    requires a != [] && b != [] && a[0] == b[0]
    ensures |a| < |b| && b[..|a|] == a <==> |a[1..]| < |b[1..]| && b[1..][..|a[1..]|] == a[1..]
    ensures (exists i: nat :: SmallerAt(a, b, i)) <==> exists i: nat :: SmallerAt(a[1..], b[1..], i)
  {
    if |a| < |b| {
      SameHeads(b, a, |a|);
      assert a[..|a|] == a && a[1..][..|a| - 1] == a[1..];
    }
    if i: nat :| SmallerAt(a, b, i) {
      SameHeads(a, b, i);
      assert SmallerAt(a[1..], b[1..], i - 1);
    }
    if i: nat :| SmallerAt(a[1..], b[1..], i) {
      SameHeads(a, b, i + 1);
      assert SmallerAt(a, b, i + 1);
    }
  }

  lemma SameHeads(a: string, b: string, n: nat)
    requires 1 <= n <= |a| && n <= |b| && a[0] == b[0]
    ensures a[..n] == b[..n] <==> a[1..][..n - 1] == b[1..][..n - 1]
  {
    assert a[..n] == [a[0]] + a[1..][..n - 1] && b[..n] == [b[0]] + b[1..][..n - 1];
    assert a[..n][1..] == a[1..][..n - 1] && b[..n][1..] == b[1..][..n - 1];
  }

  lemma BeforeIsOrder()
    ensures Sorting.StrictOrder(Before)
  {
    forall a ensures !Before(a, a) {
      BeforeTotal(a, a);
    }
    forall a, b, c | Before(a, b) && Before(b, c) ensures Before(a, c) {
      BeforeTransitive(a, b, c);
    }
    forall a, b, c | Before(a, c) ensures Before(a, b) || Before(b, c) {
      BeforeTotal(a, b);
      if Before(b, a) { BeforeTransitive(b, a, c); }
    }
  }

  ghost predicate Ascending(s: seq<string>) {
    Sorting.StrictlySorted(Before, s)
  }

  predicate IsMigration(e: Entry) {
    !e.isDir && |e.name| >= 4 && e.name[|e.name| - 4..] == ".sql"
  }

  ghost predicate DistinctNames(entries: seq<Entry>) {
    forall i, j :: 0 <= i < j < |entries| ==> entries[i].name != entries[j].name
  }

  function Names(entries: seq<Entry>): seq<string> {
    if entries == [] then []
    else
      var rest, last := Names(entries[..|entries| - 1]), entries[|entries| - 1];
      if IsMigration(last) then rest + [last.name] else rest
  }

  lemma {:induction false} NamesMembers(entries: seq<Entry>)
    ensures forall x :: x in Names(entries) <==> exists e :: e in entries && IsMigration(e) && e.name == x
  {
    if entries == [] {
    } else {
      var init, last := entries[..|entries| - 1], entries[|entries| - 1];
      NamesMembers(init);
      assert entries == init + [last] && last in entries;
      assert forall e :: e in entries <==> e in init || e == last;
    }
  }

  lemma SortAscends(names: seq<string>)
    requires NoDuplicates(names)
    ensures Ascending(Sorting.Sort(Before, names)) && forall x :: x in Sorting.Sort(Before, names) <==> x in names
  {
    BeforeIsOrder();
    forall i, j | 0 <= i < j < |names| ensures Before(names[i], names[j]) || Before(names[j], names[i]) {
      BeforeTotal(names[i], names[j]);
    }
    Sorting.SortStrict(Before, names);
    Sorting.SortMembers(Before, names);
  }

  lemma {:induction false} NamesDistinct(entries: seq<Entry>)
    requires DistinctNames(entries)
    ensures NoDuplicates(Names(entries))
  {
    if entries == [] {
    } else {
      var init, last := entries[..|entries| - 1], entries[|entries| - 1];
      assert forall i :: 0 <= i < |init| ==> init[i] == entries[i];
      NamesDistinct(init);
      NamesMembers(init);
      var rest := Names(init);
      forall k | 0 <= k < |rest| ensures rest[k] != last.name {
        var x := rest[k];
        assert x in rest;
        var e :| e in init && IsMigration(e) && e.name == x;
        var i :| 0 <= i < |init| && init[i] == e;
        assert entries[i].name != entries[|entries| - 1].name;
      }
    }
  }

  /** The names of the migrations in a directory, in order. */
  ghost predicate ListOf(entries: seq<Entry>, files: seq<string>) {
    Ascending(files) && forall x :: x in files <==> exists e :: e in entries && IsMigration(e) && e.name == x
  }

  /** The list does not depend on the order in which the directory is read. */
  lemma ListIsUnique(entries: seq<Entry>, files: seq<string>, entries': seq<Entry>, files': seq<string>)
    requires ListOf(entries, files) && ListOf(entries', files') && forall e :: e in entries <==> e in entries'
    ensures files == files'
  {
    BeforeIsOrder();
    Sorting.StrictlySortedUnique(Before, files, files');
  }

  lemma ListMeans(entries: seq<Entry>, files: seq<string>)
    requires ListOf(entries, files)
    ensures forall x :: x in files <==>
                          |x| >= 4 && x[|x| - 4..] == ".sql" && exists e :: e in entries && !e.isDir && e.name == x
    ensures forall i, j :: 0 <= i < j < |files| ==>
              || (|files[i]| < |files[j]| && files[j][..|files[i]|] == files[i])
              || exists d :: 0 <= d < |files[i]| && d < |files[j]|
                             && files[i][..d] == files[j][..d] && files[i][d] < files[j][d]
  {
    forall i, j | 0 <= i < j < |files|
      ensures || (|files[i]| < |files[j]| && files[j][..|files[i]|] == files[i])
              || exists d :: 0 <= d < |files[i]| && d < |files[j]|
                             && files[i][..d] == files[j][..d] && files[i][d] < files[j][d]
    {
      BeforeIff(files[i], files[j]);
      if d: nat :| SmallerAt(files[i], files[j], d) { assert files[i][d] < files[j][d]; }
    }
  }

  /** Reading the directory and sorting: the files whose name ends in ".sql", ascending character by character. */
  method ListFiles(entries: seq<Entry>) returns (files: seq<string>)
    requires DistinctNames(entries)
    ensures ListOf(entries, files)
    ensures forall x :: x in files <==>
                          |x| >= 4 && x[|x| - 4..] == ".sql" && exists e :: e in entries && !e.isDir && e.name == x
    ensures forall i, j :: 0 <= i < j < |files| ==>
              || (|files[i]| < |files[j]| && files[j][..|files[i]|] == files[i])
              || exists d :: 0 <= d < |files[i]| && d < |files[j]|
                             && files[i][..d] == files[j][..d] && files[i][d] < files[j][d]
  {
    var names := [];
    for i := 0 to |entries|
      invariant names == Names(entries[..i])
    {
      assert entries[..i + 1][..i] == entries[..i];
      if IsMigration(entries[i]) { names := names + [entries[i].name]; }
    }
    assert entries[..|entries|] == entries;
    NamesDistinct(entries);
    NamesMembers(entries);
    SortAscends(names);
    files := Sorting.Sort(Before, names);
    ListMeans(entries, files);
  }

  /** The list that every run makes. */
  method ListAgain(entries: seq<Entry>, ghost files': seq<string>) returns (files: seq<string>)
    requires DistinctNames(entries) && ListOf(entries, files')
    ensures files == files'
  {
    files := ListFiles(entries);
    ListIsUnique(entries, files, entries, files');
  }

  // ---------- The runs ----------

  /** Where a run stands: at file `i`, whose script it has executed, and then recorded, in its open
      transaction. */
  datatype Phase = Checking(i: nat) | Begun(i: nat) | Executed(i: nat) | Recorded(i: nat) | Done | Failed
  {
    predicate HoldsRecord(n: nat) { Recorded? && i == n }
  }

  /** `recorded` are the rows of schema_migrations and `schema` the scripts in effect, in commit order. */
  datatype State = State(recorded: seq<string>, schema: seq<string>, runs: map<nat, Phase>)

  const EMPTY := State([], [], map[])

  datatype Action =
    | Start(run: nat)
    | Check(run: nat)
    | Execute(run: nat)
    | Record(run: nat)
    | Commit(run: nat, acknowledged: bool)
    | Fail(run: nat)

  /** The primary key makes the insert wait for another transaction that holds the same name. */
  predicate Waits(m: State, r: nat, i: nat) {
    exists q :: q in m.runs && q != r && m.runs[q].HoldsRecord(i)
  }

  function Move(m: State, r: nat, p: Phase): State {
    m.(runs := m.runs[r := p])
  }

  function Reached(files: seq<string>, i: nat): Phase {
    if i < |files| then Checking(i) else Done
  }

  function Next(files: seq<string>, m: State, a: Action): State {
    match a
    case Start(r) => if r in m.runs then m else Move(m, r, Reached(files, 0))
    case _ => if a.run in m.runs then Advance(files, m, a, m.runs[a.run]) else m
  }

  function Advance(files: seq<string>, m: State, a: Action, p: Phase): State
    requires !a.Start?
  {
    match a
    case Check(r) =>
      if p.Checking? && p.i < |files|
      then Move(m, r, if files[p.i] in m.recorded then Reached(files, p.i + 1) else Begun(p.i))
      else m
    case Execute(r) => if p.Begun? then Move(m, r, Executed(p.i)) else m
    case Record(r) =>
      if !p.Executed? || p.i >= |files| || Waits(m, r, p.i) then m
      else if files[p.i] in m.recorded then Move(m, r, Failed)
      else Move(m, r, Recorded(p.i))
    case Commit(r, acknowledged) =>
      if p.Recorded? && p.i < |files| then
        State(m.recorded + [files[p.i]], m.schema + [files[p.i]],
              m.runs[r := if acknowledged then Reached(files, p.i + 1) else Failed])
      else m
    case Fail(r) => if p.Done? then m else Move(m, r, Failed)
  }

  /** The first `n` files are in effect and recorded, each once; a run at file `i` has seen all earlier ones
      recorded; an open record is for the next file, and only one run holds it. */
  ghost predicate Inv(files: seq<string>, m: State) {
    && m.recorded <= files && m.schema == m.recorded
    && (forall r :: r in m.runs ==> RunFits(files, m.recorded, m.runs[r]))
    && (forall r, q :: r in m.runs && q in m.runs && m.runs[r].Recorded? && m.runs[q].Recorded? ==> r == q)
  }

  ghost predicate RunFits(files: seq<string>, recorded: seq<string>, p: Phase) {
    match p
    case Checking(i) => i < |files| && i <= |recorded|
    case Begun(i) => i < |files| && i <= |recorded|
    case Executed(i) => i < |files| && i <= |recorded|
    case Recorded(i) => i < |files| && i == |recorded|
    case Done => |recorded| == |files|
    case Failed => true
  }

  lemma {:induction false} PrefixMember(files: seq<string>, n: nat, i: nat)
    requires Ascending(files) && n <= |files| && i < |files|
    ensures files[i] in files[..n] <==> i < n
  {
    if i < n {
      assert files[..n][i] == files[i];
    } else {
      forall j | 0 <= j < n ensures files[..n][j] != files[i] {
        BeforeTotal(files[i], files[i]);
        assert Before(files[j], files[i]);
      }
    }
  }

  lemma RecordInv(files: seq<string>, m: State, r: nat)
    requires Ascending(files) && Inv(files, m) && r in m.runs && m.runs[r].Executed?
    ensures Inv(files, Next(files, m, Record(r))) && m.recorded == Next(files, m, Record(r)).recorded
  {
    var i := m.runs[r].i;
    assert RunFits(files, m.recorded, m.runs[r]) && m.recorded == files[..|m.recorded|];
    PrefixMember(files, |m.recorded|, i);
    if !Waits(m, r, i) && files[i] !in m.recorded {
      forall q | q in m.runs && q != r ensures !m.runs[q].Recorded? {
        assert RunFits(files, m.recorded, m.runs[q]);
        assert !m.runs[q].HoldsRecord(i);
      }
    }
  }

  lemma CommitInv(files: seq<string>, m: State, r: nat, acknowledged: bool)
    requires Ascending(files) && Inv(files, m) && r in m.runs && m.runs[r].Recorded?
    ensures var m' := Next(files, m, Commit(r, acknowledged)); Inv(files, m') && m.recorded <= m'.recorded
  {
    assert RunFits(files, m.recorded, m.runs[r]) && m.recorded == files[..|m.recorded|];
    assert m.recorded + [files[|m.recorded|]] == files[..|m.recorded| + 1];
  }

  /** Every step of any run keeps the invariant, and nothing recorded is lost. */
  lemma NextInv(files: seq<string>, m: State, a: Action)
    requires Ascending(files) && Inv(files, m)
    ensures Inv(files, Next(files, m, a)) && m.recorded <= Next(files, m, a).recorded
  {
    if !a.Start? && a.run in m.runs && Next(files, m, a) != m {
      match a
      case Record(r) => RecordInv(files, m, r);
      case Commit(r, acknowledged) => CommitInv(files, m, r, acknowledged);
      case _ => OtherInv(files, m, a);
    } else if a.Start? {
      StartInv(files, m, a.run);
    }
  }

  lemma StartInv(files: seq<string>, m: State, r: nat)
    requires Inv(files, m)
    ensures Inv(files, Next(files, m, Start(r))) && m.recorded == Next(files, m, Start(r)).recorded
  {
  }

  lemma OtherInv(files: seq<string>, m: State, a: Action)
    requires Ascending(files) && Inv(files, m) && !a.Start? && !a.Record? && !a.Commit? && a.run in m.runs
    ensures Inv(files, Next(files, m, a)) && m.recorded == Next(files, m, a).recorded
  {
    assert RunFits(files, m.recorded, m.runs[a.run]) && m.recorded == files[..|m.recorded|];
    if a.Check? && m.runs[a.run].Checking? { PrefixMember(files, |m.recorded|, m.runs[a.run].i); }
  }

  function Run(files: seq<string>, m: State, actions: seq<Action>): State {
    if actions == [] then m
    else Next(files, Run(files, m, actions[..|actions| - 1]), actions[|actions| - 1])
  }

  lemma {:induction false} RunInv(files: seq<string>, m: State, actions: seq<Action>)
    requires Ascending(files) && Inv(files, m)
    ensures Inv(files, Run(files, m, actions)) && m.recorded <= Run(files, m, actions).recorded
  {
    if actions == [] {
    } else {
      RunInv(files, m, actions[..|actions| - 1]);
      NextInv(files, Run(files, m, actions[..|actions| - 1]), actions[|actions| - 1]);
    }
  }

  /** After any sequence of concurrent, failing and interrupted runs the migrations in effect are a prefix
      of the sorted files, each applied once and exactly those that are recorded; and if some run
      returned without an error, they are all of them. */
  lemma MigrationsArePrefix(entries: seq<Entry>, files: seq<string>, actions: seq<Action>)
    requires DistinctNames(entries) && ListOf(entries, files)
    ensures var m := Run(files, EMPTY, actions);
            && m.schema == m.recorded && m.schema <= files
            && NoDuplicates(m.schema)
            && (forall r :: r in m.runs && m.runs[r].Done? ==> m.schema == files)
  {
    RunInv(files, EMPTY, actions);
    var m := Run(files, EMPTY, actions);
    forall i, j | 0 <= i < j < |m.schema| ensures m.schema[i] != m.schema[j] {
      assert Before(files[i], files[j]);
      BeforeTotal(files[i], files[i]);
    }
    forall r | r in m.runs && m.runs[r].Done? ensures m.schema == files {
      assert RunFits(files, m.recorded, m.runs[r]);
    }
  }

  // ---------- The program ----------

  /** The statements of other runs. */
  function Foreign(r: nat, actions: seq<Action>): seq<Action> {
    if actions == [] then []
    else
      var rest := Foreign(r, actions[..|actions| - 1]);
      if actions[|actions| - 1].run == r then rest else rest + [actions[|actions| - 1]]
  }

  lemma ForeignStep(files: seq<string>, m: State, r: nat, schedule: seq<Action>, i: nat)
    requires i < |schedule|
    ensures var before := Run(files, m, Foreign(r, schedule[..i]));
            Run(files, m, Foreign(r, schedule[..i + 1]))
            == if schedule[i].run == r then before else Next(files, before, schedule[i])
  {
    assert schedule[..i + 1][..i] == schedule[..i];
    var rest := Foreign(r, schedule[..i]);
    assert (rest + [schedule[i]])[..|rest|] == rest;
  }

  method RunOthers(files: seq<string>, m: State, r: nat, schedule: seq<Action>) returns (m': State)
    ensures m' == Run(files, m, Foreign(r, schedule))
  {
    m' := m;
    for i := 0 to |schedule|
      invariant m' == Run(files, m, Foreign(r, schedule[..i]))
    {
      ForeignStep(files, m, r, schedule, i);
      if schedule[i].run != r { m' := Next(files, m', schedule[i]); }
    }
    assert schedule[..|schedule|] == schedule;
  }

  lemma StepKeepsRun(files: seq<string>, m: State, r: nat, a: Action)
    requires r in m.runs && a.run != r
    ensures r in Next(files, m, a).runs && Next(files, m, a).runs[r] == m.runs[r]
  {
  }

  lemma {:induction false} ForeignKeepsRun(files: seq<string>, m: State, r: nat, schedule: seq<Action>)
    requires r in m.runs
    ensures var m' := Run(files, m, Foreign(r, schedule)); r in m'.runs && m'.runs[r] == m.runs[r]
  {
    if schedule == [] {
    } else {
      var init, a := schedule[..|schedule| - 1], schedule[|schedule| - 1];
      ForeignKeepsRun(files, m, r, init);
      if a.run != r {
        var rest := Foreign(r, init);
        assert (rest + [a])[..|rest|] == rest;
        StepKeepsRun(files, Run(files, m, rest), r, a);
      }
    }
  }

  /** The migrated database, for a fixed directory. */
  class Database {
    var state: State
    const files: seq<string>

    ghost predicate Valid()
      reads this
    {
      Ascending(files) && Inv(files, state)
    }

    constructor (files: seq<string>)
      requires Ascending(files)
      ensures Valid() && state == EMPTY && this.files == files
    {
      this.files := files;
      state := EMPTY;
    }

    /** One statement of a run. */
    method Do(a: Action)
      requires Valid()
      modifies this
      ensures Valid() && state == Next(files, old(state), a) && old(state).recorded <= state.recorded
    {
      NextInv(files, state, a);
      state := Next(files, state, a);
    }

    /** What the other runs do before the next statement of run `r`. */
    method Others(r: nat, schedule: seq<Action>)
      requires Valid() && r in state.runs
      modifies this
      ensures Valid() && old(state).recorded <= state.recorded
      ensures state == Run(files, old(state), Foreign(r, schedule))
      ensures r in state.runs && state.runs[r] == old(state).runs[r]
      ensures schedule == [] ==> state == old(state)
    {
      RunInv(files, state, Foreign(r, schedule));
      ForeignKeepsRun(files, state, r, schedule);
      state := RunOthers(files, state, r, schedule);
    }
  }

  datatype Stage = CheckFails | ReadFails | BeginFails | ExecuteFails | RecordFails | CommitFails | AcknowledgementLost

  /** No other run has an open record. */
  ghost predicate Alone(m: State, r: nat) {
    forall q :: q in m.runs && q != r ==> !m.runs[q].Recorded?
  }

  /** The state after all that the others do while run `r` waits. */
  function AfterAll(files: seq<string>, m: State, r: nat, waits: Schedule<Action>): State
    decreases |waits|
  {
    if waits == [] then m else AfterAll(files, Run(files, m, Foreign(r, waits[0])), r, waits[1..])
  }

  /** Why run `r`, at file `i`, can be left without a result though no statement of its own failed: another
      run recorded the file after `checked`, or the schedule ends while another run still holds the name. */
  ghost predicate Lost(files: seq<string>, checked: State, tried: State, r: nat, i: nat, waits: Schedule<Action>) {
    && i < |files| && checked.recorded <= tried.recorded && files[i] !in checked.recorded
    && (|| files[i] in tried.recorded
        || (&& (exists q :: q in tried.runs && q != r && tried.runs[q] == Recorded(i))
            && (exists m: State :: checked.recorded <= m.recorded && tried == AfterAll(files, m, r, waits))))
  }

  /** A statement after the check fails, and the file is not applied. */
  predicate Interrupts(faults: set<Stage>) {
    || ReadFails in faults || BeginFails in faults || ExecuteFails in faults || RecordFails in faults
    || CommitFails in faults
  }

  /** A statement fails, or the run is stopped; an open transaction is rolled back. */
  method GiveUp(db: Database, r: nat) returns (ok: bool)
    requires db.Valid() && r in db.state.runs && !db.state.runs[r].Done?
    modifies db
    ensures db.Valid() && old(db.state).recorded == db.state.recorded
    ensures !ok && r in db.state.runs && db.state.runs[r] == Failed
    ensures Alone(old(db.state), r) ==> Alone(db.state, r)
  {
    db.Do(Fail(r));
    ok := false;
  }

  lemma RecordStep(files: seq<string>, m: State, r: nat, i: nat)
    requires r in m.runs && m.runs[r] == Executed(i) && i < |files|
    ensures var m' := Next(files, m, Record(r));
            && r in m'.runs && m'.recorded == m.recorded
            && (m'.runs[r].Recorded? ==> m'.runs[r] == Recorded(i))
            && (m'.runs[r].Failed? ==> files[i] in m.recorded)
            && (m'.runs[r].Recorded? || m'.runs[r].Failed? ||
                (m' == m && exists q :: q in m.runs && q != r && m.runs[q] == Recorded(i)))
  {
    if Waits(m, r, i) {
      var q :| q in m.runs && q != r && m.runs[q].HoldsRecord(i);
      assert m.runs[q] == Recorded(i);
    }
  }

  /** The insert into schema_migrations, waiting while another run holds the same name. It fails when that is
      recorded by then, in `tried`, or when it has waited for all of `waits` and the name is still held. */
  method InsertRecord(db: Database, r: nat, i: nat, waits: Schedule<Action>) returns (ok: bool, ghost tried: State)
    requires db.Valid() && r in db.state.runs && db.state.runs[r] == Executed(i)
    modifies db
    ensures db.Valid() && old(db.state).recorded <= tried.recorded <= db.state.recorded
    ensures r in db.state.runs && db.state.runs[r] == if ok then Recorded(i) else Failed
    ensures !ok && db.files[i] !in tried.recorded ==>
              && tried == AfterAll(db.files, old(db.state), r, waits)
              && exists q :: q in tried.runs && q != r && tried.runs[q] == Recorded(i)
    ensures waits == [] ==> db.state.recorded == old(db.state).recorded
    ensures waits == [] && Alone(old(db.state), r) && |old(db.state).recorded| == i ==>
              ok && Alone(db.state, r) && db.state.recorded == old(db.state).recorded
    decreases |waits|
  {
    assert RunFits(db.files, db.state.recorded, db.state.runs[r]);
    PrefixMember(db.files, |db.state.recorded|, i);
    assert db.state.recorded == db.files[..|db.state.recorded|];
    tried := db.state;
    RecordStep(db.files, db.state, r, i);
    db.Do(Record(r));
    ok := db.state.runs[r].Recorded?;
    if db.state.runs[r].Executed? {
      if waits == [] {
        ok := GiveUp(db, r);
      } else {
        db.Others(r, waits[0]);
        ok, tried := InsertRecord(db, r, i, waits[1..]);
      }
    }
  }

  /** The transaction that applies and records a file the run has not found recorded. */
  method ApplyInTransaction(db: Database, r: nat, i: nat, env: Schedule<Action>, waits: Schedule<Action>,
                            faults: set<Stage>, ghost checked: State)
    returns (ok: bool, ghost tried: State)
    requires db.Valid() && r in db.state.runs && db.state.runs[r] == Begun(i)
    requires i < |db.files| && checked.recorded <= db.state.recorded && db.files[i] !in checked.recorded
    modifies db
    ensures db.Valid() && old(db.state).recorded <= db.state.recorded
    ensures r in db.state.runs && db.state.runs[r] == if ok then Reached(db.files, i + 1) else Failed
    ensures !ok && faults == {} ==> Lost(db.files, checked, tried, r, i, waits)
    ensures Interrupts(faults) || AcknowledgementLost in faults ==> !ok
    ensures env == [] && waits == [] && Interrupts(faults) ==> db.state.recorded == old(db.state).recorded
    ensures env == [] && waits == [] && faults == {} && Alone(old(db.state), r) && |old(db.state).recorded| == i ==>
              ok && Alone(db.state, r)
  {
    tried := db.state;
    assert RunFits(db.files, db.state.recorded, db.state.runs[r]);
    if ReadFails in faults || BeginFails in faults || ExecuteFails in faults {
      ok := GiveUp(db, r);
      return;
    }
    db.Do(Execute(r));
    db.Others(r, Gap(env, 2));
    if RecordFails in faults {
      ok := GiveUp(db, r);
      return;
    }
    ghost var before := db.state;
    ok, tried := InsertRecord(db, r, i, waits);
    if !ok {
      LostSince(db.files, checked, before, tried, r, i, waits);
      return;
    }
    ok := CommitFile(db, r, i, Gap(env, 3), faults);
  }

  method CommitFile(db: Database, r: nat, i: nat, others: seq<Action>, faults: set<Stage>) returns (ok: bool)
    requires db.Valid() && r in db.state.runs && db.state.runs[r] == Recorded(i)
    modifies db
    ensures db.Valid() && old(db.state).recorded <= db.state.recorded
    ensures ok <==> CommitFails !in faults && AcknowledgementLost !in faults
    ensures r in db.state.runs && db.state.runs[r] == if ok then Reached(db.files, i + 1) else Failed
    ensures CommitFails !in faults && i < |db.files| ==> db.files[i] in db.state.recorded
    ensures others == [] && CommitFails in faults ==> db.state.recorded == old(db.state).recorded
    ensures others == [] && Alone(old(db.state), r) ==> Alone(db.state, r)
  {
    db.Others(r, others);
    assert RunFits(db.files, db.state.recorded, db.state.runs[r]);
    if CommitFails in faults {
      ok := GiveUp(db, r);
      return;
    }
    ok := AcknowledgementLost !in faults;
    db.Do(Commit(r, ok));
  }

  lemma LostSince(files: seq<string>, checked: State, before: State, tried: State, r: nat, i: nat,
                  waits: Schedule<Action>)
    requires i < |files| && checked.recorded <= before.recorded <= tried.recorded && files[i] !in checked.recorded
    requires files[i] !in tried.recorded ==>
               && tried == AfterAll(files, before, r, waits)
               && exists q :: q in tried.runs && q != r && tried.runs[q] == Recorded(i)
    ensures Lost(files, checked, tried, r, i, waits)
  {
  }

  /** One turn of the loop of `Up`: the file is skipped when it is recorded, and applied and recorded in one
      transaction otherwise. Unless a statement of its own fails, only another run can keep it from that. */
  method ApplyFile(db: Database, r: nat, i: nat, env: Schedule<Action>, waits: Schedule<Action>,
                   faults: set<Stage>)
    returns (ok: bool, ghost checked: State, ghost tried: State)
    requires db.Valid() && r in db.state.runs && db.state.runs[r] == Checking(i)
    modifies db
    ensures db.Valid() && old(db.state).recorded <= checked.recorded <= db.state.recorded
    ensures r in db.state.runs && db.state.runs[r] == if ok then Reached(db.files, i + 1) else Failed
    ensures !ok && faults == {} ==> Lost(db.files, checked, tried, r, i, waits)
    ensures CheckFails in faults ==> !ok
    ensures CheckFails !in faults && db.files[i] in checked.recorded ==> ok
    ensures (Interrupts(faults) || AcknowledgementLost in faults) && db.files[i] !in checked.recorded ==> !ok
    ensures env == [] && waits == [] && (CheckFails in faults || Interrupts(faults)) ==>
              db.state.recorded == old(db.state).recorded
    ensures env == [] && waits == [] && faults == {} && Alone(old(db.state), r) ==> ok && Alone(db.state, r)
  {
    db.Others(r, Gap(env, 0));
    checked, tried := db.state, db.state;
    assert RunFits(db.files, db.state.recorded, db.state.runs[r]);
    PrefixMember(db.files, |db.state.recorded|, i);
    assert db.state.recorded == db.files[..|db.state.recorded|];
    if CheckFails in faults {
      ok := GiveUp(db, r);
      return;
    }
    db.Do(Check(r));
    if !db.state.runs[r].Begun? { return true, checked, tried; }
    db.Others(r, Gap(env, 1));
    ok, tried := ApplyInTransaction(db, r, i, env, waits, faults, checked);
  }

  function ItemAt<T>(s: seq<T>, i: nat, default: T): T {
    if i < |s| then s[i] else default
  }

  /** `Up`. When it returns without an error every migration of the directory is in effect, each once, in
      order; it undoes nothing; unless a statement of its own fails, only another run that takes a file from it
      can make it fail; and on its own, whatever interrupted runs left behind, it succeeds. */
  method Up(db: Database, r: nat, entries: seq<Entry>, setupFails: bool, env: seq<Schedule<Action>>,
            waits: seq<Schedule<Action>>, faults: seq<set<Stage>>)
    returns (ok: bool, ghost checked: State, ghost tried: State)
    requires db.Valid() && r !in db.state.runs
    requires DistinctNames(entries) && ListOf(entries, db.files)
    modifies db
    ensures db.Valid() && old(db.state).recorded <= db.state.recorded
    ensures ok ==> db.state.schema == db.state.recorded == db.files
    ensures setupFails ==> !ok && db.state == old(db.state)
    ensures !ok && !setupFails && (forall i :: 0 <= i < |faults| ==> faults[i] == {}) ==>
              && old(db.state).recorded <= checked.recorded
              && exists i: nat :: Lost(db.files, checked, tried, r, i, ItemAt(waits, i, []))
    ensures !setupFails && env == [] && waits == [] && faults == [] && Alone(old(db.state), r) ==> ok
  {
    checked, tried := db.state, db.state;
    if setupFails { return false, checked, tried; }
    var files := ListAgain(entries, db.files);
    db.Do(Start(r));
    ok := true;
    for i := 0 to |files|
      invariant db.Valid() && old(db.state).recorded <= db.state.recorded
      invariant r in db.state.runs && db.state.runs[r] == Reached(db.files, i)
      invariant env == [] && waits == [] && faults == [] && Alone(old(db.state), r) ==> Alone(db.state, r)
    {
      ok, checked, tried := ApplyFile(db, r, i, ItemAt(env, i, []), ItemAt(waits, i, []), ItemAt(faults, i, {}));
      if !ok { return; }
    }
    ok := true;
    assert RunFits(db.files, db.state.recorded, db.state.runs[r]);
  }
}
