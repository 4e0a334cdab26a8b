/** internal/eventstore/store.go, `LoadEventsUntil`: the query text is put together clause by clause, and
    each clause refers to its argument by position. */
module LoadQuery {
  import opened Domain
  import opened EventLog
  import CacheKeys
  import Sorting

  datatype Column = TypeColumn | AggregateIdColumn | VersionColumn | CreatedAtColumn | EventIdColumn

  datatype Value = Text(text: string) | Number(number: int)

  /** `column = $n` and `column <= $n`, counting arguments from 1. */
  datatype Clause = Equals(column: Column, n: nat) | AtMost(column: Column, n: nat)

  function ColumnOf(e: Event, c: Column): Value {
    match c
    case TypeColumn => Text(CacheKeys.TypeName(e.key.aggregateType))
    case AggregateIdColumn => Text(e.key.id)
    case VersionColumn => Number(e.version)
    case CreatedAtColumn => Number(e.createdAt)
    case EventIdColumn => Number(e.id)
  }

  predicate Satisfies(e: Event, c: Clause, args: seq<Value>) {
    && 1 <= c.n <= |args|
    && match c
       case Equals(col, n) => ColumnOf(e, col) == args[n - 1]
       case AtMost(col, n) =>
         ColumnOf(e, col).Number? && args[n - 1].Number? && ColumnOf(e, col).number <= args[n - 1].number
  }

  predicate SatisfiesAll(e: Event, clauses: seq<Clause>, args: seq<Value>) {
    forall i :: 0 <= i < |clauses| ==> Satisfies(e, clauses[i], args)
  }

  /** Every clause has its own argument, and none is left over. */
  predicate WellBound(clauses: seq<Clause>, args: seq<Value>) {
    |clauses| == |args| && forall i :: 0 <= i < |clauses| ==> clauses[i].n == i + 1
  }

  lemma TypeNameInjective(t: AggregateType, u: AggregateType)
    ensures CacheKeys.TypeName(t) == CacheKeys.TypeName(u) <==> t == u
  {
    assert CacheKeys.TypeName(UserType)[0] == 'u' && CacheKeys.TypeName(ProductType)[0] == 'p'
           && CacheKeys.TypeName(OrderType)[0] == 'o';
  }

  /** One more clause with its argument. */
  lemma AddClause(clauses: seq<Clause>, args: seq<Value>, c: Clause, v: Value)
    requires WellBound(clauses, args) && c.n == |args| + 1
    ensures WellBound(clauses + [c], args + [v])
    ensures forall e :: SatisfiesAll(e, clauses + [c], args + [v]) <==>
                          SatisfiesAll(e, clauses, args) && Satisfies(e, c, args + [v])
  {
    var clauses', args' := clauses + [c], args + [v];
    forall e ensures SatisfiesAll(e, clauses', args') <==> SatisfiesAll(e, clauses, args) && Satisfies(e, c, args') {
      assert forall i :: 0 <= i < |clauses| ==> clauses'[i] == clauses[i] && args'[i] == args[i];
      assert clauses'[|clauses|] == c;
    }
  }

  /** The clauses select exactly the aggregate's rows that meet the query. */
  ghost predicate Selects(clauses: seq<Clause>, args: seq<Value>, k: Key, q: Query) {
    WellBound(clauses, args) && forall e :: SatisfiesAll(e, clauses, args) <==> e.key == k && Matches(q, e)
  }

  lemma BaseSelects(k: Key)
    ensures Selects([Equals(TypeColumn, 1), Equals(AggregateIdColumn, 2)],
                    [Text(CacheKeys.TypeName(k.aggregateType)), Text(k.id)], k, CURRENT)
  {
    var clauses := [Equals(TypeColumn, 1), Equals(AggregateIdColumn, 2)];
    var args := [Text(CacheKeys.TypeName(k.aggregateType)), Text(k.id)];
    forall e ensures SatisfiesAll(e, clauses, args) <==> e.key == k && Matches(CURRENT, e) {
      TypeNameInjective(e.key.aggregateType, k.aggregateType);
      assert SatisfiesAll(e, clauses, args) <==> Satisfies(e, clauses[0], args) && Satisfies(e, clauses[1], args);
    }
  }

  /** A clause that adds one bound to the query. */
  lemma BoundSelects(clauses: seq<Clause>, args: seq<Value>, k: Key, q: Query, q': Query, c: Clause, v: Value)
    requires Selects(clauses, args, k, q) && c.n == |args| + 1
    requires forall e :: Matches(q', e) <==> Matches(q, e) && Satisfies(e, c, args + [v])
    ensures Selects(clauses + [c], args + [v], k, q')
  {
    AddClause(clauses, args, c, v);
  }

  /** Whatever bounds the query has, and so whatever numbers the parameters get. */
  method Build(k: Key, q: Query) returns (clauses: seq<Clause>, args: seq<Value>)
    ensures Selects(clauses, args, k, q)
  {
    clauses := [Equals(TypeColumn, 1), Equals(AggregateIdColumn, 2)];
    args := [Text(CacheKeys.TypeName(k.aggregateType)), Text(k.id)];
    var argN := 3;
    BaseSelects(k);
    if q.version.Some? {
      BoundSelects(clauses, args, k, CURRENT, Query(None, q.version, None),
                   AtMost(VersionColumn, argN), Number(q.version.value));
      clauses := clauses + [AtMost(VersionColumn, argN)];
      args := args + [Number(q.version.value)];
      argN := argN + 1;
    }
    if q.at.Some? {
      BoundSelects(clauses, args, k, Query(None, q.version, None), Query(q.at, q.version, None),
                   AtMost(CreatedAtColumn, argN), Number(q.at.value));
      clauses := clauses + [AtMost(CreatedAtColumn, argN)];
      args := args + [Number(q.at.value)];
      argN := argN + 1;
    }
    if q.untilId.Some? {
      BoundSelects(clauses, args, k, Query(q.at, q.version, None), q,
                   AtMost(EventIdColumn, argN), Number(q.untilId.value));
      clauses := clauses + [AtMost(EventIdColumn, argN)];
      args := args + [Number(q.untilId.value)];
    }
  }

  function Select(events: seq<Event>, clauses: seq<Clause>, args: seq<Value>): seq<Event> {
    if events == [] then []
    else
      var rest := Select(events[..|events| - 1], clauses, args);
      if SatisfiesAll(events[|events| - 1], clauses, args) then rest + [events[|events| - 1]] else rest
  }

  lemma {:induction false} SelectIsMatching(events: seq<Event>, clauses: seq<Clause>, args: seq<Value>,
                                            k: Key, q: Query)
    requires Selects(clauses, args, k, q)
    ensures Select(events, clauses, args) == Matching(q, Of(events, k))
  {
    if events == [] {
    } else {
      SelectIsMatching(events[..|events| - 1], clauses, args, k, q);
    }
  }

  /** The query is run and its rows are scanned into a slice. */
  method LoadEventsUntil(events: seq<Event>, k: Key, q: Query) returns (loaded: seq<Event>)
    ensures loaded == LoadUntil(events, k, q)
  {
    var clauses, args := Build(k, q);
    SelectIsMatching(events, clauses, args, k, q);
    var rows := Sorting.Sort(ByVersion, Select(events, clauses, args));
    loaded := [];
    for i := 0 to |rows|
      invariant loaded == rows[..i]
    {
      loaded := loaded + [rows[i]];
    }
  }
}
