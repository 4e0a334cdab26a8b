/** The three aggregates behind the engine's `Aggregate` interface, and the fold of a history. */
module Aggregates {
  import opened Domain
  import EventLog
  import U = UserAggregate
  import P = ProductAggregate
  import O = OrderAggregate

  datatype Aggregate = AUser(user: U.UserState) | AProduct(product: P.ProductState) | AOrder(order: O.OrderState)
  {
    function Type(): AggregateType {
      match this
      case AUser(_) => UserType
      case AProduct(_) => ProductType
      case AOrder(_) => OrderType
    }

    function Version(): int {
      match this
      case AUser(u) => u.version
      case AProduct(p) => p.version
      case AOrder(o) => o.version
    }

    function CreatedAt(): int {
      match this
      case AUser(u) => u.createdAt
      case AProduct(p) => p.createdAt
      case AOrder(o) => o.createdAt
    }

    function UpdatedAt(): int {
      match this
      case AUser(u) => u.updatedAt
      case AProduct(p) => p.updatedAt
      case AOrder(o) => o.updatedAt
    }

    /** A deleted user or product, or a cancelled order. */
    predicate Closed() {
      match this
      case AUser(u) => u.deleted
      case AProduct(p) => p.deleted
      case AOrder(o) => o.cancelled
    }
  }

  function New(k: Key): Aggregate {
    match k.aggregateType
    case UserType => AUser(U.New(k.id))
    case ProductType => AProduct(P.New(k.id))
    case OrderType => AOrder(O.New(k.id))
  }

  lemma NewHasType(k: Key)
    ensures New(k).Type() == k.aggregateType && New(k).Version() == 0
  {
  }

  function Map<A, B>(r: Result<A>, f: A -> B): Result<B> {
    match r
    case Ok(v) => Ok(f(v))
    case Err(e) => Err(e)
  }

  function Apply(a: Aggregate, e: Event): Result<Aggregate> {
    match a
    case AUser(u) => Map(U.Evolve(u, e), s => AUser(s))
    case AProduct(p) => Map(P.Evolve(p, e), s => AProduct(s))
    case AOrder(o) => Map(O.Evolve(o, e), s => AOrder(s))
  }

  function Fold(a: Aggregate, log: seq<Event>): Result<Aggregate> {
    if log == [] then Ok(a)
    else
      match Fold(a, log[..|log| - 1])
      case Ok(b) => Apply(b, log[|log| - 1])
      case Err(x) => Err(x)
  }

  lemma {:induction false} FoldSplit(a: Aggregate, x: seq<Event>, y: seq<Event>)
    ensures Fold(a, x + y) ==
            match Fold(a, x) { case Ok(b) => Fold(b, y) case Err(e) => Err(e) }
  {
    if y == [] {
      assert x + y == x;
    } else {
      assert (x + y)[..|x + y| - 1] == x + y[..|y| - 1];
      FoldSplit(a, x, y[..|y| - 1]);
    }
  }

  lemma FoldStep(a: Aggregate, log: seq<Event>, e: Event)
    ensures Fold(a, log + [e]) ==
            match Fold(a, log) { case Ok(b) => Apply(b, e) case Err(x) => Err(x) }
  {
    assert (log + [e])[..|log|] == log;
  }

  lemma FoldPrefixOk(a: Aggregate, log: seq<Event>, n: nat)
    requires n <= |log| && Fold(a, log).Ok?
    ensures Fold(a, log[..n]).Ok?
  {
    assert log == log[..n] + log[n..];
    FoldSplit(a, log[..n], log[n..]);
  }

  /** The payload does not make an aggregate of this type fail. */
  predicate Decodes(t: AggregateType, p: Payload) {
    p != Malformed(t)
  }

  lemma ApplyStamps(a: Aggregate, e: Event)
    ensures Apply(a, e).Ok? <==> Decodes(a.Type(), e.payload)
    ensures Apply(a, e).Err? ==> Apply(a, e) == Err(ApplyFailed(e.version))
    ensures Apply(a, e).Ok? ==>
              var b := Apply(a, e).value;
              && b.Type() == a.Type() && b.Version() == e.version && b.UpdatedAt() == e.createdAt
              && (b.CreatedAt() == if Creates(a.Type(), e.payload) then e.createdAt else a.CreatedAt())
  {
  }

  /** Folding a nonempty history stamps the aggregate with its last event. */
  lemma {:induction false} FoldStamps(a: Aggregate, log: seq<Event>)
    ensures Fold(a, log).Ok? ==>
              var b := Fold(a, log).value;
              && b.Type() == a.Type()
              && b.Version() == (if log == [] then a.Version() else log[|log| - 1].version)
              && b.UpdatedAt() == (if log == [] then a.UpdatedAt() else log[|log| - 1].createdAt)
    ensures Fold(a, log).Ok? <==> forall i :: 0 <= i < |log| ==> Decodes(a.Type(), log[i].payload)
  {
    if log == [] {
    } else {
      var init, last := log[..|log| - 1], log[|log| - 1];
      FoldStamps(a, init);
      if Fold(a, init).Ok? {
        ApplyStamps(Fold(a, init).value, last);
      }
    }
  }

  // ---------- Snapshots ----------

  datatype Document =
    | UserDocument(user: U.UserDoc)
    | ProductDocument(product: P.ProductDoc)
    | OrderDocument(order: O.OrderDoc)

  function Marshal(a: Aggregate): Document {
    match a
    case AUser(u) => UserDocument(U.Marshal(u))
    case AProduct(p) => ProductDocument(P.Marshal(p))
    case AOrder(o) => OrderDocument(O.Marshal(o))
  }

  function Unmarshal(receiver: Aggregate, d: Document): Result<Aggregate> {
    match (receiver, d)
    case (AUser(r), UserDocument(u)) => Ok(AUser(U.Overlay(r, u)))
    case (AProduct(r), ProductDocument(p)) => Ok(AProduct(P.Overlay(r, p)))
    case (AOrder(r), OrderDocument(o)) => Ok(AOrder(O.Overlay(r, o)))
    case _ => Err(SnapshotUnreadable)
  }

  /** A snapshot restores, onto a fresh aggregate of any id, the state it was taken of. */
  lemma SnapshotRoundTrip(a: Aggregate, k: Key)
    requires a.Type() == k.aggregateType
    ensures Unmarshal(New(k), Marshal(a)) == Ok(a)
  {
    match a
    case AUser(u) => U.RoundTrip(u, U.New(k.id));
    case AProduct(p) => P.RoundTrip(p, P.New(k.id));
    case AOrder(o) => O.RoundTrip(o, O.New(k.id));
  }

  // ---------- Lifecycle ----------

  /** A history opens with the creation event of its type and has no other. */
  ghost predicate Opened(t: AggregateType, log: seq<Event>) {
    forall i :: 0 <= i < |log| ==> (Creates(t, log[i].payload) <==> i == 0)
  }

  /** Along a history the creation time is that of its first event, and once an aggregate is deleted
      or cancelled it stays so. */
  lemma {:induction false} LifecycleIsMonotone(k: Key, log: seq<Event>, n: nat)
    requires Opened(k.aggregateType, log) && Fold(New(k), log).Ok?
    requires 1 <= n <= |log|
    ensures Fold(New(k), log[..n]).Ok?
    ensures Fold(New(k), log).value.CreatedAt() == log[0].createdAt
    ensures Fold(New(k), log[..n]).value.Closed() ==> Fold(New(k), log).value.Closed()
    decreases |log|
  {
    FoldPrefixOk(New(k), log, n);
    var init := log[..|log| - 1];
    LastEventKeepsLifecycle(k, log);
    if n == |log| {
      assert log[..n] == log;
      if n > 1 { LifecycleIsMonotone(k, init, 1); }
    } else {
      LifecycleIsMonotone(k, init, n);
      assert init[..n] == log[..n];
    }
  }

  /** The last event of an opened history dates the aggregate only if it is the first, and reopens nothing. */
  lemma LastEventKeepsLifecycle(k: Key, log: seq<Event>)
    requires Opened(k.aggregateType, log) && Fold(New(k), log).Ok? && log != []
    ensures var init := log[..|log| - 1];
            && Fold(New(k), init).Ok?
            && var before, after := Fold(New(k), init).value, Fold(New(k), log).value;
               && after.CreatedAt() == (if init == [] then log[0].createdAt else before.CreatedAt())
               && (init != [] && before.Closed() ==> after.Closed())
  {
    var init, last := log[..|log| - 1], log[|log| - 1];
    FoldStamps(New(k), init);
    ApplyStamps(Fold(New(k), init).value, last);
    if init != [] && Fold(New(k), init).value.Closed() { ApplyKeepsClosed(Fold(New(k), init).value, last); }
  }

  lemma ApplyKeepsClosed(a: Aggregate, e: Event)
    requires a.Closed() && !Creates(a.Type(), e.payload)
    ensures Apply(a, e).Ok? ==> Apply(a, e).value.Closed()
  {
  }

  /** An aggregate is deleted or cancelled exactly when its history has a deletion or a cancellation. */
  lemma {:induction false} ClosedIffClosing(k: Key, log: seq<Event>)
    requires Opened(k.aggregateType, log) && Fold(New(k), log).Ok?
    ensures match Fold(New(k), log).value
            case AUser(u) => u.deleted <==> exists i :: 0 <= i < |log| && log[i].payload.UserDeleted?
            case AProduct(p) => p.deleted <==> exists i :: 0 <= i < |log| && log[i].payload.ProductDeleted?
            case AOrder(o) => o.cancelled <==> exists i :: 0 <= i < |log| && log[i].payload.OrderCancelled?
  {
    if log == [] {
    } else {
      var init, last := log[..|log| - 1], log[|log| - 1];
      FoldStamps(New(k), init);
      ClosedIffClosing(k, init);
      assert forall i :: 0 <= i < |init| ==> init[i] == log[i];
      LastCloses(Fold(New(k), init).value, last, init == []);
    }
  }

  lemma LastCloses(a: Aggregate, e: Event, first: bool)
    requires Decodes(a.Type(), e.payload) && (Creates(a.Type(), e.payload) ==> first) && (first ==> !a.Closed())
    ensures match Apply(a, e).value
            case AUser(u) => a.AUser? && (u.deleted <==> a.user.deleted || e.payload.UserDeleted?)
            case AProduct(p) => a.AProduct? && (p.deleted <==> a.product.deleted || e.payload.ProductDeleted?)
            case AOrder(o) => a.AOrder? && (o.cancelled <==> a.order.cancelled || e.payload.OrderCancelled?)
  {
  }

  /** The total of an order agrees with its lines along any history whose creation events do. */
  lemma {:induction false} OrderTotalAgrees(id: string, log: seq<Event>)
    requires forall i :: 0 <= i < |log| ==> O.WellPriced(log[i].payload)
    requires Fold(New(Key(OrderType, id)), log).Ok?
    ensures var a := Fold(New(Key(OrderType, id)), log).value; a.AOrder? && O.Balanced(a.order)
  {
    if log == [] {
      O.NewBalanced(id);
    } else {
      var init, last := log[..|log| - 1], log[|log| - 1];
      OrderTotalAgrees(id, init);
      O.EvolveBalanced(Fold(New(Key(OrderType, id)), init).value.order, last);
    }
  }
}
