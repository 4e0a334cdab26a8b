/** The commands of internal/user/service.go, internal/product/service.go and internal/order/service.go,
    and the append requests they make. */
module Services {
  import opened Domain
  import opened EventLog
  import opened Aggregates
  import opened Sequences
  import opened System
  import opened Database
  import opened CommandTheorems
  import opened Commands
  import W = Writers
  import Int64
  import O = OrderAggregate

  datatype Command =
    | CreateUser(id: string, name: string, email: string, expected: Option<int>)
    | UpdateUser(id: string, newName: Option<string>, newEmail: Option<string>, newAddress: Option<string>,
                 newAvatar: Option<string>, expected: Option<int>)
    | DeleteUser(id: string, expected: Option<int>)
    | CreateProduct(id: string, name: string, description: string, priceCents: int, currency: string)
    | UpdateProduct(id: string, newName: Option<string>, newDescription: Option<string>, newPriceCents: Option<int>,
                    newCurrency: Option<string>, expected: Option<int>)
    | DeleteProduct(id: string, expected: Option<int>)
    | CreateOrder(id: string, userId: string, items: Slice<Item>, currency: string)
    | UpdateOrder(id: string, newStatus: Option<string>, expected: Option<int>)
    | CancelOrder(id: string, expected: Option<int>)
    | AddItem(id: string, item: Item, expected: Option<int>)

  /** Every request is a creation exactly when its event opens a history, its payload decodes, and a new
      order carries the total of its own lines. It addresses the service's own aggregates, expects what the
      caller expects, and passes every field on. */
  function RequestOf(c: Command): (req: W.Request)
    ensures W.WellFormed(req)
    ensures Decodes(req.key.aggregateType, req.payload)
    ensures req.key.id == c.id
    ensures c.CreateUser? || c.UpdateUser? || c.DeleteUser? <==> req.key.aggregateType == UserType
    ensures c.CreateProduct? || c.UpdateProduct? || c.DeleteProduct? <==> req.key.aggregateType == ProductType
    ensures if c.CreateProduct? || c.CreateOrder? then req.expected == None else req.expected == c.expected
    ensures c.CreateUser? || c.CreateProduct? || c.CreateOrder? <==> req.isCreate
    ensures c.CreateUser? ==> req.payload.UserCreated? && req.payload.name == c.name && req.payload.email == c.email
    ensures c.UpdateUser? ==>
              && req.payload.UserUpdated?
              && req.payload.newName == c.newName && req.payload.newEmail == c.newEmail
              && req.payload.newAddress == c.newAddress && req.payload.newAvatar == c.newAvatar
    ensures c.DeleteUser? ==> req.payload.UserDeleted?
    ensures c.CreateProduct? ==>
              && req.payload.ProductCreated?
              && req.payload.productName == c.name && req.payload.description == c.description
              && req.payload.priceCents == c.priceCents
              && req.payload.currency == (if c.currency == "" then "USD" else c.currency)
    ensures c.UpdateProduct? ==>
              && req.payload.ProductUpdated?
              && req.payload.newProductName == c.newName && req.payload.newDescription == c.newDescription
              && req.payload.newPriceCents == c.newPriceCents && req.payload.newCurrency == c.newCurrency
    ensures c.DeleteProduct? ==> req.payload.ProductDeleted?
    ensures c.CreateOrder? ==>
              && req.payload.OrderCreated?
              && req.payload.userId == c.userId && req.payload.items == c.items
              && req.payload.orderCurrency == (if c.currency == "" then "USD" else c.currency)
    ensures c.UpdateOrder? ==> req.payload.OrderUpdated? && req.payload.newStatus == c.newStatus
    ensures c.CancelOrder? ==> req.payload.OrderCancelled?
    ensures c.AddItem? ==> req.payload.ItemAdded? && req.payload.item == c.item
  {
    match c
    case CreateUser(id, n, m, x) => W.Request(Key(UserType, id), x, UserCreated(n, m), true)
    case UpdateUser(id, n, m, a, v, x) => W.Request(Key(UserType, id), x, UserUpdated(n, m, a, v), false)
    case DeleteUser(id, x) => W.Request(Key(UserType, id), x, UserDeleted, false)
    case CreateProduct(id, n, d, p, u) =>
      W.Request(Key(ProductType, id), None, ProductCreated(n, d, p, NonEmpty(u, "USD")), true)
    case UpdateProduct(id, n, d, p, u, x) => W.Request(Key(ProductType, id), x, ProductUpdated(n, d, p, u), false)
    case DeleteProduct(id, x) => W.Request(Key(ProductType, id), x, ProductDeleted, false)
    case CreateOrder(id, usr, its, u) =>
      W.Request(Key(OrderType, id), None,
                OrderCreated(usr, NonEmpty(u, "USD"), Int64.Wrap(O.Sum(its.Seq())), its), true)
    case UpdateOrder(id, st, x) => W.Request(Key(OrderType, id), x, OrderUpdated(st), false)
    case CancelOrder(id, x) => W.Request(Key(OrderType, id), x, OrderCancelled, false)
    case AddItem(id, i, x) => W.Request(Key(OrderType, id), x, ItemAdded(i), false)
  }

  /** internal/order/service.go, `Create`, up to the append: the total is accumulated in int64. */
  method CreateOrderRequest(id: string, userId: string, items: Slice<Item>, currency: string) returns (req: W.Request)
    ensures req == RequestOf(CreateOrder(id, userId, items, currency))
    ensures req.payload.OrderCreated? && req.payload.totalCents == Int64.Wrap(O.Sum(items.Seq()))
  {
    var cur := currency;
    if cur == "" { cur := "USD"; }
    var lines := items.Seq();
    var total := 0;
    for i := 0 to |lines|
      invariant total == Int64.Wrap(O.Sum(lines[..i]))
    {
      O.RunningTotal(lines, i);
      total := Int64.Wrap(total + Int64.Wrap(lines[i].priceCents * lines[i].quantity));
    }
    assert lines[..|lines|] == lines;
    req := W.Request(Key(OrderType, id), None, OrderCreated(userId, cur, total, items), true);
  }

  /** The version that the caller expects; the creations of products and orders take none. */
  function Expected(c: Command): (x: Option<int>)
    ensures x == RequestOf(c).expected
  {
    if c.CreateProduct? || c.CreateOrder? then None else c.expected
  }

  /** The append of a service. On success the event is at the version after the one the caller expected.
      Whatever runs meanwhile, a caller who expects less than there was when the command began is refused and
      nothing is written; with nobody else at work, so is one who expects anything but the head. */
  method Submit(db: Connection, t: nat, req: W.Request, env: Schedule<Action>, waits: Schedule<Action>,
                failAt: Option<nat>, acknowledged: bool)
    returns (r: Result<Event>, ghost stuck: State)
    requires db.Valid() && t !in db.state.store.txs && W.WellFormed(req) && Decodes(req.key.aggregateType, req.payload)
    modifies db
    ensures db.Valid() && Extends(old(db.state), db.state)
    ensures Answer(db.state.store.db, |old(db.state).store.db.events|, t, req, r)
    ensures r == Err(Aborted) && failAt.None? && acknowledged ==>
              Stuck(db.period, old(db.state), stuck, db.state, t, req, [Gap(env, 2)] + waits)
    ensures r.Ok? && req.expected.Some? ==> r.value.version == req.expected.value + 1
    ensures failAt != Some(0) && req.expected.Some?
            && req.expected.value < |Of(old(db.state).store.db.events, req.key)| ==>
              r == Err(VersionMismatch) && WroteNothing(db.state.store.db, t)
    ensures env == [] && waits == [] && Undisturbed(old(db.state), t) && failAt.None? && acknowledged
            && req.expected.Some? && req.expected.value != |Of(old(db.state).store.db.events, req.key)| ==>
              r == Err(VersionMismatch) && db.state.store.db.events == old(db.state).store.db.events
  {
    r, stuck := Append(db, t, req, env, waits, failAt, acknowledged);
    SuccessFollows(db.state.store.db, |old(db.state).store.db.events|, t, req, r);
    if env == [] && waits == [] && Undisturbed(old(db.state), t) && failAt.None? && acknowledged
       && req.expected.Some? && req.expected.value != |Of(old(db.state).store.db.events, req.key)|
    {
      MismatchAlone(old(db.state).store.db, db.state.store.db, req, r);
    }
  }

  /** A service command from its request to its answer. */
  method Execute(db: Connection, t: nat, c: Command, env: Schedule<Action>, waits: Schedule<Action>,
                 failAt: Option<nat>, acknowledged: bool)
    returns (r: Result<Event>, ghost stuck: State)
    requires db.Valid() && t !in db.state.store.txs
    modifies db
    ensures db.Valid() && Extends(old(db.state), db.state)
    ensures Answer(db.state.store.db, |old(db.state).store.db.events|, t, RequestOf(c), r)
    ensures r == Err(Aborted) && failAt.None? && acknowledged ==>
              Stuck(db.period, old(db.state), stuck, db.state, t, RequestOf(c), [Gap(env, 2)] + waits)
    ensures r.Ok? && Expected(c).Some? ==> r.value.version == Expected(c).value + 1
    ensures failAt != Some(0) && Expected(c).Some?
            && Expected(c).value < |Of(old(db.state).store.db.events, RequestOf(c).key)| ==>
              r == Err(VersionMismatch) && WroteNothing(db.state.store.db, t)
    ensures env == [] && waits == [] && Undisturbed(old(db.state), t) && failAt.None? && acknowledged
            && Expected(c).Some? && Expected(c).value != |Of(old(db.state).store.db.events, RequestOf(c).key)| ==>
              r == Err(VersionMismatch) && db.state.store.db.events == old(db.state).store.db.events
  {
    var req := MakeRequest(c);
    r, stuck := Submit(db, t, req, env, waits, failAt, acknowledged);
  }

  method MakeRequest(c: Command) returns (req: W.Request)
    ensures req == RequestOf(c)
  {
    req := RequestOf(c);
    if c.CreateOrder? { req := CreateOrderRequest(c.id, c.userId, c.items, c.currency); }
  }

  lemma SuccessFollows(db: W.Tables, from: nat, t: nat, req: W.Request, r: Result<Event>)
    requires Answer(db, from, t, req, r)
    ensures r.Ok? && req.expected.Some? ==> r.value.version == req.expected.value + 1
    ensures r == Err(VersionMismatch) ==> WroteNothing(db, t)
  {
    if r.Ok? {
      var at :| from <= at && CommittedExactly(db, t, req, r.value, at);
      var log, log' := Of(db.events[..at], req.key), Of(db.events[..at + 1], req.key);
      assert db.events[..at + 1] == db.events[..at] + [db.events[at]];
      OfAppend(db.events[..at], db.events[at], req.key);
      assert log'[|log|] == Event(r.value.id, req.key, |log| + 1, req.payload, r.value.createdAt);
    }
  }

  lemma MismatchAlone(db: W.Tables, db': W.Tables, req: W.Request, r: Result<Event>)
    requires Sequential(db, db', req, r) && Decodes(req.key.aggregateType, req.payload)
    requires req.expected.Some? && req.expected.value != |Of(db.events, req.key)|
    ensures r == Err(VersionMismatch) && db'.events == db.events
  {
    assert CompareAndAppend(Of(db.events, req.key), req, 0, 0) == Err(VersionMismatch);
  }
}
