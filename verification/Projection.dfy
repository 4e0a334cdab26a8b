/** internal/projection: the read-model rows that each append upserts. */
module Projection {
  import opened Domain
  import opened Aggregates
  import EventLog
  import U = UserAggregate
  import P = ProductAggregate
  import O = OrderAggregate
  import Slices
  import Int64

  /** The columns of the `users`, `products` and `orders` tables; a user row has no address and no
      avatar. */
  datatype Row =
    | UserRow(id: string, name: string, email: string, version: int, deleted: bool, createdAt: int, updatedAt: int)
    | ProductRow(id: string, name: string, description: string, priceCents: int, currency: string,
                 version: int, deleted: bool, createdAt: int, updatedAt: int)
    | OrderRow(id: string, userId: string, status: string, totalCents: int, currency: string,
               items: Slice<Item>, version: int, cancelled: bool, createdAt: int, updatedAt: int)

  function Columns(a: Aggregate): Row {
    match a
    case AUser(u) => UserRow(u.id, u.name, u.email, u.version, u.deleted, u.createdAt, u.updatedAt)
    case AProduct(p) =>
      ProductRow(p.id, p.name, p.description, p.priceCents, p.currency, p.version, p.deleted, p.createdAt, p.updatedAt)
    case AOrder(o) =>
      OrderRow(o.id, o.userId, o.status, o.totalCents, o.currency, o.items, o.version, o.cancelled,
               o.createdAt, o.updatedAt)
  }

  /** `GetCurrent`: the aggregate a row is read back as. */
  function ReadBack(r: Row): Aggregate {
    match r
    case UserRow(id, n, m, v, d, c, u) => AUser(U.UserState(id, n, m, "", "", d, v, c, u))
    case ProductRow(id, n, d, p, cur, v, del, c, u) => AProduct(P.ProductState(id, n, d, p, cur, del, v, c, u))
    case OrderRow(id, usr, st, t, cur, its, v, x, c, u) => AOrder(O.OrderState(id, usr, st, t, cur, its, x, v, c, u))
  }

  /** Reading a row back loses nothing: every column is a field of the aggregate, a user has no address and no
      avatar, and writing it again gives the row. */
  lemma ReadBackKeeps(r: Row)
    ensures Columns(ReadBack(r)) == r
    ensures r.UserRow? ==>
              && ReadBack(r).AUser?
              && var u := ReadBack(r).user;
                 && u.id == r.id && u.name == r.name && u.email == r.email && u.address == "" && u.avatar == ""
                 && u.deleted == r.deleted && u.version == r.version
                 && u.createdAt == r.createdAt && u.updatedAt == r.updatedAt
  {
  }

  /** The upsert: an existing row is overwritten in every column but the creation time. */
  function Upsert(existing: Option<Row>, row: Row): Row {
    match existing
    case None => row
    case Some(prior) => row.(createdAt := prior.createdAt)
  }

  /** The projector applies the one event to a fresh aggregate and upserts the result. */
  function ProjectEvent(k: Key, existing: Option<Row>, e: Event): Result<Row> {
    match Apply(New(k), e)
    case Ok(a) => Ok(Upsert(existing, Columns(a)))
    case Err(x) => Err(x)
  }

  function Lookup(rows: map<Key, Row>, k: Key): Option<Row> {
    if k in rows then Some(rows[k]) else None
  }

  /** The row left by projecting the events of a history one after the other. */
  function RowAfter(k: Key, log: seq<Event>): Option<Row> {
    if log == [] then None
    else
      match ProjectEvent(k, RowAfter(k, log[..|log| - 1]), log[|log| - 1])
      case Ok(row) => Some(row)
      case Err(_) => RowAfter(k, log[..|log| - 1])
  }

  /** The aggregate read back from the row that a history leaves, new when there is none. */
  function RowState(k: Key, log: seq<Event>): Aggregate {
    match RowAfter(k, log)
    case Some(row) => ReadBack(row)
    case None => New(k)
  }

  // What the row shows after an event: the fields that the event sets, and otherwise those of a new
  // aggregate, but for the creation time of an existing row.

  lemma UserRowShows(k: Key, prior: Option<Row>, e: Event)
    requires k.aggregateType == UserType
    ensures ProjectEvent(k, prior, e).Ok? <==> e.payload != Malformed(UserType)
    ensures ProjectEvent(k, prior, e).Ok? ==>
              && ProjectEvent(k, prior, e).value.UserRow?
              && var r := ProjectEvent(k, prior, e).value;
                 && r.id == k.id && r.version == e.version && r.updatedAt == e.createdAt
                 && r.createdAt == (if prior.Some? then prior.value.createdAt
                                    else if e.payload.UserCreated? then e.createdAt else ZERO_TIME)
                 && r.deleted == e.payload.UserDeleted?
                 && r.name == (if e.payload.UserCreated? then e.payload.name
                               else if e.payload.UserUpdated? && e.payload.newName.Some? then e.payload.newName.value
                               else "")
                 && r.email == (if e.payload.UserCreated? then e.payload.email
                                else if e.payload.UserUpdated? && e.payload.newEmail.Some? then e.payload.newEmail.value
                                else if e.payload.EmailChanged? then e.payload.changedEmail
                                else "")
  {
  }

  lemma ProductRowShows(k: Key, prior: Option<Row>, e: Event)
    requires k.aggregateType == ProductType
    ensures ProjectEvent(k, prior, e).Ok? <==> e.payload != Malformed(ProductType)
    ensures ProjectEvent(k, prior, e).Ok? ==>
              && ProjectEvent(k, prior, e).value.ProductRow?
              && var r, p := ProjectEvent(k, prior, e).value, e.payload;
                 && r.id == k.id && r.version == e.version && r.updatedAt == e.createdAt
                 && r.createdAt == (if prior.Some? then prior.value.createdAt
                                    else if p.ProductCreated? then e.createdAt else ZERO_TIME)
                 && r.deleted == p.ProductDeleted?
                 && r.name == (if p.ProductCreated? then p.productName
                               else if p.ProductUpdated? && p.newProductName.Some? then p.newProductName.value else "")
                 && r.description
                    == (if p.ProductCreated? then p.description
                        else if p.ProductUpdated? && p.newDescription.Some? then p.newDescription.value else "")
                 && r.priceCents
                    == (if p.ProductCreated? then p.priceCents
                        else if p.ProductUpdated? && p.newPriceCents.Some? then p.newPriceCents.value
                        else if p.PriceChanged? then p.changedPriceCents else 0)
                 && r.currency
                    == (if p.ProductCreated? && p.currency != "" then p.currency
                        else if p.ProductUpdated? && p.newCurrency.Some? then p.newCurrency.value
                        else if p.PriceChanged? && p.changedCurrency != "" then p.changedCurrency else "USD")
  {
  }

  lemma OrderRowShows(k: Key, prior: Option<Row>, e: Event)
    requires k.aggregateType == OrderType
    ensures ProjectEvent(k, prior, e).Ok? <==> e.payload != Malformed(OrderType)
    ensures ProjectEvent(k, prior, e).Ok? ==>
              && ProjectEvent(k, prior, e).value.OrderRow?
              && var r, p := ProjectEvent(k, prior, e).value, e.payload;
                 && r.id == k.id && r.version == e.version && r.updatedAt == e.createdAt
                 && r.createdAt == (if prior.Some? then prior.value.createdAt
                                    else if p.OrderCreated? then e.createdAt else ZERO_TIME)
                 && r.cancelled == p.OrderCancelled?
                 && r.userId == (if p.OrderCreated? then p.userId else "")
                 && r.status == (if p.OrderCancelled? then "cancelled"
                                 else if p.OrderUpdated? && p.newStatus.Some? then p.newStatus.value else "pending")
                 && r.currency == (if p.OrderCreated? && p.orderCurrency != "" then p.orderCurrency else "USD")
                 && r.items == (if p.OrderCreated? then p.items
                                else if p.ItemAdded? then Elements([p.item]) else Elements([]))
                 && r.totalCents == (if p.OrderCreated? then p.totalCents
                                     else if p.ItemAdded? then Int64.Wrap(p.item.priceCents * p.item.quantity) else 0)
  {
    O.EventSets(O.New(k.id), e);
    if e.payload.ItemAdded? { OneLine(e.payload.item); }
    if e.payload.ItemRemoved? { assert Slices.Filter(O.Keeps(e.payload.removedProductId), []) == []; }
  }

  lemma OneLine(i: Item)
    ensures [] + [i] == [i] && O.Sum([i]) == i.priceCents * i.quantity
  {
    O.SumAppend([], i);
  }

  lemma RowAfterStep(k: Key, log: seq<Event>, e: Event)
    ensures RowAfter(k, log + [e]) ==
            match ProjectEvent(k, RowAfter(k, log), e) { case Ok(row) => Some(row) case Err(_) => RowAfter(k, log) }
  {
    assert (log + [e])[..|log|] == log;
  }

  /** The row exists exactly when the history is nonempty. Its version, creation time and update time
      are those of the full fold; its other columns are those of the last event applied to a fresh
      aggregate, so it agrees with the fold for histories of length one. */
  lemma {:induction false} RowTracksHistory(k: Key, log: seq<Event>)
    requires Opened(k.aggregateType, log) && Fold(New(k), log).Ok?
    ensures RowAfter(k, log).Some? <==> log != []
    ensures log != [] ==>
              var row, full := RowAfter(k, log).value, Fold(New(k), log).value;
              && row.version == full.Version() && row.createdAt == full.CreatedAt() && row.updatedAt == full.UpdatedAt()
              && Apply(New(k), log[|log| - 1]).Ok?
              && row == Columns(Apply(New(k), log[|log| - 1]).value).(createdAt := log[0].createdAt)
    ensures |log| == 1 ==> ReadBack(RowAfter(k, log).value) == Fold(New(k), log).value
  {
    if log == [] {
    } else {
      FoldPrefixOk(New(k), log, |log| - 1);
      RowTracksHistory(k, log[..|log| - 1]);
      LastProjected(k, log);
    }
  }

  /** The last projection of a history, given that the row before it has the creation time. */
  lemma LastProjected(k: Key, log: seq<Event>)
    requires Opened(k.aggregateType, log) && Fold(New(k), log).Ok? && log != []
    requires var init := log[..|log| - 1];
             init != [] ==> RowAfter(k, init).Some? && RowAfter(k, init).value.createdAt == log[0].createdAt
    ensures RowAfter(k, log).Some?
    ensures var row, full := RowAfter(k, log).value, Fold(New(k), log).value;
            && row.version == full.Version() && row.createdAt == full.CreatedAt() && row.updatedAt == full.UpdatedAt()
            && Apply(New(k), log[|log| - 1]).Ok?
            && row == Columns(Apply(New(k), log[|log| - 1]).value).(createdAt := log[0].createdAt)
    ensures |log| == 1 ==> ReadBack(RowAfter(k, log).value) == Fold(New(k), log).value
  {
    var last := log[|log| - 1];
    FoldStamps(New(k), log);
    ApplyStamps(New(k), last);
    LifecycleIsMonotone(k, log, 1);
    NewHasType(k);
    if |log| == 1 {
      ReadBackColumns(New(k), last);
    }
  }

  /** A creation event applied to a fresh aggregate leaves nothing a row cannot hold. */
  lemma ReadBackColumns(a: Aggregate, e: Event)
    requires exists k: Key :: a == New(k)
    requires Creates(a.Type(), e.payload)
    ensures Apply(a, e).Ok? && ReadBack(Columns(Apply(a, e).value)) == Apply(a, e).value
  {
  }

  /** Beyond length one the row forgets: deleting a user blanks the name and email of the row, which
      the fold keeps. */
  lemma DeletionBlanksRow(k: Key, log: seq<Event>)
    requires k.aggregateType == UserType && Opened(UserType, log) && Fold(New(k), log).Ok?
    requires log != [] && log[|log| - 1].payload == UserDeleted
    ensures RowAfter(k, log).Some? && RowAfter(k, log).value.UserRow?
    ensures RowAfter(k, log).value.name == "" && RowAfter(k, log).value.email == ""
    ensures Fold(New(k), log[..|log| - 1]).Ok?
    ensures var full, before := Fold(New(k), log).value, Fold(New(k), log[..|log| - 1]).value;
            && full.AUser? && before.AUser?
            && full.user.name == before.user.name && full.user.email == before.user.email
  {
    RowTracksHistory(k, log);
    FoldPrefixOk(New(k), log, |log| - 1);
    FoldStamps(New(k), log[..|log| - 1]);
  }

  // ---------- When the row agrees with the fold ----------

  /** Given the aggregate before the event: in every column that the event does not set, the aggregate is
      still as new. Adding and removing lines sets the lines and the total, from the lines there were. */
  predicate LeavesNew(before: Aggregate, e: Event) {
    match before
    case AUser(u) => UserLeavesNew(u, e.payload)
    case AProduct(p) => ProductLeavesNew(p, e.payload)
    case AOrder(o) => OrderLeavesNew(o, e.payload)
  }

  predicate UserLeavesNew(u: U.UserState, p: Payload) {
    match p
    case UserCreated(_, _) => true
    case UserUpdated(n, m, _, _) => (n.None? ==> u.name == "") && (m.None? ==> u.email == "") && !u.deleted
    case EmailChanged(_) => u.name == "" && !u.deleted
    case UserDeleted => u.name == "" && u.email == ""
    case _ => u.name == "" && u.email == "" && !u.deleted
  }

  predicate ProductLeavesNew(p: P.ProductState, e: Payload) {
    match e
    case ProductCreated(_, _, _, c) => c == "" ==> p.currency == "USD"
    case ProductUpdated(n, d, c, u) =>
      && (n.None? ==> p.name == "") && (d.None? ==> p.description == "")
      && (c.None? ==> p.priceCents == 0) && (u.None? ==> p.currency == "USD") && !p.deleted
    case PriceChanged(_, u) => p.name == "" && p.description == "" && (u == "" ==> p.currency == "USD") && !p.deleted
    case ProductDeleted => p.name == "" && p.description == "" && p.priceCents == 0 && p.currency == "USD"
    case _ => p.name == "" && p.description == "" && p.priceCents == 0 && p.currency == "USD" && !p.deleted
  }

  predicate OrderLeavesNew(o: O.OrderState, e: Payload) {
    match e
    case OrderCreated(_, c, _, _) => (c == "" ==> o.currency == "USD") && !o.cancelled
    case OrderUpdated(st) =>
      && o.userId == "" && (st.None? ==> o.status == "pending") && o.totalCents == 0 && o.currency == "USD"
      && o.items == Elements([]) && !o.cancelled
    case ItemAdded(_) =>
      o.userId == "" && o.status == "pending" && o.currency == "USD" && o.items.Seq() == [] && !o.cancelled
    case ItemRemoved(p) =>
      && o.userId == "" && o.status == "pending" && o.currency == "USD" && !o.cancelled
      && o.items.Elements? && Slices.Filter(O.Keeps(p), o.items.elements) == []
    case OrderCancelled => o.userId == "" && o.totalCents == 0 && o.currency == "USD" && o.items == Elements([])
    case _ =>
      && o.userId == "" && o.status == "pending" && o.totalCents == 0 && o.currency == "USD"
      && o.items == Elements([]) && !o.cancelled
  }

  lemma UserColumnsAgree(k: Key, u: U.UserState, e: Event)
    requires k.aggregateType == UserType && u.id == k.id && Decodes(UserType, e.payload)
    ensures var full, row := Columns(Apply(AUser(u), e).value), Columns(Apply(New(k), e).value);
            row.(createdAt := full.createdAt) == full <==> UserLeavesNew(u, e.payload)
  {
  }

  lemma ProductColumnsAgree(k: Key, p: P.ProductState, e: Event)
    requires k.aggregateType == ProductType && p.id == k.id && Decodes(ProductType, e.payload)
    ensures var full, row := Columns(Apply(AProduct(p), e).value), Columns(Apply(New(k), e).value);
            row.(createdAt := full.createdAt) == full <==> ProductLeavesNew(p, e.payload)
  {
  }

  lemma OrderColumnsAgree(k: Key, o: O.OrderState, e: Event)
    requires k.aggregateType == OrderType && o.id == k.id && Decodes(OrderType, e.payload)
    ensures var full, row := Columns(Apply(AOrder(o), e).value), Columns(Apply(New(k), e).value);
            row.(createdAt := full.createdAt) == full <==> OrderLeavesNew(o, e.payload)
  {
    match e.payload
    case ItemAdded(_) => AddedColumnsAgree(k, o, e);
    case ItemRemoved(_) => RemovedColumnsAgree(k, o, e);
    case _ => OtherColumnsAgree(k, o, e);
  }

  lemma OtherColumnsAgree(k: Key, o: O.OrderState, e: Event)
    requires k.aggregateType == OrderType && o.id == k.id && Decodes(OrderType, e.payload)
    requires !e.payload.ItemAdded? && !e.payload.ItemRemoved?
    ensures var full, row := Columns(Apply(AOrder(o), e).value), Columns(Apply(New(k), e).value);
            row.(createdAt := full.createdAt) == full <==> OrderLeavesNew(o, e.payload)
  {
  }

  lemma AddedColumnsAgree(k: Key, o: O.OrderState, e: Event)
    requires k.aggregateType == OrderType && o.id == k.id && e.payload.ItemAdded?
    ensures var full, row := Columns(Apply(AOrder(o), e).value), Columns(Apply(New(k), e).value);
            row.(createdAt := full.createdAt) == full <==> OrderLeavesNew(o, e.payload)
  {
    var i := e.payload.item;
    AddedColumns(O.New(k.id), o, e, Elements(O.New(k.id).items.Seq() + [i]), Elements(o.items.Seq() + [i]), O.TotalOf);
  }

  /** The same for any way to total the lines. */
  lemma AddedColumns(n: O.OrderState, o: O.OrderState, e: Event, alone: Slice<Item>, all: Slice<Item>,
                     total: seq<Item> -> int)
    requires n == O.New(o.id) && e.payload.ItemAdded? && alone == Elements(n.items.Seq() + [e.payload.item])
    requires all == Elements(o.items.Seq() + [e.payload.item])
    ensures var full := Columns(AOrder(O.Stamp(o, e).(items := all, totalCents := total(all.elements))));
            var row := Columns(AOrder(O.Stamp(n, e).(items := alone, totalCents := total(alone.elements))));
            row.(createdAt := full.createdAt) == full <==> OrderLeavesNew(o, e.payload)
  {
    assert |all.elements| == |o.items.Seq()| + 1 && |alone.elements| == 1;
  }

  lemma RemovedColumnsAgree(k: Key, o: O.OrderState, e: Event)
    requires k.aggregateType == OrderType && o.id == k.id && e.payload.ItemRemoved?
    ensures var full, row := Columns(Apply(AOrder(o), e).value), Columns(Apply(New(k), e).value);
            row.(createdAt := full.createdAt) == full <==> OrderLeavesNew(o, e.payload)
  {
    assert Slices.Filter(O.Keeps(e.payload.removedProductId), []) == [];
  }

  function IdOf(a: Aggregate): string {
    match a
    case AUser(u) => u.id
    case AProduct(p) => p.id
    case AOrder(o) => o.id
  }

  lemma {:induction false} FoldKeepsId(k: Key, log: seq<Event>)
    ensures Fold(New(k), log).Ok? ==> IdOf(Fold(New(k), log).value) == k.id
  {
    if log == [] {
    } else {
      FoldKeepsId(k, log[..|log| - 1]);
    }
  }

  lemma ColumnsAgree(k: Key, a: Aggregate, e: Event)
    requires a.Type() == k.aggregateType && IdOf(a) == k.id && Decodes(k.aggregateType, e.payload)
    ensures Apply(a, e).Ok? && Apply(New(k), e).Ok?
    ensures var full, row := Columns(Apply(a, e).value), Columns(Apply(New(k), e).value);
            row.(createdAt := full.createdAt) == full <==> LeavesNew(a, e)
  {
    match a
    case AUser(u) => UserColumnsAgree(k, u, e);
    case AProduct(p) => ProductColumnsAgree(k, p, e);
    case AOrder(o) => OrderColumnsAgree(k, o, e);
  }

  /** The row left by a history agrees with its fold in every column if and only if, before the last event,
      the aggregate was still as new in every column that this event does not set. */
  lemma RowAgreesIff(k: Key, log: seq<Event>)
    requires Opened(k.aggregateType, log) && Fold(New(k), log).Ok? && log != []
    ensures RowAfter(k, log).Some? && Fold(New(k), log[..|log| - 1]).Ok?
    ensures RowAfter(k, log).value == Columns(Fold(New(k), log).value) <==>
            LeavesNew(Fold(New(k), log[..|log| - 1]).value, log[|log| - 1])
  {
    var init, last := log[..|log| - 1], log[|log| - 1];
    FoldPrefixOk(New(k), log, |log| - 1);
    FoldStamps(New(k), log);
    FoldStamps(New(k), init);
    FoldKeepsId(k, init);
    RowTracksHistory(k, log);
    LifecycleIsMonotone(k, log, 1);
    NewHasType(k);
    ColumnsAgree(k, Fold(New(k), init).value, last);
    assert Columns(Fold(New(k), log).value).createdAt == log[0].createdAt;
  }
}
