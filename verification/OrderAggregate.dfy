/** internal/order/aggregate.go: the order aggregate, whose total is kept in wrapping int64. */
module OrderAggregate {
  import opened Domain
  import opened Int64
  import opened Slices

  function Line(i: Item): int { i.priceCents * i.quantity }

  /** The exact, unbounded price of the lines. */
  function Sum(items: seq<Item>): int {
    if items == [] then 0 else Sum(items[..|items| - 1]) + Line(items[|items| - 1])
  }

  lemma SumAppend(items: seq<Item>, x: Item)
    ensures Sum(items + [x]) == Sum(items) + Line(x)
  {
    assert (items + [x])[..|items|] == items;
  }

  /** The price of the lines, truncated to int64. */
  function TotalOf(items: seq<Item>): int {
    Wrap(Sum(items))
  }

  /** One more line in a total that is kept in int64. */
  lemma RunningTotal(items: seq<Item>, i: nat)
    requires i < |items|
    ensures Wrap(Wrap(Sum(items[..i])) + Wrap(Line(items[i]))) == Wrap(Sum(items[..i + 1]))
  {
    WrapSum(Sum(items[..i]), Line(items[i]));
    assert items[..i + 1] == items[..i] + [items[i]];
    SumAppend(items[..i], items[i]);
  }

  /** The running int64 total of the lines, as computed when an order is created and whenever its
      lines change. */
  method Total(items: array<Item>, n: nat) returns (total: int)
    requires n <= items.Length
    ensures total == Wrap(Sum(items[..n]))
  {
    total := 0;
    for i := 0 to n
      invariant total == Wrap(Sum(items[..i]))
    {
      RunningTotal(items[..n], i);
      assert items[..n][..i] == items[..i] && items[..n][..i + 1] == items[..i + 1];
      total := Wrap(total + Wrap(items[i].priceCents * items[i].quantity));
    }
  }

  // ---------- The aggregate as a value ----------

  datatype OrderState = OrderState(
    id: string, userId: string, status: string, totalCents: int, currency: string, items: Slice<Item>,
    cancelled: bool, version: int, createdAt: int, updatedAt: int)

  function New(id: string): OrderState {
    OrderState(id, "", "pending", 0, "USD", Elements([]), false, 0, ZERO_TIME, ZERO_TIME)
  }

  function Stamp(o: OrderState, e: Event): OrderState {
    o.(version := e.version, updatedAt := e.createdAt)
  }

  function Keeps(productId: string): Item -> bool {
    (i: Item) => i.productId != productId
  }

  function Drops(productId: string): Item -> bool {
    (i: Item) => i.productId == productId
  }

  function Evolve(o: OrderState, e: Event): Result<OrderState> {
    var s := Stamp(o, e);
    match e.payload
    case OrderCreated(u, c, t, its) =>
      Ok(s.(userId := u, totalCents := t, currency := NonEmpty(c, o.currency), items := its,
            status := "pending", createdAt := e.createdAt))
    case OrderUpdated(st) => Ok(s.(status := Or(st, o.status)))
    case ItemAdded(i) =>
      var its := o.items.Seq() + [i];
      Ok(s.(items := Elements(its), totalCents := TotalOf(its)))
    case ItemRemoved(p) =>
      var its := Filter(Keeps(p), o.items.Seq());
      Ok(s.(items := if o.items.Nil? then Nil else Elements(its), totalCents := TotalOf(its)))
    case OrderCancelled => Ok(s.(cancelled := true, status := "cancelled"))
    case Malformed(OrderType) => Err(ApplyFailed(e.version))
    case _ => Ok(s)
  }

  datatype OrderDoc = OrderDoc(
    id: string, userId: string, status: string, totalCents: int, currency: string, items: Slice<Item>,
    cancelled: Option<bool>, version: int, createdAt: int, updatedAt: int)

  function Marshal(o: OrderState): OrderDoc {
    OrderDoc(o.id, o.userId, o.status, o.totalCents, o.currency, o.items, OmitFalse(o.cancelled),
             o.version, o.createdAt, o.updatedAt)
  }

  function Overlay(r: OrderState, d: OrderDoc): OrderState {
    OrderState(d.id, d.userId, d.status, d.totalCents, d.currency, d.items, Or(d.cancelled, r.cancelled),
               d.version, d.createdAt, d.updatedAt)
  }

  lemma RoundTrip(o: OrderState, r: OrderState)
    ensures Overlay(r, Marshal(o)) == o <==> (!o.cancelled ==> !r.cancelled)
  {
    assert Overlay(r, Marshal(o)).cancelled == (o.cancelled || r.cancelled);
  }

  // ---------- The total ----------

  ghost predicate Balanced(o: OrderState) {
    o.totalCents == Wrap(Sum(o.items.Seq()))
  }

  /** The creation events the order service writes carry the total of their own lines. */
  predicate WellPriced(p: Payload) {
    p.OrderCreated? ==> p.totalCents == Wrap(Sum(p.items.Seq()))
  }

  lemma NewBalanced(id: string)
    ensures Balanced(New(id))
  {
  }

  lemma EvolveBalanced(o: OrderState, e: Event)
    requires Balanced(o) && WellPriced(e.payload)
    ensures Evolve(o, e).Ok? ==> Balanced(Evolve(o, e).value)
  {
  }

  lemma {:induction false} FilterSplitsSum(keep: Item -> bool, drop: Item -> bool, items: seq<Item>)
    requires forall i :: drop(i) == !keep(i)
    ensures Sum(items) == Sum(Filter(keep, items)) + Sum(Filter(drop, items))
  {
    if items == [] {
    } else {
      var init, last := items[..|items| - 1], items[|items| - 1];
      FilterSplitsSum(keep, drop, init);
      SumAppend(Filter(keep, init), last);
      SumAppend(Filter(drop, init), last);
    }
  }

  /** Adding a line moves the total by exactly that line. */
  lemma ItemAddedMovesTotal(o: OrderState, e: Event)
    requires Balanced(o) && e.payload.ItemAdded?
    ensures Evolve(o, e).Ok?
    ensures Evolve(o, e).value.items.Seq() == o.items.Seq() + [e.payload.item]
    ensures Evolve(o, e).value.totalCents == Wrap(o.totalCents + e.payload.item.priceCents * e.payload.item.quantity)
  {
    SumAppend(o.items.Seq(), e.payload.item);
    WrapOffset(Sum(o.items.Seq()), Line(e.payload.item));
  }

  lemma RemovedLines(o: OrderState, e: Event)
    requires e.payload.ItemRemoved?
    ensures Evolve(o, e).Ok? && (Evolve(o, e).value.items.Nil? <==> o.items.Nil?)
    ensures forall x :: x in Evolve(o, e).value.items.Seq() <==>
                          x in o.items.Seq() && x.productId != e.payload.removedProductId
  {
    FilterMembers(Keeps(e.payload.removedProductId), o.items.Seq());
  }

  /** Removing a product moves the total by exactly the lines of that product, and keeps the other
      lines in their order. */
  lemma ItemRemovedMovesTotal(o: OrderState, e: Event)
    requires Balanced(o) && e.payload.ItemRemoved?
    ensures Evolve(o, e).Ok?
    ensures var keep := Keeps(e.payload.removedProductId);
            && Evolve(o, e).value.items.Seq() == Filter(keep, o.items.Seq())
            && Evolve(o, e).value.totalCents
               == Wrap(o.totalCents - Sum(Filter(Drops(e.payload.removedProductId), o.items.Seq())))
  {
    var p, items := e.payload.removedProductId, o.items.Seq();
    FilterSplitsSum(Keeps(p), Drops(p), items);
    WrapOffset(Sum(items), -Sum(Filter(Drops(p), items)));
  }

  lemma AddedLine(o: OrderState, e: Event, lines: Slice<Item>)
    requires e.payload.ItemAdded? && o == Stamp(o, e) && lines == Elements(o.items.Seq() + [e.payload.item])
    ensures Evolve(o, e) == Ok(o.(items := lines, totalCents := Wrap(Sum(lines.Seq()))))
  {
  }

  /** What each event does to each field; an empty currency keeps the one there is. */
  lemma EventSets(o: OrderState, e: Event)
    ensures Evolve(o, e).Ok? <==> e.payload != Malformed(OrderType)
    ensures Evolve(o, e).Ok? ==>
              var o', p := Evolve(o, e).value, e.payload;
              && o'.id == o.id && o'.version == e.version && o'.updatedAt == e.createdAt
              && o'.createdAt == (if p.OrderCreated? then e.createdAt else o.createdAt)
              && o'.userId == (if p.OrderCreated? then p.userId else o.userId)
              && o'.currency == (if p.OrderCreated? && p.orderCurrency != "" then p.orderCurrency else o.currency)
              && o'.status == (if p.OrderCreated? then "pending"
                               else if p.OrderCancelled? then "cancelled"
                               else if p.OrderUpdated? && p.newStatus.Some? then p.newStatus.value
                               else o.status)
              && o'.cancelled == (p.OrderCancelled? || o.cancelled)
              && (p.OrderCreated? ==> o'.items == p.items && o'.totalCents == p.totalCents)
              && (p.ItemAdded? ==>
                    && o'.items == Elements(o.items.Seq() + [p.item])
                    && o'.totalCents == Wrap(Sum(o'.items.Seq())))
              && (p.ItemRemoved? ==> o'.totalCents == Wrap(Sum(o'.items.Seq())))
              && (!p.OrderCreated? && !p.ItemAdded? && !p.ItemRemoved? ==>
                    o'.items == o.items && o'.totalCents == o.totalCents)
  {
  }

  // ---------- The aggregate as an object ----------

  /** `items == null` is the nil slice; otherwise the first `count` elements of the array are live. */
  class Order {
    var id: string
    var userId: string
    var status: string
    var totalCents: int
    var currency: string
    var items: array?<Item>
    var count: nat
    var cancelled: bool
    var version: int
    var createdAt: int
    var updatedAt: int

    ghost predicate Valid()
      reads this
    {
      if items == null then count == 0 else count <= items.Length
    }

    function Lines(): Slice<Item>
      requires Valid()
      reads this, items
    {
      if items == null then Nil else Elements(items[..count])
    }

    function Value(): OrderState
      requires Valid()
      reads this, items
    {
      OrderState(id, userId, status, totalCents, currency, Lines(), cancelled, version, createdAt, updatedAt)
    }

    constructor (id: string)
      ensures Valid() && Value() == New(id) && this.id == id
      ensures userId == "" && status == "pending" && totalCents == 0 && currency == "USD" && !cancelled && version == 0
      ensures Lines() == Elements([])
      ensures fresh(items)
    {
      this.id := id;
      userId, status, totalCents, currency := "", "pending", 0, "USD";
      items, count := new Item[0], 0;
      cancelled, version, createdAt, updatedAt := false, 0, ZERO_TIME, ZERO_TIME;
    }

    /** Decoding a JSON array allocates; decoding `null` yields the nil slice. */
    method DecodeItems(its: Slice<Item>)
      modifies this`items, this`count
      ensures Valid() && Lines() == its
      ensures items != null ==> fresh(items)
    {
      if its.Nil? {
        items, count := null, 0;
      } else {
        var xs := its.elements;
        var a := new Item[|xs|](i requires 0 <= i < |xs| => xs[i]);
        items, count := a, |xs|;
        assert a[..|xs|] == xs;
      }
    }

    method RecalcTotal()
      requires Valid()
      modifies this`totalCents
      ensures totalCents == Wrap(Sum(Lines().Seq()))
    {
      if items == null {
        totalCents := 0;
      } else {
        totalCents := Total(items, count);
      }
    }

    /** `o.Items = append(o.Items, item); o.recalcTotal()` */
    method AddItem(i: Item)
      requires Valid()
      modifies this`items, this`count, this`totalCents, items
      ensures Valid() && (items == old(items) || fresh(items))
      ensures Lines() == Elements(old(Lines()).Seq() + [i])
      ensures totalCents == Wrap(Sum(Lines().Seq()))
    {
      if items == null {
        items := new Item[1](_ => i);
        assert items[..1] == [] + [i];
      } else {
        var grown := Slices.Append(items, count, i);
        items := grown;
      }
      count := count + 1;
      RecalcTotal();
    }

    /** `filtered := o.Items[:0]; ...; o.Items = filtered; o.recalcTotal()` */
    method RemoveItems(p: string)
      requires Valid()
      modifies this`count, this`totalCents, items
      ensures Valid()
      ensures Lines() == if old(Lines()).Nil? then Nil else Elements(Filter(Keeps(p), old(Lines()).Seq()))
      ensures totalCents == Wrap(Sum(Lines().Seq()))
    {
      if items != null {
        count := FilterInPlace(items, count, Keeps(p));
      }
      RecalcTotal();
    }

    // The cases of `Apply` that touch the lines.

    method ApplyCreated(e: Event)
      requires Valid() && e.payload.OrderCreated? && Value() == Stamp(Value(), e)
      modifies this
      ensures Valid() && (items != null ==> fresh(items))
      ensures Ok(Value()) == Evolve(old(Value()), e)
    {
      userId := e.payload.userId;
      totalCents := e.payload.totalCents;
      if e.payload.orderCurrency != "" { currency := e.payload.orderCurrency; }
      DecodeItems(e.payload.items);
      status := "pending";
      createdAt := e.createdAt;
    }

    method ApplyItemAdded(e: Event)
      requires Valid() && e.payload.ItemAdded? && Value() == Stamp(Value(), e)
      modifies this, items
      ensures Valid() && (items == old(items) || fresh(items))
      ensures Ok(Value()) == Evolve(old(Value()), e)
    {
      ghost var o := Value();
      AddItem(e.payload.item);
      assert Value() == o.(items := Lines(), totalCents := totalCents);
      AddedLine(o, e, Lines());
    }

    method ApplyItemRemoved(e: Event)
      requires Valid() && e.payload.ItemRemoved? && Value() == Stamp(Value(), e)
      modifies this, items
      ensures Valid() && items == old(items)
      ensures Ok(Value()) == Evolve(old(Value()), e)
    {
      RemoveItems(e.payload.removedProductId);
    }

    /** The switch on the event type, after the event has been stamped. */
    method ApplyPayload(e: Event) returns (ok: bool)
      requires Valid() && Value() == Stamp(Value(), e)
      modifies this, items
      ensures Valid() && (items == null || items == old(items) || fresh(items))
      ensures ok <==> Evolve(old(Value()), e).Ok?
      ensures ok ==> Evolve(old(Value()), e) == Ok(Value())
      ensures !ok ==> Value() == old(Value())
    {
      ok := true;
      match e.payload {
        case OrderCreated(_, _, _, _) => ApplyCreated(e);
        case OrderUpdated(st) =>
          if st.Some? { status := st.value; }
        case ItemAdded(_) => ApplyItemAdded(e);
        case ItemRemoved(_) => ApplyItemRemoved(e);
        case OrderCancelled =>
          cancelled := true;
          status := "cancelled";
        case Malformed(OrderType) => ok := false;
        case _ =>
      }
    }

    /** What each event does to each field is spelled out; an empty currency keeps the one there is. */
    method Apply(e: Event) returns (ok: bool)
      requires Valid()
      modifies this, items
      ensures Valid() && (items == null || items == old(items) || fresh(items))
      ensures ok <==> e.payload != Malformed(OrderType)
      ensures id == old(id) && version == e.version && updatedAt == e.createdAt
      ensures createdAt == if e.payload.OrderCreated? then e.createdAt else old(createdAt)
      ensures e.payload.OrderCreated? ==>
                && userId == e.payload.userId && totalCents == e.payload.totalCents && Lines() == e.payload.items
                && currency == (if e.payload.orderCurrency != "" then e.payload.orderCurrency else old(currency))
                && status == "pending" && cancelled == old(cancelled)
      ensures !e.payload.OrderCreated? ==>
                && userId == old(userId) && currency == old(currency)
                && status
                   == (if e.payload.OrderCancelled? then "cancelled"
                       else if e.payload.OrderUpdated? && e.payload.newStatus.Some? then e.payload.newStatus.value
                       else old(status))
                && cancelled == (e.payload.OrderCancelled? || old(cancelled))
      ensures e.payload.ItemAdded? ==>
                Lines() == Elements(old(Lines()).Seq() + [e.payload.item]) && totalCents == Wrap(Sum(Lines().Seq()))
      ensures e.payload.ItemRemoved? ==>
                && Lines().Seq() == Filter(Keeps(e.payload.removedProductId), old(Lines()).Seq())
                && totalCents == Wrap(Sum(Lines().Seq()))
      ensures !e.payload.OrderCreated? && !e.payload.ItemAdded? && !e.payload.ItemRemoved? ==>
                Lines() == old(Lines()) && totalCents == old(totalCents)
      ensures ok <==> Evolve(old(Value()), e).Ok?
      ensures ok ==> Evolve(old(Value()), e) == Ok(Value())
      ensures !ok ==> Value() == Stamp(old(Value()), e)
    {
      ghost var o := Value();
      EventSets(o, e);
      version := e.version;
      updatedAt := e.createdAt;
      assert Value() == Stamp(o, e);
      ok := ApplyPayload(e);
    }

    method UnmarshalSnapshot(d: OrderDoc)
      requires Valid()
      modifies this
      ensures Valid() && Value() == Overlay(old(Value()), d)
      ensures id == d.id && userId == d.userId && status == d.status && totalCents == d.totalCents
      ensures currency == d.currency && Lines() == d.items
      ensures cancelled == if d.cancelled.Some? then d.cancelled.value else old(cancelled)
      ensures version == d.version && createdAt == d.createdAt && updatedAt == d.updatedAt
      ensures items != null ==> fresh(items)
    {
      id, userId, status, totalCents, currency := d.id, d.userId, d.status, d.totalCents, d.currency;
      DecodeItems(d.items);
      if d.cancelled.Some? { cancelled := d.cancelled.value; }
      version, createdAt, updatedAt := d.version, d.createdAt, d.updatedAt;
    }
  }
}
