/** The engine's `Aggregate` interface over the mutable aggregates: a reference to one of the three. */
module AggregateObjects {
  import opened Domain
  import opened Aggregates
  import opened Projection
  import U = UserAggregate
  import P = ProductAggregate
  import O = OrderAggregate

  datatype Ref = UserRef(user: U.User) | ProductRef(product: P.Product) | OrderRef(order: O.Order)
  {
    /** The aggregate, and the array behind an order's lines. */
    function Objects(): set<object>
      reads if OrderRef? then {order} else {}
    {
      match this
      case UserRef(u) => {u}
      case ProductRef(p) => {p}
      case OrderRef(o) => if o.items == null then {o} else {o, o.items}
    }

    ghost predicate Valid()
      reads if OrderRef? then {order} else {}
    {
      OrderRef? ==> order.Valid()
    }

    function Value(): Aggregate
      requires Valid()
      reads if OrderRef? then {order} else {}, Objects()
    {
      match this
      case UserRef(u) => AUser(u.Value())
      case ProductRef(p) => AProduct(p.Value())
      case OrderRef(o) => AOrder(o.Value())
    }
  }

  /** `user.New(id)`, `product.New(id)` or `order.New(id)`. */
  method Create(k: Key) returns (r: Ref)
    ensures r.Valid() && fresh(r.Objects()) && r.Value() == New(k)
  {
    match k.aggregateType {
      case UserType =>
        var u := new U.User(k.id);
        r := UserRef(u);
      case ProductType =>
        var p := new P.Product(k.id);
        r := ProductRef(p);
      case OrderType =>
        var o := new O.Order(k.id);
        r := OrderRef(o);
    }
  }

  method ApplyTo(r: Ref, e: Event) returns (ok: bool)
    requires r.Valid()
    modifies r.Objects()
    ensures r.Valid() && fresh(r.Objects() - old(r.Objects()))
    ensures ok <==> Apply(old(r.Value()), e).Ok?
    ensures ok ==> Apply(old(r.Value()), e) == Ok(r.Value())
  {
    match r {
      case UserRef(u) => ok := u.Apply(e);
      case ProductRef(p) => ok := p.Apply(e);
      case OrderRef(o) => ok := o.Apply(e);
    }
  }

  method UnmarshalInto(r: Ref, d: Document) returns (ok: bool)
    requires r.Valid()
    modifies r.Objects()
    ensures r.Valid() && fresh(r.Objects() - old(r.Objects()))
    ensures ok <==> Unmarshal(old(r.Value()), d).Ok?
    ensures ok ==> Unmarshal(old(r.Value()), d) == Ok(r.Value())
  {
    ok := true;
    match (r, d) {
      case (UserRef(u), UserDocument(x)) => u.UnmarshalSnapshot(x);
      case (ProductRef(p), ProductDocument(x)) => p.UnmarshalSnapshot(x);
      case (OrderRef(o), OrderDocument(x)) => o.UnmarshalSnapshot(x);
      case _ => ok := false;
    }
  }

  /** internal/projection: the projectors of the three read models. */
  method ProjectRow(k: Key, existing: Option<Row>, e: Event) returns (r: Result<Row>)
    ensures r == ProjectEvent(k, existing, e)
  {
    var a := Create(k);
    var ok := ApplyTo(a, e);
    if ok {
      r := Ok(Upsert(existing, Columns(a.Value())));
    } else {
      ApplyStamps(New(k), e);
      r := Err(ApplyFailed(e.version));
    }
  }
}
