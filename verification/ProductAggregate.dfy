/** internal/product/aggregate.go: the product aggregate. */
module ProductAggregate {
  import opened Domain

  datatype ProductState = ProductState(
    id: string, name: string, description: string, priceCents: int, currency: string,
    deleted: bool, version: int, createdAt: int, updatedAt: int)

  function New(id: string): ProductState {
    ProductState(id, "", "", 0, "USD", false, 0, ZERO_TIME, ZERO_TIME)
  }

  function Stamp(p: ProductState, e: Event): ProductState {
    p.(version := e.version, updatedAt := e.createdAt)
  }

  function Evolve(p: ProductState, e: Event): Result<ProductState> {
    var s := Stamp(p, e);
    match e.payload
    case ProductCreated(n, d, c, u) =>
      Ok(s.(name := n, description := d, priceCents := c, currency := NonEmpty(u, p.currency),
            createdAt := e.createdAt, deleted := false))
    case ProductUpdated(n, d, c, u) =>
      Ok(s.(name := Or(n, p.name), description := Or(d, p.description), priceCents := Or(c, p.priceCents),
            currency := Or(u, p.currency)))
    case PriceChanged(c, u) => Ok(s.(priceCents := c, currency := NonEmpty(u, p.currency)))
    case ProductDeleted => Ok(s.(deleted := true))
    case Malformed(ProductType) => Err(ApplyFailed(e.version))
    case _ => Ok(s)
  }

  datatype ProductDoc = ProductDoc(
    id: string, name: string, description: string, priceCents: int, currency: string,
    deleted: Option<bool>, version: int, createdAt: int, updatedAt: int)

  function Marshal(p: ProductState): ProductDoc {
    ProductDoc(p.id, p.name, p.description, p.priceCents, p.currency, OmitFalse(p.deleted),
               p.version, p.createdAt, p.updatedAt)
  }

  function Overlay(r: ProductState, d: ProductDoc): ProductState {
    ProductState(d.id, d.name, d.description, d.priceCents, d.currency, Or(d.deleted, r.deleted),
                 d.version, d.createdAt, d.updatedAt)
  }

  lemma RoundTrip(p: ProductState, r: ProductState)
    ensures Overlay(r, Marshal(p)) == p <==> (!p.deleted ==> !r.deleted)
  {
    assert Overlay(r, Marshal(p)).deleted == (p.deleted || r.deleted);
  }

  class Product {
    var id: string
    var name: string
    var description: string
    var priceCents: int
    var currency: string
    var deleted: bool
    var version: int
    var createdAt: int
    var updatedAt: int

    function Value(): ProductState
      reads this
    {
      ProductState(id, name, description, priceCents, currency, deleted, version, createdAt, updatedAt)
    }

    constructor (id: string)
      ensures Value() == New(id) && this.id == id
      ensures name == "" && description == "" && priceCents == 0 && currency == "USD" && !deleted && version == 0
    {
      this.id := id;
      name, description, priceCents, currency := "", "", 0, "USD";
      deleted, version, createdAt, updatedAt := false, 0, ZERO_TIME, ZERO_TIME;
    }

    /** What each event does to each field is spelled out; an empty currency keeps the one there is, unless
        an update sets it. */
    method Apply(e: Event) returns (ok: bool)
      modifies this
      ensures ok <==> e.payload != Malformed(ProductType)
      ensures id == old(id) && version == e.version && updatedAt == e.createdAt
      ensures createdAt == if e.payload.ProductCreated? then e.createdAt else old(createdAt)
      ensures e.payload.ProductCreated? ==>
                && name == e.payload.productName && description == e.payload.description
                && priceCents == e.payload.priceCents && !deleted
                && currency == (if e.payload.currency != "" then e.payload.currency else old(currency))
      ensures e.payload.ProductUpdated? ==>
                && name == (if e.payload.newProductName.Some? then e.payload.newProductName.value else old(name))
                && description
                   == (if e.payload.newDescription.Some? then e.payload.newDescription.value else old(description))
                && priceCents
                   == (if e.payload.newPriceCents.Some? then e.payload.newPriceCents.value else old(priceCents))
                && currency == (if e.payload.newCurrency.Some? then e.payload.newCurrency.value else old(currency))
                && deleted == old(deleted)
      ensures e.payload.PriceChanged? ==>
                && name == old(name) && description == old(description) && deleted == old(deleted)
                && priceCents == e.payload.changedPriceCents
                && currency == (if e.payload.changedCurrency != "" then e.payload.changedCurrency else old(currency))
      ensures !e.payload.ProductCreated? && !e.payload.ProductUpdated? && !e.payload.PriceChanged? ==>
                && name == old(name) && description == old(description) && priceCents == old(priceCents)
                && currency == old(currency) && deleted == (e.payload.ProductDeleted? || old(deleted))
      ensures ok <==> Evolve(old(Value()), e).Ok?
      ensures ok ==> Evolve(old(Value()), e) == Ok(Value())
      ensures !ok ==> Value() == Stamp(old(Value()), e)
    {
      version := e.version;
      updatedAt := e.createdAt;
      ok := true;
      match e.payload {
        case ProductCreated(n, d, c, u) =>
          name := n;
          description := d;
          priceCents := c;
          if u != "" { currency := u; }
          createdAt := e.createdAt;
          deleted := false;
        case ProductUpdated(n, d, c, u) =>
          if n.Some? { name := n.value; }
          if d.Some? { description := d.value; }
          if c.Some? { priceCents := c.value; }
          if u.Some? { currency := u.value; }
        case PriceChanged(c, u) =>
          priceCents := c;
          if u != "" { currency := u; }
        case ProductDeleted => deleted := true;
        case Malformed(ProductType) => ok := false;
        case _ =>
      }
    }

    method UnmarshalSnapshot(d: ProductDoc)
      modifies this
      ensures Value() == Overlay(old(Value()), d)
      ensures id == d.id && name == d.name && description == d.description
      ensures priceCents == d.priceCents && currency == d.currency
      ensures deleted == if d.deleted.Some? then d.deleted.value else old(deleted)
      ensures version == d.version && createdAt == d.createdAt && updatedAt == d.updatedAt
    {
      id, name, description, priceCents, currency := d.id, d.name, d.description, d.priceCents, d.currency;
      if d.deleted.Some? { deleted := d.deleted.value; }
      version, createdAt, updatedAt := d.version, d.createdAt, d.updatedAt;
    }
  }
}
