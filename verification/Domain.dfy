/** Shared vocabulary of the event store: aggregates are addressed by a key, every change is an
    immutable event, and a replay query bounds a prefix of the history. */
module Domain {

  datatype Option<+T> = None | Some(value: T)

  datatype AggregateType = UserType | ProductType | OrderType

  datatype Key = Key(aggregateType: AggregateType, id: string)

  /** A Go slice as a value: the nil slice and the empty slice differ once they are marshalled. */
  datatype Slice<+T> = Nil | Elements(elements: seq<T>)
  {
    function Seq(): seq<T> {
      match this
      case Nil => []
      case Elements(s) => s
    }
  }

  datatype Item = Item(productId: string, quantity: int, priceCents: int)

  /** The event type together with its decoded payload. `Unknown` is an event type no aggregate
      handles; `Malformed(t)` is an event type that aggregates of type `t` decode, with a payload
      that does not decode. */
  datatype Payload =
    | UserCreated(name: string, email: string)
    | UserUpdated(newName: Option<string>, newEmail: Option<string>,
                  newAddress: Option<string>, newAvatar: Option<string>)
    | EmailChanged(changedEmail: string)
    | AddressChanged(changedAddress: string)
    | AvatarChanged(changedAvatar: string)
    | PasswordChanged
    | UserDeleted
    | ProductCreated(productName: string, description: string, priceCents: int, currency: string)
    | ProductUpdated(newProductName: Option<string>, newDescription: Option<string>,
                     newPriceCents: Option<int>, newCurrency: Option<string>)
    | PriceChanged(changedPriceCents: int, changedCurrency: string)
    | ProductDeleted
    | OrderCreated(userId: string, orderCurrency: string, totalCents: int, items: Slice<Item>)
    | OrderUpdated(newStatus: Option<string>)
    | ItemAdded(item: Item)
    | ItemRemoved(removedProductId: string)
    | OrderCancelled
    | Unknown(eventType: string)
    | Malformed(decodedBy: AggregateType)

  datatype Event = Event(id: int, key: Key, version: int, payload: Payload, createdAt: int)

  datatype Query = Query(at: Option<int>, version: Option<int>, untilId: Option<int>)

  const CURRENT := Query(None, None, None)

  datatype Error = VersionMismatch | Conflict | NotFound | ApplyFailed(version: int) | SnapshotUnreadable | Aborted

  datatype Result<+T> = Ok(value: T) | Err(error: Error)

  /** The event types with which a history of each aggregate type starts. */
  predicate Creates(t: AggregateType, p: Payload) {
    match t
    case UserType => p.UserCreated?
    case ProductType => p.ProductCreated?
    case OrderType => p.OrderCreated?
  }

  /** The zero `time.Time`, in nanoseconds since the Unix epoch. */
  const ZERO_TIME: int := -62135596800_000_000_000

  /** A pointer field of a payload changes a column only when it is set. */
  function Or<T>(o: Option<T>, default: T): T {
    if o.Some? then o.value else default
  }

  /** An empty currency in a payload keeps the current one. */
  function NonEmpty(s: string, default: string): string { if s != "" then s else default }

  // `omitempty`: the zero value of a field is left out of the marshalled document.

  function OmitEmpty(s: string): Option<string> { if s == "" then None else Some(s) }

  function OmitFalse(b: bool): Option<bool> { if b then Some(true) else None }
}
