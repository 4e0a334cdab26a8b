/** internal/user/aggregate.go: the user aggregate, as a value with its event semantics and its
    snapshot document, and as the mutable object the engine folds events into. */
module UserAggregate {
  import opened Domain

  datatype UserState = UserState(
    id: string, name: string, email: string, address: string, avatar: string,
    deleted: bool, version: int, createdAt: int, updatedAt: int)

  function New(id: string): UserState {
    UserState(id, "", "", "", "", false, 0, ZERO_TIME, ZERO_TIME)
  }

  /** What every event does before its payload is decoded. */
  function Stamp(u: UserState, e: Event): UserState {
    u.(version := e.version, updatedAt := e.createdAt)
  }

  function Evolve(u: UserState, e: Event): Result<UserState> {
    var s := Stamp(u, e);
    match e.payload
    case UserCreated(n, m) => Ok(s.(name := n, email := m, createdAt := e.createdAt, deleted := false))
    case UserUpdated(n, m, a, v) =>
      Ok(s.(name := Or(n, u.name), email := Or(m, u.email), address := Or(a, u.address), avatar := Or(v, u.avatar)))
    case EmailChanged(m) => Ok(s.(email := m))
    case AddressChanged(a) => Ok(s.(address := a))
    case AvatarChanged(v) => Ok(s.(avatar := v))
    case UserDeleted => Ok(s.(deleted := true))
    case Malformed(UserType) => Err(ApplyFailed(e.version))
    case _ => Ok(s)
  }

  /** The marshalled user: zero values of the `omitempty` fields are absent. */
  datatype UserDoc = UserDoc(
    id: string, name: string, email: string, address: Option<string>, avatar: Option<string>,
    deleted: Option<bool>, version: int, createdAt: int, updatedAt: int)

  function Marshal(u: UserState): UserDoc {
    UserDoc(u.id, u.name, u.email, OmitEmpty(u.address), OmitEmpty(u.avatar), OmitFalse(u.deleted),
            u.version, u.createdAt, u.updatedAt)
  }

  /** Decoding a document into a receiver leaves the fields it does not mention. */
  function Overlay(r: UserState, d: UserDoc): UserState {
    UserState(d.id, d.name, d.email, Or(d.address, r.address), Or(d.avatar, r.avatar),
              Or(d.deleted, r.deleted), d.version, d.createdAt, d.updatedAt)
  }

  /** A snapshot restores the state it was taken of exactly when the receiver is zero in each field
      the snapshot omits; `New(id)` and the zero user are, for any id. */
  lemma RoundTrip(u: UserState, r: UserState)
    ensures Overlay(r, Marshal(u)) == u <==>
            && (u.address == "" ==> r.address == "")
            && (u.avatar == "" ==> r.avatar == "")
            && (!u.deleted ==> !r.deleted)
  {
    var back := Overlay(r, Marshal(u));
    assert back.address == if u.address == "" then r.address else u.address;
    assert back.avatar == if u.avatar == "" then r.avatar else u.avatar;
    assert back.deleted == (u.deleted || r.deleted);
  }

  class User {
    var id: string
    var name: string
    var email: string
    var address: string
    var avatar: string
    var deleted: bool
    var version: int
    var createdAt: int
    var updatedAt: int

    function Value(): UserState
      reads this
    {
      UserState(id, name, email, address, avatar, deleted, version, createdAt, updatedAt)
    }

    constructor (id: string)
      ensures Value() == New(id) && this.id == id
      ensures name == "" && email == "" && address == "" && avatar == "" && !deleted && version == 0
    {
      this.id := id;
      name, email, address, avatar := "", "", "", "";
      deleted, version, createdAt, updatedAt := false, 0, ZERO_TIME, ZERO_TIME;
    }

    /** The Go `Apply`: a payload that does not decode is reported after the version and the update
        time have been set. What each event does to each field is spelled out. */
    method Apply(e: Event) returns (ok: bool)
      modifies this
      ensures ok <==> e.payload != Malformed(UserType)
      ensures id == old(id) && version == e.version && updatedAt == e.createdAt
      ensures createdAt == if e.payload.UserCreated? then e.createdAt else old(createdAt)
      ensures e.payload.UserCreated? ==>
                && name == e.payload.name && email == e.payload.email && !deleted
                && address == old(address) && avatar == old(avatar)
      ensures e.payload.UserUpdated? ==>
                && name == (if e.payload.newName.Some? then e.payload.newName.value else old(name))
                && email == (if e.payload.newEmail.Some? then e.payload.newEmail.value else old(email))
                && address == (if e.payload.newAddress.Some? then e.payload.newAddress.value else old(address))
                && avatar == (if e.payload.newAvatar.Some? then e.payload.newAvatar.value else old(avatar))
                && deleted == old(deleted)
      ensures !e.payload.UserCreated? && !e.payload.UserUpdated? ==>
                && name == old(name)
                && email == (if e.payload.EmailChanged? then e.payload.changedEmail else old(email))
                && address == (if e.payload.AddressChanged? then e.payload.changedAddress else old(address))
                && avatar == (if e.payload.AvatarChanged? then e.payload.changedAvatar else old(avatar))
                && deleted == (e.payload.UserDeleted? || old(deleted))
      ensures ok <==> Evolve(old(Value()), e).Ok?
      ensures ok ==> Evolve(old(Value()), e) == Ok(Value())
      ensures !ok ==> Value() == Stamp(old(Value()), e)
    {
      version := e.version;
      updatedAt := e.createdAt;
      ok := true;
      match e.payload {
        case UserCreated(n, m) =>
          name := n;
          email := m;
          createdAt := e.createdAt;
          deleted := false;
        case UserUpdated(n, m, a, v) =>
          if n.Some? { name := n.value; }
          if m.Some? { email := m.value; }
          if a.Some? { address := a.value; }
          if v.Some? { avatar := v.value; }
        case EmailChanged(m) => email := m;
        case AddressChanged(a) => address := a;
        case AvatarChanged(v) => avatar := v;
        case UserDeleted => deleted := true;
        case Malformed(UserType) => ok := false;
        case _ =>
      }
    }

    method UnmarshalSnapshot(d: UserDoc)
      modifies this
      ensures Value() == Overlay(old(Value()), d)
      ensures id == d.id && name == d.name && email == d.email
      ensures address == if d.address.Some? then d.address.value else old(address)
      ensures avatar == if d.avatar.Some? then d.avatar.value else old(avatar)
      ensures deleted == if d.deleted.Some? then d.deleted.value else old(deleted)
      ensures version == d.version && createdAt == d.createdAt && updatedAt == d.updatedAt
    {
      id, name, email := d.id, d.name, d.email;
      if d.address.Some? { address := d.address.value; }
      if d.avatar.Some? { avatar := d.avatar.value; }
      if d.deleted.Some? { deleted := d.deleted.value; }
      version, createdAt, updatedAt := d.version, d.createdAt, d.updatedAt;
    }
  }
}
