/** internal/diff/engine.go: the difference between two states given as maps. */
module Diff {
  import opened Domain
  import opened Sequences

  /** The values that states are made of, equal when Go finds them deeply equal. `Null` is the nil interface;
      nil slices and nil maps differ from empty ones. */
  datatype Value =
    | Null
    | Text(text: string)
    | Number(number: int)
    | Flag(flag: bool)
    | List(list: Slice<Value>)
    | Object(members: Option<map<string, Value>>)

  datatype FieldChange = FieldChange(from: Value, to: Value)

  datatype DiffResult = DiffResult(changed: Slice<string>, from: map<string, Value>, to: map<string, Value>,
                                   fields: map<string, FieldChange>)

  /** Reading a missing key of a map yields nil. */
  function Get(m: map<string, Value>, k: string): Value {
    if k in m then m[k] else Null
  }

  /** The maps disagree on `k`: one lacks it, or the values are not deeply equal. */
  predicate Differs(from: map<string, Value>, to: map<string, Value>, k: string) {
    !(k in from && k in to && from[k] == to[k]) && (k in from || k in to)
  }

  /** The difference, as a function of the two maps alone. */
  function Fields(from: map<string, Value>, to: map<string, Value>): map<string, FieldChange> {
    FieldsAt(from, to, from.Keys + to.Keys)
  }

  function FieldsAt(from: map<string, Value>, to: map<string, Value>, keys: set<string>): map<string, FieldChange> {
    map k | k in keys && Differs(from, to, k) :: FieldChange(Get(from, k), Get(to, k))
  }

  function Grow(s: Slice<string>, k: string): Slice<string> {
    Elements(s.Seq() + [k])
  }

  /** After the keys in `seen` have been visited. */
  ghost predicate Visited(from: map<string, Value>, to: map<string, Value>, seen: set<string>, r: DiffResult) {
    && r.from == from && r.to == to
    && (r.changed.Nil? <==> r.changed.Seq() == [])
    && NoDuplicates(r.changed.Seq())
    && (forall k :: k in r.changed.Seq() <==> k in r.fields)
    && r.fields == FieldsAt(from, to, seen)
  }

  /** `result.Changed = append(...); result.Fields[k] = ...` */
  function Record(r: DiffResult, k: string, from: Value, to: Value): DiffResult {
    r.(changed := Grow(r.changed, k), fields := r.fields[k := FieldChange(from, to)])
  }

  lemma VisitOne(from: map<string, Value>, to: map<string, Value>, seen: set<string>, r: DiffResult, k: string)
    requires Visited(from, to, seen, r) && k !in seen && (k in from || k in to)
    ensures Visited(from, to, seen + {k}, if Differs(from, to, k) then Record(r, k, Get(from, k), Get(to, k)) else r)
  {
    assert k !in r.fields;
  }

  /** The loop over the target. */
  method VisitTarget(from: map<string, Value>, to: map<string, Value>) returns (r: DiffResult, seen: set<string>)
    ensures seen == to.Keys && Visited(from, to, seen, r)
  {
    r, seen := DiffResult(Nil, from, to, map[]), {};
    var rest := to.Keys;
    while rest != {}
      invariant rest <= to.Keys && seen == to.Keys - rest && Visited(from, to, seen, r)
      decreases |rest|
    {
      var k :| k in rest;
      rest := rest - {k};
      VisitOne(from, to, seen, r, k);
      seen := seen + {k};
      if k !in from {
        r := Record(r, k, Null, to[k]);
      } else if from[k] != to[k] {
        r := Record(r, k, from[k], to[k]);
      }
    }
  }

  /** A key the target lacks. */
  method VisitNew(from: map<string, Value>, to: map<string, Value>, ghost done: set<string>, r: DiffResult, k: string)
    returns (r': DiffResult)
    requires Visited(from, to, done, r) && k !in done && k in from && k !in to
    ensures Visited(from, to, done + {k}, r')
  {
    VisitOne(from, to, done, r, k);
    r' := Record(r, k, from[k], Null);
  }

  /** The keys visited when `rest` is left of the source. */
  ghost function Done(from: map<string, Value>, seen: set<string>, rest: set<string>): set<string> {
    seen + (from.Keys - rest)
  }

  lemma DoneEnds(from: map<string, Value>, to: map<string, Value>)
    ensures Done(from, to.Keys, from.Keys) == to.Keys
    ensures Done(from, to.Keys, {}) == from.Keys + to.Keys
  {
  }

  lemma DoneGrows(from: map<string, Value>, seen: set<string>, rest: set<string>, k: string)
    requires k in rest && rest <= from.Keys
    ensures rest - {k} <= from.Keys
    ensures k in seen ==> Done(from, seen, rest - {k}) == Done(from, seen, rest)
    ensures k !in seen ==> k !in Done(from, seen, rest) && Done(from, seen, rest - {k}) == Done(from, seen, rest) + {k}
  {
  }

  /** The loop over the source, which passes over the keys already seen. */
  method VisitSource(from: map<string, Value>, to: map<string, Value>, seen: set<string>,
                     r0: DiffResult) returns (r: DiffResult)
    requires seen == to.Keys && Visited(from, to, seen, r0)
    ensures Visited(from, to, from.Keys + to.Keys, r)
  {
    r := r0;
    var rest := from.Keys;
    DoneEnds(from, to);
    while rest != {}
      invariant rest <= from.Keys && Visited(from, to, Done(from, seen, rest), r)
      decreases |rest|
    {
      var k :| k in rest;
      DoneGrows(from, seen, rest, k);
      if k !in seen { r := VisitNew(from, to, Done(from, seen, rest), r, k); }
      rest := rest - {k};
    }
  }

  /** `Compare`, its two loops visiting the keys in any order. The changed keys are listed once each, they
      are the keys of the fields, and these are the difference whatever the order was; the list is nil
      when nothing differs. */
  method Compare(from: map<string, Value>, to: map<string, Value>) returns (r: DiffResult)
    ensures r.from == from && r.to == to
    ensures r.fields == Fields(from, to)
    ensures NoDuplicates(r.changed.Seq()) && forall k :: k in r.changed.Seq() <==> Differs(from, to, k)
    ensures r.changed.Nil? <==> from == to
  {
    var seen;
    r, seen := VisitTarget(from, to);
    r := VisitSource(from, to, seen, r);
    EmptyIffEqual(from, to);
    SliceOfKeys(r.changed.Seq(), r.fields);
  }

  lemma SliceOfKeys(s: seq<string>, fields: map<string, FieldChange>)
    requires forall k :: k in s <==> k in fields
    ensures s == [] <==> fields == map[]
  {
    if s != [] { assert s[0] in fields; }
  }

  lemma EmptyIffEqual(from: map<string, Value>, to: map<string, Value>)
    ensures Fields(from, to) == map[] <==> from == to
  {
    forall k ensures k in Fields(from, to) <==> Differs(from, to, k) {
    }
    if Fields(from, to) == map[] {
      forall k ensures !Differs(from, to, k) {
        assert k !in Fields(from, to);
      }
      forall k ensures k in from <==> k in to {
        assert !Differs(from, to, k);
      }
      forall k | k in from ensures from[k] == to[k] {
        assert !Differs(from, to, k);
      }
    }
  }

  // ---------- Laws ----------

  /** Reading a difference as a patch: a change to nil removes the key. */
  function Patch(m: map<string, Value>, fields: map<string, FieldChange>): map<string, Value> {
    map k | k in m.Keys + fields.Keys && !(k in fields && fields[k].to == Null) ::
      if k in fields then fields[k].to else m[k]
  }

  /** Patching reproduces the target exactly when no key that changed is present there with a nil
      value. */
  lemma PatchIffNoNewNull(from: map<string, Value>, to: map<string, Value>)
    ensures Patch(from, Fields(from, to)) == to <==> forall k :: k in to && Differs(from, to, k) ==> to[k] != Null
  {
    var fields := Fields(from, to);
    var patched := Patch(from, fields);
    if forall k :: k in to && Differs(from, to, k) ==> to[k] != Null {
      assert patched.Keys == to.Keys;
      assert patched == to;
    } else {
      var k :| k in to && Differs(from, to, k) && to[k] == Null;
      assert k in fields && k !in patched;
    }
  }

  function Inverse(fields: map<string, FieldChange>): map<string, FieldChange> {
    map k | k in fields :: FieldChange(fields[k].to, fields[k].from)
  }

  /** Swapping the arguments inverts the difference. */
  lemma SwapInverts(from: map<string, Value>, to: map<string, Value>)
    ensures Fields(to, from) == Inverse(Fields(from, to))
  {
    forall k ensures Differs(from, to, k) <==> Differs(to, from, k) {
    }
    assert Fields(to, from).Keys == Fields(from, to).Keys;
  }

  /** First `f`, then `g`; what they undo together is no change. */
  function Compose(f: map<string, FieldChange>, g: map<string, FieldChange>): map<string, FieldChange> {
    map k | k in f.Keys + g.Keys && First(f, g, k) != Last(f, g, k) :: FieldChange(First(f, g, k), Last(f, g, k))
  }

  function First(f: map<string, FieldChange>, g: map<string, FieldChange>, k: string): Value {
    if k in f then f[k].from else if k in g then g[k].from else Null
  }

  function Last(f: map<string, FieldChange>, g: map<string, FieldChange>, k: string): Value {
    if k in g then g[k].to else if k in f then f[k].to else Null
  }

  /** One map holds nil at `k` and the other has no such key. */
  predicate NullAgainstMissing(a: map<string, Value>, c: map<string, Value>, k: string) {
    (k in a) != (k in c) && Get(a, k) == Get(c, k)
  }

  /** Consecutive differences compose to the difference of the ends, whatever lies between them, exactly
      when no key is nil in one end and missing in the other. */
  lemma DiffsComposeIff(a: map<string, Value>, b: map<string, Value>, c: map<string, Value>)
    ensures Compose(Fields(a, b), Fields(b, c)) == Fields(a, c) <==> forall k :: !NullAgainstMissing(a, c, k)
  {
    var f, g, h := Fields(a, b), Fields(b, c), Fields(a, c);
    forall k ensures k in f.Keys + g.Keys ==> First(f, g, k) == Get(a, k) && Last(f, g, k) == Get(c, k) {
      ComposeEnds(a, b, c, k);
    }
    forall k ensures k in Compose(f, g) <==> Get(a, k) != Get(c, k) {
      ComposeEnds(a, b, c, k);
    }
    forall k ensures k in h <==> Get(a, k) != Get(c, k) || NullAgainstMissing(a, c, k) {
    }
    if forall k :: !NullAgainstMissing(a, c, k) {
      assert Compose(f, g).Keys == h.Keys;
    } else {
      var k :| NullAgainstMissing(a, c, k);
      assert k in h && k !in Compose(f, g);
    }
  }

  lemma ComposeEnds(a: map<string, Value>, b: map<string, Value>, c: map<string, Value>, k: string)
    ensures var f, g := Fields(a, b), Fields(b, c);
            && (k in f.Keys + g.Keys ==> First(f, g, k) == Get(a, k) && Last(f, g, k) == Get(c, k))
            && (k !in f.Keys + g.Keys ==> Get(a, k) == Get(c, k))
  {
    var f, g := Fields(a, b), Fields(b, c);
    assert k in f <==> Differs(a, b, k);
    assert k in g <==> Differs(b, c, k);
  }
}
