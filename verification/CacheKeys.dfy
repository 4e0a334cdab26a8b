/** internal/cache/redis.go, `cacheKey`: which queries share a cache entry. Ids are arbitrary strings,
    so a key is parsed from the right. */
module CacheKeys {
  import opened Domain
  import opened Int64

  function TypeName(t: AggregateType): string {
    match t
    case UserType => "user"
    case ProductType => "product"
    case OrderType => "order"
  }

  /** `%d` */
  function Decimal(n: int): string {
    if n < 0 then "-" + Digits(-n) else Digits(n)
  }

  function Digits(n: nat): string {
    if n < 10 then [Digit(n)] else Digits(n / 10) + [Digit(n % 10)]
  }

  function Digit(n: nat): char
    requires n < 10
  {
    (48 + n) as char
  }

  function Base(t: AggregateType, id: string): string {
    "replay:" + (TypeName(t) + [':'] + id)
  }

  /** A time is printed in nanoseconds since the Unix epoch, an int64 that wraps around outside the years
      1678 to 2262. */
  function CacheKey(t: AggregateType, id: string, q: Query): string {
    if q.version.Some? then Base(t, id) + ":v" + [':'] + Decimal(q.version.value)
    else if q.at.Some? then Base(t, id) + ":at" + [':'] + Decimal(Wrap(q.at.value))
    else Base(t, id) + [':'] + "current"
  }

  /** The queries record the same bound in their keys: equal versions, or no version and times a multiple
      of 2^64 nanoseconds apart, or neither bound. The id bound is dropped, and so is the time of a query
      that has a version. */
  predicate SameBound(q: Query, q': Query) {
    && q.version == q'.version
    && (q.version.None? ==>
          && (q.at.Some? <==> q'.at.Some?)
          && (q.at.Some? ==> (q.at.value - q'.at.value) % TWO64 == 0))
  }

  /** At most one of version and time, and no id bound. */
  predicate SingleBound(q: Query) {
    q.untilId.None? && (q.version.None? || q.at.None?)
  }

  /** The time of the query is an int64 of nanoseconds. */
  predicate TimeInRange(q: Query) {
    q.at.Some? ==> InRange(q.at.value)
  }

  /** A query that no other such query shares its key with. */
  predicate CacheSafe(q: Query) {
    SingleBound(q) && TimeInRange(q)
  }

  // ---------- Decimal rendering is injective ----------

  lemma {:induction false} DigitsAreDigits(n: nat)
    ensures |Digits(n)| > 0
    ensures forall i :: 0 <= i < |Digits(n)| ==> '0' <= Digits(n)[i] <= '9'
  {
    if n < 10 {
    } else {
      DigitsAreDigits(n / 10);
    }
  }

  lemma {:induction false} DigitsInjective(m: nat, n: nat)
    requires Digits(m) == Digits(n)
    ensures m == n
  {
    var s, t := Digits(m), Digits(n);
    assert s[|s| - 1] == Digit(m % 10) && t[|t| - 1] == Digit(n % 10);
    if m >= 10 { DigitsAreDigits(m / 10); }
    if n >= 10 { DigitsAreDigits(n / 10); }
    if m >= 10 && n >= 10 {
      assert s[..|s| - 1] == Digits(m / 10) && t[..|t| - 1] == Digits(n / 10);
      DigitsInjective(m / 10, n / 10);
    }
  }

  lemma DecimalInjective(m: int, n: int)
    requires Decimal(m) == Decimal(n)
    ensures m == n
  {
    DecimalHasNoColon(m);
    DecimalHasNoColon(n);
    if m < 0 {
      assert Decimal(m)[1..] == Digits(-m) && Decimal(n)[1..] == Digits(-n);
      DigitsInjective(-m, -n);
    } else {
      DigitsInjective(m, n);
    }
  }

  lemma DecimalHasNoColon(n: int)
    ensures ':' !in Decimal(n)
    ensures |Decimal(n)| > 0
    ensures Decimal(n)[0] == '-' || '0' <= Decimal(n)[0] <= '9'
    ensures Decimal(n)[0] == '-' <==> n < 0
  {
    DigitsAreDigits(if n < 0 then -n else n);
    assert forall i :: 0 <= i < |Decimal(n)| ==> Decimal(n)[i] != ':';
  }

  // ---------- Parsing ----------

  /** The part after the last colon, and the part before it, are determined. */
  lemma SplitLast(p: string, d: string, p': string, d': string)
    requires ':' !in d && ':' !in d'
    requires p + [':'] + d == p' + [':'] + d'
    ensures p == p' && d == d'
  {
    var s, s' := p + [':'] + d, p' + [':'] + d';
    assert s[|p|] == ':' && s'[|p'|] == ':';
    assert forall i :: |p| < i < |s| ==> s[i] == d[i - |p| - 1];
    assert forall i :: |p'| < i < |s'| ==> s'[i] == d'[i - |p'| - 1];
    assert |p| == |p'|;
    assert s[..|p|] == p && s'[..|p|] == p' && s[|p| + 1..] == d && s'[|p| + 1..] == d';
  }

  lemma SplitFirst(p: string, d: string, p': string, d': string)
    requires ':' !in p && ':' !in p'
    requires p + [':'] + d == p' + [':'] + d'
    ensures p == p' && d == d'
  {
    var s, s' := p + [':'] + d, p' + [':'] + d';
    assert s[|p|] == ':' && s'[|p'|] == ':';
    assert forall i :: 0 <= i < |p| ==> s[i] == p[i];
    assert forall i :: 0 <= i < |p'| ==> s'[i] == p'[i];
    assert |p| == |p'|;
    assert s[..|p|] == p && s'[..|p|] == p' && s[|p| + 1..] == d && s'[|p| + 1..] == d';
  }

  lemma BaseInjective(t: AggregateType, id: string, t': AggregateType, id': string)
    requires Base(t, id) == Base(t', id')
    ensures t == t' && id == id'
  {
    assert Base(t, id)[|"replay:"|..] == TypeName(t) + [':'] + id;
    assert Base(t', id')[|"replay:"|..] == TypeName(t') + [':'] + id';
    SplitFirst(TypeName(t), id, TypeName(t'), id');
    assert |TypeName(t)| == |TypeName(t')|;
  }

  /** The key as base, tag and tail. */
  function Tag(q: Query): string {
    if q.version.Some? then ":v" else if q.at.Some? then ":at" else ""
  }

  function Tail(q: Query): string {
    if q.version.Some? then Decimal(q.version.value) else if q.at.Some? then Decimal(Wrap(q.at.value)) else "current"
  }

  lemma TailHasNoColon(q: Query)
    ensures ':' !in Tail(q)
    ensures |Tail(q)| > 0 && (Tail(q)[0] == 'c' <==> q.version.None? && q.at.None?)
  {
    if q.version.Some? { DecimalHasNoColon(q.version.value); }
    if q.at.Some? { DecimalHasNoColon(Wrap(q.at.value)); }
  }

  lemma KeyParses(t: AggregateType, id: string, q: Query)
    ensures CacheKey(t, id, q) == Base(t, id) + Tag(q) + [':'] + Tail(q)
  {
    assert Base(t, id) + "" == Base(t, id);
  }

  /** Equal bases and tags, unless one key has a bound and the other has none. */
  lemma TagDetermined(b: string, q: Query, b': string, q': Query)
    requires b + Tag(q) == b' + Tag(q')
    requires Tag(q) == "" <==> Tag(q') == ""
    ensures b == b' && Tag(q) == Tag(q')
  {
    var s, s' := b + Tag(q), b' + Tag(q');
    if Tag(q) == "" {
      assert s == b && s' == b';
    } else {
      assert s[|s| - 1] == Tag(q)[|Tag(q)| - 1] && s'[|s'| - 1] == Tag(q')[|Tag(q')| - 1];
      assert Tag(q)[|Tag(q)| - 1] == if q.version.Some? then 'v' else 't';
      assert Tag(q')[|Tag(q')| - 1] == if q'.version.Some? then 'v' else 't';
      assert s[..|b|] == b && s'[..|b'|] == b';
    }
  }

  /** Two replays share a cache key exactly when they agree on the aggregate and record the same bound,
      whatever colons the ids contain. */
  lemma KeysCoincide(t: AggregateType, id: string, q: Query, t': AggregateType, id': string, q': Query)
    ensures CacheKey(t, id, q) == CacheKey(t', id', q') <==> t == t' && id == id' && SameBound(q, q')
  {
    if q.at.Some? && q'.at.Some? { SameWrap(q.at.value, q'.at.value); }
    if CacheKey(t, id, q) == CacheKey(t', id', q') {
      KeyParses(t, id, q);
      KeyParses(t', id', q');
      TailHasNoColon(q);
      TailHasNoColon(q');
      SplitLast(Base(t, id) + Tag(q), Tail(q), Base(t', id') + Tag(q'), Tail(q'));
      TagDetermined(Base(t, id), q, Base(t', id'), q');
      BaseInjective(t, id, t', id');
      SameTail(q, q');
    }
  }

  lemma SameTail(q: Query, q': Query)
    requires Tag(q) == Tag(q') && Tail(q) == Tail(q')
    ensures q.version.Some? ==> q'.version == q.version
    ensures q.version.None? && q.at.Some? ==> q'.version.None? && q'.at.Some? && Wrap(q.at.value) == Wrap(q'.at.value)
    ensures q.version.None? && q.at.None? ==> q'.version.None? && q'.at.None?
  {
    if q.version.Some? {
      assert Tag(q)[1] == 'v';
      DecimalInjective(q.version.value, q'.version.value);
    } else if q.at.Some? {
      assert Tag(q)[1] == 'a';
      DecimalInjective(Wrap(q.at.value), Wrap(q'.at.value));
    }
  }

  /** On queries with a single bound the key determines the query, except that times a nonzero multiple of
      2^64 nanoseconds apart share one; within the int64 range it determines the whole query. */
  lemma SingleBoundKeysCoincide(t: AggregateType, id: string, q: Query, t': AggregateType, id': string, q': Query)
    requires SingleBound(q) && SingleBound(q')
    ensures CacheKey(t, id, q) == CacheKey(t', id', q') <==>
            && t == t' && id == id'
            && (q == q' || (q.at.Some? && q'.at.Some? && (q.at.value - q'.at.value) % TWO64 == 0))
    ensures TimeInRange(q) && TimeInRange(q') ==>
              (CacheKey(t, id, q) == CacheKey(t', id', q') <==> t == t' && id == id' && q == q')
  {
    KeysCoincide(t, id, q, t', id', q');
    if q.at.Some? && q'.at.Some? { SameWrap(q.at.value, q'.at.value); }
  }
}
