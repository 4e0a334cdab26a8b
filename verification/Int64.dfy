/** Go's int64: arithmetic that overflows wraps around. */
module Int64 {
  const TWO64: int := 0x1_0000_0000_0000_0000
  const TWO63: int := 0x8000_0000_0000_0000

  /** The int64 that a mathematical integer is truncated to. */
  function Wrap(x: int): (r: int)
    ensures -TWO63 <= r < TWO63
    ensures -TWO63 <= x < TWO63 ==> r == x
  {
    (x + TWO63) % TWO64 - TWO63
  }

  lemma WrapShift(x: int, k: int)
    ensures Wrap(x + k * TWO64) == Wrap(x)
  {
    var d := (x + TWO63) / TWO64;
    var m := (x + TWO63) % TWO64;
    assert x + TWO63 == d * TWO64 + m;
    DivModUnique(x + k * TWO64 + TWO63, d + k, m);
  }

  lemma DivModUnique(x: int, d: int, m: int)
    requires x == d * TWO64 + m && 0 <= m < TWO64
    ensures x % TWO64 == m
  {
    var d', m' := x / TWO64, x % TWO64;
    assert x == d' * TWO64 + m';
    assert (d - d') * TWO64 == m' - m;
  }

  /** Truncating the operands first does not change a truncated sum. */
  lemma WrapSum(a: int, b: int)
    ensures Wrap(Wrap(a) + Wrap(b)) == Wrap(a + b)
  {
    var ka, kb := (a + TWO63) / TWO64, (b + TWO63) / TWO64;
    assert Wrap(a) == a + (-ka) * TWO64;
    assert Wrap(b) == b + (-kb) * TWO64;
    assert Wrap(a) + Wrap(b) == a + b + (-ka - kb) * TWO64;
    WrapShift(a + b, -ka - kb);
  }

  lemma WrapOffset(a: int, b: int)
    ensures Wrap(Wrap(a) + b) == Wrap(a + b)
  {
    var k := (a + TWO63) / TWO64;
    assert Wrap(a) == a + (-k) * TWO64;
    WrapShift(a + b, -k);
  }

  predicate InRange(x: int) {
    -TWO63 <= x < TWO63
  }

  /** Two integers are truncated to the same int64 exactly when they are a multiple of 2^64 apart. */
  lemma SameWrap(a: int, b: int)
    ensures Wrap(a) == Wrap(b) <==> (a - b) % TWO64 == 0
  {
    var ka, kb := (a + TWO63) / TWO64, (b + TWO63) / TWO64;
    assert Wrap(a) == a - ka * TWO64 && Wrap(b) == b - kb * TWO64;
    if Wrap(a) == Wrap(b) {
      DivModUnique(a - b, ka - kb, 0);
    }
    if (a - b) % TWO64 == 0 {
      assert a == b + (a - b) / TWO64 * TWO64;
      WrapShift(b, (a - b) / TWO64);
    }
  }
}
