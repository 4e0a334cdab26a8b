/** Work that is taken in rounds of a fixed size: a hundred outbox rows, twenty aggregates of a type. */
module Batches {

  function OneLess(size: nat, total: nat): nat {
    if total <= size then 0 else total - size
  }

  /** What is left of `total` after `n` rounds. */
  function Left(size: nat, total: nat, n: nat): nat {
    if n == 0 then total else Left(size, OneLess(size, total), n - 1)
  }

  lemma {:induction false} LeftStep(size: nat, total: nat, n: nat)
    ensures Left(size, total, n + 1) == OneLess(size, Left(size, total, n))
    decreases n
  {
    if n > 0 { LeftStep(size, OneLess(size, total), n - 1); }
  }

  /** The total divided by the size, rounded up. */
  function Rounds(size: nat, total: nat): nat
    requires size > 0
  {
    (total + size - 1) / size
  }

  lemma DivStep(x: nat, size: nat)
    requires size > 0
    ensures (x + size) / size == x / size + 1
  {
    Quotient(x + size, size, x / size + 1, x % size);
  }

  lemma Quotient(x: int, size: nat, q: int, r: nat)
    requires x == size * q + r && r < size
    ensures x / size == q
  {
    var d := x / size - q;
    assert size * d == r - x % size;
    assert d > 0 ==> size * d >= size;
    assert d < 0 ==> size * d + size <= 0;
  }

  /** Nothing is left exactly from that many rounds on. */
  lemma {:induction false} RoundsSuffice(size: nat, total: nat, n: nat)
    requires size > 0
    ensures n >= Rounds(size, total) <==> Left(size, total, n) == 0
    decreases n
  {
    if total <= size {
      RoundsSmall(size, total);
    } else {
      DivStep(total - 1, size);
    }
    if n > 0 { RoundsSuffice(size, OneLess(size, total), n - 1); }
  }

  lemma RoundsSmall(size: nat, total: nat)
    requires 0 < size && total <= size
    ensures Rounds(size, total) == if total == 0 then 0 else 1
  {
    if total > 0 { DivStep(total - 1, size); }
  }
}
