/** Go's two in-place slice idioms over a backing array `a` of which the first `n` elements are live. */
module Slices {

  function Filter<T>(keep: T -> bool, s: seq<T>): seq<T> {
    if s == [] then []
    else
      var rest := Filter(keep, s[..|s| - 1]);
      if keep(s[|s| - 1]) then rest + [s[|s| - 1]] else rest
  }

  lemma FilterAppend<T>(keep: T -> bool, s: seq<T>, x: T)
    ensures Filter(keep, s + [x]) == Filter(keep, s) + if keep(x) then [x] else []
  {
    assert (s + [x])[..|s|] == s;
  }

  lemma FilterNext<T>(keep: T -> bool, s: seq<T>, r: nat)
    requires r < |s|
    ensures Filter(keep, s[..r + 1]) == Filter(keep, s[..r]) + if keep(s[r]) then [s[r]] else []
  {
    assert s[..r + 1] == s[..r] + [s[r]];
    FilterAppend(keep, s[..r], s[r]);
  }

  lemma {:induction false} FilterMembers<T>(keep: T -> bool, s: seq<T>)
    ensures forall x :: x in Filter(keep, s) <==> x in s && keep(x)
    ensures |Filter(keep, s)| <= |s|
  {
    if s == [] {
    } else {
      FilterMembers(keep, s[..|s| - 1]);
      assert s == s[..|s| - 1] + [s[|s| - 1]];
    }
  }

  /** `s = append(s, x)`: writes into spare capacity when there is some, else reallocates. */
  method Append<T>(a: array<T>, n: nat, x: T) returns (b: array<T>)
    requires n <= a.Length
    modifies a
    ensures b == a || fresh(b)
    ensures n < b.Length
    ensures b[..n + 1] == old(a[..n]) + [x]
    ensures a[..n] == old(a[..n])
  {
    if n < a.Length {
      a[n] := x;
      b := a;
    } else {
      var live := a[..n];
      b := new T[2 * n + 1](i requires 0 <= i => if i < |live| then live[i] else x);
    }
  }

  /** `kept := s[:0]; for _, x := range s { if keep(x) { kept = append(kept, x) } }`: the write
      index never overtakes the read index, so no element is overwritten before it is read. */
  method FilterInPlace<T>(a: array<T>, n: nat, keep: T -> bool) returns (m: nat)
    requires n <= a.Length
    modifies a
    ensures m <= n
    ensures a[..m] == Filter(keep, old(a[..n]))
    ensures a[n..] == old(a[n..])
  {
    ghost var was := a[..];
    m := 0;
    var r := 0;
    while r < n
      invariant m <= r <= n
      invariant a[..m] == Filter(keep, was[..r])
      invariant a[r..] == was[r..]
    {
      var x := a[r];
      assert x == a[r..][0] == was[r];
      FilterNext(keep, was, r);
      ghost var kept := a[..m];
      if keep(x) {
        a[m] := x;
        m := m + 1;
        assert a[..m] == kept + [x];
      }
      r := r + 1;
    }
    assert was[..n] == old(a[..n]) && was[n..] == old(a[n..]);
  }
}
