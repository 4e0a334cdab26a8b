/** The order of a result set and of a list of names: a stable insertion sort by any strict order, and the
    facts about sorted sequences that identify its result. */
module Sorting {

  /** A strict order in which being neither before nor after is an equivalence. */
  ghost predicate StrictOrder<T(!new)>(before: (T, T) -> bool) {
    && (forall a :: !before(a, a))
    && (forall a, b, c :: before(a, b) && before(b, c) ==> before(a, c))
    && (forall a, b, c :: before(a, c) ==> before(a, b) || before(b, c))
  }

  ghost predicate Sorted<T>(before: (T, T) -> bool, s: seq<T>) {
    forall i, j :: 0 <= i < j < |s| ==> !before(s[j], s[i])
  }

  ghost predicate StrictlySorted<T>(before: (T, T) -> bool, s: seq<T>) {
    forall i, j :: 0 <= i < j < |s| ==> before(s[i], s[j])
  }

  /** No two elements tie. */
  ghost predicate NoTies<T>(before: (T, T) -> bool, s: seq<T>) {
    forall i, j :: 0 <= i < j < |s| ==> before(s[i], s[j]) || before(s[j], s[i])
  }

  function Insert<T>(before: (T, T) -> bool, s: seq<T>, x: T): seq<T> {
    if s == [] || !before(x, s[|s| - 1]) then s + [x]
    else Insert(before, s[..|s| - 1], x) + [s[|s| - 1]]
  }

  function Sort<T>(before: (T, T) -> bool, s: seq<T>): seq<T> {
    if s == [] then [] else Insert(before, Sort(before, s[..|s| - 1]), s[|s| - 1])
  }

  lemma {:induction false} InsertPermutes<T>(before: (T, T) -> bool, s: seq<T>, x: T)
    ensures multiset(Insert(before, s, x)) == multiset(s) + multiset{x}
  {
    if s == [] || !before(x, s[|s| - 1]) {
    } else {
      InsertPermutes(before, s[..|s| - 1], x);
      assert s == s[..|s| - 1] + [s[|s| - 1]];
    }
  }

  lemma InsertMembers<T>(before: (T, T) -> bool, s: seq<T>, x: T)
    ensures forall y :: y in Insert(before, s, x) <==> y in s || y == x
  {
    InsertPermutes(before, s, x);
    forall y ensures y in Insert(before, s, x) <==> y in s || y == x {
      assert y in Insert(before, s, x) <==> y in multiset(Insert(before, s, x));
      assert y in s <==> y in multiset(s);
    }
  }

  lemma {:induction false} SortPermutes<T>(before: (T, T) -> bool, s: seq<T>)
    ensures multiset(Sort(before, s)) == multiset(s)
    ensures |Sort(before, s)| == |s|
  {
    if s == [] {
    } else {
      SortPermutes(before, s[..|s| - 1]);
      InsertPermutes(before, Sort(before, s[..|s| - 1]), s[|s| - 1]);
      assert s == s[..|s| - 1] + [s[|s| - 1]];
    }
    assert |multiset(Sort(before, s))| == |Sort(before, s)|;
  }

  lemma SortMembers<T>(before: (T, T) -> bool, s: seq<T>)
    ensures forall x :: x in Sort(before, s) <==> x in s
  {
    SortPermutes(before, s);
    forall x ensures x in Sort(before, s) <==> x in s {
      assert x in Sort(before, s) <==> x in multiset(Sort(before, s));
      assert x in s <==> x in multiset(s);
    }
  }

  /** Appending what comes before no element of a sorted sequence. */
  lemma AppendSorted<T>(before: (T, T) -> bool, s: seq<T>, x: T)
    requires Sorted(before, s) && forall y :: y in s ==> !before(x, y)
    ensures Sorted(before, s + [x])
  {
  }

  lemma {:induction false} InsertSorted<T(!new)>(before: (T, T) -> bool, s: seq<T>, x: T)
    requires StrictOrder(before) && Sorted(before, s)
    ensures Sorted(before, Insert(before, s, x))
  {
    if s == [] {
    } else {
      var init, last := s[..|s| - 1], s[|s| - 1];
      NotBeforeLast(before, s);
      if before(x, last) {
        InsertSorted(before, init, x);
        InsertMembers(before, init, x);
        forall y | y in Insert(before, init, x) ensures !before(last, y) {
          if y == x { assert before(x, last) && before(last, x) ==> before(x, x); }
        }
        AppendSorted(before, Insert(before, init, x), last);
      } else {
        forall y | y in s ensures !before(x, y) {
          assert before(x, y) ==> before(x, last) || before(last, y);
        }
        AppendSorted(before, s, x);
      }
    }
  }

  /** No element comes after the last. */
  lemma NotBeforeLast<T(!new)>(before: (T, T) -> bool, s: seq<T>)
    requires StrictOrder(before) && Sorted(before, s) && s != []
    ensures Sorted(before, s[..|s| - 1])
    ensures forall y :: y in s ==> !before(s[|s| - 1], y)
    ensures forall y :: y in s[..|s| - 1] ==> y in s
  {
    forall y | y in s ensures !before(s[|s| - 1], y) {
      var i :| 0 <= i < |s| && s[i] == y;
      assert i < |s| - 1 ==> !before(s[|s| - 1], s[i]);
    }
  }

  lemma {:induction false} SortSorted<T(!new)>(before: (T, T) -> bool, s: seq<T>)
    requires StrictOrder(before)
    ensures Sorted(before, Sort(before, s))
  {
    if s == [] {
    } else {
      SortSorted(before, s[..|s| - 1]);
      InsertSorted(before, Sort(before, s[..|s| - 1]), s[|s| - 1]);
    }
  }

  lemma {:induction false} InsertNoTies<T>(before: (T, T) -> bool, s: seq<T>, x: T)
    requires NoTies(before, s) && forall y :: y in s ==> before(x, y) || before(y, x)
    ensures NoTies(before, Insert(before, s, x))
  {
    if s == [] || !before(x, s[|s| - 1]) {
    } else {
      var init, last := s[..|s| - 1], s[|s| - 1];
      assert last in s;
      forall y | y in init ensures before(x, y) || before(y, x) {
        assert y in s;
      }
      InsertNoTies(before, init, x);
      InsertPermutes(before, init, x);
      TieFreeWithLast(before, s, x, Insert(before, init, x));
    }
  }

  lemma TieFreeWithLast<T>(before: (T, T) -> bool, s: seq<T>, x: T, r: seq<T>)
    requires s != [] && NoTies(before, s) && NoTies(before, r) && (before(x, s[|s| - 1]) || before(s[|s| - 1], x))
    requires multiset(r) == multiset(s[..|s| - 1]) + multiset{x}
    ensures NoTies(before, r + [s[|s| - 1]])
  {
    var init, last := s[..|s| - 1], s[|s| - 1];
    forall i | 0 <= i < |r| ensures before(r[i], last) || before(last, r[i]) {
      assert r[i] in multiset(r);
      if r[i] != x {
        assert r[i] in multiset(init);
        var j :| 0 <= j < |init| && init[j] == r[i];
        assert before(s[j], s[|s| - 1]) || before(s[|s| - 1], s[j]);
      }
    }
  }

  lemma {:induction false} SortNoTies<T>(before: (T, T) -> bool, s: seq<T>)
    requires NoTies(before, s)
    ensures NoTies(before, Sort(before, s))
  {
    if s == [] {
    } else {
      var init, last := s[..|s| - 1], s[|s| - 1];
      SortNoTies(before, init);
      SortPermutes(before, init);
      forall y | y in Sort(before, init) ensures before(last, y) || before(y, last) {
        assert y in multiset(Sort(before, init));
        assert y in multiset(init);
        var i :| 0 <= i < |init| && init[i] == y;
        assert before(s[i], s[|s| - 1]) || before(s[|s| - 1], s[i]);
      }
      InsertNoTies(before, Sort(before, init), last);
    }
  }

  /** Sorting what has no ties leaves only one order. */
  lemma SortStrict<T(!new)>(before: (T, T) -> bool, s: seq<T>)
    requires StrictOrder(before) && NoTies(before, s)
    ensures StrictlySorted(before, Sort(before, s))
  {
    SortSorted(before, s);
    SortNoTies(before, s);
  }

  /** Sorting a sorted sequence changes nothing. */
  lemma {:induction false} SortIdentity<T>(before: (T, T) -> bool, s: seq<T>)
    requires Sorted(before, s)
    ensures Sort(before, s) == s
  {
    if s == [] {
    } else {
      SortedPrefix(before, s);
      SortIdentity(before, s[..|s| - 1]);
      InsertLast(before, s[..|s| - 1], s[|s| - 1]);
      assert s == s[..|s| - 1] + [s[|s| - 1]];
    }
  }

  lemma SortedPrefix<T>(before: (T, T) -> bool, s: seq<T>)
    requires Sorted(before, s) && s != []
    ensures var init := s[..|s| - 1];
            Sorted(before, init) && (init != [] ==> !before(s[|s| - 1], init[|init| - 1]))
  {
  }

  lemma InsertLast<T>(before: (T, T) -> bool, s: seq<T>, x: T)
    requires s == [] || !before(x, s[|s| - 1])
    ensures Insert(before, s, x) == s + [x]
  {
  }

  /** The last element of a strictly sorted sequence, and what comes before it. */
  lemma StrictlySortedLast<T(!new)>(before: (T, T) -> bool, s: seq<T>)
    requires StrictOrder(before) && StrictlySorted(before, s) && s != []
    ensures StrictlySorted(before, s[..|s| - 1])
    ensures forall x :: x in s ==> x == s[|s| - 1] || before(x, s[|s| - 1])
    ensures forall x :: x in s[..|s| - 1] <==> x in s && before(x, s[|s| - 1])
  {
    var init, last := s[..|s| - 1], s[|s| - 1];
    assert s == init + [last];
    forall x | x in init ensures before(x, last) {
      var i :| 0 <= i < |init| && init[i] == x;
      assert before(s[i], s[|s| - 1]);
    }
  }

  /** Two strictly sorted sequences with the same members are the same sequence. */
  lemma {:induction false} StrictlySortedUnique<T(!new)>(before: (T, T) -> bool, a: seq<T>, b: seq<T>)
    requires StrictOrder(before) && StrictlySorted(before, a) && StrictlySorted(before, b)
    requires forall x :: x in a <==> x in b
    ensures a == b
  {
    if a != [] { assert a[0] in b; }
    if b != [] { assert b[0] in a; }
    if a == [] {
    } else {
      SameLast(before, a, b);
      var ia, ib := a[..|a| - 1], b[..|b| - 1];
      StrictlySortedLast(before, a);
      StrictlySortedLast(before, b);
      assert a == ia + [a[|a| - 1]] && b == ib + [b[|b| - 1]];
      forall x ensures x in ia <==> x in ib {
        assert x in a <==> x in b;
      }
      StrictlySortedUnique(before, ia, ib);
    }
  }

  lemma SameLast<T(!new)>(before: (T, T) -> bool, a: seq<T>, b: seq<T>)
    requires StrictOrder(before) && StrictlySorted(before, a) && StrictlySorted(before, b) && a != [] && b != []
    requires forall x :: x in a <==> x in b
    ensures a[|a| - 1] == b[|b| - 1]
  {
    var la, lb := a[|a| - 1], b[|b| - 1];
    assert la in a && lb in b;
    assert la in b && lb in a;
    StrictlySortedLast(before, a);
    StrictlySortedLast(before, b);
    assert !(before(la, lb) && before(lb, la)) by {
      assert before(la, lb) && before(lb, la) ==> before(la, la);
    }
  }
}
