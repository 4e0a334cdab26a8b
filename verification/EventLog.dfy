/** The `events` table, its rows kept in commit order, and the queries the event store runs on it.
    The order of rows matters to no query: each selects by column and sorts by version. */
module EventLog {
  import opened Domain
  import Sorting

  /** The committed rows of one aggregate, in commit order. */
  function Of(events: seq<Event>, k: Key): seq<Event> {
    if events == [] then []
    else
      var rest := Of(events[..|events| - 1], k);
      if events[|events| - 1].key == k then rest + [events[|events| - 1]] else rest
  }

  lemma OfAppend(events: seq<Event>, e: Event, k: Key)
    ensures Of(events + [e], k) == if e.key == k then Of(events, k) + [e] else Of(events, k)
  {
    assert (events + [e])[..|events|] == events;
  }

  lemma {:induction false} OfPrefix(a: seq<Event>, b: seq<Event>, k: Key)
    requires a <= b
    ensures Of(a, k) <= Of(b, k)
  {
    if a == b {
    } else {
      OfPrefix(a, b[..|b| - 1], k);
    }
  }

  lemma {:induction false} OfMembers(events: seq<Event>, k: Key)
    ensures forall e :: e in Of(events, k) <==> e in events && e.key == k
  {
    if events == [] {
    } else {
      OfMembers(events[..|events| - 1], k);
      assert events == events[..|events| - 1] + [events[|events| - 1]];
    }
  }

  /** The versions of a log are exactly 1, 2, ..., n in commit order. */
  ghost predicate Numbered(log: seq<Event>) {
    forall i :: 0 <= i < |log| ==> log[i].version == i + 1
  }

  ghost predicate IdsIncrease(log: seq<Event>) {
    forall i, j :: 0 <= i < j < |log| ==> log[i].id < log[j].id
  }

  /** The append-only history of every aggregate is gap-free, and ids agree with versions. */
  ghost predicate WellNumbered(events: seq<Event>) {
    forall k: Key :: Numbered(Of(events, k)) && IdsIncrease(Of(events, k))
  }

  /** Within an aggregate, rows committed later have greater versions. */
  lemma CommitOrderIsVersionOrder(events: seq<Event>, i: nat, j: nat)
    requires i < j < |events| && events[i].key == events[j].key
    requires Numbered(Of(events, events[j].key))
    ensures events[i].version < events[j].version
  {
    var k := events[j].key;
    var before, log := Of(events[..j], k), Of(events, k);
    assert events[..j + 1] == events[..j] + [events[j]];
    OfAppend(events[..j], events[j], k);
    OfPrefix(events[..j + 1], events, k);
    assert log[|before|] == events[j];
    OfMembers(events[..j], k);
    assert events[i] == events[..j][i];
    var x :| 0 <= x < |before| && before[x] == events[i];
    assert log[x] == (before + [events[j]])[x];
  }

  /** Every version below that of a committed row is the version of a row committed before it. */
  lemma PredecessorCommitted(events: seq<Event>, j: nat) returns (i: nat)
    requires j < |events| && events[j].version > 1
    requires Numbered(Of(events, events[j].key))
    ensures i < j && events[i].key == events[j].key && events[i].version + 1 == events[j].version
  {
    var k := events[j].key;
    var log := Of(events, k);
    OfMembers(events, k);
    assert events[j] in log;
    var x :| 0 <= x < |log| && log[x] == events[j];
    assert log[x].version == x + 1 && log[x - 1].version == x;
    assert log[x - 1] in events && log[x - 1].key == k;
    i :| 0 <= i < |events| && events[i] == log[x - 1];
    if j < i { CommitOrderIsVersionOrder(events, j, i); }
  }

  /** A committed row stands in its history at the place its version says. */
  lemma CommittedVersion(events: seq<Event>, e: Event)
    requires WellNumbered(events) && e in events
    ensures 1 <= e.version <= |Of(events, e.key)| && Of(events, e.key)[e.version - 1] == e
  {
    var log := Of(events, e.key);
    OfMembers(events, e.key);
    assert Numbered(log);
    var x :| 0 <= x < |log| && log[x] == e;
  }

  // ---------- The greatest version, 0 when there is none ----------

  function LatestVersion(events: seq<Event>, k: Key): int {
    if events == [] then 0
    else
      var rest := LatestVersion(events[..|events| - 1], k);
      var last := events[|events| - 1];
      if last.key == k && rest < last.version then last.version else rest
  }

  lemma {:induction false} LatestVersionIsLength(events: seq<Event>, k: Key)
    requires Numbered(Of(events, k))
    ensures LatestVersion(events, k) == |Of(events, k)|
  {
    if events == [] {
    } else {
      var init, last := events[..|events| - 1], events[|events| - 1];
      var log := Of(events, k);
      assert forall i :: 0 <= i < |Of(init, k)| ==> Of(init, k)[i] == log[i];
      LatestVersionIsLength(init, k);
      if last.key == k { assert log[|log| - 1].version == |log|; }
    }
  }

  // ---------- The load query ----------

  predicate Matches(q: Query, e: Event) {
    && (q.version.Some? ==> e.version <= q.version.value)
    && (q.at.Some? ==> e.createdAt <= q.at.value)
    && (q.untilId.Some? ==> e.id <= q.untilId.value)
  }

  function Matching(q: Query, log: seq<Event>): seq<Event> {
    if log == [] then []
    else
      var rest := Matching(q, log[..|log| - 1]);
      if Matches(q, log[|log| - 1]) then rest + [log[|log| - 1]] else rest
  }

  predicate ByVersion(a: Event, b: Event) { a.version < b.version }

  /** The result set of the load query: the rows of the aggregate that meet every bound present in
      the query, sorted by version. */
  function LoadUntil(events: seq<Event>, k: Key, q: Query): seq<Event> {
    Sorting.Sort(ByVersion, Matching(q, Of(events, k)))
  }

  lemma {:induction false} MatchingMembers(q: Query, log: seq<Event>)
    ensures forall e :: e in Matching(q, log) <==> e in log && Matches(q, e)
  {
    if log == [] {
    } else {
      MatchingMembers(q, log[..|log| - 1]);
      assert log == log[..|log| - 1] + [log[|log| - 1]];
    }
  }

  lemma {:induction false} MatchingSorted(q: Query, log: seq<Event>)
    requires Numbered(log)
    ensures Sorting.StrictlySorted(ByVersion, Matching(q, log))
  {
    if log == [] {
    } else {
      var init := log[..|log| - 1];
      MatchingSorted(q, init);
      MatchingMembers(q, init);
      var m := Matching(q, log);
      forall i, j | 0 <= i < j < |m| ensures ByVersion(m[i], m[j]) {
        if j == |Matching(q, init)| { assert m[i] in init; }
      }
    }
  }

  lemma {:induction false} MatchingSplit(q: Query, a: seq<Event>, b: seq<Event>)
    ensures Matching(q, a + b) == Matching(q, a) + Matching(q, b)
  {
    if b == [] {
      assert a + b == a;
    } else {
      assert (a + b)[..|a + b| - 1] == a + b[..|b| - 1];
      MatchingSplit(q, a, b[..|b| - 1]);
    }
  }

  lemma {:induction false} MatchingAll(q: Query, log: seq<Event>)
    requires forall i :: 0 <= i < |log| ==> Matches(q, log[i])
    ensures Matching(q, log) == log
  {
    if log == [] {
    } else {
      MatchingAll(q, log[..|log| - 1]);
    }
  }

  lemma {:induction false} MatchingNone(q: Query, log: seq<Event>)
    requires forall i :: 0 <= i < |log| ==> !Matches(q, log[i])
    ensures Matching(q, log) == []
  {
    if log == [] {
    } else {
      MatchingNone(q, log[..|log| - 1]);
    }
  }

  /** On a gap-free history the sort is the identity: the load returns the matching rows in the
      order in which they were committed. */
  lemma LoadIsMatching(events: seq<Event>, k: Key, q: Query)
    requires Numbered(Of(events, k))
    ensures LoadUntil(events, k, q) == Matching(q, Of(events, k))
  {
    MatchingSorted(q, Of(events, k));
    Sorting.SortIdentity(ByVersion, Matching(q, Of(events, k)));
  }

  /** The load returns the aggregate's rows within every bound that the query has, each bound included, in
      ascending version order. */
  lemma LoadMembers(events: seq<Event>, k: Key, q: Query)
    requires Numbered(Of(events, k))
    ensures forall e :: e in LoadUntil(events, k, q) <==>
                          && e in events && e.key == k
                          && (q.version.Some? ==> e.version <= q.version.value)
                          && (q.at.Some? ==> e.createdAt <= q.at.value)
                          && (q.untilId.Some? ==> e.id <= q.untilId.value)
    ensures var loaded := LoadUntil(events, k, q);
            forall i, j :: 0 <= i < j < |loaded| ==> loaded[i].version < loaded[j].version
  {
    LoadIsMatching(events, k, q);
    MatchingMembers(q, Of(events, k));
    MatchingSorted(q, Of(events, k));
    OfMembers(events, k);
    assert forall a, b :: ByVersion(a, b) <==> a.version < b.version;
  }

  /** No event that meets the query comes after one that does not. */
  ghost predicate DownwardClosed(q: Query, log: seq<Event>) {
    forall i, j :: 0 <= i < j < |log| && Matches(q, log[j]) ==> Matches(q, log[i])
  }

  /** A downward-closed query selects a prefix of the history. */
  lemma {:induction false} ClosedMatchingIsPrefix(q: Query, log: seq<Event>)
    requires DownwardClosed(q, log)
    ensures Matching(q, log) <= log
    ensures forall i :: 0 <= i < |log| ==> (Matches(q, log[i]) <==> i < |Matching(q, log)|)
  {
    if log == [] {
    } else {
      var init := log[..|log| - 1];
      ClosedMatchingIsPrefix(q, init);
      if Matches(q, log[|log| - 1]) {
        MatchingAll(q, init);
      }
    }
  }

  /** Ids increase with versions, so bounds on version and id select a prefix. */
  lemma BoundedIsClosed(q: Query, log: seq<Event>)
    requires Numbered(log) && IdsIncrease(log)
    requires q.at.None? || TimesIncrease(log)
    ensures DownwardClosed(q, log)
  {
    forall i, j | 0 <= i < j < |log| && Matches(q, log[j]) ensures Matches(q, log[i]) {
      assert log[i].version <= log[j].version && log[i].id < log[j].id;
    }
  }

  ghost predicate TimesIncrease(log: seq<Event>) {
    forall i, j :: 0 <= i < j < |log| ==> log[i].createdAt <= log[j].createdAt
  }

  lemma VersionSelects(log: seq<Event>, v: int)
    requires Numbered(log)
    ensures Matching(Query(None, Some(v), None), log) == log[..Clamp(v, |log|)]
  {
    var q, c := Query(None, Some(v), None), Clamp(v, |log|);
    assert log == log[..c] + log[c..];
    MatchingSplit(q, log[..c], log[c..]);
    MatchingAll(q, log[..c]);
    MatchingNone(q, log[c..]);
  }

  /** Loads bounded by version, by id or by both select a prefix of the version-ordered history,
      because ids increase with versions. Loads bounded by time do so when the creation times of the
      history do not decrease; transaction start times may. */
  lemma BoundedLoadIsPrefix(events: seq<Event>, k: Key, q: Query)
    requires WellNumbered(events)
    requires q.at.None? || TimesIncrease(Of(events, k))
    ensures DownwardClosed(q, Of(events, k))
    ensures LoadUntil(events, k, q) <= Of(events, k)
    ensures q == Query(None, q.version, None) && q.version.Some? ==>
              LoadUntil(events, k, q) == Of(events, k)[..Clamp(q.version.value, |Of(events, k)|)]
    ensures q == CURRENT ==> LoadUntil(events, k, q) == Of(events, k)
  {
    var log := Of(events, k);
    assert Numbered(log) && IdsIncrease(log);
    BoundedIsClosed(q, log);
    ClosedMatchingIsPrefix(q, log);
    LoadIsMatching(events, k, q);
    if q.version.Some? { VersionSelects(log, q.version.value); }
    if q == CURRENT { MatchingAll(q, log); }
  }

  /** Only a downward-closed query selects a prefix of a gap-free history. */
  lemma PrefixIsClosed(q: Query, log: seq<Event>)
    requires Numbered(log) && Matching(q, log) <= log
    ensures DownwardClosed(q, log)
  {
    var m := Matching(q, log);
    MatchingMembers(q, log);
    forall i, j | 0 <= i < j < |log| && Matches(q, log[j]) ensures Matches(q, log[i]) {
      assert log[j] in m;
      var x :| 0 <= x < |m| && m[x] == log[j];
      assert log[x].version == x + 1 && log[j].version == j + 1;
      assert m[i] in m && m[i] == log[i];
    }
  }

  /** Every load bounded by a time selects a prefix of the history exactly when the creation times of the
      history do not decrease. */
  lemma TimeLoadsArePrefixesIff(events: seq<Event>, k: Key)
    requires WellNumbered(events)
    ensures (forall t :: LoadUntil(events, k, Query(Some(t), None, None)) <= Of(events, k)) <==>
            TimesIncrease(Of(events, k))
  {
    var log := Of(events, k);
    assert Numbered(log);
    if TimesIncrease(log) {
      forall t ensures LoadUntil(events, k, Query(Some(t), None, None)) <= log {
        BoundedLoadIsPrefix(events, k, Query(Some(t), None, None));
      }
    }
    if forall t :: LoadUntil(events, k, Query(Some(t), None, None)) <= log {
      forall i, j | 0 <= i < j < |log| ensures log[i].createdAt <= log[j].createdAt {
        var q := Query(Some(log[j].createdAt), None, None);
        LoadIsMatching(events, k, q);
        PrefixIsClosed(q, log);
      }
    }
  }

  function Clamp(v: int, n: nat): (r: nat)
    ensures r <= n
  {
    if v < 0 then 0 else if v > n then n else v
  }
}
