/** Vocabulary for sequences that several components share. */
module Sequences {

  ghost predicate NoDuplicates<T>(s: seq<T>) {
    forall i, j :: 0 <= i < j < |s| ==> s[i] != s[j]
  }

  /** What other processes do in each gap between two statements of a program. */
  type Schedule<A> = seq<seq<A>>

  function Gap<A>(env: Schedule<A>, i: nat): seq<A> {
    if i < |env| then env[i] else []
  }
}
