/** Logs of what a program did. The rules say which entry may come next, given a
    monitor of the entries before, and what the monitor becomes. */
module Logs {
  datatype Rules<!E, !M> = Rules(start: M, allowed: (M, E) -> bool, after: (M, E) -> M)

  /** What a log amounts to. */
  function Judge<E, M>(r: Rules<E, M>, log: seq<E>): M {
    if log == [] then r.start else r.after(Judge(r, log[..|log| - 1]), log[|log| - 1])
  }

  /** Every entry was allowed by the entries before it. */
  predicate Conforms<E, M>(r: Rules<E, M>, log: seq<E>) {
    log == [] || (
      && Conforms(r, log[..|log| - 1])
      && r.allowed(Judge(r, log[..|log| - 1]), log[|log| - 1]))
  }

  /** A conforming log, and what it amounts to. The quantifier keeps the two
      recursive definitions out of proofs that do not mention them. */
  ghost predicate Amounts<E(!new), M>(r: Rules<E, M>, log: seq<E>, m: M) {
    forall whole :: whole == log ==> Conforms(r, whole) && m == Judge(r, whole)
  }

  lemma AmountsExtends<E(!new), M>(r: Rules<E, M>, log: seq<E>, m: M, e: E)
    requires Amounts(r, log, m) && r.allowed(m, e)
    ensures Amounts(r, log + [e], r.after(m, e))
  {
    assert Conforms(r, log);
    assert (log + [e])[..|log|] == log;
  }

  lemma {:induction false} ConformingPrefix<E, M>(r: Rules<E, M>, log: seq<E>, n: nat)
    requires Conforms(r, log) && n <= |log|
    ensures Conforms(r, log[..n])
    decreases |log|
  {
    if n < |log| {
      ConformingPrefix(r, log[..|log| - 1], n);
      assert log[..|log| - 1][..n] == log[..n];
    } else {
      assert log[..n] == log;
    }
  }

  lemma AllowedAt<E, M>(r: Rules<E, M>, log: seq<E>, j: nat)
    requires Conforms(r, log) && j < |log|
    ensures Conforms(r, log[..j]) && r.allowed(Judge(r, log[..j]), log[j])
  {
    ConformingPrefix(r, log, j);
    ConformingPrefix(r, log, j + 1);
    assert log[..j + 1][..j] == log[..j];
  }

  lemma InLast<E>(log: seq<E>, x: E)
    requires log != []
    ensures x in log <==> x in log[..|log| - 1] || x == log[|log| - 1]
  {
    assert log == log[..|log| - 1] + [log[|log| - 1]];
  }
}
