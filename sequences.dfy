/**
 * Equalities between sequence expressions, stated as lemmas so that a proof
 * can add one of them where it is needed without also having to prove it in
 * the same breath.
 */
module Sequences {
  lemma AppendAssoc<T>(x: seq<T>, y: seq<T>, z: seq<T>)
    ensures x + y + z == x + (y + z)
  {
  }

  lemma AppendEmpty<T>(x: seq<T>)
    ensures x + [] == x
  {
  }

  lemma SplitLast<T>(x: seq<T>)
    requires x != []
    ensures x[..|x| - 1] + [x[|x| - 1]] == x
  {
  }

  lemma TakeTake<T>(x: seq<T>, i: nat)
    requires i < |x|
    ensures x[..i + 1][..i] == x[..i]
  {
  }

  lemma TakeAll<T>(x: seq<T>)
    ensures x[..|x|] == x
  {
  }
}
