/**
 The id counter behind every `aid`: a single stored generator record whose value getID
 read-modify-writes. The state is `Option<int>`: None while no generator record exists.
 */
module IdGenerator {
  import opened Entities

  /** The id getID hands out (and stores) given the generator record it finds. */
  function NextId(generator: Option<int>): int
  {
    match generator
    case None => 0
    case Some(prev) => prev + 1
  }

  /** The last id handed out, or -1 before the first. */
  function LastId(generator: Option<int>): int
  {
    match generator
    case None => -1
    case Some(v) => v
  }

  /** The ids handed out by `n` successive getID calls starting from `generator`. */
  function Issued(generator: Option<int>, n: nat): (ids: seq<int>)
    ensures |ids| == n
    decreases n
  {
    if n == 0 then [] else [NextId(generator)] + Issued(Some(NextId(generator)), n - 1)
  }

  /** The k-th of successive ids is the first one plus k. */
  lemma {:induction false} IssuedAt(generator: Option<int>, n: nat, k: nat)
    requires k < n
    ensures Issued(generator, n)[k] == NextId(generator) + k
    decreases n
  {
    if k > 0 {
      IssuedAt(Some(NextId(generator)), n - 1, k - 1);
    }
  }

  /** Successive ids are strictly increasing, hence distinct, and all above the stored value. */
  lemma IssuedStrictlyIncreasing(generator: Option<int>, n: nat)
    ensures forall i, j :: 0 <= i < j < n ==> Issued(generator, n)[i] < Issued(generator, n)[j]
    ensures generator.Some? ==> forall i :: 0 <= i < n ==> generator.value < Issued(generator, n)[i]
  {
    forall i | 0 <= i < n
      ensures Issued(generator, n)[i] == NextId(generator) + i
    {
      IssuedAt(generator, n, i);
    }
  }

  /** With no generator record the ids are 0, 1, 2, ... */
  lemma IssuedFromScratch(n: nat)
    ensures Issued(None, n) == seq(n, i => i)
  {
    forall i | 0 <= i < n
      ensures Issued(None, n)[i] == i
    {
      IssuedAt(None, n, i);
    }
  }
}
