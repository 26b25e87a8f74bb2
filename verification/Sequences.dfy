// Mapping a function over a sequence.
module Sequences {
  function Map<A, B>(f: A -> B, xs: seq<A>): (ys: seq<B>)
    ensures |ys| == |xs|
    ensures forall i :: 0 <= i < |xs| ==> ys[i] == f(xs[i])
  {
    seq(|xs|, i requires 0 <= i < |xs| => f(xs[i]))
  }

  lemma MapAppend<A, B>(f: A -> B, xs: seq<A>, ys: seq<A>)
    ensures Map(f, xs + ys) == Map(f, xs) + Map(f, ys)
  {
  }

  lemma MapOneMore<A, B>(f: A -> B, xs: seq<A>, i: nat)
    requires i < |xs|
    ensures Map(f, xs[..i + 1]) == Map(f, xs[..i]) + [f(xs[i])]
  {
  }

  // Where a permutation keeps the last element.
  lemma LastElsewhere<T>(xs: seq<T>, ys: seq<T>) returns (j: nat)
    requires xs != [] && multiset(xs) == multiset(ys)
    ensures j < |ys| && ys[j] == xs[|xs| - 1]
    ensures multiset(xs[..|xs| - 1]) == multiset(ys[..j] + ys[j + 1..])
  {
    var last := xs[|xs| - 1];
    assert xs == xs[..|xs| - 1] + [last];
    assert last in multiset(ys);
    j :| 0 <= j < |ys| && ys[j] == last;
    assert ys == ys[..j] + [last] + ys[j + 1..];
    assert multiset(ys) == multiset(ys[..j] + ys[j + 1..]) + multiset{last};
    assert multiset(xs) == multiset(xs[..|xs| - 1]) + multiset{last};
    assert multiset(xs[..|xs| - 1]) == multiset(xs) - multiset{last};
  }
}
