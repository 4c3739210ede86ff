/** Facts about sequences that are permutations of each other, shared by the order-independence proofs. */
module Multisets {
  /** Removing position k removes one occurrence of its element. */
  lemma {:induction false} MultisetRemove<T>(b: seq<T>, k: nat)
    requires k < |b|
    ensures multiset(b[..k] + b[k + 1..]) == multiset(b) - multiset{b[k]}
  {
    assert b == b[..k] + [b[k]] + b[k + 1..];
    assert multiset(b) == multiset(b[..k]) + multiset{b[k]} + multiset(b[k + 1..]);
  }

  /** A permutation of a non-empty sequence has the head of the one somewhere in the other. */
  lemma {:induction false} PermutationSplit<T>(a: seq<T>, b: seq<T>) returns (k: nat)
    requires a != [] && multiset(a) == multiset(b)
    ensures k < |b| && b[k] == a[0]
    ensures multiset(a[1..]) == multiset(b[..k] + b[k + 1..])
  {
    var x := a[0];
    assert a == [x] + a[1..];
    assert multiset(a) == multiset{x} + multiset(a[1..]);
    assert x in multiset(b);
    assert x in b;
    k :| 0 <= k < |b| && b[k] == x;
    MultisetRemove(b, k);
  }

  /** Applying `f` to every element, in order. */
  function Map<T, U>(f: T -> U, s: seq<T>): seq<U> {
    if s == [] then [] else [f(s[0])] + Map(f, s[1..])
  }

  /** The image has one element per element of `s`, at the same position. */
  lemma {:induction false} MapIndex<T, U>(f: T -> U, s: seq<T>)
    ensures |Map(f, s)| == |s|
    ensures forall i :: 0 <= i < |s| ==> Map(f, s)[i] == f(s[i])
  {
    if s != [] {
      MapIndex(f, s[1..]);
    }
  }

  lemma {:induction false} MapConcat<T, U>(f: T -> U, p: seq<T>, q: seq<T>)
    ensures Map(f, p + q) == Map(f, p) + Map(f, q)
  {
    if p == [] {
      assert p + q == q;
    } else {
      assert (p + q)[1..] == p[1..] + q;
      MapConcat(f, p[1..], q);
    }
  }

  /** The multiset of images splits around any one position. */
  lemma {:induction false} MapAround<T, U>(f: T -> U, b: seq<T>, k: nat)
    requires k < |b|
    ensures multiset(Map(f, b)) == multiset{f(b[k])} + multiset(Map(f, b[..k] + b[k + 1..]))
  {
    assert b == (b[..k] + [b[k]]) + b[k + 1..];
    MapConcat(f, b[..k] + [b[k]], b[k + 1..]);
    MapConcat(f, b[..k], [b[k]]);
    MapConcat(f, b[..k], b[k + 1..]);
    assert Map(f, [b[k]]) == [f(b[k])] by {
      assert [b[k]][1..] == [];
    }
  }

  /** Mapping a permutation gives a permutation of the images. */
  lemma {:induction false} MapPermutation<T, U>(f: T -> U, a: seq<T>, b: seq<T>)
    requires multiset(a) == multiset(b)
    ensures multiset(Map(f, a)) == multiset(Map(f, b))
    decreases |a|
  {
    if a == [] {
      assert |multiset(b)| == 0;
      assert b == [];
    } else {
      var k := PermutationSplit(a, b);
      var rest := b[..k] + b[k + 1..];
      MapPermutation(f, a[1..], rest);
      MapAround(f, a, 0);
      MapAround(f, b, k);
      assert a[..0] + a[1..] == a[1..];
      calc {
        multiset(Map(f, a));
        multiset{f(a[0])} + multiset(Map(f, a[1..]));
        multiset{f(b[k])} + multiset(Map(f, rest));
        multiset(Map(f, b));
      }
    }
  }
}
