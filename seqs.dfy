/** Sequence helpers: applying a function to every element, distinctness, and permutations. */
module Seqs {

  /** The sequence of `f` applied to each element of `s`, in order. */
  function Map<A, B>(f: A -> B, s: seq<A>): (r: seq<B>)
    ensures |r| == |s|
    ensures forall i :: 0 <= i < |s| ==> r[i] == f(s[i])
  {
    seq(|s|, i requires 0 <= i < |s| => f(s[i]))
  }

  /** No element occurs twice. */
  predicate Distinct<T(==)>(s: seq<T>)
  {
    forall i, j :: 0 <= i < j < |s| ==> s[i] != s[j]
  }

  /** Mapping distributes over concatenation. */
  lemma MapAppend<A, B>(f: A -> B, s: seq<A>, t: seq<A>)
    ensures Map(f, s + t) == Map(f, s) + Map(f, t)
  {
  }

  /** Adding the same element to two multisets keeps them apart or equal. */
  lemma MultisetCancel<T>(x: T, p: multiset<T>, q: multiset<T>)
    requires p + multiset{x} == q + multiset{x}
    ensures p == q
  {
    forall y ensures p[y] == q[y] {
      assert (p + multiset{x})[y] == (q + multiset{x})[y];
    }
  }

  /** Taking out the element at `j` takes one copy of it out of the multiset. */
  lemma RemoveAt<T>(s: seq<T>, j: nat)
    requires j < |s|
    ensures multiset(s) == multiset(s[..j] + s[j + 1..]) + multiset{s[j]}
  {
    assert s == s[..j] + [s[j]] + s[j + 1..];
  }

  /** Taking out the element at `j` takes its image out of the mapped multiset. */
  lemma MapRemove<A, B>(f: A -> B, b: seq<A>, j: nat)
    requires j < |b|
    ensures multiset(Map(f, b)) == multiset(Map(f, b[..j] + b[j + 1..])) + multiset{f(b[j])}
  {
    var m := Map(f, b);
    assert Map(f, b[..j] + b[j + 1..]) == m[..j] + m[j + 1..];
    RemoveAt(m, j);
  }

  /** Applying a function to two permutations of each other gives two permutations of each other. */
  lemma {:induction false} MapPermutation<A, B>(f: A -> B, a: seq<A>, b: seq<A>)
    requires multiset(a) == multiset(b)
    ensures multiset(Map(f, a)) == multiset(Map(f, b))
    decreases |a|
  {
    if a != [] {
      var n := |a| - 1;
      var x := a[n];
      assert x in multiset(b);
      var j :| 0 <= j < |b| && b[j] == x;
      var rest := b[..j] + b[j + 1..];
      RemoveAt(a, n);
      RemoveAt(b, j);
      MapRemove(f, a, n);
      MapRemove(f, b, j);
      assert a[..n] + a[n + 1..] == a[..n];
      MultisetCancel(x, multiset(a[..n]), multiset(rest));
      MapPermutation(f, a[..n], rest);
    }
  }

  /** In a sequence without repetitions every element occurs at most once. */
  lemma {:induction false} DistinctMultiplicity<T>(s: seq<T>)
    requires Distinct(s)
    ensures forall x :: multiset(s)[x] <= 1
    decreases |s|
  {
    if s != [] {
      var n := |s| - 1;
      assert s == s[..n] + [s[n]];
      assert Distinct(s[..n]);
      DistinctMultiplicity(s[..n]);
      assert s[n] !in s[..n];
    }
  }

  /** A permutation of a sequence without repetitions has no repetitions either. */
  lemma PermutationKeepsDistinct<T>(a: seq<T>, b: seq<T>)
    requires multiset(a) == multiset(b)
    requires Distinct(a)
    ensures Distinct(b)
  {
    DistinctMultiplicity(a);
    forall i, j | 0 <= i < j < |b|
      ensures b[i] != b[j]
    {
      var y := b[i];
      assert b == b[..i] + [y] + b[i + 1..j] + [b[j]] + b[j + 1..];
      assert multiset(b) == multiset(b[..i]) + multiset{y} + multiset(b[i + 1..j]) + multiset{b[j]} + multiset(b[j + 1..]);
      assert multiset(b)[y] >= 1 + multiset{b[j]}[y];
    }
  }
}
