/** Small facts about sequences and multisets that the scheduler's proofs
    and the end-to-end runs share. */
module SeqFacts {

  /** Concatenation regroups freely. */
  lemma AppendAssoc<T>(a: seq<T>, b: seq<T>, c: seq<T>)
    ensures (a + b) + c == a + (b + c)
  {
  }

  /** Taking `y` out of the middle of a sequence takes it out of its
      multiset. */
  lemma MultisetSplice<T>(p: seq<T>, y: T, r: seq<T>)
    ensures multiset(p + [y] + r) == multiset(p + r) + multiset{y}
  {
  }

  /** An element added to both sides cancels. */
  lemma MultisetCancel<T>(m: multiset<T>, n: multiset<T>, x: T)
    requires m + multiset{x} == n + multiset{x}
    ensures m == n
  {
    assert m == (m + multiset{x}) - multiset{x};
  }

  /** If `a` and `b` hold the same elements and `b[i]` is the last
      element of `a`, dropping each leaves the same elements. */
  lemma PeelMatching<T>(a: seq<T>, b: seq<T>, i: nat)
    requires multiset(a) == multiset(b)
    requires |a| > 0 && i < |b| && b[i] == a[|a| - 1]
    ensures b == b[..i] + [b[i]] + b[i + 1..]
    ensures multiset(a[..|a| - 1]) == multiset(b[..i] + b[i + 1..])
  {
    var x, init := a[|a| - 1], a[..|a| - 1];
    var left, right := b[..i], b[i + 1..];
    assert b == left + [x] + right;
    assert a == init + [x] + [];
    MultisetSplice(left, x, right);
    MultisetSplice(init, x, []);
    assert init + [] == init;
    MultisetCancel(multiset(init), multiset(left + right), x);
  }

  /** Swapping the first two of three elements keeps the multiset. */
  lemma SwapFirstTwo<T>(x: T, y: T, z: T)
    ensures multiset([x, y, z]) == multiset([y, x, z])
  {
  }
}
