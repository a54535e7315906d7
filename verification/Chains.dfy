/** Singly linked chains threaded through an array by index, as Clay's hash maps and word lists are. */
module Chains {
  predicate NoDup<T(==)>(s: seq<T>) {
    forall i, j :: 0 <= i < j < |s| ==> s[i] != s[j]
  }

  /** The frame counters by which entries are judged are 32 bits wide. */
  const WRAP: nat := 0x1_0000_0000

  /** `prev` is the last element of a chain, or `none` if it is empty. */
  predicate LastOf(chain: seq<nat>, prev: int, none: int) {
    prev == if chain == [] then none else chain[|chain| - 1]
  }

  /** Following `next` from `from` visits exactly `chain` and then arrives at `to`. */
  predicate Seg(next: seq<int>, from: int, chain: seq<nat>, to: int)
    decreases |chain|
  {
    if chain == [] then from == to
    else from == chain[0] && chain[0] < |next| && Seg(next, next[chain[0]], chain[1..], to)
  }

  /** Links outside a chain do not matter to it. */
  lemma {:induction false} SegFrame(next: seq<int>, other: seq<int>, from: int, chain: seq<nat>, to: int)
    requires Seg(next, from, chain, to) && forall x :: x in chain && x < |next| ==> x < |other| && other[x] == next[x]
    ensures Seg(other, from, chain, to)
    decreases |chain|
  {
    if chain != [] {
      assert chain[0] in chain && forall x :: x in chain[1..] ==> x in chain;
      SegFrame(next, other, next[chain[0]], chain[1..], to);
    }
  }

  lemma {:induction false} SegJoin(next: seq<int>, from: int, a: seq<nat>, mid: int, b: seq<nat>, to: int)
    requires Seg(next, from, a, mid) && Seg(next, mid, b, to)
    ensures Seg(next, from, a + b, to)
    decreases |a|
  {
    if a == [] {
      assert a + b == b;
    } else {
      SegJoin(next, next[a[0]], a[1..], mid, b, to);
      assert (a + b)[1..] == a[1..] + b;
    }
  }

  /** Redirecting the last link of a chain redirects the chain. */
  lemma {:induction false} SegRelink(next: seq<int>, from: int, chain: seq<nat>, to: int, dest: int)
    requires Seg(next, from, chain, to) && chain != [] && NoDup(chain)
    ensures chain[|chain| - 1] < |next| && Seg(next[chain[|chain| - 1] := dest], from, chain, dest)
    decreases |chain|
  {
    if |chain| > 1 {
      SegRelink(next, next[chain[0]], chain[1..], to, dest);
      assert chain[0] != chain[|chain| - 1];
    }
  }

  lemma NoDupParts<T>(a: seq<T>, b: seq<T>)
    requires NoDup(a + b)
    ensures NoDup(a) && NoDup(b) && forall x :: x in a ==> x !in b
  {
    forall i, j | 0 <= i < |a| && 0 <= j < |b|
      ensures a[i] != b[j]
    {
      assert (a + b)[i] != (a + b)[|a| + j];
    }
    forall i, j | 0 <= i < j < |a|
      ensures a[i] != a[j]
    {
      assert (a + b)[i] != (a + b)[j];
    }
    forall i, j | 0 <= i < j < |b|
      ensures b[i] != b[j]
    {
      assert (a + b)[|a| + i] != (a + b)[|a| + j];
    }
  }

  lemma NoDupJoin<T>(a: seq<T>, b: seq<T>)
    requires NoDup(a) && NoDup(b) && forall x :: x in a ==> x !in b
    ensures NoDup(a + b)
  {
    forall i, j | 0 <= i < j < |a + b|
      ensures (a + b)[i] != (a + b)[j]
    {
      if i < |a| <= j {
        assert a[i] in a && b[j - |a|] in b;
      }
    }
  }

  /** Distinct indices below `n` are at most `n`: a free list never outgrows the array it serves. */
  lemma {:induction false} NoDupBound(s: seq<nat>, n: nat)
    requires NoDup(s) && forall x :: x in s ==> x < n
    ensures |s| <= n
    decreases n
  {
    if s == [] {
    } else if n > 0 && n - 1 in s {
      var k :| 0 <= k < |s| && s[k] == n - 1;
      var rest := s[..k] + s[k + 1..];
      forall x | x in rest
        ensures x < n - 1
      {
        assert x in s;
      }
      NoDupBound(rest, n - 1);
    } else {
      assert s[0] in s;
      NoDupBound(s, n - 1);
    }
  }

  /** A chain that ends in `to` is extended by an element that does, by a link from its last one. */
  lemma SegExtend(next: seq<int>, from: int, chain: seq<nat>, to: int, x: nat)
    requires Seg(next, from, chain, to) && NoDup(chain) && chain != [] && x !in chain && x < |next| && next[x] == to
    ensures chain[|chain| - 1] < |next| && Seg(next[chain[|chain| - 1] := x], from, chain + [x], to)
  {
    SegRelink(next, from, chain, to, x);
    var linked := next[chain[|chain| - 1] := x];
    assert chain[|chain| - 1] in chain;
    assert Seg(linked, x, [x], to);
    SegJoin(linked, from, chain, x, [x], to);
  }
}
