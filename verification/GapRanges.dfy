/** The ranges of missing items that a node asks its peers for. */
module GapRanges {
  datatype Range = Range(lo: nat, hi: nat)

  /** Slot `i` is missing. */
  type Missing = nat -> bool

  predicate Covers(rs: seq<Range>, i: nat) {
    exists k :: 0 <= k < |rs| && rs[k].lo <= i < rs[k].hi
  }

  /** No two filled slots in a row. */
  predicate NoPair(f: Missing, lo: nat, hi: nat) {
    forall i: nat, j: nat :: lo <= i && j == i + 1 && j < hi ==> f(i) || f(j)
  }

  /** A range starts and ends on a missing slot and nowhere skips two filled ones in a row. */
  predicate Tight(n: nat, f: Missing, r: Range) {
    r.lo < r.hi <= n && f(r.lo) && f(r.hi - 1) && NoPair(f, r.lo, r.hi)
  }

  /** The ranges are in order with at least two slots between them. */
  predicate Apart(rs: seq<Range>) {
    forall j, k :: 0 <= j < k < |rs| ==> rs[j].hi + 2 <= rs[k].lo
  }

  /** What the source wants: every missing slot is asked for, with as few ranges as the two-slot rule allows. */
  ghost predicate Asks(n: nat, f: Missing, rs: seq<Range>) {
    && (forall k :: 0 <= k < |rs| ==> Tight(n, f, rs[k]))
    && Apart(rs)
    && (forall i: nat :: i < n && f(i) ==> Covers(rs, i))
  }

  /** Before slot `i`: closed ranges, and an open one with at most one filled slot behind it. */
  ghost predicate Scanned(n: nat, f: Missing, i: nat, rs: seq<Range>, open: Range, filled: nat) {
    && i <= n && (forall k :: 0 <= k < |rs| ==> Tight(n, f, rs[k])) && Apart(rs)
    && (forall k :: 0 <= k < |rs| ==> rs[k].hi + 2 <= open.lo)
    && open.lo <= open.hi <= i
    && (open.lo == open.hi ==> open.lo == i && filled == 0)
    && (open.lo < open.hi ==> Tight(n, f, open) && filled <= 1 && open.hi + filled == i && (filled == 1 ==> !f(i - 1)))
    && (forall x: nat :: x < i && f(x) ==> Covers(rs, x) || open.lo <= x < open.hi)
  }

  lemma CoversMore(rs: seq<Range>, r: Range)
    ensures forall x: nat :: Covers(rs, x) || r.lo <= x < r.hi ==> Covers(rs + [r], x)
  {
    forall x: nat | Covers(rs, x) || r.lo <= x < r.hi
      ensures Covers(rs + [r], x)
    {
      if r.lo <= x < r.hi {
        assert (rs + [r])[|rs|] == r;
      } else {
        var k :| 0 <= k < |rs| && rs[k].lo <= x < rs[k].hi;
        assert (rs + [r])[k] == rs[k];
      }
    }
  }

  /** The open range is closed. */
  lemma PushRange(n: nat, f: Missing, i: nat, rs: seq<Range>, open: Range, filled: nat)
    requires Scanned(n, f, i, rs, open, filled) && open.lo < open.hi
    ensures (forall k :: 0 <= k < |rs + [open]| ==> Tight(n, f, (rs + [open])[k])) && Apart(rs + [open])
    ensures forall x: nat :: x < i && f(x) ==> Covers(rs + [open], x)
  {
    hide Tight, Covers;
    CoversMore(rs, open);
  }

  /** A missing slot opens a range, or extends the open one over at most one filled slot. */
  lemma TakeMissing(n: nat, f: Missing, i: nat, rs: seq<Range>, open: Range, filled: nat)
    requires Scanned(n, f, i, rs, open, filled) && i < n && f(i)
    ensures Scanned(n, f, i + 1, rs, open.(hi := i + 1), 0)
  {
    hide Covers;
    assert Tight(n, f, open.(hi := i + 1)) by {
      if open.lo < open.hi {
        assert NoPair(f, open.lo, open.hi);
      }
    }
  }

  /** A filled slot is passed over. */
  lemma TakeFilled(n: nat, f: Missing, i: nat, rs: seq<Range>, open: Range, filled: nat)
    requires Scanned(n, f, i, rs, open, filled) && i < n && !f(i)
    ensures open.lo == open.hi ==> Scanned(n, f, i + 1, rs, Range(i + 1, i + 1), filled)
    ensures open.lo != open.hi && filled == 0 ==> Scanned(n, f, i + 1, rs, open, 1)
    ensures open.lo != open.hi && filled == 1 ==> Scanned(n, f, i + 1, rs + [open], Range(i + 1, i + 1), 0)
  {
    hide Covers, Tight;
    if open.lo != open.hi {
      PushRange(n, f, i, rs, open, filled);
    }
  }

  /** `gen_mostly_empty_rngs`. */
  method GenMostlyEmptyRanges(n: nat, f: Missing) returns (rs: seq<Range>)
    ensures Asks(n, f, rs)
  {
    hide Covers, Tight;
    rs := [];
    var filled, open := 0, Range(0, 0);
    for i := 0 to n
      invariant Scanned(n, f, i, rs, open, filled)
    {
      if f(i) {
        TakeMissing(n, f, i, rs, open, filled);
        open := open.(hi := i + 1);
        filled := 0;
      } else {
        TakeFilled(n, f, i, rs, open, filled);
        if open.lo == open.hi {
          open := Range(i + 1, i + 1);
        } else {
          filled := filled + 1;
          if filled > 1 {
            rs := rs + [open];
            filled := 0;
            open := Range(i + 1, i + 1);
          }
        }
      }
    }
    if open.lo != open.hi {
      PushRange(n, f, n, rs, open, filled);
      rs := rs + [open];
    }
  }

  // There is only one such list ------------------------------------------------------------------

  /** The slot is missing, or is the single filled one between two missing. */
  predicate Bridged(n: nat, f: Missing, i: nat) {
    i < n && (f(i) || (0 < i && i + 1 < n && f(i - 1) && f(i + 1)))
  }

  /** Which slots are asked for does not depend on the list. */
  lemma CoverIsBridged(n: nat, f: Missing, rs: seq<Range>, i: nat)
    requires Asks(n, f, rs)
    ensures Covers(rs, i) <==> Bridged(n, f, i)
  {
    if Covers(rs, i) {
      InsideIsBridged(n, f, rs, i);
    } else if Bridged(n, f, i) && !f(i) {
      BridgeIsInside(n, f, rs, i);
    }
  }

  lemma InsideIsBridged(n: nat, f: Missing, rs: seq<Range>, i: nat)
    requires (forall k :: 0 <= k < |rs| ==> Tight(n, f, rs[k])) && Covers(rs, i)
    ensures Bridged(n, f, i)
  {
    hide Tight;
    var k :| 0 <= k < |rs| && rs[k].lo <= i < rs[k].hi;
    TightIsBridged(n, f, rs[k], i);
  }

  lemma TightIsBridged(n: nat, f: Missing, r: Range, i: nat)
    requires Tight(n, f, r) && r.lo <= i < r.hi
    ensures Bridged(n, f, i)
  {
    if !f(i) {
      assert f(i - 1) && f(i + 1);
    }
  }

  lemma BridgeIsInside(n: nat, f: Missing, rs: seq<Range>, i: nat)
    requires Asks(n, f, rs) && Bridged(n, f, i) && !f(i)
    ensures Covers(rs, i)
  {
    hide Tight;
    assert Covers(rs, i - 1) && Covers(rs, i + 1);
    var j :| 0 <= j < |rs| && rs[j].lo <= i - 1 < rs[j].hi;
    var k :| 0 <= k < |rs| && rs[k].lo <= i + 1 < rs[k].hi;
    assert j == k;
  }

  predicate Proper(rs: seq<Range>) {
    Apart(rs) && forall k :: 0 <= k < |rs| ==> rs[k].lo < rs[k].hi
  }

  lemma CoversAt(rs: seq<Range>, k: nat, i: nat)
    requires k < |rs| && rs[k].lo <= i < rs[k].hi
    ensures Covers(rs, i)
  {
  }

  /** The last range ends at the last covered slot. */
  lemma LastEnd(a: seq<Range>, b: seq<Range>)
    requires a != [] && b != [] && Proper(a) && Proper(b) && forall i: nat :: Covers(a, i) <==> Covers(b, i)
    ensures b[|b| - 1].hi <= a[|a| - 1].hi
  {
    CoversAt(b, |b| - 1, b[|b| - 1].hi - 1);
    var k :| 0 <= k < |a| && a[k].lo <= b[|b| - 1].hi - 1 < a[k].hi;
    assert k < |a| - 1 ==> a[k].hi + 2 <= a[|a| - 1].lo;
  }

  /** And starts where the coverage does: the slot in front of a range is never covered. */
  lemma LastStart(a: seq<Range>, b: seq<Range>)
    requires a != [] && b != [] && Proper(a) && Proper(b) && forall i: nat :: Covers(a, i) <==> Covers(b, i)
    requires a[|a| - 1].hi == b[|b| - 1].hi
    ensures b[|b| - 1].lo <= a[|a| - 1].lo
  {
    var x, y := a[|a| - 1], b[|b| - 1];
    LastCovers(a);
    if y.lo > 0 {
      InFrontIsFree(b);
    }
  }

  lemma LastCovers(rs: seq<Range>)
    requires rs != []
    ensures forall i: nat :: rs[|rs| - 1].lo <= i < rs[|rs| - 1].hi ==> Covers(rs, i)
  {
  }

  lemma InFrontIsFree(rs: seq<Range>)
    requires rs != [] && Proper(rs) && rs[|rs| - 1].lo > 0
    ensures !Covers(rs, rs[|rs| - 1].lo - 1)
  {
    forall k | 0 <= k < |rs|
      ensures !(rs[k].lo <= rs[|rs| - 1].lo - 1 < rs[k].hi)
    {
      assert k < |rs| - 1 ==> rs[k].hi + 2 <= rs[|rs| - 1].lo;
    }
  }

  lemma CoversLess(rs: seq<Range>, i: nat)
    requires rs != [] && Proper(rs)
    ensures Covers(rs[..|rs| - 1], i) <==> Covers(rs, i) && i < rs[|rs| - 1].lo
  {
    var n := |rs| - 1;
    if Covers(rs[..n], i) {
      var k :| 0 <= k < n && rs[..n][k].lo <= i < rs[..n][k].hi;
      CoversAt(rs, k, i);
      assert rs[k].hi + 2 <= rs[n].lo;
    }
    if Covers(rs, i) && i < rs[n].lo {
      var k :| 0 <= k < |rs| && rs[k].lo <= i < rs[k].hi;
      CoversAt(rs[..n], k, i);
    }
  }

  lemma {:induction false} SameCoverage(a: seq<Range>, b: seq<Range>)
    requires Proper(a) && Proper(b) && forall i: nat :: Covers(a, i) <==> Covers(b, i)
    ensures a == b
  {
    if a != [] {
      CoversAt(a, 0, a[0].lo);
    }
    if b != [] {
      CoversAt(b, 0, b[0].lo);
    }
    if a != [] && b != [] {
      LastEnd(a, b);
      LastEnd(b, a);
      LastStart(a, b);
      LastStart(b, a);
      var x, y := |a| - 1, |b| - 1;
      forall i: nat
        ensures Covers(a[..x], i) <==> Covers(b[..y], i)
      {
        CoversLess(a, i);
        CoversLess(b, i);
      }
      SameCoverage(a[..x], b[..y]);
      assert a == a[..x] + [a[x]] && b == b[..y] + [b[y]];
    }
  }

  /** The answer is unique, so the loop computes the answer. */
  lemma OnlyOneAnswer(n: nat, f: Missing, a: seq<Range>, b: seq<Range>)
    requires Asks(n, f, a) && Asks(n, f, b)
    ensures a == b
  {
    hide Covers, NoPair;
    forall i: nat
      ensures Covers(a, i) <==> Covers(b, i)
    {
      CoverIsBridged(n, f, a, i);
      CoverIsBridged(n, f, b, i);
    }
    assert forall k :: 0 <= k < |a| ==> Tight(n, f, a[k]);
    assert forall k :: 0 <= k < |b| ==> Tight(n, f, b[k]);
    SameCoverage(a, b);
  }
}
