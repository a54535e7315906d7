/**
 * Clay's distribution of free space among the children of a container: compressing the largest
 * first, or growing the smallest first. Sizes are real numbers; rounding is not modelled.
 */
module Distribution {
  import opened Chains

  const EPS: real := 0.01
  const MAXFLOAT: real := 340282346638528859811704183484516925440.0

  predicate Near(a: real, b: real) {
    a - b < EPS && a - b > -EPS
  }

  function Sum(s: seq<real>): real {
    if s == [] then 0.0 else Sum(s[..|s| - 1]) + s[|s| - 1]
  }

  lemma {:induction false} SumUpdate(s: seq<real>, i: nat, v: real)
    requires i < |s|
    ensures Sum(s[i := v]) == Sum(s) - s[i] + v
  {
    var n := |s| - 1;
    if i == n {
      assert s[i := v][..n] == s[..n];
    } else {
      assert s[i := v][..n] == s[..n][i := v];
      SumUpdate(s[..n], i, v);
    }
  }

  /** `_RemoveSwapback`: the last element takes the place of the removed one. */
  function RemoveSwapback(s: seq<nat>, i: nat): (r: seq<nat>)
    requires i < |s|
    ensures |r| == |s| - 1
  {
    s[i := s[|s| - 1]][..|s| - 1]
  }

  lemma SwapbackParts(s: seq<nat>, i: nat)
    requires i < |s| && NoDup(s)
    ensures var r := RemoveSwapback(s, i);
      && NoDup(r) && r[..i] == s[..i] && (forall x :: x in r <==> x in s && x != s[i])
      && (forall x :: x in r[i..] <==> x in s[i..] && x != s[i])
  {
    var r, n := RemoveSwapback(s, i), |s| - 1;
    forall x | x in s && x != s[i]
      ensures x in r
    {
      var k :| 0 <= k < |s| && s[k] == x;
      assert if k == n then r[i] == x else r[k] == x;
    }
    forall x | x in s[i..] && x != s[i]
      ensures x in r[i..]
    {
      var k :| i <= k < |s| && s[k] == x;
      assert if k == n then r[i..][0] == x else r[i..][k - i] == x;
    }
    forall x | x in r[i..]
      ensures x in s[i..] && x != s[i]
    {
      var k :| i <= k < |r| && r[k] == x;
      assert if k == i then s[i..][n - i] == x else s[i..][k - i] == x;
    }
  }

  // One direction or the other -------------------------------------------------------------------

  /** Amounts counted in the direction of the change: positive where space is given, negative where it is taken. */
  function Along(up: bool, x: real): real {
    if up then x else -x
  }

  /** `c` is further from the bound than `best`: smaller when growing, larger when compressing. */
  predicate Further(up: bool, c: real, best: real) {
    if up then c < best else c > best
  }

  predicate Reached(up: bool, size: real, bound: real) {
    if up then size >= bound else size <= bound
  }

  /** A child's new size: `add` towards the bound, but not beyond it. */
  function Moved(up: bool, size: real, bound: real, add: real): real {
    if Reached(up, size + add, bound) then bound else size + add
  }

  function Worst(up: bool): real {
    if up then MAXFLOAT else 0.0
  }

  /**
   * Every child of the buffer exists, is on the near side of its bound, and lies in the range that
   * the scan assumes.
   */
  predicate Ready(up: bool, sizes: seq<real>, bounds: seq<real>, buffer: seq<nat>) {
    && |bounds| == |sizes| && NoDup(buffer)
    && forall x :: x in buffer ==>
         && x < |sizes| && Along(up, sizes[x]) <= Along(up, bounds[x])
         && Along(up, bounds[x]) <= Along(up, Worst(up)) && Along(up, sizes[x]) <= Along(up, Worst(up))
  }

  // The scan --------------------------------------------------------------------------------------

  /** The size furthest from the bounds, the next one, and the step. */
  datatype Found = Found(best: real, second: real, add: real)

  /** One child of the scan; the step is only renewed by a child that is not the new best. */
  function Look(up: bool, f: Found, c: real): Found {
    if Near(c, f.best) then f
    else if Further(up, c, f.best) then Found(c, f.best, f.add)
    else
      var second := if Further(up, f.second, c) then f.second else c;
      Found(f.best, second, second - f.best)
  }

  function ScanOf(up: bool, cs: seq<real>, rem: real): Found {
    if cs == [] then Found(Worst(up), Worst(up), rem) else Look(up, ScanOf(up, cs[..|cs| - 1], rem), cs[|cs| - 1])
  }

  /** Where the scan found its best size; -1 if no child is away from the worst one. */
  function Turning(up: bool, cs: seq<real>, rem: real): (t: int)
    ensures -1 <= t < |cs|
  {
    if cs == [] then -1
    else
      var n := |cs| - 1;
      var f := ScanOf(up, cs[..n], rem);
      if !Near(cs[n], f.best) && Further(up, cs[n], f.best) then n else Turning(up, cs[..n], rem)
  }

  /** Some child that comes after the best one is away from it. */
  ghost predicate Fresh(up: bool, cs: seq<real>, rem: real) {
    exists j :: Turning(up, cs, rem) < j < |cs| && !Near(cs[j], ScanOf(up, cs, rem).best)
  }

  /** The step that the scan had when it came upon its best size. */
  function Stale(up: bool, cs: seq<real>, rem: real): real {
    var t := Turning(up, cs, rem);
    if t < 0 then rem else ScanOf(up, cs[..t], rem).add
  }

  /** The step is the distance to the second size if it is fresh, and otherwise left over from before the best size. */
  lemma {:induction false} ScanStep(up: bool, cs: seq<real>, rem: real)
    ensures var f, t := ScanOf(up, cs, rem), Turning(up, cs, rem);
      && f.best == (if t < 0 then Worst(up) else cs[t])
      && (Fresh(up, cs, rem) ==> f.add == f.second - f.best)
      && (!Fresh(up, cs, rem) ==>
        f.add == Stale(up, cs, rem) && f.second == if t < 0 then Worst(up) else ScanOf(up, cs[..t], rem).best)
  {
    if cs != [] {
      var n := |cs| - 1;
      var before, f, g := cs[..n], ScanOf(up, cs, rem), ScanOf(up, cs[..n], rem);
      ScanStep(up, before, rem);
      if Turning(up, cs, rem) < n {
        var t := Turning(up, before, rem);
        assert f.best == g.best;
        if t >= 0 {
          assert before[..t] == cs[..t];
        }
        if Near(cs[n], g.best) {
          assert Fresh(up, cs, rem) <==> Fresh(up, before, rem) by {
            assert forall j :: 0 <= j < n ==> before[j] == cs[j];
          }
        } else {
          assert Fresh(up, cs, rem) by { assert !Near(cs[n], f.best); }
        }
      }
    }
  }

  /** The step is the distance to the second size exactly if it is fresh or what is left over happens to equal it. */
  lemma StepIsDistance(up: bool, cs: seq<real>, rem: real)
    ensures var f := ScanOf(up, cs, rem);
      f.add == f.second - f.best <==> Fresh(up, cs, rem) || Stale(up, cs, rem) == f.second - f.best
  {
    hide ScanOf, Turning, Fresh, Stale;
    ScanStep(up, cs, rem);
  }

  /**
   * A round takes the best child past the second size exactly if the step is stale and longer than the
   * distance, and an equal share of the remainder is longer, too.
   */
  lemma OvertakesExactly(up: bool, cs: seq<real>, rem: real)
    requires cs != []
    ensures var f := ScanOf(up, cs, rem); var distance := Along(up, f.second - f.best);
      Along(up, f.best + Share(up, f.add, rem, |cs|)) > Along(up, f.second) <==>
      && !Fresh(up, cs, rem) && Along(up, Stale(up, cs, rem)) > distance && Along(up, rem / (|cs| as real)) > distance
  {
    hide ScanOf, Turning, Fresh, Stale;
    ScanStep(up, cs, rem);
  }

  /** Growing 5, 10 and 1 by 15: the step is still the distance from 5 to 10, and 1 becomes 6. */
  lemma StaleStep(rem: real)
    requires rem >= 15.0
    ensures var f := ScanOf(true, [5.0, 10.0, 1.0], rem);
      f == Found(1.0, 5.0, 5.0) && f.best + Share(true, f.add, rem, 3) > f.second
  {
    var cs := [5.0, 10.0, 1.0];
    assert cs[..2] == [5.0, 10.0] && [5.0, 10.0][..1] == [5.0] && [5.0][..0] == [];
    assert ScanOf(true, [5.0], rem) == Found(5.0, MAXFLOAT, rem);
    assert ScanOf(true, [5.0, 10.0], rem) == Found(5.0, 10.0, 5.0);
  }

  /** Sizes in the range that the scan assumes. */
  predicate InReach(up: bool, cs: seq<real>) {
    forall k :: 0 <= k < |cs| ==> Along(up, cs[k]) <= Along(up, Worst(up))
  }

  /** The best size is a child's, up to epsilon, and no child is far beyond it; the step is at least epsilon. */
  lemma {:induction false} BestIsFurthest(up: bool, cs: seq<real>, rem: real)
    requires InReach(up, cs) && Along(up, rem) >= EPS
    ensures var f := ScanOf(up, cs, rem);
      && Along(up, f.add) >= EPS && Along(up, f.best) <= Along(up, Worst(up))
      && (f.best == f.second == Worst(up) || Along(up, f.second) >= Along(up, f.best) + EPS)
      && (cs != [] ==> exists k :: 0 <= k < |cs| && Near(cs[k], f.best))
      && (forall k :: 0 <= k < |cs| ==> Along(up, cs[k]) > Along(up, f.best) - EPS)
  {
    if cs != [] {
      var n := |cs| - 1;
      var f, g := ScanOf(up, cs, rem), ScanOf(up, cs[..n], rem);
      BestIsFurthest(up, cs[..n], rem);
      assert forall k :: 0 <= k < n ==> cs[..n][k] == cs[k];
      if Near(cs[n], f.best) {
      } else {
        assert n > 0 && f.best == g.best;
        var k :| 0 <= k < n && Near(cs[..n][k], g.best);
        assert Near(cs[k], f.best);
      }
    }
  }

  /** The second size is a child's, or the worst one, and no child away from the best is far short of it. */
  lemma {:induction false} SecondIsNext(up: bool, cs: seq<real>, rem: real)
    requires InReach(up, cs) && Along(up, rem) >= EPS
    ensures var f := ScanOf(up, cs, rem);
      && (f.second == Worst(up) || f.second in cs)
      && (forall k :: 0 <= k < |cs| ==> Near(cs[k], f.best) || Along(up, cs[k]) > Along(up, f.second) - EPS)
  {
    if cs != [] {
      var n := |cs| - 1;
      SecondIsNext(up, cs[..n], rem);
      ScanStep(up, cs[..n], rem);
      BestIsFurthest(up, cs[..n], rem);
      assert forall k :: 0 <= k < n ==> cs[..n][k] == cs[k];
    }
  }

  /** The sizes of the children in the buffer. */
  function Picked(sizes: seq<real>, buffer: seq<nat>): seq<real>
    requires forall x :: x in buffer ==> x < |sizes|
  {
    seq(|buffer|, i requires 0 <= i < |buffer| => assert buffer[i] in buffer; sizes[buffer[i]])
  }

  /** The scan finds a size that some child has, that none is far beyond, and a step of at least epsilon. */
  method Scan(up: bool, sizes: array<real>, ghost bounds: seq<real>, buffer: seq<nat>, rem: real)
    returns (best: real, second: real, add: real)
    requires Ready(up, sizes[..], bounds, buffer) && buffer != [] && Along(up, rem) > EPS
    ensures Along(up, add) >= EPS && Along(up, best) <= Along(up, Worst(up))
    ensures exists x :: x in buffer && Near(sizes[x], best)
    ensures forall x :: x in buffer ==> Along(up, sizes[x]) > Along(up, best) - EPS
    ensures Found(best, second, add) == ScanOf(up, Picked(sizes[..], buffer), rem)
  {
    ghost var cs := Picked(sizes[..], buffer);
    best, second, add := Worst(up), Worst(up), rem;
    for i := 0 to |buffer|
      invariant Found(best, second, add) == ScanOf(up, cs[..i], rem)
    {
      assert buffer[i] in buffer;
      var c := sizes[buffer[i]];
      assert cs[..i + 1][..i] == cs[..i] && cs[i] == c;
      if Near(c, best) {
        continue;
      }
      if Further(up, c, best) {
        second := best;
        best := c;
      }
      if Further(up, best, c) {
        second := if up then (if second < c then second else c) else (if second > c then second else c);
        add := second - best;
      }
    }
    assert cs[..|buffer|] == cs;
    PickedInReach(up, sizes[..], bounds, buffer);
    BestIsFurthest(up, cs, rem);
    PickedAll(up, sizes[..], buffer, best);
  }

  lemma PickedInReach(up: bool, sizes: seq<real>, bounds: seq<real>, buffer: seq<nat>)
    requires Ready(up, sizes, bounds, buffer)
    ensures InReach(up, Picked(sizes, buffer))
  {
    assert forall k :: 0 <= k < |buffer| ==> buffer[k] in buffer;
  }

  lemma PickedAll(up: bool, sizes: seq<real>, buffer: seq<nat>, best: real)
    requires forall x :: x in buffer ==> x < |sizes|
    requires var cs := Picked(sizes, buffer);
      && (exists k :: 0 <= k < |cs| && Near(cs[k], best)) && (forall k :: 0 <= k < |cs| ==>
        Along(up, cs[k]) > Along(up, best) - EPS)
    ensures exists x :: x in buffer && Near(sizes[x], best)
    ensures forall x :: x in buffer ==> Along(up, sizes[x]) > Along(up, best) - EPS
  {
    var cs := Picked(sizes, buffer);
    var k :| 0 <= k < |cs| && Near(cs[k], best);
    assert buffer[k] in buffer && Near(sizes[buffer[k]], best);
    forall x | x in buffer
      ensures Along(up, sizes[x]) > Along(up, best) - EPS
    {
      var j :| 0 <= j < |buffer| && buffer[j] == x;
      assert cs[j] == sizes[x];
    }
  }

  // One pass -------------------------------------------------------------------------------------

  /** What a pass makes of a child's size. */
  function Passed(up: bool, size: real, bound: real, best: real, add: real): real {
    if Near(size, best) then Moved(up, size, bound, add) else size
  }

  /** The pass takes the child out of the buffer. */
  predicate Leaves(up: bool, size: real, bound: real, best: real, add: real) {
    Near(size, best) && Reached(up, size + add, bound)
  }

  /** How far a pass has come: `kept` of the buffer `b` and all of `gone` are visited, the rest of `b` is not. */
  ghost predicate Halfway(up: bool, was: seq<real>, now: seq<real>, bounds: seq<real>, all: seq<nat>, b: seq<nat>,
                          kept: nat, gone: seq<nat>, best: real, add: real)
    requires |was| == |now| == |bounds| && forall x :: x in all ==> x < |was|
  {
    && kept <= |b| && NoDup(b) && |b| + |gone| == |all|
    && (forall x :: x in all <==> x in b || x in gone) && (forall x :: x in b ==> x !in gone)
    && (forall x :: 0 <= x < |was| && x !in all ==> now[x] == was[x])
    && (forall x :: x in b[kept..] ==> x in all && now[x] == was[x])
    && (forall x :: x in b[..kept] ==>
      x in all && now[x] == Passed(up, was[x], bounds[x], best, add) && !Leaves(up, was[x], bounds[x], best, add))
    && (forall x :: x in gone ==>
      x in all && now[x] == Passed(up, was[x], bounds[x], best, add) && Leaves(up, was[x], bounds[x], best, add))
  }

  /** The child at `kept` is visited and stays. */
  lemma VisitKept(up: bool, was: seq<real>, now: seq<real>, bounds: seq<real>, all: seq<nat>, b: seq<nat>, kept: nat,
                  gone: seq<nat>, best: real, add: real, v: real)
    requires |was| == |now| == |bounds| && forall x :: x in all ==> x < |was|
    requires Halfway(up, was, now, bounds, all, b, kept, gone, best, add) && kept < |b|
    ensures b[kept] < |was|
    ensures (&& v == Passed(up, was[b[kept]], bounds[b[kept]], best, add)
             && !Leaves(up, was[b[kept]], bounds[b[kept]], best, add)) ==>
      Halfway(up, was, now[b[kept] := v], bounds, all, b, kept + 1, gone, best, add)
  {
    assert b[kept] in b && b[kept] in b[kept..];
    assert b[..kept + 1] == b[..kept] + [b[kept]] && b[kept..] == [b[kept]] + b[kept + 1..];
    assert b == b[..kept] + b[kept..];
    NoDupParts(b[..kept], b[kept..]);
    NoDupParts([b[kept]], b[kept + 1..]);
    assert b[kept] in [b[kept]];
    assert forall x :: x in b[kept + 1..] ==> x in b[kept..];
  }

  /** The child at `kept` is visited and leaves; the last child takes its place and is still to come. */
  lemma VisitGone(up: bool, was: seq<real>, now: seq<real>, bounds: seq<real>, all: seq<nat>, b: seq<nat>, kept: nat,
                  gone: seq<nat>, best: real, add: real, v: real)
    requires |was| == |now| == |bounds| && forall x :: x in all ==> x < |was|
    requires Halfway(up, was, now, bounds, all, b, kept, gone, best, add) && kept < |b|
    ensures b[kept] < |was|
    ensures (&& v == Passed(up, was[b[kept]], bounds[b[kept]], best, add)
             && Leaves(up, was[b[kept]], bounds[b[kept]], best, add)) ==>
      Halfway(up, was, now[b[kept] := v], bounds, all, RemoveSwapback(b, kept), kept, gone + [b[kept]], best, add)
  {
    assert b[kept] in b && b[kept] in b[kept..];
    SwapbackParts(b, kept);
    assert b == b[..kept] + b[kept..];
    NoDupParts(b[..kept], b[kept..]);
    assert b[kept] in [b[kept]];
  }

  /**
   * Bookkeeping of a pass: total size plus remainder is constant, and each visit moves the
   * remainder by at most a step.
   */
  ghost predicate Balanced(up: bool, was: seq<real>, now: seq<real>, rem0: real, rem: real, add: real, visits: nat,
                           moved: bool) {
    && rem + Sum(now) == rem0 + Sum(was)
    && Along(up, rem0) - visits as real * Along(up, add) <= Along(up, rem) <= Along(up, rem0)
    && (moved ==> Along(up, rem) <= Along(up, rem0) - Along(up, add))
  }

  lemma BalanceStep(up: bool, was: seq<real>, now: seq<real>, rem0: real, rem: real, add: real, visits: nat,
                    moved: bool, x: nat, v: real, full: bool)
    requires Balanced(up, was, now, rem0, rem, add, visits, moved) && x < |now| && Along(up, add) >= 0.0
    requires 0.0 <= Along(up, v - now[x]) <= Along(up, add) && (full ==> v == now[x] + add)
    ensures Balanced(up, was, now[x := v], rem0, rem - (v - now[x]), add, visits + 1, moved || full)
  {
    SumUpdate(now, x, v);
    assert (visits + 1) as real * Along(up, add) == visits as real * Along(up, add) + Along(up, add);
  }

  lemma BalanceSkip(up: bool, was: seq<real>, now: seq<real>, rem0: real, rem: real, add: real, visits: nat,
                    moved: bool)
    requires Balanced(up, was, now, rem0, rem, add, visits, moved) && Along(up, add) >= 0.0
    ensures Balanced(up, was, now, rem0, rem, add, visits + 1, moved)
  {
    assert (visits + 1) as real * Along(up, add) == visits as real * Along(up, add) + Along(up, add);
  }

  /** What a whole pass does: every child is visited once, and exactly those that reach their bound leave. */
  ghost predicate PassDone(up: bool, was: seq<real>, now: seq<real>, bounds: seq<real>, all: seq<nat>, b: seq<nat>,
                           best: real, add: real)
    requires |was| == |now| == |bounds| && forall x :: x in all ==> x < |was|
  {
    && NoDup(b) && |b| <= |all|
    && (forall x :: 0 <= x < |was| ==> now[x] == if x in all then Passed(up, was[x], bounds[x], best, add) else was[x])
    && (forall x :: x in b <==> x in all && !Leaves(up, was[x], bounds[x], best, add))
  }

  lemma PassEnds(up: bool, was: seq<real>, now: seq<real>, bounds: seq<real>, all: seq<nat>, b: seq<nat>,
                 gone: seq<nat>, best: real, add: real)
    requires |was| == |now| == |bounds| && forall x :: x in all ==> x < |was|
    requires Halfway(up, was, now, bounds, all, b, |b|, gone, best, add)
    ensures PassDone(up, was, now, bounds, all, b, best, add)
  {
    assert b[..|b|] == b;
  }

  /** Everything that the loop of a pass maintains. */
  ghost predicate Passing(up: bool, was: seq<real>, now: seq<real>, bounds: seq<real>, all: seq<nat>, b: seq<nat>,
                          kept: nat, gone: seq<nat>,
                          best: real, add: real, rem0: real, rem: real, moved: bool)
    requires |was| == |now| == |bounds| && forall x :: x in all ==> x < |was|
  {
    && Halfway(up, was, now, bounds, all, b, kept, gone, best, add)
    && Balanced(up, was, now, rem0, rem, add, kept + |gone|, moved)
    && (moved || gone != [] || forall x :: x in b[..kept] ==> !Near(was[x], best))
  }

  /** The child that comes next has not been touched and is on the near side of its bound. */
  lemma NextChild(up: bool, was: seq<real>, now: seq<real>, bounds: seq<real>, all: seq<nat>, b: seq<nat>, kept: nat,
                  gone: seq<nat>,
                  best: real, add: real, rem0: real, rem: real, moved: bool)
    requires Ready(up, was, bounds, all) && |now| == |was|
    requires Passing(up, was, now, bounds, all, b, kept, gone, best, add, rem0, rem, moved) && kept < |b|
    ensures var x := b[kept]; x < |was| && now[x] == was[x] && Along(up, was[x]) <= Along(up, bounds[x])
  {
    assert b[kept] in b && b[kept] in b[kept..];
  }

  lemma PassGone(up: bool, was: seq<real>, now: seq<real>, bounds: seq<real>, all: seq<nat>, b: seq<nat>, kept: nat,
                 gone: seq<nat>,
                 best: real, add: real, rem0: real, rem: real, moved: bool)
    requires Ready(up, was, bounds, all) && |now| == |was| && Along(up, add) >= 0.0
    requires Passing(up, was, now, bounds, all, b, kept, gone, best, add, rem0, rem, moved) && kept < |b|
    requires b[kept] < |was| && now[b[kept]] == was[b[kept]] && Leaves(up, was[b[kept]], bounds[b[kept]], best, add)
    ensures var x := b[kept];
      Passing(up, was, now[x := bounds[x]], bounds, all, RemoveSwapback(b, kept), kept, gone + [x], best, add, rem0,
        rem - (bounds[x] - now[x]), moved)
  {
    hide Halfway, Balanced;
    var x := b[kept];
    NextChild(up, was, now, bounds, all, b, kept, gone, best, add, rem0, rem, moved);
    VisitGone(up, was, now, bounds, all, b, kept, gone, best, add, bounds[x]);
    BalanceStep(up, was, now, rem0, rem, add, kept + |gone|, moved, x, bounds[x], false);
  }

  lemma PassKept(up: bool, was: seq<real>, now: seq<real>, bounds: seq<real>, all: seq<nat>, b: seq<nat>, kept: nat,
                 gone: seq<nat>,
                 best: real, add: real, rem0: real, rem: real, moved: bool)
    requires Ready(up, was, bounds, all) && |now| == |was| && Along(up, add) >= 0.0
    requires Passing(up, was, now, bounds, all, b, kept, gone, best, add, rem0, rem, moved) && kept < |b|
    requires b[kept] < |was| && now[b[kept]] == was[b[kept]] && !Leaves(up, was[b[kept]], bounds[b[kept]], best, add)
    ensures var x := b[kept]; var v := Passed(up, was[x], bounds[x], best, add);
      Passing(up, was, now[x := v], bounds, all, b, kept + 1, gone, best, add, rem0, rem - (v - now[x]), moved
        || Near(was[x], best))
  {
    hide Halfway, Balanced;
    var x := b[kept];
    var v := Passed(up, was[x], bounds[x], best, add);
    NextChild(up, was, now, bounds, all, b, kept, gone, best, add, rem0, rem, moved);
    VisitKept(up, was, now, bounds, all, b, kept, gone, best, add, v);
    assert b[..kept + 1] == b[..kept] + [x];
    if Near(was[x], best) {
      BalanceStep(up, was, now, rem0, rem, add, kept + |gone|, moved, x, v, true);
    } else {
      BalanceSkip(up, was, now, rem0, rem, add, kept + |gone|, moved);
      assert now[x := v] == now;
    }
  }

  lemma PassStarts(up: bool, was: seq<real>, bounds: seq<real>, all: seq<nat>, best: real, add: real, rem0: real)
    requires Ready(up, was, bounds, all)
    ensures Passing(up, was, was, bounds, all, all, 0, [], best, add, rem0, rem0, false)
  {
    assert all[0..] == all;
  }

  lemma PassComplete(up: bool, was: seq<real>, now: seq<real>, bounds: seq<real>, all: seq<nat>, b: seq<nat>,
                     gone: seq<nat>,
                     best: real, add: real, rem0: real, rem: real, moved: bool)
    requires Ready(up, was, bounds, all) && |now| == |was| && exists x :: x in all && Near(was[x], best)
    requires Passing(up, was, now, bounds, all, b, |b|, gone, best, add, rem0, rem, moved)
    ensures PassDone(up, was, now, bounds, all, b, best, add)
    ensures Balanced(up, was, now, rem0, rem, add, |all|, |b| == |all|)
  {
    PassEnds(up, was, now, bounds, all, b, gone, best, add);
    assert b[..|b|] == b;
    if |b| == |all| {
      assert gone == [];
    }
  }

  /** The second loop of a round: the children at `best` move by `add`, and those at their bound leave the buffer. */
  method Pass(up: bool, sizes: array<real>, bounds: seq<real>, buffer: seq<nat>, best: real, add: real, rem0: real)
    returns (b: seq<nat>, rem: real)
    requires Ready(up, sizes[..], bounds, buffer) && Along(up, add) >= 0.0
    requires exists x :: x in buffer && Near(sizes[x], best)
    modifies sizes
    ensures PassDone(up, old(sizes[..]), sizes[..], bounds, buffer, b, best, add)
    ensures Balanced(up, old(sizes[..]), sizes[..], rem0, rem, add, |buffer|, |b| == |buffer|)
  {
    hide Passing, PassDone, Balanced, NoDup;
    ghost var was := sizes[..];
    ghost var gone: seq<nat>, moved := [], false;
    b, rem := buffer, rem0;
    PassStarts(up, was, bounds, buffer, best, add, rem0);
    var i := 0;
    while i < |b|
      invariant sizes.Length == |was| && i <= |b|
      invariant Passing(up, was, sizes[..], bounds, buffer, b, i, gone, best, add, rem0, rem, moved)
      decreases |b| - i
    {
      var x := b[i];
      ghost var now := sizes[..];
      NextChild(up, was, now, bounds, buffer, b, i, gone, best, add, rem0, rem, moved);
      var previous := sizes[x];
      if Near(previous, best) && Reached(up, previous + add, bounds[x]) {
        PassGone(up, was, now, bounds, buffer, b, i, gone, best, add, rem0, rem, moved);
        sizes[x] := bounds[x];
        b := RemoveSwapback(b, i);
        gone := gone + [x];
      } else {
        PassKept(up, was, now, bounds, buffer, b, i, gone, best, add, rem0, rem, moved);
        if Near(previous, best) {
          sizes[x] := previous + add;
          moved := true;
        }
        i := i + 1;
      }
      rem := rem - (sizes[x] - previous);
      assert sizes[..] == now[x := sizes[x]];
    }
    PassComplete(up, was, sizes[..], bounds, buffer, b, gone, best, add, rem0, rem, moved);
  }

  // The rounds -----------------------------------------------------------------------------------

  /** The remainder in units of epsilon shared among `n` children. */
  function Steps(r: real, n: nat): nat
    requires r >= 0.0
  {
    (r * n as real / EPS).Floor
  }

  lemma StepsDrop(r: real, r': real, n: nat, w: real)
    requires 0.0 <= r' <= r - w && w * n as real >= EPS
    ensures Steps(r', n) < Steps(r, n)
  {
    assert r' * n as real <= (r - w) * n as real;
    assert (r - w) * n as real == r * n as real - w * n as real;
    assert r' * n as real / EPS <= r * n as real / EPS - 1.0;
  }

  /** The step of a round: what the scan proposes, but no more than an equal share of the remainder. */
  function Share(up: bool, add: real, rem: real, n: nat): real
    requires n > 0
  {
    var equal := rem / n as real;
    if up then (if add < equal then add else equal) else (if add > equal then add else equal)
  }

  lemma ShareFits(up: bool, add: real, rem: real, n: nat)
    requires n > 0 && Along(up, add) >= EPS && Along(up, rem) > EPS
    ensures var w := Along(up, Share(up, add, rem, n));
      w > 0.0 && n as real * w <= Along(up, rem) && w * n as real >= EPS
  {
    var equal := rem / n as real;
    assert equal * n as real == rem;
    var w := Along(up, Share(up, add, rem, n));
    assert w <= Along(up, equal);
    assert n as real * w <= n as real * Along(up, equal);
    if w == Along(up, add) {
      assert w * n as real >= EPS * 1.0;
    }
  }

  /**
   * What the rounds keep: nobody crosses a bound or moves back, outsiders do not move, and who has
   * left is at the bound.
   */
  ghost predicate Spread(up: bool, was: seq<real>, now: seq<real>, bounds: seq<real>, all: seq<nat>, b: seq<nat>)
    requires |was| == |now| == |bounds| && forall x :: x in all ==> x < |was|
  {
    && (forall x :: x in b ==> x in all)
    && (forall x :: 0 <= x < |was| && x !in all ==> now[x] == was[x])
    && (forall x :: x in all ==> Along(up, was[x]) <= Along(up, now[x]) <= Along(up, bounds[x]))
    && (forall x :: x in all && x !in b ==> now[x] == bounds[x])
  }

  // The common level -----------------------------------------------------------------------------

  /** What a child lacks to the level. */
  function Lack(up: bool, size: real, level: real): real {
    if Along(up, size) < level then level - Along(up, size) else 0.0
  }

  /** What the first `n` children, as far as they are in the buffer, lack to the level. */
  ghost function Lacking(up: bool, sizes: seq<real>, b: seq<nat>, level: real, n: nat): real
    requires n <= |sizes|
  {
    if n == 0 then 0.0
    else Lacking(up, sizes, b, level, n - 1) + if n - 1 in b then Lack(up, sizes[n - 1], level) else 0.0
  }

  lemma {:induction false} LackOne(up: bool, sizes: seq<real>, b: seq<nat>, level: real, n: nat, x: nat)
    requires n <= |sizes|
    ensures Lacking(up, sizes, b, level, n) >= 0.0
    ensures x in b && x < n ==> Lack(up, sizes[x], level) <= Lacking(up, sizes, b, level, n)
  {
    if n > 0 {
      LackOne(up, sizes, b, level, n - 1, x);
    }
  }

  lemma {:induction false} NothingLacks(up: bool, sizes: seq<real>, b: seq<nat>, level: real, n: nat)
    requires n <= |sizes| && forall x :: x in b && x < n ==> level <= Along(up, sizes[x])
    ensures Lacking(up, sizes, b, level, n) == 0.0
  {
    if n > 0 {
      NothingLacks(up, sizes, b, level, n - 1);
    }
  }

  /** If every child gains no more than it lacks less, so do all together. */
  lemma {:induction false} LackDrops(up: bool, was: seq<real>, now: seq<real>, b: seq<nat>, b': seq<nat>, level: real,
                                     n: nat)
    requires n <= |was| == |now|
    requires forall x :: 0 <= x < n ==>
      Along(up, now[x] - was[x]) + (if x in b' then Lack(up, now[x], level) else 0.0) <= (if x in b then Lack(up,
        was[x], level) else 0.0)
    ensures Along(up, Sum(now[..n]) - Sum(was[..n])) + Lacking(up, now, b', level, n) <= Lacking(up, was, b, level, n)
  {
    if n > 0 {
      LackDrops(up, was, now, b, b', level, n - 1);
      assert now[..n][..n - 1] == now[..n - 1] && was[..n][..n - 1] == was[..n - 1];
    }
  }

  /** `each` for every child of the buffer among the first `n`. */
  ghost function Shares(b: seq<nat>, each: real, n: nat): real {
    if n == 0 then 0.0 else Shares(b, each, n - 1) + if n - 1 in b then each else 0.0
  }

  lemma {:induction false} SharesMore(b: seq<nat>, x: nat, each: real, n: nat)
    requires x !in b
    ensures Shares(b + [x], each, n) == Shares(b, each, n) + if x < n then each else 0.0
  {
    if n > 0 {
      SharesMore(b, x, each, n - 1);
    }
  }

  lemma {:induction false} SharesAll(b: seq<nat>, each: real, n: nat)
    requires NoDup(b) && forall x :: x in b ==> x < n
    ensures Shares(b, each, n) == |b| as real * each
  {
    if b == [] {
      NoShares(each, n);
    } else {
      var k := |b| - 1;
      assert b == b[..k] + [b[k]] && b[k] in b && forall x :: x in b[..k] ==> x in b;
      NoDupParts(b[..k], [b[k]]);
      assert b[k] in [b[k]];
      SharesAll(b[..k], each, n);
      SharesMore(b[..k], b[k], each, n);
      assert (k as real + 1.0) * each == k as real * each + each;
    }
  }

  lemma {:induction false} NoShares(each: real, n: nat)
    ensures Shares([], each, n) == 0.0
  {
    if n > 0 {
      NoShares(each, n - 1);
    }
  }

  /** If every child of the buffer gains and lacks at most `each`, all together do at most that for each. */
  lemma {:induction false} LackFits(up: bool, was: seq<real>, now: seq<real>, b: seq<nat>, b': seq<nat>, level: real,
                                    each: real, n: nat)
    requires n <= |was| == |now|
    requires forall x :: 0 <= x < n ==>
      Along(up, now[x] - was[x]) + (if x in b' then Lack(up, now[x], level) else 0.0) <= (if x in b then each else 0.0)
    ensures Along(up, Sum(now[..n]) - Sum(was[..n])) + Lacking(up, now, b', level, n) <= Shares(b, each, n)
  {
    if n > 0 {
      LackFits(up, was, now, b, b', level, each, n - 1);
      assert now[..n][..n - 1] == now[..n - 1] && was[..n][..n - 1] == was[..n - 1];
    }
  }

  /**
   * Whoever has moved is at most at the level, and the remainder is enough to bring the buffer up
   * to it, but for `slack`.
   */
  ghost predicate Level(up: bool, start: seq<real>, now: seq<real>, all: seq<nat>, b: seq<nat>, level: real, rem: real,
                        slack: real)
    requires |start| == |now| && forall x :: x in all ==> x < |start|
  {
    && Lacking(up, now, b, level, |now|) <= Along(up, rem) + slack
    && forall x :: x in all && now[x] != start[x] ==> Along(up, now[x]) <= level
  }

  /** A pass below the level uses up no more than it brings towards it. */
  lemma LevelBelow(up: bool, was: seq<real>, now: seq<real>, bounds: seq<real>, b: seq<nat>, b': seq<nat>, best: real,
                   w: real, level: real, rem: real, rem': real)
    requires Ready(up, was, bounds, b) && |now| == |was| && Along(up, w) >= 0.0
      && PassDone(up, was, now, bounds, b, b', best, w)
    requires Along(up, best) + EPS + Along(up, w) <= level && rem' + Sum(now) == rem + Sum(was)
    ensures Lacking(up, now, b', level, |now|) - Along(up, rem') <= Lacking(up, was, b, level, |was|) - Along(up, rem)
  {
    hide Lacking, Sum, NoDup;
    forall x | 0 <= x < |was|
      ensures Along(up, now[x] - was[x]) + (if x in b' then Lack(up, now[x],
        level) else 0.0) <= (if x in b then Lack(up, was[x], level) else 0.0)
    {
    }
    LackDrops(up, was, now, b, b', level, |was|);
    assert now[..|was|] == now && was[..|was|] == was;
  }

  /**
   * A pass beyond the level sets a new one, which the remainder suffices for because the step was
   * an equal share at most.
   */
  lemma LevelAbove(up: bool, was: seq<real>, now: seq<real>, bounds: seq<real>, b: seq<nat>, b': seq<nat>, best: real,
                   w: real, rem: real, rem': real)
    requires Ready(up, was, bounds, b) && |now| == |was| && Along(up, w) >= 0.0
      && PassDone(up, was, now, bounds, b, b', best, w)
    requires rem' + Sum(now) == rem + Sum(was) && |b| as real * Along(up, w) <= Along(up, rem)
    requires forall x :: x in b ==> Along(up, was[x]) > Along(up, best) - EPS
    ensures var level := Along(up, best) + EPS + Along(up, w);
      Lacking(up, now, b', level, |now|) <= Along(up, rem') + |b| as real * (2.0 * EPS)
  {
    hide Lacking, Sum, Shares;
    var level, each := Along(up, best) + EPS + Along(up, w), Along(up, w) + 2.0 * EPS;
    forall x | 0 <= x < |was|
      ensures Along(up, now[x] - was[x]) + (if x in b' then Lack(up, now[x],
        level) else 0.0) <= (if x in b then each else 0.0)
    {
    }
    LackFits(up, was, now, b, b', level, each, |was|);
    SharesAll(b, each, |was|);
    assert now[..|was|] == now && was[..|was|] == was;
    assert |b| as real * each == |b| as real * Along(up, w) + |b| as real * (2.0 * EPS);
  }

  lemma MovedIsBelow(up: bool, was: seq<real>, now: seq<real>, bounds: seq<real>, b: seq<nat>, b': seq<nat>,
                     best: real, w: real, x: nat)
    requires Ready(up, was, bounds, b) && |now| == |was| && PassDone(up, was, now, bounds, b, b', best, w) && x < |was|
      && now[x] != was[x]
    ensures Along(up, now[x]) <= Along(up, best) + EPS + Along(up, w)
  {
  }

  lemma LevelStep(up: bool, start: seq<real>, was: seq<real>, now: seq<real>, bounds: seq<real>, all: seq<nat>,
                  b: seq<nat>, b': seq<nat>,
                  best: real, w: real, level: real, rem: real, rem': real, slack: real) returns (level': real)
    requires |start| == |was| == |now| && (forall x :: x in all ==> x < |start|)
    requires Ready(up, was, bounds, b) && Along(up, w) >= 0.0 && PassDone(up, was, now, bounds, b, b', best, w)
    requires rem' + Sum(now) == rem + Sum(was) && |b| as real * Along(up, w) <= Along(up, rem)
      && |b| as real * (2.0 * EPS) <= slack
    requires forall x :: x in b ==> Along(up, was[x]) > Along(up, best) - EPS
    requires Level(up, start, was, all, b, level, rem, slack)
    ensures Level(up, start, now, all, b', level', rem', slack)
  {
    hide Lacking, Sum, PassDone, Ready;
    var reach := Along(up, best) + EPS + Along(up, w);
    if reach <= level {
      level' := level;
      LevelBelow(up, was, now, bounds, b, b', best, w, level, rem, rem');
    } else {
      level' := reach;
      LevelAbove(up, was, now, bounds, b, b', best, w, rem, rem');
    }
    forall x | x in all && now[x] != start[x]
      ensures Along(up, now[x]) <= level'
    {
      if now[x] != was[x] {
        MovedIsBelow(up, was, now, bounds, b, b', best, w, x);
      }
    }
  }

  /** Some level is below all children. */
  lemma {:induction false} Floor(up: bool, sizes: seq<real>) returns (level: real)
    ensures forall x :: 0 <= x < |sizes| ==> level <= Along(up, sizes[x])
  {
    if sizes == [] {
      level := 0.0;
    } else {
      var n := |sizes| - 1;
      level := Floor(up, sizes[..n]);
      assert forall x :: 0 <= x < n ==> sizes[..n][x] == sizes[x];
      if Along(up, sizes[n]) < level {
        level := Along(up, sizes[n]);
      }
    }
  }

  /** How far children may be apart at the end. */
  function Tolerance(n: nat): real {
    (2.0 * n as real + 1.0) * EPS
  }

  /**
   * Nobody has moved beyond the level, and every child that is not at its bound is up to it within
   * the tolerance, whether it was brought there or had been beyond it from the start.
   */
  ghost predicate AtLevel(up: bool, was: seq<real>, now: seq<real>, bounds: seq<real>, all: seq<nat>, tolerance: real,
                          level: real)
    requires |was| == |now| == |bounds| && forall x :: x in all ==> x < |was|
  {
    forall x :: x in all ==>
      (now[x] != was[x] ==> Along(up, now[x]) <= level) && (now[x] != bounds[x] ==>
        Along(up, now[x]) >= level - tolerance)
  }

  ghost predicate Levelled(up: bool, was: seq<real>, now: seq<real>, bounds: seq<real>, all: seq<nat>, tolerance: real)
    requires |was| == |now| == |bounds| && forall x :: x in all ==> x < |was|
  {
    exists level :: AtLevel(up, was, now, bounds, all, tolerance, level)
  }

  lemma LevelStart(up: bool, start: seq<real>, all: seq<nat>, rem: real, slack: real) returns (level: real)
    requires Along(up, rem) >= 0.0 && slack >= 0.0 && forall x :: x in all ==> x < |start|
    ensures Level(up, start, start, all, all, level, rem, slack)
  {
    level := Floor(up, start);
    NothingLacks(up, start, all, level, |start|);
  }

  lemma LevelReached(up: bool, was: seq<real>, now: seq<real>, bounds: seq<real>, all: seq<nat>, b: seq<nat>,
                     level: real, rem: real)
    requires |was| == |now| == |bounds| && (forall x :: x in all ==> x < |was|) && Spread(up, was, now, bounds, all, b)
    requires Level(up, was, now, all, b, level, rem, |all| as real * (2.0 * EPS)) && (Along(up, rem) <= EPS || b == [])
    ensures Levelled(up, was, now, bounds, all, Tolerance(|all|))
  {
    hide Lacking;
    assert Tolerance(|all|) == |all| as real * (2.0 * EPS) + EPS;
    forall x | x in all
      ensures (now[x] != was[x] ==> Along(up, now[x]) <= level) && (now[x] != bounds[x] ==>
        Along(up, now[x]) >= level - Tolerance(|all|))
    {
      LackOne(up, now, b, level, |now|, x);
    }
    assert AtLevel(up, was, now, bounds, all, Tolerance(|all|), level);
  }

  lemma PassSpreads(up: bool, start: seq<real>, was: seq<real>, now: seq<real>, bounds: seq<real>, all: seq<nat>,
                    b: seq<nat>, b': seq<nat>, best: real, add: real)
    requires |start| == |was| == |now| == |bounds| && (forall x :: x in all ==> x < |start|)
    requires Ready(up, was, bounds, b) && Spread(up, start, was, bounds, all, b) && Along(up, add) >= 0.0
    requires PassDone(up, was, now, bounds, b, b', best, add)
    ensures Ready(up, now, bounds, b') && Spread(up, start, now, bounds, all, b')
  {
  }

  /** One scan and one pass: the buffer shrinks, or the remainder does by a share of epsilon. */
  method OneRound(up: bool, sizes: array<real>, bounds: seq<real>, b: seq<nat>, rem: real)
    returns (b': seq<nat>, rem': real, ghost best: real, ghost width: real)
    requires Ready(up, sizes[..], bounds, b) && b != [] && Along(up, rem) > EPS
    modifies sizes
    ensures Along(up, width) >= 0.0 && PassDone(up, old(sizes[..]), sizes[..], bounds, b, b', best, width)
    ensures rem' + Sum(sizes[..]) == rem + Sum(old(sizes[..])) && 0.0 <= Along(up, rem') <= Along(up, rem)
    ensures |b| as real * Along(up, width) <= Along(up, rem) && forall x :: x in b ==>
      Along(up, old(sizes[x])) > Along(up, best) - EPS
    ensures |b'| < |b| || (|b'| == |b| && Steps(Along(up, rem'), |b|) < Steps(Along(up, rem), |b|))
  {
    hide PassDone, Sum, NoDup, Steps, ScanOf, Picked, Share;
    ghost var was := sizes[..];
    var found, _, add := Scan(up, sizes, bounds, b, rem);
    var step := Share(up, add, rem, |b|);
    best, width := found, step;
    ShareFits(up, add, rem, |b|);
    b', rem' := Pass(up, sizes, bounds, b, found, step, rem);
    PassShrinks(up, was, sizes[..], bounds, b, b', best, width);
    if |b'| == |b| {
      StepsDrop(Along(up, rem), Along(up, rem'), |b|, Along(up, width));
    }
  }

  /**
   * The rounds of scan and pass. They conserve the total, never overshoot, keep every child on its
   * side of its bound, terminate, and end with less than epsilon left or every child at its bound.
   */
  method Rounds(up: bool, sizes: array<real>, bounds: seq<real>, resizable: seq<nat>, rem0: real) returns (rem: real)
    requires Ready(up, sizes[..], bounds, resizable) && Along(up, rem0) >= 0.0
    modifies sizes
    ensures rem + Sum(sizes[..]) == rem0 + Sum(old(sizes[..]))
    ensures 0.0 <= Along(up, rem) <= Along(up, rem0)
    ensures forall x :: 0 <= x < sizes.Length && x !in resizable ==> sizes[x] == old(sizes[x])
    ensures forall x :: x in resizable ==> Along(up, old(sizes[x])) <= Along(up, sizes[x]) <= Along(up, bounds[x])
    ensures Along(up, rem) <= EPS || forall x :: x in resizable ==> sizes[x] == bounds[x]
    ensures Levelled(up, old(sizes[..]), sizes[..], bounds, resizable, Tolerance(|resizable|))
  {
    hide PassDone, Sum, NoDup, Steps, Level, Levelled;
    ghost var start := sizes[..];
    ghost var slack := |resizable| as real * (2.0 * EPS);
    var b := resizable;
    rem := rem0;
    ghost var level := LevelStart(up, start, resizable, rem, slack);
    while Along(up, rem) > EPS && |b| > 0
      invariant Ready(up, sizes[..], bounds, b) && Spread(up, start, sizes[..], bounds, resizable, b)
      invariant rem + Sum(sizes[..]) == rem0 + Sum(start) && 0.0 <= Along(up, rem) <= Along(up, rem0)
      invariant |b| <= |resizable| && Level(up, start, sizes[..], resizable, b, level, rem, slack)
      decreases |b|, if Along(up, rem) >= 0.0 then Steps(Along(up, rem), |b|) else 0
    {
      ghost var was, all, left := sizes[..], b, rem;
      ghost var best, width;
      b, rem, best, width := OneRound(up, sizes, bounds, b, rem);
      assert Ready(up, sizes[..], bounds, b) && Spread(up, start, sizes[..], bounds, resizable, b) by {
        PassSpreads(up, start, was, sizes[..], bounds, resizable, all, b, best, width);
      }
      level := LevelStep(up, start, was, sizes[..], bounds, resizable, all, b, best, width, level, left, rem, slack);
    }
    LevelReached(up, start, sizes[..], bounds, resizable, b, level, rem);
  }

  lemma PassShrinks(up: bool, was: seq<real>, now: seq<real>, bounds: seq<real>, all: seq<nat>, b: seq<nat>,
                    best: real, add: real)
    requires |was| == |now| == |bounds| && forall x :: x in all ==> x < |was|
    requires PassDone(up, was, now, bounds, all, b, best, add)
    ensures |b| <= |all|
  {
  }

  // The container --------------------------------------------------------------------------------

  /** Children that do not grow are swapped out of the buffer while it is being walked. */
  method KeepGrowing(buffer: seq<nat>, grows: seq<bool>) returns (b: seq<nat>)
    requires NoDup(buffer) && forall x :: x in buffer ==> x < |grows|
    ensures NoDup(b) && |b| <= |buffer| && forall x :: x in b <==> x in buffer && grows[x]
  {
    hide NoDup;
    b := buffer;
    var i := 0;
    while i < |b|
      invariant i <= |b| <= |buffer| && NoDup(b) && forall x :: x in b ==> x in buffer
      invariant forall x :: x in b[..i] ==> x in buffer && grows[x]
      invariant forall x :: x in buffer && grows[x] ==> x in b
      decreases |b| - i
    {
      assert b[i] in b && b[..i + 1] == b[..i] + [b[i]];
      if !grows[b[i]] {
        SwapbackParts(b, i);
        b := RemoveSwapback(b, i);
      } else {
        i := i + 1;
      }
    }
    assert b[..|b|] == b;
  }

  /** The sizes, limits and growing children of one container along its axis. */
  predicate Sane(sizes: seq<real>, mins: seq<real>, maxs: seq<real>, grows: seq<bool>, resizable: seq<nat>) {
    && |mins| == |maxs| == |grows| == |sizes| && NoDup(resizable)
    && forall x :: x in resizable ==> x < |sizes| && 0.0 <= mins[x] <= sizes[x] <= maxs[x] <= MAXFLOAT
  }

  function Growing(s: seq<nat>, grows: seq<bool>): (r: seq<nat>)
    requires forall x :: x in s ==> x < |grows|
    ensures forall x :: x in r <==> x in s && grows[x]
  {
    if s == [] then []
    else
      var n := |s| - 1;
      assert s[n] in s && forall x :: x in s <==> x in s[..n] || x == s[n];
      Growing(s[..n], grows) + if grows[s[n]] then [s[n]] else []
  }

  /** A level is a matter of which children there are and allows any larger tolerance. */
  lemma LevelledFor(up: bool, was: seq<real>, now: seq<real>, bounds: seq<real>, a: seq<nat>, b: seq<nat>, t: real,
                    t': real)
    requires |was| == |now| == |bounds| && (forall x :: x in a ==> x < |was|) && (forall x :: x in b <==> x in a)
      && t <= t'
    requires Levelled(up, was, now, bounds, a, t)
    ensures Levelled(up, was, now, bounds, b, t')
  {
    var level :| AtLevel(up, was, now, bounds, a, t, level);
    assert AtLevel(up, was, now, bounds, b, t', level);
  }

  /**
   * The along-axis branch of `Clay__SizeContainersAlongAxis` for one container: `rem` is the space
   * to distribute, and a container that clips leaves its content alone.
   */
  method SizeChildren(sizes: array<real>, mins: seq<real>, maxs: seq<real>, grows: seq<bool>, resizable: seq<nat>,
                      space: real, clips: bool)
    returns (rem: real)
    requires Sane(sizes[..], mins, maxs, grows, resizable)
    modifies sizes
    ensures rem + Sum(sizes[..]) == space + Sum(old(sizes[..]))
    ensures Sane(sizes[..], mins, maxs, grows, resizable)
    ensures forall x :: 0 <= x < sizes.Length && x !in resizable ==> sizes[x] == old(sizes[x])
    ensures space <= 0.0 ==> space <= rem <= 0.0 && forall x :: x in resizable ==> sizes[x] <= old(sizes[x])
    ensures space >= 0.0 ==> 0.0 <= rem <= space && forall x :: x in resizable ==>
              old(sizes[x]) <= sizes[x] && (!grows[x] ==> sizes[x] == old(sizes[x]))
    ensures space < 0.0 && !clips ==> rem >= -EPS || forall x :: x in resizable ==> sizes[x] == mins[x]
    ensures space > 0.0 ==> rem <= EPS || forall x :: x in resizable && grows[x] ==> sizes[x] == maxs[x]
    ensures space == 0.0 || (clips && space < 0.0) ==> sizes[..] == old(sizes[..])
    ensures space < 0.0 && !clips ==>
      Levelled(false, old(sizes[..]), sizes[..], mins, resizable, Tolerance(|resizable|))
    ensures space > 0.0 ==>
      Levelled(true, old(sizes[..]), sizes[..], maxs, Growing(resizable, grows), Tolerance(|resizable|))
  {
    hide Sum, NoDup, Levelled;
    ghost var was := sizes[..];
    rem := space;
    if space < 0.0 {
      if clips {
        return;
      }
      rem := Rounds(false, sizes, mins, resizable, space);
    } else if space > 0.0 && (exists x :: x in resizable && grows[x]) {
      var growing := KeepGrowing(resizable, grows);
      rem := Rounds(true, sizes, maxs, growing, space);
      LevelledFor(true, was, sizes[..], maxs, growing, Growing(resizable, grows), Tolerance(|growing|),
        Tolerance(|resizable|));
    } else if space > 0.0 {
      NobodyToLevel(true, was, maxs, Growing(resizable, grows), Tolerance(|resizable|));
    }
  }

  lemma NobodyToLevel(up: bool, sizes: seq<real>, bounds: seq<real>, all: seq<nat>, tolerance: real)
    requires |bounds| == |sizes| && forall x :: x !in all
    ensures Levelled(up, sizes, sizes, bounds, all, tolerance)
  {
    assert AtLevel(up, sizes, sizes, bounds, all, tolerance, 0.0);
  }
}
