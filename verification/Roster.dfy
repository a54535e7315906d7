/** The stake-weighted roster: active prefix, thresholds and quorum arithmetic. */
module Roster {
  import opened Types

  /** `cumulative` is the stake of every member up to and including this one. */
  datatype Member = Member(key: PubKey, stake: nat, cumulative: nat)

  const ROSTER_MAX: nat := 100

  function ActiveLen(roster: seq<Member>): nat {
    if |roster| < ROSTER_MAX then |roster| else ROSTER_MAX
  }

  function Active(roster: seq<Member>): seq<Member> {
    roster[..ActiveLen(roster)]
  }

  function Total(ms: seq<Member>): nat {
    if ms == [] then 0 else Total(ms[..|ms| - 1]) + ms[|ms| - 1].stake
  }

  /** The stake held by the members whose key is in `keys`. */
  ghost function StakeOf(ms: seq<Member>, keys: set<PubKey>): nat {
    if ms == [] then 0
    else
      var last := ms[|ms| - 1];
      StakeOf(ms[..|ms| - 1], keys) + if last.key in keys then last.stake else 0
  }

  function FaultBound(n: nat): nat
    requires n >= 1
  {
    (n - 1) / 3
  }

  /** `big_threshold` of `bft_update`. */
  function Big(n: nat): nat
    requires n >= 1
  {
    var f := FaultBound(n);
    if f == 0 then n else 2 * f + 1
  }

  /** `small_threshold` of `bft_update`. */
  function Small(n: nat): nat
    requires n >= 1
  {
    var f := FaultBound(n);
    if f == 0 then n else f + 1
  }

  /**
   * The thresholds: the fault bound is the largest number below a third of the stake, the small threshold is the
   * least stake above it and so the least that makes a third, and the big one is twice the bound and one more.
   * With three or less nobody may be faulty and both ask for everybody.
   */
  lemma Thresholds(n: nat)
    requires n >= 1
    ensures 3 * FaultBound(n) < n <= 3 * FaultBound(n) + 3
    ensures n > 3 ==> FaultBound(n) > 0 && Big(n) == 2 * FaultBound(n) + 1
    ensures n > 3 ==> forall s: int :: s >= Small(n) <==> 3 * s >= n
    ensures n <= 3 ==> Big(n) == Small(n) == n
  {
  }

  lemma {:induction false} StakeMonotone(ms: seq<Member>, a: set<PubKey>, b: set<PubKey>)
    requires a <= b
    ensures StakeOf(ms, a) <= StakeOf(ms, b) <= Total(ms)
  {
    if ms != [] {
      StakeMonotone(ms[..|ms| - 1], a, b);
    }
  }

  lemma {:induction false} NobodyHolds(ms: seq<Member>)
    ensures StakeOf(ms, {}) == 0
  {
    if ms != [] {
      NobodyHolds(ms[..|ms| - 1]);
    }
  }

  lemma {:induction false} InclusionExclusion(ms: seq<Member>, a: set<PubKey>, b: set<PubKey>)
    ensures StakeOf(ms, a) + StakeOf(ms, b) == StakeOf(ms, a + b) + StakeOf(ms, a * b)
  {
    if ms != [] {
      InclusionExclusion(ms[..|ms| - 1], a, b);
    }
  }

  /** Two sets of keys that each hold `big` stake share stake that the faulty keys cannot cover. */
  lemma QuorumsShareCorrect(ms: seq<Member>, a: set<PubKey>, b: set<PubKey>, faulty: set<PubKey>)
    requires Total(ms) >= 1
    requires StakeOf(ms, a) >= Big(Total(ms))
    requires StakeOf(ms, b) >= Big(Total(ms))
    requires StakeOf(ms, faulty) < 2 * Big(Total(ms)) - Total(ms)
    ensures exists k :: k in a && k in b && k !in faulty
  {
    InclusionExclusion(ms, a, b);
    StakeMonotone(ms, a + b, a + b);
    if a * b <= faulty {
      StakeMonotone(ms, a * b, faulty);
      assert false;
    }
    var k :| k in a * b && k !in faulty;
  }

  /**
   * The overlap of two quorums exceeds the fault bound f exactly when n = 3f + 1 or f = 0.
   * A roster of total stake 6 has disjoint quorums.
   */
  lemma OverlapExceedsFaultBound(n: nat)
    requires n >= 1
    ensures Big(n) <= n <= 2 * Big(n)
    ensures 2 * Big(n) - n > FaultBound(n) <==> n % 3 == 1 || n <= 3
    ensures 2 * Big(6) - 6 == 0
  {
  }

  /** Cumulative stakes are prefix sums, as the proposer choice expects of its callers. */
  predicate PrefixSums(ms: seq<Member>) {
    forall i :: 0 <= i < |ms| ==> ms[i].cumulative == Total(ms[..i + 1])
  }

  /** `partition_point`: the first member whose cumulative stake exceeds `x`. */
  function FirstAbove(ms: seq<Member>, x: nat): (i: nat)
    ensures i <= |ms|
    ensures i < |ms| ==> x < ms[i].cumulative
    ensures forall j :: 0 <= j < i ==> ms[j].cumulative <= x
  {
    if ms == [] || x < ms[0].cumulative then 0 else 1 + FirstAbove(ms[1..], x)
  }

  /** `proposer_from_height_round`, with the 64-bit hash of height and round as `hash`. */
  function Proposer(roster: seq<Member>, hash: nat): Option<nat> {
    if roster == [] then None
    else
      var total := roster[ActiveLen(roster) - 1].cumulative;
      if total == 0 then None else Some(FirstAbove(roster, hash % total))
  }

  lemma {:induction false} TotalGrows(ms: seq<Member>, i: nat, j: nat)
    requires i <= j <= |ms|
    ensures Total(ms[..i]) <= Total(ms[..j])
    decreases j
  {
    if i < j {
      assert ms[..j][..j - 1] == ms[..j - 1];
      TotalGrows(ms, i, j - 1);
    }
  }

  lemma TotalStep(ms: seq<Member>, i: nat)
    requires i < |ms|
    ensures Total(ms[..i + 1]) == Total(ms[..i]) + ms[i].stake
  {
    assert ms[..i + 1][..i] == ms[..i];
  }

  /** Member `i` proposes exactly for the residues between its predecessors' stake and its own. */
  lemma ProposerResidues(roster: seq<Member>, hash: nat, i: nat)
    requires PrefixSums(roster) && i < |roster| && Total(Active(roster)) > 0
    ensures Proposer(roster, hash) == Some(i) <==>
            Total(roster[..i]) <= hash % Total(Active(roster)) < Total(roster[..i]) + roster[i].stake
  {
    var x := hash % Total(Active(roster));
    assert roster[ActiveLen(roster) - 1].cumulative == Total(Active(roster));
    var p := FirstAbove(roster, x);
    TotalStep(roster, i);
    if p < i {
      TotalGrows(roster, p + 1, i);
    } else if i < p {
      assert roster[i].cumulative <= x;
    } else if i > 0 {
      assert roster[i - 1].cumulative <= x;
    }
  }

  /** A roster with active stake always has a proposer: an active member with stake. */
  lemma ProposerIsActive(roster: seq<Member>, hash: nat)
    requires PrefixSums(roster)
    ensures Total(Active(roster)) == 0 ==> Proposer(roster, hash) == None
    ensures Total(Active(roster)) > 0 ==>
      var p := Proposer(roster, hash);
      p.Some? && p.value < ActiveLen(roster) && roster[p.value].stake > 0
  {
    if roster != [] {
      var n := ActiveLen(roster);
      assert roster[n - 1].cumulative == Total(Active(roster));
      if Total(Active(roster)) > 0 {
        var p := FirstAbove(roster, hash % Total(Active(roster)));
        assert p < n;
        ProposerResidues(roster, hash, p);
      }
    }
  }

  lemma {:induction false} IntervalSize(s: set<nat>, lo: nat, hi: nat)
    requires lo <= hi
    requires forall x :: x in s <==> lo <= x < hi
    ensures |s| == hi - lo
    decreases hi
  {
    if lo < hi {
      assert hi - 1 in s;
      IntervalSize(s - {hi - 1}, lo, hi - 1);
    } else {
      assert s == {};
    }
  }

  /** Each active member is chosen by exactly as many residues as it holds stake. */
  lemma ProposerIsWeighted(roster: seq<Member>, i: nat)
    requires PrefixSums(roster) && i < ActiveLen(roster) && Total(Active(roster)) > 0
    ensures |set x: nat | x < Total(Active(roster)) && Proposer(roster, x) == Some(i)| == roster[i].stake
  {
    var total, lo := Total(Active(roster)), Total(roster[..i]);
    var s := set x: nat | x < total && Proposer(roster, x) == Some(i);
    TotalStep(roster, i);
    TotalGrows(roster, i + 1, ActiveLen(roster));
    forall x: nat
      ensures x in s <==> lo <= x < lo + roster[i].stake
    {
      if x < total {
        SmallResidue(x, total);
        ProposerResidues(roster, x, i);
      }
    }
    IntervalSize(s, lo, lo + roster[i].stake);
  }

  lemma SmallResidue(x: nat, n: nat)
    requires x < n
    ensures x % n == x
  {
  }
}
