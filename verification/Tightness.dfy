/** Where agreement ends: with faulty stake as large as the quorum overlap, some run decides two values. */
module Tightness {
  import opened Types
  import opened Roster
  import opened VoteLog
  import opened Messages
  import opened Rounds
  import opened Node
  import opened Invariant
  import opened Network
  import opened Scenario
  import opened Episodes

  /** At every height the active stake is `n`, of which `b` is faulty. */
  ghost predicate Holds(w: World, n: nat, b: nat) {
    forall h: nat :: Total(ActiveAt(w, h)) == n && StakeOf(ActiveAt(w, h), FaultyAt(w, h)) == b
  }

  /** Two nodes that run have decided a height differently. */
  ghost predicate Split(cr: Crypto, s: System, x: PubKey, y: PubKey, h: nat) {
    Decided(s, x, h) && Decided(s, y, h) && cr.idOf(Decision(s, x, h).proposal) != cr.idOf(Decision(s, y, h).proposal)
  }

  /** Some run with faulty stake `b` out of `n` ends in disagreement. */
  ghost predicate CanDisagree(n: nat, b: nat) {
    exists w, cr, s, x, y, h :: WorldOk(w, cr) && Holds(w, n, b) && Reachable(w, cr, s) && Split(cr, s, x, y, h)
  }

  // An equivocating proposer ---------------------------------------------------------------------

  /** A correct node hears the faulty proposer's value and votes, and decides with it. */
  lemma TakesSide(c: Stage, s: System, k: PubKey, j: nat, q: nat, v: Value) returns (t: System)
    requires c.Ok() && Reachable(c.W(), c.Cr(), s) && k !in s.nodes && k !in s.starts && k !in c.W().faulty && Short(v)
    requires q < c.Members() && q != j && Position(Active(c.roster), k) == Some(j)
      && ProposerAt(c.Cr(), c.roster, 0, 0) == Some(q)
    requires Big(c.Sum()) <= Stake(c, j) + Stake(c, q) && Chunk1(c.roster[q].key, v, 0) in s.chunks
    requires Vote(0, 0, Prevote, IdOf(v), c.roster[q].key) in s.votes
      && Vote(0, 0, Precommit, IdOf(v), c.roster[q].key) in s.votes
    ensures Reachable(c.W(), c.Cr(), t) && Moves(s, t, k) && s.votes <= t.votes && s.chunks == t.chunks
    ensures Decided(t, k, 0) && Decision(t, k, 0).proposal == v
  {
    hide Reachable, Position, ProposerAt, Stands, Midway, Offered1, Locked1, NoVotes, Moves, Decided;
    var s1 := FollowsProposer(c, s, k, j, q, v);
    VotedAt(c, j, q, IdOf(v));
    var s2 := Precommits(c, s1, k, j, [], v, Seen(c, j, q, IdOf(v)), Stake(c, j) + Stake(c, q), StartTimer(), 0);
    MovesOn(s, s1, s2, k);
    t := Finishes(c, s2, k, j, q, v);
    MovesOn(s, s2, t, k);
  }

  /** Members 1 and 3 are correct; member 2 is faulty, proposes, and makes a quorum with either. */
  function Trio(a: nat, b: nat, c: nat): seq<Member> {
    [Member(KeyOf(1), a, a), Member(KeyOf(2), b, a + b), Member(KeyOf(3), c, a + b + c)]
  }

  lemma TotalOfThree(x: Member, y: Member, z: Member, keys: set<PubKey>)
    ensures Total([x]) == x.stake && Total([x, y]) == x.stake + y.stake
      && Total([x, y, z]) == x.stake + y.stake + z.stake
    ensures StakeOf([x, y, z], keys) == (if x.key in keys then x.stake else 0)
                                      + (if y.key in keys then y.stake else 0)
                                      + (if z.key in keys then z.stake else 0)
  {
    assert [x][..0] == [] && [x, y][..1] == [x] && [x, y, z][..2] == [x, y];
    assert StakeOf([x], keys) == if x.key in keys then x.stake else 0;
    assert StakeOf([x, y], keys) == StakeOf([x], keys) + if y.key in keys then y.stake else 0;
  }

  lemma TrioSums(a: nat, b: nat, c: nat)
    ensures var ms := Trio(a, b, c);
      Active(ms) == ms && ActiveLen(ms) == 3 && Total(ms) == a + b + c && PrefixSums(ms) && Total(ms[..1]) == a
  {
    var ms := Trio(a, b, c);
    TotalOfThree(ms[0], ms[1], ms[2], {});
    assert ms[..1] == [ms[0]] && ms[..2] == [ms[0], ms[1]] && ms[..3] == ms;
  }

  lemma TrioProposer(a: nat, b: nat, c: nat)
    requires b > 0
    ensures Proposer(Trio(a, b, c), a) == Some(1)
  {
    hide PrefixSums, Proposer, KeyOf;
    TrioSums(a, b, c);
    ProposerResidues(Trio(a, b, c), a, 1);
  }

  /** The places of members with different keys. */
  lemma Seats(ms: seq<Member>)
    requires forall i, j :: 0 <= i < j < |ms| ==> ms[i].key != ms[j].key
    ensures forall i :: 0 <= i < |ms| ==> Position(ms, ms[i].key) == Some(i)
  {
  }

  lemma TrioSeats(a: nat, b: nat, c: nat)
    ensures var ms := Trio(a, b, c); Position(ms, KeyOf(1)) == Some(0) && Position(ms, KeyOf(3)) == Some(2)
  {
    hide Position, KeyOf;
    Names();
    var ms := Trio(a, b, c);
    Seats(ms);
    assert ms[0].key == KeyOf(1) && ms[2].key == KeyOf(3);
  }

  lemma TrioStakes(a: nat, b: nat, c: nat, bad: iset<PubKey>)
    requires forall k :: k in bad <==> k == KeyOf(2)
    ensures Holds(Town(Trio(a, b, c), bad), a + b + c, b)
  {
    hide SeparatesVotes, PrefixSums, Total, StakeOf;
    Names();
    KeysSeparate(1);
    KeysSeparate(3);
    TrioSums(a, b, c);
    var ms, w := Trio(a, b, c), Town(Trio(a, b, c), bad);
    forall h: nat
      ensures Total(ActiveAt(w, h)) == a + b + c && StakeOf(ActiveAt(w, h), FaultyAt(w, h)) == b
    {
      assert ActiveAt(w, h) == ms;
      assert ms[1] in ms && KeyOf(2) in FaultyAt(w, h);
      TotalOfThree(ms[0], ms[1], ms[2], FaultyAt(w, h));
    }
  }

  function BothVotes(k: PubKey): Log {
    [Vote(0, 0, Prevote, ID_ONE, k), Vote(0, 0, Precommit, ID_ONE, k), Vote(0, 0, Prevote, ID_TWO, k),
      Vote(0, 0, Precommit, ID_TWO, k)]
  }

  function BothChunks(k: PubKey): set<SignedChunk> {
    {Chunk1(k, VALUE_ONE, 0), Chunk1(k, VALUE_TWO, 0)}
  }

  /** The faulty member proposes both values and votes for both. */
  lemma Equivocates(c: Stage, k: PubKey) returns (s: System)
    requires k in c.bad && SeparatesVotes(k, CHUNK)
    ensures Reachable(c.W(), c.Cr(), s) && s == EMPTY.(votes := BothVotes(k), chunks := BothChunks(k))
  {
    hide Reachable, SignedOk, SeparatesVotes;
    EmptyReachable(c);
    assert EMPTY.votes + BothVotes(k) == BothVotes(k) && EMPTY.chunks + BothChunks(k) == BothChunks(k);
    BothSigned(k);
    ReachSign(c.W(), c.Cr(), EMPTY, BothVotes(k), BothChunks(k));
    s := EMPTY.(votes := BothVotes(k), chunks := BothChunks(k));
  }

  lemma BothSigned(k: PubKey)
    requires SeparatesVotes(k, CHUNK)
    ensures SignedOk(BothVotes(k), BothChunks(k))
  {
    hide SignedOk, WfChunk, SeparatesVotes;
    OneChunk(VALUE_ONE, 0);
    OneChunk(VALUE_TWO, 0);
    SeparateSigned(BothVotes(k), BothChunks(k));
  }

  lemma ProposerSplits(a: nat, b: nat, c: nat)
    requires b > 0 && Big(a + b + c) <= a + b && Big(a + b + c) <= b + c
    ensures CanDisagree(a + b + c, b)
  {
    hide Reachable, Position, Proposer, Moves, Decided, SeparatesVotes;
    var bad := iset{KeyOf(2)};
    var st, k1, k2, k3 := Stage(Trio(a, b, c), bad, (h, r) => a), KeyOf(1), KeyOf(2), KeyOf(3);
    TrioSums(a, b, c);
    TrioSeats(a, b, c);
    TrioProposer(a, b, c);
    TrioStakes(a, b, c, bad);
    TownOk(st.roster, bad, st.lot);
    Names();
    KeysSeparate(1);
    KeysSeparate(3);
    KeysSeparate(2);
    var s := Equivocates(st, k2);
    assert s.votes[0] == Vote(0, 0, Prevote, IdOf(VALUE_ONE), k2)
      && s.votes[1] == Vote(0, 0, Precommit, IdOf(VALUE_ONE), k2);
    assert s.votes[2] == Vote(0, 0, Prevote, IdOf(VALUE_TWO), k2)
      && s.votes[3] == Vote(0, 0, Precommit, IdOf(VALUE_TWO), k2);
    var t := TakesSide(st, s, k1, 0, 1, VALUE_ONE);
    assert k3 !in t.nodes && k3 !in t.starts by { MovesOnly(s, t, k1, k3); }
    assert t.votes[2] == s.votes[2] && t.votes[3] == s.votes[3];
    var u := TakesSide(st, t, k3, 2, 1, VALUE_TWO);
    StillDecided(t, u, k3, k1);
    assert Split(st.Cr(), u, k1, k3, 0);
  }

  // Two quorums without a common member ----------------------------------------------------------

  const PAIR: seq<Member> := [Member(KeyOf(1), 3, 3), Member(KeyOf(3), 3, 6)]

  lemma PairRoster()
    ensures Active(PAIR) == PAIR && ActiveLen(PAIR) == 2 && Total(PAIR) == 6 && Total(PAIR[..1]) == 3
      && PrefixSums(PAIR) && Big(6) == 3
  {
    hide KeyOf;
    assert PAIR[..0] == [] && PAIR[..1] == [PAIR[0]] && PAIR[..2] == PAIR;
    assert Total([PAIR[0]]) == 3 && Total(PAIR) == 6;
  }

  lemma PairSeats()
    ensures Position(PAIR, KeyOf(1)) == Some(0) && Position(PAIR, KeyOf(3)) == Some(1)
    ensures Proposer(PAIR, 0) == Some(0) && Proposer(PAIR, 3) == Some(1)
  {
    hide Position, Proposer, PrefixSums, KeyOf;
    Names();
    PairRoster();
    Seats(PAIR);
    assert PAIR[0].key == KeyOf(1) && PAIR[1].key == KeyOf(3);
    ProposerResidues(PAIR, 0, 0);
    ProposerResidues(PAIR, 3, 1);
  }

  lemma PairStakes()
    ensures Holds(Town(PAIR, iset{}), 6, 0)
  {
    hide SeparatesVotes, PrefixSums, Total, StakeOf, KeyOf;
    var w := Town(PAIR, iset{});
    PairRoster();
    KeysSeparate(1);
    KeysSeparate(3);
    forall h: nat
      ensures Total(ActiveAt(w, h)) == 6 && StakeOf(ActiveAt(w, h), FaultyAt(w, h)) == 0
    {
      assert ActiveAt(w, h) == PAIR;
      assert FaultyAt(w, h) == {};
      NobodyHolds(PAIR);
    }
  }

  /** A member that is a quorum by itself decides what it proposes. */
  lemma DecidesAlone(c: Stage, s: System, k: PubKey, j: nat, pre: seq<RoundData>, v: Value, timer: Option<Timeout>,
                     now: nat) returns (t: System)
    requires c.Ok() && Reachable(c.W(), c.Cr(), s) && LeftBehind(pre) && Short(v) && Later(timer, now) && k in s.starts
      && s.starts[k] == 0
    requires Position(Active(c.roster), k) == Some(j) && Big(c.Sum()) <= Stake(c, j)
    requires Stands(s, k, Midway(c, k, pre, Offered1(v, |pre|, Indeterminate, NoVotes(c.Members()), ZERO, timer,
      false), AtPropose, (None, -1)))
    ensures Reachable(c.W(), c.Cr(), t) && Moves(s, t, k) && Decided(t, k, 0) && Decision(t, k, 0).proposal == v
  {
    hide Reachable, Position, Midway, Offered1, Moves, LeftBehind, Decided;
    var votes := Voted(c, j, IdOf(v));
    var s1 := Prevotes(c, s, k, j, pre, v, timer, now);
    MovesOn(s, s, s1, k) by { MovesNot(s, k); }
    var s2 := Precommits(c, s1, k, j, pre, v, votes, Stake(c, j), timer, now);
    MovesOn(s, s1, s2, k);
    t := Decides(c, s2, k, j, pre, v, votes[j := Slots(Yes(IdOf(v)), Yes(IdOf(v)))], Stake(c, j), Stake(c, j),
      NewTimeout(now, 0, |pre|, AtPrevote), now);
    MovesOn(s, s2, t, k);
  }

  /** A member that is a quorum by itself gives up on a silent proposer and decides in its own round. */
  lemma DecidesLater(c: Stage, s: System, k: PubKey, j: nat, v: Value) returns (t: System)
    requires c.Ok() && Reachable(c.W(), c.Cr(), s) && k !in s.nodes && k !in s.starts && k !in c.W().faulty && Short(v)
    requires Position(Active(c.roster), k) == Some(j) && Big(c.Sum()) <= Stake(c, j)
      && ProposerKey(c.Cr(), c.roster, 0, 1) == k
    ensures Reachable(c.W(), c.Cr(), t) && Moves(s, t, k) && Decided(t, k, 0) && Decision(t, k, 0).proposal == v
  {
    hide Reachable, Position, Stands, Midway, Offered1, Bare, InVain, Moves, LeftBehind, Decided, ProposerKey, Idle,
      NoVotes, Voted;
    var s1 := Joins(c, s, k);
    assert k in s1.starts by { MovesKey(s, s1, k); }
    var s2 := PrevotesNil(c, s1, k, j);
    MovesOn(s, s1, s2, k);
    var s3 := PrecommitsNil(c, s2, k, j);
    MovesOn(s, s2, s3, k);
    var s4 := CallsLastOrders(c, s3, k, j);
    MovesOn(s, s3, s4, k);
    var s5 := TriesAgain(c, s4, k, j, v);
    MovesOn(s, s4, s5, k);
    t := DecidesAlone(c, s5, k, j, [InVain(c, j)], v, NewTimeout(10000, 0, 1, AtPropose), 10000);
    MovesOn(s, s5, t, k);
  }

  lemma QuorumsSplit()
    ensures CanDisagree(6, 0)
  {
    hide Reachable, Position, Proposer, Moves, Decided, SeparatesVotes, Stands;
    var c := Stage(PAIR, iset{}, (h, r) => if r == 0 then 0 else 3);
    PairRoster();
    PairSeats();
    PairStakes();
    TownOk(PAIR, c.bad, c.lot);
    Names();
    KeysSeparate(1);
    KeysSeparate(3);
    assert Reachable(c.W(), c.Cr(), EMPTY) by { EmptyReachable(c); }
    var s := JoinsProposing(c, EMPTY, KeyOf(1), 0, VALUE_ONE);
    assert KeyOf(1) in s.starts && KeyOf(1) in s.nodes by { MovesKey(EMPTY, s, KeyOf(1)); }
    assert KeyOf(3) !in s.starts && KeyOf(3) !in s.nodes by { MovesOnly(EMPTY, s, KeyOf(1), KeyOf(3)); }
    OfferingIsMidway(c, KeyOf(1), VALUE_ONE);
    var t := DecidesAlone(c, s, KeyOf(1), 0, [], VALUE_ONE, StartTimer(), 0);
    assert KeyOf(3) !in t.starts && KeyOf(3) !in t.nodes by { MovesOnly(s, t, KeyOf(1), KeyOf(3)); }
    var u := DecidesLater(c, t, KeyOf(3), 1, VALUE_TWO);
    StillDecided(t, u, KeyOf(3), KeyOf(1));
    assert Split(c.Cr(), u, KeyOf(1), KeyOf(3), 0);
  }

  // The exact bound ------------------------------------------------------------------------------

  /** Nobody can disagree while the faulty stake is below the quorum overlap. */
  lemma BelowTheOverlap(n: nat, b: nat)
    requires n >= 1 && b < 2 * Big(n) - n
    ensures !CanDisagree(n, b)
  {
    hide Reachable, WorldOk, Decided;
    forall w, cr, s, x, y, h | WorldOk(w, cr) && Holds(w, n, b) && Reachable(w, cr, s) && Split(cr, s, x, y, h)
      ensures false
    {
      assert FaultsBounded(w);
      var states, events := RunTo(w, cr, s);
      var i := |states| - 1;
      Agreement(w, cr, states, events, i, x, i, y, h);
    }
  }

  lemma RunTo(w: World, cr: Crypto, s: System) returns (states: seq<System>, events: seq<Event>)
    requires Reachable(w, cr, s)
    ensures Run(w, cr, states, events) && |states| > 0 && states[|states| - 1] == s
  {
    states, events :| Run(w, cr, states, events) && states[|states| - 1] == s;
  }

  /** The overlap of quorums is the exact bound: from there on some run decides a height twice. */
  lemma AgreementExactly(n: nat, b: nat)
    requires 1 <= n && b <= n
    ensures CanDisagree(n, b) <==> b >= 2 * Big(n) - n
  {
    hide CanDisagree;
    if b < 2 * Big(n) - n {
      BelowTheOverlap(n, b);
    } else if b == 0 {
      QuorumsSplit();
    } else {
      var a := if b >= Big(n) then 0 else Big(n) - b;
      ProposerSplits(a, b, n - b - a);
    }
  }
}
