/** The theorems are not empty: their assumptions have a model, and in it a run that decides. */
module Inhabited {
  import opened Types
  import opened Roster
  import opened VoteLog
  import opened Messages
  import opened Rounds
  import opened Node
  import opened Invariant
  import opened Network
  import opened Scenario
  import opened Episodes

  /** Two correct members, neither of them a quorum alone. */
  const DUO: seq<Member> := [Member(KeyOf(1), 1, 1), Member(KeyOf(2), 1, 2)]

  /** The first member proposes. */
  ghost const STAGE: Stage := Stage(DUO, iset{}, (h, r) => 0)

  lemma DuoRoster()
    ensures Active(DUO) == DUO && ActiveLen(DUO) == 2 && Total(DUO) == 2 && PrefixSums(DUO) && Big(2) == 2
    ensures Position(DUO, KeyOf(1)) == Some(0) && Position(DUO, KeyOf(2)) == Some(1) && Proposer(DUO, 0) == Some(0)
  {
    Names();
    assert DUO[..0] == [] && DUO[..1] == [DUO[0]] && DUO[..2] == DUO && DUO[1..][0] == DUO[1];
    assert Total([DUO[0]]) == 1;
    ProposerResidues(DUO, 0, 0);
  }

  lemma DuoBounded()
    ensures FaultsBounded(STAGE.W())
  {
    hide SeparatesVotes, StakeOf, PrefixSums;
    var w := STAGE.W();
    DuoRoster();
    KeysSeparate(1);
    KeysSeparate(2);
    forall h: nat
      ensures Total(ActiveAt(w, h)) == 2 && StakeOf(ActiveAt(w, h), FaultyAt(w, h)) == 0
    {
      assert ActiveAt(w, h) == DUO;
      assert FaultyAt(w, h) == {};
      NobodyHolds(DUO);
    }
  }

  /** The first member after its prevote. */
  ghost function Prevoted(): Node {
    var rd := Offered1(VALUE_ONE, 0, Pass, Voted(STAGE, 0, ID_ONE), Behind(1, 0), StartTimer(), false);
    Midway(STAGE, KeyOf(1), [], rd, AtPrevote, (None, -1))
  }

  /** The second member after its precommit. */
  ghost function Waiting(): Node {
    var rd := Locked1(STAGE, 1, 0, VALUE_ONE, Seen(STAGE, 1, 0, ID_ONE), 2, 0);
    Midway(STAGE, KeyOf(2), [], rd, AtPrecommit, (Some(VALUE_ONE), 0))
  }

  /** The first member proposes and prevotes. */
  lemma Opens() returns (s: System)
    ensures Reachable(STAGE.W(), STAGE.Cr(), s) && KeyOf(1) in s.starts && s.starts[KeyOf(1)] == 0
      && KeyOf(2) !in s.nodes && KeyOf(2) !in s.starts
    ensures Chunk1(KeyOf(1), VALUE_ONE, 0) in s.chunks && Vote(0, 0, Prevote, ID_ONE, KeyOf(1)) in s.votes
    ensures Stands(s, KeyOf(1), Prevoted())
  {
    hide Reachable, Position, Proposer, Moves, SeparatesVotes, Stands, Offered1, Midway, NoVotes;
    DuoRoster();
    Names();
    KeysSeparate(1);
    EmptyReachable(STAGE);
    var k := KeyOf(1);
    var t := JoinsProposing(STAGE, EMPTY, k, 0, VALUE_ONE);
    MovesKey(EMPTY, t, k);
    MovesOnly(EMPTY, t, k, KeyOf(2));
    OfferingIsMidway(STAGE, k, VALUE_ONE);
    s := Prevotes(STAGE, t, k, 0, [], VALUE_ONE, StartTimer(), 0);
    MovesKey(t, s, k);
    MovesOnly(t, s, k, KeyOf(2));
    assert s.votes[|t.votes|] == Vote(0, 0, Prevote, ID_ONE, k);
  }

  /** The second member follows it as far as its own precommit. */
  lemma Follows(s: System) returns (t: System)
    requires Reachable(STAGE.W(), STAGE.Cr(), s) && KeyOf(2) !in s.nodes && KeyOf(2) !in s.starts
    requires Chunk1(KeyOf(1), VALUE_ONE, 0) in s.chunks && Vote(0, 0, Prevote, ID_ONE, KeyOf(1)) in s.votes
    ensures Reachable(STAGE.W(), STAGE.Cr(), t) && Moves(s, t, KeyOf(2)) && KeyOf(2) in t.starts
      && t.starts[KeyOf(2)] == 0
    ensures Vote(0, 0, Prevote, ID_ONE, KeyOf(2)) in t.votes && Vote(0, 0, Precommit, ID_ONE, KeyOf(2)) in t.votes
      && s.votes <= t.votes
    ensures Stands(t, KeyOf(2), Waiting())
  {
    hide Reachable, Position, Proposer, Moves, SeparatesVotes, Stands, Offered1, Locked1, Midway, NoVotes;
    DuoRoster();
    Names();
    KeysSeparate(2);
    var k := KeyOf(2);
    var s1 := FollowsProposer(STAGE, s, k, 1, 0, VALUE_ONE);
    VotedAt(STAGE, 1, 0, ID_ONE);
    t := Precommits(STAGE, s1, k, 1, [], VALUE_ONE, Seen(STAGE, 1, 0, ID_ONE), 2, StartTimer(), 0);
    MovesOn(s, s1, t, k);
    assert t.votes[|s.votes|] == Vote(0, 0, Prevote, ID_ONE, k)
      && t.votes[|s1.votes|] == Vote(0, 0, Precommit, ID_ONE, k);
  }

  /** With both votes of the second member the first decides. */
  lemma Closes(s: System) returns (t: System)
    requires Reachable(STAGE.W(), STAGE.Cr(), s) && KeyOf(1) in s.starts && s.starts[KeyOf(1)] == 0
    requires Vote(0, 0, Prevote, ID_ONE, KeyOf(2)) in s.votes && Vote(0, 0, Precommit, ID_ONE, KeyOf(2)) in s.votes
    requires Stands(s, KeyOf(1), Prevoted())
    ensures Reachable(STAGE.W(), STAGE.Cr(), t) && Moves(s, t, KeyOf(1))
      && Vote(0, 0, Precommit, ID_ONE, KeyOf(1)) in t.votes
    ensures Decided(t, KeyOf(1), 0) && Decision(t, KeyOf(1), 0).proposal == VALUE_ONE
  {
    hide Reachable, Position, Proposer, Moves, SeparatesVotes, Stands, Offered1, Locked1, Midway, NoVotes, Decided;
    DuoRoster();
    var k := KeyOf(1);
    VotedAt(STAGE, 0, 1, ID_ONE);
    var s1 := HearsPrevote(STAGE, s, k, 1, VALUE_ONE, Voted(STAGE, 0, ID_ONE), 1, StartTimer());
    MovesKey(s, s1, k);
    var s2 := Precommits(STAGE, s1, k, 0, [], VALUE_ONE, Seen(STAGE, 0, 1, ID_ONE), 2, StartTimer(), 0);
    MovesOn(s, s1, s2, k);
    assert s2.votes[|s1.votes|] == Vote(0, 0, Precommit, ID_ONE, k);
    t := Finishes(STAGE, s2, k, 0, 1, VALUE_ONE);
    MovesOn(s, s2, t, k);
  }

  /** A run after which both members have decided the value that one of them proposed. */
  ghost predicate BothDecide(w: World, cr: Crypto, s: System, a: PubKey, b: PubKey, v: Value) {
    && WorldOk(w, cr) && FaultsBounded(w) && Reachable(w, cr, s) && a != b && a !in w.faulty && b !in w.faulty
    && Decided(s, a, 0) && Decided(s, b, 0) && Decision(s, a, 0).proposal == v == Decision(s, b, 0).proposal
    && Big(Total(ActiveAt(w, 0))) > StakeOf(ActiveAt(w, 0), {a})
      && Big(Total(ActiveAt(w, 0))) > StakeOf(ActiveAt(w, 0), {b})
  }

  lemma NeitherSuffices()
    ensures Big(Total(Active(DUO))) > StakeOf(Active(DUO), {KeyOf(1)})
      && Big(Total(Active(DUO))) > StakeOf(Active(DUO), {KeyOf(2)})
  {
    Names();
    DuoRoster();
    assert DUO[..0] == [] && DUO[..1] == [DUO[0]];
    assert StakeOf([DUO[0]], {KeyOf(1)}) == 1 && StakeOf([DUO[0]], {KeyOf(2)}) == 0;
  }

  /**
   * A world that meets every assumption, with ids that tell values apart, has a run after which two
   * nodes that need each other for a quorum have decided the value that one of them proposed.
   */
  lemma SomeRunDecides()
    ensures exists w, cr, s, a, b, v :: BothDecide(w, cr, s, a, b, v) && exists u: Value :: cr.idOf(u) != cr.idOf(v)
  {
    hide Reachable, Position, Moves, SeparatesVotes, Stands, Locked1, Midway, NoVotes, Decided, WorldOk, FaultsBounded;
    var a, b, v := KeyOf(1), KeyOf(2), VALUE_ONE;
    DuoRoster();
    DuoBounded();
    TownOk(DUO, STAGE.bad, STAGE.lot);
    Names();
    KeysSeparate(1);
    KeysSeparate(2);
    NeitherSuffices();
    var s1 := Opens();
    var s2 := Follows(s1);
    StandsStill(s1, s2, b, a, Prevoted());
    var s3 := Closes(s2);
    StandsStill(s2, s3, a, b, Waiting());
    var s4 := Finishes(STAGE, s3, b, 1, 0, v);
    StillDecided(s3, s4, b, a);
    assert ActiveAt(STAGE.W(), 0) == Active(DUO);
    assert BothDecide(STAGE.W(), STAGE.Cr(), s4, a, b, v);
    assert STAGE.Cr().idOf(VALUE_TWO) != STAGE.Cr().idOf(v);
  }
}
