/**
 * A value that is proposed again. Line 28 waits for a quorum of prevotes of the round it is about to prevote in,
 * so the first correct member never gets to prevote a value that a correct proposer proposes again.
 */
module Repeats {
  import opened Types
  import opened Roster
  import opened VoteLog
  import opened Reassembly
  import opened Node
  import opened Invariant
  import opened Steps
  import opened Heights
  import opened Updates
  import opened Network
  import opened Conduct
  import Authorship
  import Proposing
  import Decisions

  /** The proposer of the round has signed a chunk of a first proposal of this value. */
  ghost predicate FirstOffered(w: World, cr: Crypto, chunks: set<SignedChunk>, h: nat, r: nat, id: ValueId) {
    exists c :: c in chunks && c.key == ProposerKey(cr, w.rosterAt(h), h, r) && c.header.height == h
      && c.header.round == r && c.header.id == id && c.header.validRound == -1
  }

  /** Vote `k` of the log: a correct prevote for a value rests on a first proposal or on a quorum before it. */
  ghost predicate Grounded(w: World, cr: Crypto, log: Log, chunks: set<SignedChunk>, k: nat)
    requires Staked(w) && k < |log|
  {
    var v := log[k];
    || v.key in w.faulty || v.kind != Prevote || v.id == NIL_ID
    || Quorum(w, log[..k], v.height, v.round, Prevote, v.id) || FirstOffered(w, cr, chunks, v.height, v.round, v.id)
  }

  ghost predicate AllGrounded(w: World, cr: Crypto, log: Log, chunks: set<SignedChunk>)
    requires Staked(w)
  {
    forall k: nat :: k < |log| ==> Grounded(w, cr, log, chunks, k)
  }

  lemma GroundedGrows(w: World, cr: Crypto, log: Log, chunks: set<SignedChunk>, log': Log, chunks': set<SignedChunk>,
                      k: nat)
    requires Staked(w) && k < |log| && log <= log' && chunks <= chunks' && Grounded(w, cr, log, chunks, k)
    ensures Grounded(w, cr, log', chunks', k)
  {
    assert log'[..k] == log[..k];
  }

  /** Votes that are not prevotes for a value add nothing to account for. */
  lemma GroundedMore(w: World, cr: Crypto, log: Log, chunks: set<SignedChunk>, log': Log, chunks': set<SignedChunk>)
    requires Staked(w) && AllGrounded(w, cr, log, chunks) && log <= log' && chunks <= chunks'
    requires forall k: nat :: |log| <= k < |log'| ==> Grounded(w, cr, log', chunks', k)
    ensures AllGrounded(w, cr, log', chunks')
  {
    forall k: nat | k < |log'|
      ensures Grounded(w, cr, log', chunks', k)
    {
      if k < |log| {
        GroundedGrows(w, cr, log, chunks, log', chunks', k);
      }
    }
  }

  /** A complete proposal has a chunk of its proposer behind it. */
  lemma CompleteIsOffered(w: World, cr: Crypto, n: Node, i: nat, start: nat)
    requires WorldOk(w, cr) && Good(w, cr, n, start) && i < |n.rounds| && n.rounds[i].height == n.height
    requires Complete(n.rounds[i])
    ensures var rd := n.rounds[i];
      exists c :: c in n.chunks && c.key == ProposerKey(cr, w.rosterAt(rd.height), rd.height, rd.round)
        && c.header.height == rd.height && c.header.round == rd.round && c.header.id == rd.id
        && c.header.validRound == rd.validRound
  {
    var rd := n.rounds[i];
    assert RoundOk(cr, rd, n.roster) && RoundSigned(cr, rd, n);
    HeldAll(rd.sigs);
    var c :| 0 <= c < |rd.sigs| && rd.sigs[c] != NIL_SIG;
    assert Proposed(cr, rd, c, ProposerKey(cr, n.roster, rd.height, rd.round), n.chunks);
  }

  /** The prevote of lines 22 and 28 rests on what they ask for. */
  lemma FirstVoteGrounded(w: World, cr: Crypto, n: Node, i: nat, env: Env, log: Log, chunks: set<SignedChunk>,
                          start: nat)
    requires OnTurn(w, cr, n, i, env, start) && n.chunks <= chunks
    requires var big := Big(Total(ActiveAt(w, n.height)));
      FirstVotes(n, i, big, env) != [] && n.votes + FirstVotes(n, i, big, env) <= log
    ensures Grounded(w, cr, log, chunks, |n.votes|)
  {
    hide Good;
    var rd := n.rounds[i];
    assert log[..|n.votes|] == n.votes;
    if rd.validRound == -1 {
      CompleteIsOffered(w, cr, n, i, start);
    } else {
      LookOk(w, cr, n, i, start);
      LookComplete(n, i);
    }
  }

  lemma TurnGrounded(w: World, cr: Crypto, n: Node, i: nat, env: Env, start: nat)
    requires InTurn(w, cr, n, i, env, start) && AllGrounded(w, cr, n.votes, n.chunks)
    requires InRange(Turn(cr, n, i, Big(Total(ActiveAt(w, n.height))), Small(Total(ActiveAt(w, n.height))), env))
    ensures var total := Total(ActiveAt(w, n.height));
      var t := Turn(cr, n, i, Big(total), Small(total), env);
      AllGrounded(w, cr, t.votes, t.chunks)
  {
    hide Turn, Good, Grounded, AllGrounded, EnvOk;
    var total := Total(ActiveAt(w, n.height));
    var t := Turn(cr, n, i, Big(total), Small(total), env);
    Authorship.TurnMine(cr, n, i, Big(total), Small(total), env);
    if n.rounds[i].round == n.round && Seat(n).Some? {
      CurrentTurnGrounded(w, cr, n, i, env, start);
    } else {
      OtherTurnExactly(w, cr, n, i, env, start);
      SameTotal(w, cr, n, start);
    }
    GroundedMore(w, cr, n.votes, n.chunks, t.votes, t.chunks);
  }

  lemma CurrentTurnGrounded(w: World, cr: Crypto, n: Node, i: nat, env: Env, start: nat)
    requires OnTurn(w, cr, n, i, env, start)
    ensures var total := Total(ActiveAt(w, n.height));
      var t := Turn(cr, n, i, Big(total), Small(total), env);
      forall k: nat :: |n.votes| <= k < |t.votes| ==> Grounded(w, cr, t.votes, t.chunks, k)
  {
    hide Turn, Good, EnvOk, FirstVotes;
    var total := Total(ActiveAt(w, n.height));
    var big, t := Big(total), Turn(cr, n, i, Big(total), Small(total), env);
    Authorship.TurnMine(cr, n, i, big, Small(total), env);
    TurnExactly(w, cr, n, i, Small(total), env, start);
    var first := FirstVotes(n, i, big, env);
    assert |first| <= 1 by { AtMostOne(n, i, big, env); }
    forall k: nat | |n.votes| <= k < |t.votes|
      ensures Grounded(w, cr, t.votes, t.chunks, k)
    {
      if k < |n.votes + first| {
        FirstVoteGrounded(w, cr, n, i, env, t.votes, t.chunks, start);
      } else {
        LaterVotes(n, i, big, env, k - |n.votes + first|);
      }
    }
  }

  lemma AtMostOne(n: Node, i: nat, big: nat, env: Env)
    requires i < |n.rounds|
    ensures |FirstVotes(n, i, big, env)| <= 1
  {
  }

  /** What follows the first prevote of a turn is a precommit or nil. */
  lemma LaterVotes(n: Node, i: nat, big: nat, env: Env, x: nat)
    requires i < |n.rounds| && x < |SecondVotes(n, i, big, env) + LastVotes(n, i, big, env)|
    ensures var v := (SecondVotes(n, i, big, env) + LastVotes(n, i, big, env))[x]; v.kind == Precommit || v.id == NIL_ID
  {
  }

  // Over updates and runs ------------------------------------------------------------------------

  ghost predicate Grounding(w: World, cr: Crypto, turn: (Node, nat) -> Node, n: Node, m: Node, i: nat, start: nat)
    requires Staked(w)
  {
    Running(w, cr, turn, n, m, i, start) && AllGrounded(w, cr, m.votes, m.chunks)
  }

  lemma GroundingStep(w: World, cr: Crypto, total: nat, env: Env, n: Node, m: Node, i: nat, cut: nat, start: nat)
    requires WorldOk(w, cr) && EnvOk(w, env, n.height) && n.height + 1 < 0x1_0000_0000_0000_0000
    requires total == Total(ActiveAt(w, n.height)) >= 1 && Cut(n, cut) && cut <= i < |n.rounds|
    requires Grounding(w, cr, TurnWith(cr, total, env), n, m, i, start)
    ensures Grounding(w, cr, TurnWith(cr, total, env), n, TurnWith(cr, total, env)(m, i), i + 1, start)
  {
    hide Turn, Good, AllGrounded, RangeKept, EnvOk;
    var turn := TurnWith(cr, total, env);
    TurnWithOk(w, cr, n.height, env, start);
    RunningStep(w, cr, turn, n, m, i, cut, start);
    RangeStep(turn, m, i, |n.rounds|);
    Decisions.GoodTimed(w, cr, m, start);
    NextEntry(n, m, i, cut);
    if IsOpen(m, i) {
      TurnGrounded(w, cr, m, i, env, start);
    }
  }

  lemma UpdateGrounded(w: World, cr: Crypto, n: Node, env: Env, start: nat)
    requires WorldOk(w, cr) && Good(w, cr, n, start) && EnvOk(w, env, n.height)
      && n.height + 1 < 0x1_0000_0000_0000_0000
    requires Total(Active(n.roster)) >= 1 && AllGrounded(w, cr, n.votes, n.chunks)
    requires RangeKept(TurnWith(cr, Total(Active(n.roster)), env), n, FirstOfHeight(n), |n.rounds|)
    ensures var m := Update(cr, n, env); AllGrounded(w, cr, m.votes, m.chunks)
  {
    hide TurnWith, AllGrounded, RangeKept, Good, EnvOk;
    var total := Total(Active(n.roster));
    SameTotal(w, cr, n, start);
    var cut := Decisions.CutOf(w, cr, n, start);
    var turn := TurnWith(cr, total, env);
    forall m, i: nat | cut <= i < |n.rounds| && Grounding(w, cr, turn, n, m, i, start)
      ensures Grounding(w, cr, turn, n, turn(m, i), i + 1, start)
    {
      GroundingStep(w, cr, total, env, n, m, i, cut, start);
    }
    assert Grounding(w, cr, turn, n, n, cut, start);
    GroundingLoop(w, cr, turn, n, cut, start);
  }

  lemma GroundingLoop(w: World, cr: Crypto, turn: (Node, nat) -> Node, n: Node, cut: nat, start: nat)
    requires Staked(w) && cut <= |n.rounds| && Grounding(w, cr, turn, n, n, cut, start)
    requires forall m, i: nat :: cut <= i < |n.rounds| && Grounding(w, cr, turn, n, m, i, start) ==>
                                   Grounding(w, cr, turn, n, turn(m, i), i + 1, start)
    ensures var m := Loop(turn, n, cut, |n.rounds|); AllGrounded(w, cr, m.votes, m.chunks)
  {
    var inv := (m: Node, i: nat) => Grounding(w, cr, turn, n, m, i, start);
    hide Running, AllGrounded;
    LoopKeeps(turn, n, cut, |n.rounds|, inv);
  }

  lemma StepGrounded(w: World, cr: Crypto, s: System, e: Event)
    requires WorldOk(w, cr) && Inv(w, cr, s) && AllGrounded(w, cr, s.votes, s.chunks) && Allowed(w, cr, s, e)
    ensures var t := Apply(w, cr, s, e); AllGrounded(w, cr, t.votes, t.chunks)
  {
    hide StartRound, Incorporate, Update, AllGrounded, Good, RangeKept, EnvOk, Inv;
    InvParts(w, cr, s);
    var t := Apply(w, cr, s, e);
    match e
    case Boot(k, roster, ingest, now, offer) =>
      var n := Newborn(k, roster, ingest, s.votes, s.chunks);
      Proposing.StartRoundFrame(cr, n, now, 0, offer);
      Authorship.StartRoundMine(cr, n, now, 0, offer);
      GroundedMore(w, cr, s.votes, s.chunks, t.votes, t.chunks);
    case Receive(k, p, j, sig) =>
      ReceiveSignsNothing(cr, View(s, k), p, j, sig);
    case Tick(k, env) =>
      UpdateGrounded(w, cr, View(s, k), env, s.starts[k]);
    case Sign(votes, chunks) =>
      GroundedMore(w, cr, s.votes, s.chunks, t.votes, t.chunks);
  }

  lemma ReceiveSignsNothing(cr: Crypto, n: Node, p: Packet, j: nat, sig: Sig)
    ensures Authorship.SignsNothing(n, Incorporate(cr, n, p, j, sig).0)
  {
    hide IncorporateInto, WithRound, LowerBound;
  }

  lemma {:induction false} RunGrounded(w: World, cr: Crypto, states: seq<System>, events: seq<Event>, i: nat)
    requires WorldOk(w, cr) && Run(w, cr, states, events) && i < |states|
    ensures AllGrounded(w, cr, states[i].votes, states[i].chunks)
  {
    if i > 0 {
      hide Apply, Allowed, Inv, AllGrounded;
      RunGrounded(w, cr, states, events, i - 1);
      RunInv(w, cr, states, events, i - 1);
      StepGrounded(w, cr, states[i - 1], events[i - 1]);
    }
  }

  // The first prevote never comes ----------------------------------------------------------------

  /** The proposer of the round is correct and has proposed a value again. */
  ghost predicate ProposedAgain(w: World, cr: Crypto, chunks: set<SignedChunk>, h: nat, r: nat) {
    exists c :: c in chunks && c.key == ProposerKey(cr, w.rosterAt(h), h, r) && c.key !in w.faulty
      && c.header.height == h && c.header.round == r && c.header.validRound >= 0
  }

  /** A correct proposer makes one proposal in a round: it is not both a first and a repeated one. */
  lemma NotBoth(w: World, cr: Crypto, s: System, h: nat, r: nat, id: ValueId)
    requires WorldOk(w, cr) && Inv(w, cr, s) && ProposedAgain(w, cr, s.chunks, h, r)
    ensures !FirstOffered(w, cr, s.chunks, h, r, id)
  {
    hide Good;
    var a :| a in s.chunks && a.key == ProposerKey(cr, w.rosterAt(h), h, r) && a.key !in w.faulty
      && a.header.height == h && a.header.round == r && a.header.validRound >= 0;
    assert OwnChunks(View(s, a.key)) by { GoodOwnChunks(w, cr, View(s, a.key), s.starts[a.key]); }
    forall b | b in s.chunks && b.key == a.key && b.header.height == h && b.header.round == r
      ensures b.header.validRound == a.header.validRound
    {
      assert SamePlace(a.header, b.header);
    }
  }

  lemma GoodOwnChunks(w: World, cr: Crypto, n: Node, start: nat)
    requires Staked(w) && Good(w, cr, n, start)
    ensures OwnChunks(n)
  {
  }

  /** The faulty members do not make a quorum of their own. */
  ghost predicate NoFaultyQuorum(w: World, h: nat)
    requires Staked(w)
  {
    StakeOf(ActiveAt(w, h), FaultyAt(w, h)) < Big(Total(ActiveAt(w, h)))
  }

  lemma BoundedIsNoQuorum(w: World, h: nat)
    requires FaultsBounded(w)
    ensures NoFaultyQuorum(w, h)
  {
    OverlapExceedsFaultBound(Total(ActiveAt(w, h)));
  }

  /** A quorum has a correct member in it. */
  lemma CorrectVoter(w: World, log: Log, h: nat, r: nat, k: Kind, id: ValueId) returns (key: PubKey)
    requires Staked(w) && NoFaultyQuorum(w, h) && Quorum(w, log, h, r, k, id)
    ensures key !in w.faulty && Vote(h, r, k, id, key) in log
  {
    var voters, faulty := Voters(w, log, h, r, k, id), FaultyAt(w, h);
    if voters <= faulty {
      StakeMonotone(ActiveAt(w, h), voters, faulty);
    }
    key :| key in voters && key !in faulty;
  }

  lemma {:induction false} OnlyNil(w: World, cr: Crypto, log: Log, chunks: set<SignedChunk>, h: nat, r: nat, k: nat)
    requires Staked(w) && NoFaultyQuorum(w, h) && AllGrounded(w, cr, log, chunks) && k < |log|
    requires forall id :: !FirstOffered(w, cr, chunks, h, r, id)
    requires log[k].key !in w.faulty && log[k].height == h && log[k].round == r && log[k].kind == Prevote
    ensures log[k].id == NIL_ID
    decreases k
  {
    var v := log[k];
    assert Grounded(w, cr, log, chunks, k);
    if v.id != NIL_ID {
      var key := CorrectVoter(w, log[..k], h, r, Prevote, v.id);
      var x :| 0 <= x < k && log[..k][x] == Vote(h, r, Prevote, v.id, key);
      OnlyNil(w, cr, log, chunks, h, r, x);
    }
  }

  /**
   * Over every run: in a round where a correct proposer proposes a value again, every correct prevote is nil, no
   * value gets a quorum of prevotes or precommits, and nobody decides, unless the faulty members alone make a quorum.
   */
  lemma RepeatIsNeverPrevoted(w: World, cr: Crypto, states: seq<System>, events: seq<Event>, i: nat, h: nat, r: nat)
    requires WorldOk(w, cr) && Run(w, cr, states, events) && i < |states| && NoFaultyQuorum(w, h)
    requires ProposedAgain(w, cr, states[i].chunks, h, r)
    ensures forall v ::
      v in states[i].votes && v.key !in w.faulty && v.height == h && v.round == r && v.kind == Prevote ==>
        v.id == NIL_ID
    ensures forall id :: id != NIL_ID ==>
      !Quorum(w, states[i].votes, h, r, Prevote, id) && !Quorum(w, states[i].votes, h, r, Precommit, id)
    ensures forall k :: Decided(states[i], k, h) ==> Decision(states[i], k, h).round != r
  {
    hide Run, Inv, LogOk, AllGrounded, ProposedAgain, FirstOffered;
    var s := states[i];
    RunInv(w, cr, states, events, i);
    RunGrounded(w, cr, states, events, i);
    forall id
      ensures !FirstOffered(w, cr, s.chunks, h, r, id)
    {
      NotBoth(w, cr, s, h, r, id);
    }
    forall v | v in s.votes && v.key !in w.faulty && v.height == h && v.round == r && v.kind == Prevote
      ensures v.id == NIL_ID
    {
      var k :| 0 <= k < |s.votes| && s.votes[k] == v;
      OnlyNil(w, cr, s.votes, s.chunks, h, r, k);
    }
    hide Quorum;
    forall id | id != NIL_ID
      ensures !Quorum(w, s.votes, h, r, Prevote, id) && !Quorum(w, s.votes, h, r, Precommit, id)
    {
      InvLog(w, cr, s);
      NoQuorumFor(w, s.votes, h, r, id);
    }
    forall k | Decided(s, k, h)
      ensures Decision(s, k, h).round != r
    {
      DecisionHasQuorum(w, cr, s, k, h);
    }
  }

  lemma NoQuorumFor(w: World, log: Log, h: nat, r: nat, id: ValueId)
    requires Staked(w) && NoFaultyQuorum(w, h) && LogOk(w, log) && id != NIL_ID
    requires forall v :: v in log && v.key !in w.faulty && v.height == h && v.round == r && v.kind == Prevote ==>
      v.id == NIL_ID
    ensures !Quorum(w, log, h, r, Prevote, id) && !Quorum(w, log, h, r, Precommit, id)
  {
    hide LogOk, Quorum;
    if Quorum(w, log, h, r, Precommit, id) {
      var key := CorrectVoter(w, log, h, r, Precommit, id);
      PrecommitHasQuorum(w, log, Vote(h, r, Precommit, id, key));
    }
    if Quorum(w, log, h, r, Prevote, id) {
      var key := CorrectVoter(w, log, h, r, Prevote, id);
    }
  }
}
