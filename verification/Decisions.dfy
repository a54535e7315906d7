/** Every decision of every run comes with a certificate. */
module Decisions {
  import opened Types
  import opened Roster
  import opened VoteLog
  import opened Rounds
  import opened Node
  import opened Invariant
  import opened Steps
  import opened Heights
  import opened Updates
  import opened Signatures
  import opened Network
  import opened Certificate
  import Authorship

  /** The entry's fat pointer certifies it against the roster of its height. */
  ghost predicate Proven(w: World, cr: Crypto, h: nat, rd: RoundData) {
    |rd.votes| <= |w.rosterAt(h)| && Certifies(cr, w.rosterAt(h), FatPointerOf(rd, w.rosterAt(h)), h, rd.round, rd.id)
  }

  ghost predicate Chain(w: World, cr: Crypto, n: Node, start: nat) {
    forall h: nat :: start <= h < |n.committed| ==> Proven(w, cr, h, n.committed[h])
  }

  // Counts do not shrink before line 49 ----------------------------------------------------------

  /** Entries keep their places, the decisions stay, and entry `i` loses no counted precommit. */
  predicate Grown(n: Node, m: Node, i: nat) {
    && m.committed == n.committed && |m.rounds| == |n.rounds|
    && (forall x :: 0 <= x < |n.rounds| ==>
      m.rounds[x].height == n.rounds[x].height && m.rounds[x].round == n.rounds[x].round)
    && (i < |n.rounds| ==> n.rounds[i].counts.yesPrecommits <= m.rounds[i].counts.yesPrecommits)
  }

  lemma GrownTwice(a: Node, b: Node, c: Node, i: nat)
    requires Grown(a, b, i) && Grown(b, c, i) && Sorted(a.rounds)
    ensures Grown(a, c, i) && Sorted(b.rounds)
  {
  }

  lemma CastVoteGrown(cr: Crypto, n: Node, i: nat, k: Kind, id: ValueId)
    requires Sorted(n.rounds) && i < |n.rounds|
    ensures Grown(n, CastVote(cr, n, i, k, id), i)
  {
    hide LowerBound, Position;
    if Seat(n).Some? && n.rounds[i].height == n.height {
      AtIsFound(n.rounds, i, n.rounds[i].height, n.rounds[i].round);
    }
  }

  lemma EarlyGrown(cr: Crypto, n: Node, i: nat, s: Snap, big: nat, env: Env)
    requires Sorted(n.rounds) && i < |n.rounds|
    ensures Grown(n, Rule22(cr, n, i, s, env), i) && Grown(n, Rule28(cr, n, i, s, big, env), i)
      && Grown(n, Rule34(n, i, s, big, env), i)
  {
    hide CastVote;
    var m, l := Check(n, i, env.verdict(22, i, Get(n, i).proposal)),
      Check(n, i, env.verdict(28, i, Get(n, i).proposal));
    CastVoteGrown(cr, m, i, Prevote, Get(m, i).id);
    CastVoteGrown(cr, m, i, Prevote, NIL_ID);
    CastVoteGrown(cr, l, i, Prevote, Get(l, i).id);
    CastVoteGrown(cr, l, i, Prevote, NIL_ID);
  }

  lemma LateGrown(cr: Crypto, n: Node, i: nat, s: Snap, big: nat, env: Env)
    requires Sorted(n.rounds) && i < |n.rounds|
    ensures Grown(n, Rule36(cr, n, i, s, big, env), i) && Grown(n, Rule44(cr, n, i, s, big), i)
      && Grown(n, Rule47(n, i, s, big, env), i)
  {
    hide CastVote;
    var m := Check(n, i, env.verdict(36, i, Get(n, i).proposal));
    CastVoteGrown(cr, m.(locked := (Some(Get(m, i).proposal), m.round)), i, Precommit, Get(m, i).id);
    CastVoteGrown(cr, n, i, Precommit, NIL_ID);
  }

  lemma VoteRulesGrown(cr: Crypto, n: Node, i: nat, s: Snap, big: nat, env: Env)
    requires Sorted(n.rounds) && i < |n.rounds|
    ensures Grown(n, VoteRules(cr, n, i, s, big, env), i)
  {
    hide Rule22, Rule28, Rule34, Rule36, Rule44, Rule47, Sorted;
    var n22 := Rule22(cr, n, i, s, env);
    var n28 := Rule28(cr, n22, i, s, big, env);
    var n34 := Rule34(n28, i, s, big, env);
    var n36 := Rule36(cr, n34, i, s, big, env);
    var n44 := Rule44(cr, n36, i, s, big);
    EarlyGrown(cr, n, i, s, big, env);
    GrownTwice(n, n, n22, i);
    GrownSorted(n, n22, i);
    EarlyGrown(cr, n22, i, s, big, env);
    GrownTwice(n, n22, n28, i);
    GrownSorted(n, n28, i);
    EarlyGrown(cr, n28, i, s, big, env);
    GrownTwice(n, n28, n34, i);
    GrownSorted(n, n34, i);
    LateGrown(cr, n34, i, s, big, env);
    GrownTwice(n, n34, n36, i);
    GrownSorted(n, n36, i);
    LateGrown(cr, n36, i, s, big, env);
    GrownTwice(n, n36, n44, i);
    GrownSorted(n, n44, i);
    LateGrown(cr, n44, i, s, big, env);
    GrownTwice(n, n44, Rule47(n44, i, s, big, env), i);
  }

  lemma GrownSorted(n: Node, m: Node, i: nat)
    requires Sorted(n.rounds) && Grown(n, m, i)
    ensures Sorted(m.rounds)
  {
  }

  // Starting a round decides nothing -------------------------------------------------------------

  lemma CastChunksDecides(cr: Crypto, n: Node, h: nat, r: nat, j: nat, value: Value, validRound: int)
    ensures CastChunks(cr, n, h, r, j, value, validRound).committed == n.committed
  {
    var turn := ChunkTurn(cr, h, r, j, value, validRound);
    var inv := (m: Node, c: nat) => m.committed == n.committed;
    forall m, c: nat | inv(m, c)
      ensures inv(turn(m, c), c + 1)
    {
      if c < ChunksN(|value|) {
        CastChunkDecides(cr, m, j, OwnChunk(cr, m, h, r, value, validRound, c));
      }
    }
    LoopKeeps(turn, n, 0, ChunksN(|value|), inv);
  }

  lemma CastChunkDecides(cr: Crypto, n: Node, j: nat, s: SignedChunk)
    ensures CastChunk(cr, n, j, s).committed == n.committed
  {
    hide IncorporateInto, WithRound, LowerBound;
  }

  lemma StartRoundDecides(cr: Crypto, n: Node, now: nat, r: nat, offer: Option<Value>)
    ensures StartRound(cr, n, now, r, offer).committed == n.committed
  {
    hide CastChunks, WithRound, LowerBound;
    var e, i := EnterRound(n, r), LowerBound(n.rounds, n.height, r);
    if Seat(e).Some? && Choice(e, offer).Some? {
      CastChunksDecides(cr, e, Get(e, i).height, Get(e, i).round, Seat(e).value, Choice(e, offer).value, e.valid.1);
    }
  }

  lemma TurnEndDecides(cr: Crypto, n: Node, i: nat, s: Snap, small: nat, env: Env)
    ensures RuleTimeout(cr, Rule55(cr, n, i, s, small, env), i, s, env).committed == n.committed
  {
    hide StartRound, IncorporateInto, WithRound, LowerBound, Position;
    var a := Rule55(cr, n, i, s, small, env);
    StartRoundDecides(cr, n, env.now, Get(n, i).round, env.offer(55, i));
    StartRoundDecides(cr, a, env.now, a.round + 1, env.offer(65, i));
  }

  // Every turn keeps the chain proven ------------------------------------------------------------

  lemma Rule49Chain(w: World, cr: Crypto, v: Node, i: nat, s: Snap, big: nat, env: Env, start: nat)
    requires WorldOk(w, cr) && Good(w, cr, v, start) && Signed(cr, v) && InRange(v) && i < |v.rounds|
    requires v.rounds[i].height == v.height && big == Big(Total(ActiveAt(w, v.height)))
    requires s.counts.yesPrecommits <= v.rounds[i].counts.yesPrecommits && Chain(w, cr, v, start)
    ensures Chain(w, cr, Rule49(cr, v, i, s, big, env), start)
  {
    hide StartRound, Good, Certifies, WorldOk, Endorsements;
    var m := Check(v, i, env.verdict(49, i, Get(v, i).proposal));
    if s.decidable && big <= s.counts.yesPrecommits && Get(m, i).checked == Pass {
      assert v.roster == w.rosterAt(v.height) && Staked(w) by { GoodRoster(w, cr, v, start); }
      CheckSigned(cr, v, i, env.verdict(49, i, Get(v, i).proposal));
      CheckGood(w, cr, v, i, env.verdict(49, i, Get(v, i).proposal), start);
      PushedCertifies(w, cr, m, i, start);
      var c := CloseHeight(m, i, env.nextRoster(i));
      StartRoundDecides(cr, c, env.now, 0, env.offer(49, i));
      assert |v.committed| == v.height by { GoodRoster(w, cr, v, start); }
    }
  }

  lemma GoodRoster(w: World, cr: Crypto, n: Node, start: nat)
    requires WorldOk(w, cr) && Good(w, cr, n, start)
    ensures Staked(w) && n.roster == w.rosterAt(n.height) && |n.committed| == n.height && Sorted(n.rounds)
  {
  }

  lemma TurnChain(w: World, cr: Crypto, n: Node, i: nat, small: nat, env: Env, start: nat)
    requires WorldOk(w, cr) && Good(w, cr, n, start) && Signed(cr, n) && InRange(n) && IsOpen(n, i)
    requires EnvOk(w, env, n.height) && Chain(w, cr, n, start)
    ensures Chain(w, cr, Turn(cr, n, i, Big(Total(ActiveAt(w, n.height))), small, env), start)
  {
    hide Rule49, Rule55, RuleTimeout, VoteRules, Good, Proven, Signed, WorldOk;
    assert Staked(w) && Sorted(n.rounds) by { GoodRoster(w, cr, n, start); }
    var big, s := Big(Total(ActiveAt(w, n.height))), Look(n, i);
    var v := VoteRules(cr, n, i, s, big, env);
    LookOk(w, cr, n, i, start);
    VoteRulesGood(w, cr, n, i, s, big, env, start);
    VoteRulesSigned(cr, n, i, s, big, env);
    VoteRulesGrown(cr, n, i, s, big, env);
    Rule49Chain(w, cr, v, i, s, big, env, start);
    TurnEndDecides(cr, Rule49(cr, v, i, s, big, env), i, s, small, env);
  }

  /** What holds of the node before each turn of an update that began with `n`. */
  ghost predicate Proving(w: World, cr: Crypto, turn: (Node, nat) -> Node, n: Node, m: Node, i: nat, start: nat)
    requires Staked(w)
  {
    Running(w, cr, turn, n, m, i, start) && Signed(cr, m) && Chain(w, cr, m, start)
  }

  lemma ProvingStep(w: World, cr: Crypto, total: nat, env: Env, n: Node, m: Node, i: nat, cut: nat, start: nat)
    requires WorldOk(w, cr) && EnvOk(w, env, n.height) && n.height + 1 < 0x1_0000_0000_0000_0000
    requires total == Total(ActiveAt(w, n.height)) >= 1 && Cut(n, cut) && cut <= i < |n.rounds|
    requires Proving(w, cr, TurnWith(cr, total, env), n, m, i, start)
    ensures Proving(w, cr, TurnWith(cr, total, env), n, TurnWith(cr, total, env)(m, i), i + 1, start)
  {
    hide Turn, Good, Signed, Chain, WorldOk, RangeKept;
    assert Staked(w) by { StakedWorld(w, cr); }
    var turn := TurnWith(cr, total, env);
    TurnWithOk(w, cr, n.height, env, start);
    RunningStep(w, cr, turn, n, m, i, cut, start);
    RangeStep(turn, m, i, |n.rounds|);
    GoodTimed(w, cr, m, start);
    NextEntry(n, m, i, cut);
    TurnSigned(cr, m, i, Big(total), Small(total), env);
    if IsOpen(m, i) {
      TurnChain(w, cr, m, i, Small(total), env, start);
    }
  }

  lemma ProvingLoop(w: World, cr: Crypto, turn: (Node, nat) -> Node, n: Node, cut: nat, start: nat)
    requires Staked(w) && cut <= |n.rounds| && Proving(w, cr, turn, n, n, cut, start)
    requires forall m, i: nat :: cut <= i < |n.rounds| && Proving(w, cr, turn, n, m, i, start) ==>
                                   Proving(w, cr, turn, n, turn(m, i), i + 1, start)
    ensures Proving(w, cr, turn, n, Loop(turn, n, cut, |n.rounds|), |n.rounds|, start)
  {
    hide Proving;
    LoopKeeps(turn, n, cut, |n.rounds|, (m: Node, i: nat) => Proving(w, cr, turn, n, m, i, start));
  }

  lemma GoodTimed(w: World, cr: Crypto, n: Node, start: nat)
    requires Staked(w) && Good(w, cr, n, start)
    ensures forall x :: 0 <= x < |n.rounds| ==> Timed(n.rounds[x])
  {
  }

  lemma UpdateChain(w: World, cr: Crypto, n: Node, env: Env, start: nat)
    requires WorldOk(w, cr) && Good(w, cr, n, start) && EnvOk(w, env, n.height)
      && n.height + 1 < 0x1_0000_0000_0000_0000
    requires Total(Active(n.roster)) >= 1 && Signed(cr, n) && Chain(w, cr, n, start)
    requires RangeKept(TurnWith(cr, Total(Active(n.roster)), env), n, FirstOfHeight(n), |n.rounds|)
    ensures Chain(w, cr, Update(cr, n, env), start)
  {
    hide TurnWith, Signed, Chain, WorldOk, RangeKept, Good, EnvOk;
    var total := Total(Active(n.roster));
    assert Staked(w) && n.roster == w.rosterAt(n.height) by { GoodRoster(w, cr, n, start); }
    var cut := CutOf(w, cr, n, start);
    forall m, i: nat | cut <= i < |n.rounds| && Proving(w, cr, TurnWith(cr, total, env), n, m, i, start)
      ensures Proving(w, cr, TurnWith(cr, total, env), n, TurnWith(cr, total, env)(m, i), i + 1, start)
    {
      ProvingStep(w, cr, total, env, n, m, i, cut, start);
    }
    ProvingLoop(w, cr, TurnWith(cr, total, env), n, cut, start);
  }

  lemma CutOf(w: World, cr: Crypto, n: Node, start: nat) returns (cut: nat)
    requires Staked(w) && Good(w, cr, n, start)
    ensures Cut(n, cut) && cut == FirstOfHeight(n) <= |n.rounds|
  {
    cut :| Cut(n, cut);
    FirstIsCut(n, cut);
  }

  // Over runs ------------------------------------------------------------------------------------

  ghost predicate AllProven(w: World, cr: Crypto, s: System) {
    forall k :: k in s.nodes && k in s.starts ==> Chain(w, cr, s.nodes[k], s.starts[k])
  }

  lemma StepProven(w: World, cr: Crypto, s: System, e: Event)
    requires WorldOk(w, cr) && Inv(w, cr, s) && AllSigned(cr, s) && AllProven(w, cr, s) && Allowed(w, cr, s, e)
    ensures AllProven(w, cr, Apply(w, cr, s, e))
  {
    hide Signed, StartRound, Incorporate, Update, Proven, Good, RangeKept, EnvOk, Inv, WorldOk;
    assert Staked(w) by { StakedWorld(w, cr); }
    InvParts(w, cr, s);
    match e
    case Boot(k, roster, ingest, now, offer) =>
      var n := Newborn(k, roster, ingest, s.votes, s.chunks);
      StartRoundDecides(cr, n, now, 0, offer);
      Authorship.StartRoundMine(cr, n, now, 0, offer);
    case Receive(k, p, j, sig) =>
      ReceiveGood(w, cr, View(s, k), p, j, sig, s.starts[k]);
    case Tick(k, env) =>
      SignedFrame(cr, s.nodes[k], View(s, k));
      UpdateChain(w, cr, View(s, k), env, s.starts[k]);
      Authorship.UpdateMine(cr, View(s, k), env);
    case Sign(_, _) =>
  }

  lemma StakedWorld(w: World, cr: Crypto)
    requires WorldOk(w, cr)
    ensures Staked(w)
  {
  }

  lemma {:induction false} RunProven(w: World, cr: Crypto, states: seq<System>, events: seq<Event>, i: nat)
    requires WorldOk(w, cr) && Run(w, cr, states, events) && i < |states|
    ensures AllProven(w, cr, states[i])
  {
    hide Apply, Allowed, AllSigned, Inv, Chain;
    if i > 0 {
      RunProven(w, cr, states, events, i - 1);
      RunInv(w, cr, states, events, i - 1);
      RunSigned(w, cr, states, events, i - 1);
      StepProven(w, cr, states[i - 1], events[i - 1]);
    }
  }

  /**
   * Over every run, each height that a correct node has closed is closed with a round whose fat
   * pointer lists distinct active members holding `big` stake, with signatures that verify.
   */
  lemma EveryDecisionIsProven(w: World, cr: Crypto, states: seq<System>, events: seq<Event>, i: nat, k: PubKey, h: nat)
    requires WorldOk(w, cr) && Run(w, cr, states, events) && i < |states| && Decided(states[i], k, h)
    ensures Proven(w, cr, h, Decision(states[i], k, h))
  {
    hide Run, Proven;
    RunProven(w, cr, states, events, i);
  }
}
