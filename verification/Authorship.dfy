/** Whatever an operation of a node signs, it signs with the node's own key and after everything signed before. */
module Authorship {
  import opened Types
  import opened Roster
  import opened VoteLog
  import opened Rounds
  import opened Node

  ghost predicate Mine(n: Node, m: Node) {
    && m.key == n.key && n.votes <= m.votes && n.chunks <= m.chunks
    && (forall i :: |n.votes| <= i < |m.votes| ==> m.votes[i].key == n.key)
    && (forall c :: c in m.chunks && c !in n.chunks ==> c.key == n.key)
  }

  predicate SignsNothing(n: Node, m: Node) {
    m.key == n.key && m.votes == n.votes && m.chunks == n.chunks
  }

  lemma MineTwice(a: Node, b: Node, c: Node)
    requires Mine(a, b) && Mine(b, c)
    ensures Mine(a, c)
  {
  }

  lemma CastVoteMine(cr: Crypto, n: Node, i: nat, k: Kind, id: ValueId)
    ensures Mine(n, CastVote(cr, n, i, k, id))
  {
  }

  lemma CastChunkMine(cr: Crypto, n: Node, j: nat, s: SignedChunk)
    requires s.key == n.key
    ensures Mine(n, CastChunk(cr, n, j, s))
  {
  }

  lemma CastChunksMine(cr: Crypto, n: Node, h: nat, r: nat, j: nat, value: Value, validRound: int)
    ensures Mine(n, CastChunks(cr, n, h, r, j, value, validRound))
  {
    hide CastChunk;
    var turn := ChunkTurn(cr, h, r, j, value, validRound);
    var inv := (m: Node, c: nat) => Mine(n, m);
    forall m, c: nat | inv(m, c)
      ensures inv(turn(m, c), c + 1)
    {
      if c < ChunksN(|value|) {
        var s := OwnChunk(cr, m, h, r, value, validRound, c);
        CastChunkMine(cr, m, j, s);
        MineTwice(n, m, CastChunk(cr, m, j, s));
      }
    }
    LoopKeeps(turn, n, 0, ChunksN(|value|), inv);
  }

  lemma StartRoundMine(cr: Crypto, n: Node, now: nat, r: nat, offer: Option<Value>)
    ensures Mine(n, StartRound(cr, n, now, r, offer))
  {
    hide CastChunks, WithRound;
    var e, i := EnterRound(n, r), LowerBound(n.rounds, n.height, r);
    if Seat(e).Some? && Choice(e, offer).Some? {
      CastChunksMine(cr, e, Get(e, i).height, Get(e, i).round, Seat(e).value, Choice(e, offer).value, e.valid.1);
    }
  }

  lemma EarlyRulesMine(cr: Crypto, n: Node, i: nat, s: Snap, big: nat, env: Env)
    ensures Mine(n, Rule22(cr, n, i, s, env))
    ensures Mine(n, Rule28(cr, n, i, s, big, env))
    ensures SignsNothing(n, Rule34(n, i, s, big, env))
  {
    hide CastVote;
    var m := Check(n, i, env.verdict(22, i, Get(n, i).proposal));
    CastVoteMine(cr, m, i, Prevote, Get(m, i).id);
    CastVoteMine(cr, m, i, Prevote, NIL_ID);
    var l := Check(n, i, env.verdict(28, i, Get(n, i).proposal));
    CastVoteMine(cr, l, i, Prevote, Get(l, i).id);
    CastVoteMine(cr, l, i, Prevote, NIL_ID);
  }

  lemma LateRulesMine(cr: Crypto, n: Node, i: nat, s: Snap, big: nat, env: Env)
    ensures Mine(n, Rule36(cr, n, i, s, big, env))
    ensures Mine(n, Rule44(cr, n, i, s, big))
    ensures SignsNothing(n, Rule47(n, i, s, big, env))
  {
    hide CastVote;
    var m := Check(n, i, env.verdict(36, i, Get(n, i).proposal));
    CastVoteMine(cr, m.(locked := (Some(Get(m, i).proposal), m.round)), i, Precommit, Get(m, i).id);
    CastVoteMine(cr, n, i, Precommit, NIL_ID);
  }

  lemma VoteRulesMine(cr: Crypto, n: Node, i: nat, s: Snap, big: nat, env: Env)
    ensures Mine(n, VoteRules(cr, n, i, s, big, env))
  {
    hide Rule22, Rule28, Rule34, Rule36, Rule44, Rule47;
    var n22 := Rule22(cr, n, i, s, env);
    var n28 := Rule28(cr, n22, i, s, big, env);
    var n34 := Rule34(n28, i, s, big, env);
    var n36 := Rule36(cr, n34, i, s, big, env);
    EarlyRulesMine(cr, n, i, s, big, env);
    EarlyRulesMine(cr, n22, i, s, big, env);
    EarlyRulesMine(cr, n28, i, s, big, env);
    MineTwice(n, n22, n28);
    MineTwice(n, n28, n34);
    LateRulesMine(cr, n34, i, s, big, env);
    LateRulesMine(cr, n36, i, s, big, env);
    LateRulesMine(cr, Rule44(cr, n36, i, s, big), i, s, big, env);
    MineTwice(n, n34, n36);
    MineTwice(n, n36, Rule44(cr, n36, i, s, big));
  }

  lemma Rule49Mine(cr: Crypto, n: Node, i: nat, s: Snap, big: nat, env: Env)
    ensures Mine(n, Rule49(cr, n, i, s, big, env))
  {
    hide StartRound;
    var m := Check(n, i, env.verdict(49, i, Get(n, i).proposal));
    StartRoundMine(cr, CloseHeight(m, i, env.nextRoster(i)), env.now, 0, env.offer(49, i));
  }

  lemma TimeoutMine(cr: Crypto, n: Node, i: nat, s: Snap, env: Env)
    ensures Mine(n, RuleTimeout(cr, n, i, s, env))
  {
    hide StartRound, CastVote;
    StartRoundMine(cr, n, env.now, n.round + 1, env.offer(65, i));
    CastVoteMine(cr, n, i, Prevote, NIL_ID);
    CastVoteMine(cr, n, i, Precommit, NIL_ID);
  }

  lemma TurnMine(cr: Crypto, n: Node, i: nat, big: nat, small: nat, env: Env)
    ensures Mine(n, Turn(cr, n, i, big, small, env))
  {
    hide VoteRules, Rule49, RuleTimeout, StartRound;
    var s := Look(n, i);
    var voted := VoteRules(cr, n, i, s, big, env);
    var decided := Rule49(cr, voted, i, s, big, env);
    var caughtUp := Rule55(cr, decided, i, s, small, env);
    VoteRulesMine(cr, n, i, s, big, env);
    Rule49Mine(cr, voted, i, s, big, env);
    StartRoundMine(cr, decided, env.now, Get(decided, i).round, env.offer(55, i));
    TimeoutMine(cr, caughtUp, i, s, env);
    MineTwice(n, voted, decided);
    MineTwice(n, decided, caughtUp);
    MineTwice(n, caughtUp, RuleTimeout(cr, caughtUp, i, s, env));
  }

  /** One call of `bft_update` signs only with the node's own key. */
  lemma UpdateMine(cr: Crypto, n: Node, env: Env)
    requires Total(Active(n.roster)) >= 1
    ensures Mine(n, Update(cr, n, env))
  {
    hide Turn;
    var total := Total(Active(n.roster));
    var turn := TurnWith(cr, total, env);
    var inv := (m: Node, i: nat) => Mine(n, m);
    forall m, i: nat | inv(m, i)
      ensures inv(turn(m, i), i + 1)
    {
      TurnMine(cr, m, i, Big(total), Small(total), env);
      MineTwice(n, m, turn(m, i));
    }
    FirstInStore(n);
    LoopKeeps(turn, n, FirstOfHeight(n), |n.rounds|, inv);
  }

  lemma FirstInStore(n: Node)
    ensures FirstOfHeight(n) <= |n.rounds|
  {
  }
}
