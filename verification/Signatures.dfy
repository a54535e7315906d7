/** Every signature that a node stores beside a vote of the current height verifies for that very vote. */
module Signatures {
  import opened Types
  import opened Roster
  import opened VoteLog
  import opened Messages
  import opened Rounds
  import opened Node

  ghost predicate SlotsVerify(cr: Crypto, rd: RoundData, roster: seq<Member>) {
    && |rd.votes| <= ActiveLen(roster)
    && forall j, k :: 0 <= j < |rd.votes| && rd.votes[j].Get(k).Cast() ==>
         var s := rd.votes[j].Get(k);
         cr.verify(roster[j].key, VoteBytes(Vote(rd.height, rd.round, k, s.id, roster[j].key)), s.sig)
  }

  /** No entry is ahead of the height, and those of the current height hold verified votes only. */
  ghost predicate Signed(cr: Crypto, n: Node) {
    forall i :: 0 <= i < |n.rounds| ==>
      n.rounds[i].height <= n.height && (n.rounds[i].height == n.height ==> SlotsVerify(cr, n.rounds[i], n.roster))
  }

  predicate SameRound(a: RoundData, b: RoundData) {
    a.height == b.height && a.round == b.round
  }

  /** Every slot of `b` is one of `a` or empty. */
  predicate FewerVotes(a: RoundData, b: RoundData, members: nat) {
    && SameRound(a, b) && |b.votes| <= members
    && forall j, k :: 0 <= j < |b.votes| ==>
      b.votes[j].Get(k) == NO_VOTE || (j < |a.votes| && b.votes[j].Get(k) == a.votes[j].Get(k))
  }

  lemma StoreFewer(rd: RoundData, mine: bool, h: ChunkHeader, data: seq<byte>, sig: Sig, ms: seq<Member>,
                   idOf: Value -> ValueId)
    requires |rd.proposal| == h.size && |rd.sigs| == ChunksN(h.size) && Fits(h, data) && |rd.votes| <= |ms|
    ensures FewerVotes(rd, StoreChunk(rd, mine, h, data, sig, ms, idOf).0, |ms|)
  {
    hide AnyPurged, SumCounts, ChunkSize, ChunksN;
  }

  lemma ChunkFewer(rd: RoundData, mine: bool, h: ChunkHeader, data: seq<byte>, sig: Sig, ms: seq<Member>,
                   idOf: Value -> ValueId)
    requires |rd.sigs| == ChunksN(|rd.proposal|) && Fits(h, data) && |rd.votes| <= |ms|
    ensures FewerVotes(rd, AddChunk(rd, mine, h, data, sig, ms, idOf).0, |ms|)
  {
    hide StoreChunk, ChunksN, ChunkSize;
    if rd.sigsN == 0 {
      StoreFewer(rd.(proposal := Zeros(h.size), sigs := seq(ChunksN(h.size), _ => NIL_SIG)), mine, h, data, sig, ms,
        idOf);
    } else if !Differs(rd, h) {
      StoreFewer(rd, mine, h, data, sig, ms, idOf);
    } else if mine {
      StoreFewer(Flush(rd, h, |ms|), mine, h, data, sig, ms, idOf);
    }
  }

  /** The packet carries the bytes of the vote it claims to be. */
  predicate TrueVote(n: Node, p: Packet, j: nat) {
    p.body.VoteBody? && j < |n.roster| ==>
      p.data == VoteBytes(Vote(p.height, p.round, p.body.kind, p.body.id, n.roster[j].key))
  }

  lemma VoteVerifies(cr: Crypto, rd: RoundData, k: Kind, j: nat, id: ValueId, sig: Sig, roster: seq<Member>)
    requires SlotsVerify(cr, rd, roster) && j < |rd.votes|
    requires cr.verify(roster[j].key, VoteBytes(Vote(rd.height, rd.round, k, id, roster[j].key)), sig)
    ensures var out := AddVote(rd, k, j, id, sig, Active(roster)).0; SameRound(rd, out) && SlotsVerify(cr, out, roster)
  {
    var out := AddVote(rd, k, j, id, sig, Active(roster)).0;
    forall x, l | 0 <= x < |out.votes| && out.votes[x].Get(l).Cast()
      ensures var s := out.votes[x].Get(l);
        cr.verify(roster[x].key, VoteBytes(Vote(out.height, out.round, l, s.id, roster[x].key)), s.sig)
    {
      assert (x == j && l == k) || out.votes[x].Get(l) == rd.votes[x].Get(l);
    }
  }

  lemma IntoSigned(cr: Crypto, n: Node, rd: RoundData, p: Packet, j: nat, sig: Sig)
    requires j < ActiveLen(n.roster) && Shaped(rd, ActiveLen(n.roster)) && ChunkInRange(p)
    requires SlotsVerify(cr, rd, n.roster) && rd.height == p.height && rd.round == p.round
    requires TrueVote(n, p, j) && cr.verify(n.roster[j].key, p.data, sig)
    ensures var out := IncorporateInto(cr, n, rd, p, j, sig).0; SameRound(rd, out) && SlotsVerify(cr, out, n.roster)
  {
    hide AddChunk, AddVote, ChunksN, ChunkSize;
    if p.body.ChunkBody? && ParseHeader(p.data).Some? {
      var size := ParseHeader(p.data).value.size;
      var data := p.data[HEADER_SIZE..HEADER_SIZE + ChunkSize(size, p.body.chunk)];
      ChunkFewer(rd, n.roster[j].key == n.key, HeaderFor(p, size), data, sig, Active(n.roster), cr.idOf);
    } else if p.body.VoteBody? {
      VoteVerifies(cr, rd, p.body.kind, j, p.body.id, sig, n.roster);
    }
  }

  lemma WithRoundSigned(cr: Crypto, n: Node, r: nat)
    requires Signed(cr, n)
    ensures Signed(cr, n.(rounds := WithRound(n, r))) && IsAt(WithRound(n, r), LowerBound(n.rounds, n.height, r),
      n.height, r)
  {
    var m, i := n.(rounds := WithRound(n, r)), LowerBound(n.rounds, n.height, r);
    if !Found(n.rounds, n.height, r) {
      forall x | 0 <= x < |m.rounds|
        ensures m.rounds[x].height <= m.height && (m.rounds[x].height == m.height ==>
          SlotsVerify(cr, m.rounds[x], m.roster))
      {
        if x < i {
          assert m.rounds[x] == n.rounds[x];
        } else if x > i {
          assert m.rounds[x] == n.rounds[x - 1];
        }
      }
    }
  }

  lemma IncorporateSigned(cr: Crypto, n: Node, p: Packet, j: nat, sig: Sig)
    requires Signed(cr, n) && TrueVote(n, p, j)
    ensures Signed(cr, Incorporate(cr, n, p, j, sig).0)
  {
    hide IncorporateInto, LowerBound, WithRound, SlotsVerify;
    if p.height == n.height && j < ActiveLen(n.roster) && cr.verify(n.roster[j].key, p.data, sig) {
      WithRoundSigned(cr, n, p.round);
      var m, i := n.(rounds := WithRound(n, p.round)), LowerBound(n.rounds, p.height, p.round);
      if Shaped(m.rounds[i], ActiveLen(n.roster)) && ChunkInRange(p) {
        IntoSigned(cr, n, m.rounds[i], p, j, sig);
      }
    }
  }

  /** Changing anything but places and votes is harmless. */
  lemma PutSigned(cr: Crypto, n: Node, i: nat, rd: RoundData)
    requires Signed(cr, n) && (i < |n.rounds| ==> SameRound(rd, n.rounds[i]) && rd.votes == n.rounds[i].votes)
    ensures Signed(cr, Put(n, i, rd))
  {
  }

  lemma CastVoteSigned(cr: Crypto, n: Node, i: nat, k: Kind, id: ValueId)
    requires Signed(cr, n)
    ensures Signed(cr, CastVote(cr, n, i, k, id))
  {
    hide Incorporate, SlotsVerify;
    if Seat(n).Some? {
      var v := Vote(Get(n, i).height, Get(n, i).round, k, id, n.key);
      IncorporateSigned(cr, n.(votes := n.votes + [v]), VotePacket(v), Seat(n).value, cr.sign(n.key, VoteBytes(v)));
    }
  }

  lemma CastChunksSigned(cr: Crypto, n: Node, h: nat, r: nat, j: nat, value: Value, validRound: int)
    requires Signed(cr, n)
    ensures Signed(cr, CastChunks(cr, n, h, r, j, value, validRound))
  {
    hide Incorporate, SlotsVerify;
    var turn := ChunkTurn(cr, h, r, j, value, validRound);
    var inv := (m: Node, c: nat) => Signed(cr, m);
    forall m, c: nat | inv(m, c)
      ensures inv(turn(m, c), c + 1)
    {
      if c < ChunksN(|value|) {
        var s := OwnChunk(cr, m, h, r, value, validRound, c);
        IncorporateSigned(cr, m.(chunks := m.chunks + {s}), ChunkPacket(s), j,
          cr.sign(m.key, ChunkBytes(s.header, s.data)));
      }
    }
    LoopKeeps(turn, n, 0, ChunksN(|value|), inv);
  }

  lemma StartRoundSigned(cr: Crypto, n: Node, now: nat, r: nat, offer: Option<Value>)
    requires Signed(cr, n)
    ensures Signed(cr, StartRound(cr, n, now, r, offer))
  {
    hide CastChunks, WithRound, SlotsVerify, LowerBound;
    var e, i := EnterRound(n, r), LowerBound(n.rounds, n.height, r);
    WithRoundSigned(cr, n, r);
    if Seat(e).Some? && Choice(e, offer).Some? {
      CastChunksSigned(cr, e, Get(e, i).height, Get(e, i).round, Seat(e).value, Choice(e, offer).value, e.valid.1);
    }
    var o := Offering(cr, e, i, offer);
    assert Signed(cr, o);
    PutSigned(cr, o, i, Get(o, i).(timeout := NewTimeout(now, o.height, o.round, AtPropose)));
  }

  lemma CheckSigned(cr: Crypto, n: Node, i: nat, verdict: Status)
    requires Signed(cr, n)
    ensures Signed(cr, Check(n, i, verdict))
  {
    PutSigned(cr, n, i, Validate(Get(n, i), verdict));
  }

  lemma EarlyRulesSigned(cr: Crypto, n: Node, i: nat, s: Snap, big: nat, env: Env)
    requires Signed(cr, n)
    ensures Signed(cr, Rule22(cr, n, i, s, env)) && Signed(cr, Rule28(cr, n, i, s, big, env))
  {
    hide CastVote, Signed, Validate;
    var m, l := Check(n, i, env.verdict(22, i, Get(n, i).proposal)),
      Check(n, i, env.verdict(28, i, Get(n, i).proposal));
    CheckSigned(cr, n, i, env.verdict(22, i, Get(n, i).proposal));
    CastVoteSigned(cr, m, i, Prevote, Get(m, i).id);
    CastVoteSigned(cr, m, i, Prevote, NIL_ID);
    CheckSigned(cr, n, i, env.verdict(28, i, Get(n, i).proposal));
    CastVoteSigned(cr, l, i, Prevote, Get(l, i).id);
    CastVoteSigned(cr, l, i, Prevote, NIL_ID);
  }

  lemma TimerRulesSigned(cr: Crypto, n: Node, i: nat, s: Snap, big: nat, env: Env)
    requires Signed(cr, n)
    ensures Signed(cr, Rule34(n, i, s, big, env)) && Signed(cr, Rule47(n, i, s, big, env))
  {
    var m, l := Put(n, i, Get(n, i).(prevoteTimeout := true)), Put(n, i, Get(n, i).(precommitTimeout := true));
    PutSigned(cr, n, i, Get(n, i).(prevoteTimeout := true));
    PutSigned(cr, m, i, Get(m, i).(timeout := NewTimeout(env.now, m.height, m.round, AtPrevote)));
    PutSigned(cr, n, i, Get(n, i).(precommitTimeout := true));
    PutSigned(cr, l, i, Get(l, i).(timeout := NewTimeout(env.now, l.height, l.round, AtPrecommit)));
  }

  lemma LateRulesSigned(cr: Crypto, n: Node, i: nat, s: Snap, big: nat, env: Env)
    requires Signed(cr, n)
    ensures Signed(cr, Rule36(cr, n, i, s, big, env)) && Signed(cr, Rule44(cr, n, i, s, big))
  {
    hide CastVote, SlotsVerify, Validate;
    var m := Check(n, i, env.verdict(36, i, Get(n, i).proposal));
    CheckSigned(cr, n, i, env.verdict(36, i, Get(n, i).proposal));
    CastVoteSigned(cr, m.(locked := (Some(Get(m, i).proposal), m.round)), i, Precommit, Get(m, i).id);
    CastVoteSigned(cr, n, i, Precommit, NIL_ID);
  }

  lemma VoteRulesSigned(cr: Crypto, n: Node, i: nat, s: Snap, big: nat, env: Env)
    requires Signed(cr, n)
    ensures Signed(cr, VoteRules(cr, n, i, s, big, env))
  {
    hide Signed, Rule22, Rule28, Rule34, Rule36, Rule44, Rule47;
    var n22 := Rule22(cr, n, i, s, env);
    var n28 := Rule28(cr, n22, i, s, big, env);
    var n34 := Rule34(n28, i, s, big, env);
    var n36 := Rule36(cr, n34, i, s, big, env);
    EarlyRulesSigned(cr, n, i, s, big, env);
    EarlyRulesSigned(cr, n22, i, s, big, env);
    TimerRulesSigned(cr, n28, i, s, big, env);
    LateRulesSigned(cr, n34, i, s, big, env);
    LateRulesSigned(cr, n36, i, s, big, env);
    TimerRulesSigned(cr, Rule44(cr, n36, i, s, big), i, s, big, env);
  }

  lemma {:induction false} BelowFrom(rs: seq<RoundData>, h: nat)
    ensures forall x :: x in Below(rs, h) ==> x in rs
  {
    if rs != [] {
      BelowFrom(rs[..|rs| - 1], h);
    }
  }

  lemma Rule49Signed(cr: Crypto, n: Node, i: nat, s: Snap, big: nat, env: Env)
    requires Signed(cr, n)
    ensures Signed(cr, Rule49(cr, n, i, s, big, env))
  {
    hide StartRound, SlotsVerify, Validate, Below;
    var m := Check(n, i, env.verdict(49, i, Get(n, i).proposal));
    CheckSigned(cr, n, i, env.verdict(49, i, Get(n, i).proposal));
    BelowFrom(m.rounds, m.height + 1);
    var c := CloseHeight(m, i, env.nextRoster(i));
    assert forall x :: 0 <= x < |c.rounds| ==> c.rounds[x] in m.rounds;
    StartRoundSigned(cr, c, env.now, 0, env.offer(49, i));
  }

  lemma TurnSigned(cr: Crypto, n: Node, i: nat, big: nat, small: nat, env: Env)
    requires Signed(cr, n)
    ensures Signed(cr, Turn(cr, n, i, big, small, env))
  {
    hide Signed, VoteRules, Rule49, StartRound, CastVote;
    var s := Look(n, i);
    var voted := VoteRules(cr, n, i, s, big, env);
    var decided := Rule49(cr, voted, i, s, big, env);
    var caughtUp := Rule55(cr, decided, i, s, small, env);
    VoteRulesSigned(cr, n, i, s, big, env);
    Rule49Signed(cr, voted, i, s, big, env);
    StartRoundSigned(cr, decided, env.now, Get(decided, i).round, env.offer(55, i));
    StartRoundSigned(cr, caughtUp, env.now, caughtUp.round + 1, env.offer(65, i));
    CastVoteSigned(cr, caughtUp, i, Prevote, NIL_ID);
    CastVoteSigned(cr, caughtUp, i, Precommit, NIL_ID);
  }

  lemma UpdateSigned(cr: Crypto, n: Node, env: Env)
    requires Signed(cr, n) && Total(Active(n.roster)) >= 1
    ensures Signed(cr, Update(cr, n, env))
  {
    hide Signed, Turn;
    var total := Total(Active(n.roster));
    var turn := TurnWith(cr, total, env);
    var inv := (m: Node, i: nat) => Signed(cr, m);
    forall m, i: nat | inv(m, i)
      ensures inv(turn(m, i), i + 1)
    {
      TurnSigned(cr, m, i, Big(total), Small(total), env);
    }
    LoopKeeps(turn, n, FirstOfHeight(n), |n.rounds|, inv);
  }
}
