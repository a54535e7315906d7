/** What entering a round comes to: what is proposed and signed, and the timer that is set. */
module Proposing {
  import opened Types
  import opened Roster
  import opened VoteLog
  import opened Messages
  import opened Rounds
  import opened Reassembly
  import opened Node
  import opened Invariant
  import opened Steps
  import opened Heights

  /** Chunk `c` of a proposal as its proposer signs it: 1212 bytes of the value, or what is left of it. */
  function Slice(cr: Crypto, key: PubKey, h: nat, r: nat, value: Value, validRound: int, c: nat): SignedChunk
    requires 1212 * c < |value|
  {
    SignedChunk(key, ChunkHeader(c, |value|, r, validRound, h, cr.idOf(value)),
      value[1212 * c..if 1212 * c + 1212 < |value| then 1212 * c + 1212 else |value|])
  }

  /** The first `upto` chunks of the proposal are signed, and nothing else is. */
  ghost predicate Signs(cr: Crypto, n: Node, m: Node, h: nat, r: nat, value: Value, validRound: int, upto: nat) {
    forall s :: s in m.chunks <==>
      || s in n.chunks
      || exists c: nat :: c < upto && 1212 * c < |value| && s == Slice(cr, n.key, h, r, value, validRound, c)
  }

  lemma OwnChunkIsSlice(cr: Crypto, n: Node, h: nat, r: nat, value: Value, validRound: int, c: nat)
    ensures c < ChunksN(|value|) <==> 1212 * c < |value|
    ensures c < ChunksN(|value|) ==>
      OwnChunk(cr, n, h, r, value, validRound, c) == Slice(cr, n.key, h, r, value, validRound, c)
  {
  }

  lemma CastChunkForm(cr: Crypto, n: Node, j: nat, s: SignedChunk)
    ensures var m := CastChunk(cr, n, j, s); m == n.(chunks := n.chunks + {s}, rounds := m.rounds)
  {
  }

  lemma CastChunksSign(cr: Crypto, n: Node, h: nat, r: nat, j: nat, value: Value, validRound: int)
    ensures var m := CastChunks(cr, n, h, r, j, value, validRound);
      m == n.(chunks := m.chunks, rounds := m.rounds) && Signs(cr, n, m, h, r, value, validRound, ChunksN(|value|))
  {
    hide CastChunk;
    var turn := ChunkTurn(cr, h, r, j, value, validRound);
    var inv := (m: Node, c: nat) =>
      m == n.(chunks := m.chunks, rounds := m.rounds) && Signs(cr, n, m, h, r, value, validRound, c);
    forall m, c: nat | c < ChunksN(|value|) && inv(m, c)
      ensures inv(turn(m, c), c + 1)
    {
      OwnChunkIsSlice(cr, m, h, r, value, validRound, c);
      CastChunkForm(cr, m, j, OwnChunk(cr, m, h, r, value, validRound, c));
    }
    LoopKeeps(turn, n, 0, ChunksN(|value|), inv);
  }

  /** Entering a round touches the round, the step, the store and the chunks signed, and nothing else. */
  lemma StartRoundFrame(cr: Crypto, n: Node, now: nat, r: nat, offer: Option<Value>)
    ensures var m := StartRound(cr, n, now, r, offer);
      m == n.(round := r, step := m.step, rounds := m.rounds, chunks := m.chunks)
  {
    hide CastChunks, ProposerKey;
    var e, i := EnterRound(n, r), LowerBound(n.rounds, n.height, r);
    if Seat(e).Some? && Choice(e, offer).Some? {
      CastChunksSign(cr, e, Get(e, i).height, Get(e, i).round, Seat(e).value, Choice(e, offer).value, e.valid.1);
    }
  }

  /** Where the round's entry is, once the round is entered. */
  lemma EnteredAt(n: Node, r: nat)
    ensures IsAt(EnterRound(n, r).rounds, LowerBound(n.rounds, n.height, r), n.height, r)
  {
  }

  /** What a node proposes: the value it knows to be valid, with its round, or else the one it is offered. */
  lemma OfferingSigns(cr: Crypto, n: Node, i: nat, offer: Option<Value>)
    requires IsAt(n.rounds, i, n.height, n.round)
    requires ProposerKey(cr, n.roster, n.height, n.round) == n.key ==> Seat(n).Some?
    ensures var m := Offering(cr, n, i, offer);
      var value := if n.valid.0.Some? then n.valid.0 else offer;
      && m == n.(step := AtPropose, rounds := m.rounds, chunks := m.chunks)
      && if ProposerKey(cr, n.roster, n.height, n.round) == n.key && value.Some? then
           Signs(cr, n, m, n.height, n.round, value.value, n.valid.1, ChunksN(|value.value|))
         else m.chunks == n.chunks
  {
    hide CastChunks, ProposerKey;
    var value := if n.valid.0.Some? then n.valid.0 else offer;
    if ProposerKey(cr, n.roster, n.height, n.round) == n.key && value.Some? {
      CastChunksSign(cr, n, n.height, n.round, Seat(n).value, value.value, n.valid.1);
    }
  }

  /**
   * The chunks that are signed on entering a round: by its proposer those of the valid value, with the round in which
   * it became valid, or, if there is none, those of the offered value, with valid round -1; by nobody else any.
   */
  ghost predicate Offers(cr: Crypto, key: PubKey, roster: seq<Member>, h: nat, r: nat, valid: (Option<Value>, int),
                         offer: Option<Value>, before: set<SignedChunk>, after: set<SignedChunk>) {
    if ProposerKey(cr, roster, h, r) != key then
      after == before
    else if valid.0.Some? then
      var v := valid.0.value;
      forall s :: s in after <==>
        s in before || exists c: nat :: 1212 * c < |v| && s == Slice(cr, key, h, r, v, valid.1, c)
    else if offer.Some? then
      var v := offer.value;
      forall s :: s in after <==>
        s in before || exists c: nat :: 1212 * c < |v| && s == Slice(cr, key, h, r, v, -1, c)
    else after == before
  }

  /**
   * The proposer of a round signs exactly the chunks of the value it knows to be valid, with that value's round;
   * it is not asked for another one. If it knows none, it signs those of the value it is offered, with valid
   * round -1. Nobody else signs anything.
   */
  lemma StartRoundSigns(cr: Crypto, n: Node, now: nat, r: nat, offer: Option<Value>, other: Option<Value>)
    requires n.valid.0.None? ==> n.valid.1 == -1
    requires ProposerKey(cr, n.roster, n.height, r) == n.key ==> Seat(n).Some?
    ensures var m := StartRound(cr, n, now, r, offer);
      && m == n.(round := r, step := AtPropose, rounds := m.rounds, chunks := m.chunks)
      && (n.valid.0.Some? ==> StartRound(cr, n, now, r, other) == m)
      && Offers(cr, n.key, n.roster, n.height, r, n.valid, offer, n.chunks, m.chunks)
  {
    hide Offering, ProposerKey;
    var i, e := LowerBound(n.rounds, n.height, r), EnterRound(n, r);
    EnteredAt(n, r);
    OfferingSigns(cr, e, i, offer);
    if n.valid.0.Some? {
      assert Choice(e, offer) == Choice(e, other);
      assert Offering(cr, e, i, offer) == Offering(cr, e, i, other) by { OfferIrrelevant(cr, e, i, offer, other); }
    }
    var value := if n.valid.0.Some? then n.valid.0 else offer;
    if value.Some? {
      forall c: nat
        ensures c < ChunksN(|value.value|) <==> 1212 * c < |value.value|
      {
        OwnChunkIsSlice(cr, n, n.height, r, value.value, n.valid.1, c);
      }
    }
  }

  lemma OfferIrrelevant(cr: Crypto, n: Node, i: nat, offer: Option<Value>, other: Option<Value>)
    requires n.valid.0.Some?
    ensures Offering(cr, n, i, offer) == Offering(cr, n, i, other)
  {
  }

  // The proposer's own entry ---------------------------------------------------------------------

  /** The proposal as one offer, with the signatures that the proposer gives. */
  function OfferOf(cr: Crypto, n: Node, value: Value, validRound: int): (o: Offer)
    ensures |o.sigs| == ChunksN(|value|)
  {
    Offer(value, validRound, n.height, n.round, cr.idOf(value), seq(ChunksN(|value|),
      c requires 0 <= c < ChunksN(|value|) =>
        var s := OwnChunk(cr, n, n.height, n.round, value, validRound, c);
        cr.sign(n.key, ChunkBytes(s.header, s.data))))
  }

  /** The node's own signatures verify. */
  ghost predicate Signing(cr: Crypto, key: PubKey) {
    forall d :: cr.verify(key, d, cr.sign(key, d))
  }

  lemma OfferWf(w: World, cr: Crypto, n: Node, value: Value, validRound: int)
    requires WorldOk(w, cr) && Signing(cr, n.key)
    ensures WfOffer(OfferOf(cr, n, value, validRound), cr.idOf)
  {
    var o := OfferOf(cr, n, value, validRound);
    forall c | 0 <= c < |o.sigs|
      ensures o.sigs[c] != NIL_SIG
    {
      var s := OwnChunk(cr, n, n.height, n.round, value, validRound, c);
      assert cr.verify(n.key, ChunkBytes(s.header, s.data), o.sigs[c]);
    }
  }

  /** A node that has signed nothing for the round holds no chunk in it, if it is the proposer. */
  lemma UntouchedIsClean(w: World, cr: Crypto, n: Node, i: nat, o: Offer, start: nat)
    requires WorldOk(w, cr) && Good(w, cr, n, start) && Current(n, i) && Untouched(n, n.round)
    requires ProposerKey(cr, n.roster, n.height, n.round) == n.key
    ensures n.rounds[i].sigsN == 0 && Clean(n.rounds[i], o, Active(n.roster))
  {
    HeldAll(n.rounds[i].sigs);
  }

  /** One chunk of the node's own goes to the entry of the round like one that arrives. */
  lemma OwnChunkArrives(cr: Crypto, n: Node, i: nat, j: nat, value: Value, validRound: int, c: nat)
    requires Sorted(n.rounds) && Current(n, i) && Shaped(n.rounds[i], ActiveLen(n.roster)) && Signing(cr, n.key)
    requires InRange(n) && Proposable(n, value, validRound) && c < ChunksN(|value|)
    requires j < ActiveLen(n.roster) && n.roster[j].key == n.key
    requires WfOffer(OfferOf(cr, n, value, validRound), cr.idOf)
    ensures var o, s := OfferOf(cr, n, value, validRound), OwnChunk(cr, n, n.height, n.round, value, validRound, c);
      CastChunk(cr, n, j, s) == n.(chunks := n.chunks + {s},
        rounds := n.rounds[i := Arrive(n.rounds[i], Chunk(c), o, true, Active(n.roster), cr.idOf)])
  {
    hide AddChunk, LowerBound, Sorted;
    var s := OwnChunk(cr, n, n.height, n.round, value, validRound, c);
    assert s == ChunkOf(cr, n, value, validRound, c);
    ChunkOfWf(cr, n, value, validRound, c);
    AtIsFound(n.rounds, i, n.height, n.round);
    var p := ChunkPacket(s);
    assert p.data[HEADER_SIZE..HEADER_SIZE + ChunkSize(|value|, c)] == s.data;
  }

  /** The first `c` chunks are in the entry, and the rest of the store is as before. */
  ghost predicate Collects(cr: Crypto, n: Node, m: Node, i: nat, o: Offer, c: nat) {
    && m == n.(chunks := m.chunks, rounds := m.rounds)
    && i < |n.rounds| == |m.rounds| && (forall x :: 0 <= x < |n.rounds| && x != i ==> m.rounds[x] == n.rounds[x])
    && Clean(m.rounds[i], o, Active(n.roster))
    && (forall x: nat :: x < ChunksN(|o.value|) ==> (Holds(m.rounds[i], x) <==> x < c))
    && m.rounds[i].height == n.rounds[i].height && m.rounds[i].round == n.rounds[i].round
    && m.rounds[i].checked == n.rounds[i].checked
  }

  lemma ArrivePlace(rd: RoundData, c: nat, o: Offer, ms: seq<Member>, idOf: Value -> ValueId)
    requires WfOffer(o, idOf) && c < ChunksN(|o.value|) && Clean(rd, o, ms)
    ensures var r := Arrive(rd, Chunk(c), o, true, ms, idOf);
      r.height == rd.height && r.round == rd.round && r.checked == rd.checked
  {
    HeldAll(rd.sigs);
  }

  lemma CollectsNext(cr: Crypto, n: Node, m: Node, i: nat, j: nat, value: Value, validRound: int, c: nat)
    requires Sorted(n.rounds) && Current(n, i) && Signing(cr, n.key)
    requires InRange(n) && Proposable(n, value, validRound) && c < ChunksN(|value|)
    requires j < ActiveLen(n.roster) && n.roster[j].key == n.key
    requires WfOffer(OfferOf(cr, n, value, validRound), cr.idOf)
    requires Collects(cr, n, m, i, OfferOf(cr, n, value, validRound), c)
    ensures Collects(cr, n, CastChunk(cr, m, j, OwnChunk(cr, m, n.height, n.round, value, validRound, c)), i,
      OfferOf(cr, n, value, validRound), c + 1)
  {
    hide CastChunk, Clean, Holds, OfferOf;
    var o, ms := OfferOf(cr, n, value, validRound), Active(n.roster);
    assert OfferOf(cr, m, value, validRound) == o && o.value == value by { SameOfferOf(cr, n, m, value, validRound); }
    assert Sorted(m.rounds) && Shaped(m.rounds[i], ActiveLen(n.roster)) by { CollectsShape(cr, n, m, i, o, c); }
    OwnChunkArrives(cr, m, i, j, value, validRound, c);
    ArriveClean(m.rounds[i], Chunk(c), o, true, ms, cr.idOf);
    ArrivePlace(m.rounds[i], c, o, ms, cr.idOf);
    forall x: nat | x < ChunksN(|o.value|)
      ensures Holds(Arrive(m.rounds[i], Chunk(c), o, true, ms, cr.idOf), x) <==> x < c + 1
    {
      ArriveHeld(m.rounds[i], Chunk(c), o, true, ms, cr.idOf, x);
    }
  }

  lemma SameOfferOf(cr: Crypto, n: Node, m: Node, value: Value, validRound: int)
    requires m.key == n.key && m.height == n.height && m.round == n.round
    ensures OfferOf(cr, m, value, validRound) == OfferOf(cr, n, value, validRound)
    ensures OfferOf(cr, n, value, validRound).value == value
  {
    var a, b := OfferOf(cr, m, value, validRound).sigs, OfferOf(cr, n, value, validRound).sigs;
    forall c | 0 <= c < ChunksN(|value|)
      ensures a[c] == b[c]
    {
      assert OwnChunk(cr, m, n.height, n.round, value, validRound, c) ==
        OwnChunk(cr, n, n.height, n.round, value, validRound, c);
    }
    assert a == b;
  }

  lemma CollectsShape(cr: Crypto, n: Node, m: Node, i: nat, o: Offer, c: nat)
    requires Sorted(n.rounds) && Collects(cr, n, m, i, o, c)
    ensures Sorted(m.rounds) && Shaped(m.rounds[i], ActiveLen(n.roster))
  {
  }

  lemma CastChunksCollect(w: World, cr: Crypto, n: Node, i: nat, j: nat, value: Value, validRound: int, start: nat)
    requires WorldOk(w, cr) && Good(w, cr, n, start) && Current(n, i) && Untouched(n, n.round) && Signing(cr, n.key)
    requires InRange(n) && Proposable(n, value, validRound) && ProposerKey(cr, n.roster, n.height, n.round) == n.key
    requires j < ActiveLen(n.roster) && n.roster[j].key == n.key
    ensures Collects(cr, n, CastChunks(cr, n, n.height, n.round, j, value, validRound), i,
      OfferOf(cr, n, value, validRound), ChunksN(|value|))
  {
    hide CastChunk, Clean, OfferOf, WfOffer, ProposerKey;
    var o, turn := OfferOf(cr, n, value, validRound), ChunkTurn(cr, n.height, n.round, j, value, validRound);
    OfferWf(w, cr, n, value, validRound);
    UntouchedIsClean(w, cr, n, i, o, start);
    var inv := (m: Node, c: nat) => Collects(cr, n, m, i, o, c);
    assert inv(n, 0);
    forall m, c: nat | c < ChunksN(|value|) && inv(m, c)
      ensures inv(turn(m, c), c + 1)
    {
      CollectsNext(cr, n, m, i, j, value, validRound, c);
    }
    hide Collects;
    LoopKeeps(turn, n, 0, ChunksN(|value|), inv);
  }

  /** The entry holds the whole proposal. */
  predicate HoldsProposal(cr: Crypto, rd: RoundData, value: Value, validRound: int) {
    && rd.proposal == value && rd.validRound == validRound && rd.id == cr.idOf(value) && !rd.faulty
    && rd.sigsN == |rd.sigs| > 0
  }

  lemma CollectedIsWhole(cr: Crypto, n: Node, m: Node, i: nat, value: Value, validRound: int)
    requires Collects(cr, n, m, i, OfferOf(cr, n, value, validRound), ChunksN(|value|)) && value != []
    ensures HoldsProposal(cr, m.rounds[i], value, validRound)
  {
    var o, rd := OfferOf(cr, n, value, validRound), m.rounds[i];
    assert o.value == value;
    assert Holds(rd, 0);
    forall x | 0 <= x < |rd.sigs|
      ensures rd.sigs[x] != NIL_SIG
    {
      assert Holds(rd, x);
    }
    HeldAll(rd.sigs);
    FullIsWhole(rd, o);
  }

  /** After proposing, the current entry holds the proposal; without one the store is as before. */
  lemma OfferingHolds(w: World, cr: Crypto, n: Node, i: nat, offer: Option<Value>, start: nat)
    requires WorldOk(w, cr) && Good(w, cr, n, start) && Current(n, i) && Untouched(n, n.round) && Signing(cr, n.key)
    requires InRange(n) && (offer.Some? ==> |offer.value| < SIZE_LIMIT)
    ensures var m := Offering(cr, n, i, offer);
      var value := if n.valid.0.Some? then n.valid.0 else offer;
      && |m.rounds| == |n.rounds| && IsAt(m.rounds, i, n.height, n.round) && m.height == n.height && m.round == n.round
      && (forall x :: 0 <= x < |n.rounds| && x != i ==> m.rounds[x] == n.rounds[x])
      && if ProposerKey(cr, n.roster, n.height, n.round) == n.key && value.Some? then
           value.value != [] ==> HoldsProposal(cr, m.rounds[i], value.value, n.valid.1)
         else m.rounds == n.rounds
  {
    hide CastChunks, ProposerKey, HoldsProposal, Good;
    var value := if n.valid.0.Some? then n.valid.0 else offer;
    if ProposerKey(cr, n.roster, n.height, n.round) == n.key && value.Some? {
      ValidFits(w, cr, n, start);
      ProposerSeated(w, cr, n);
      CastChunksCollect(w, cr, n, i, Seat(n).value, value.value, n.valid.1, start);
      var m := CastChunks(cr, n, n.height, n.round, Seat(n).value, value.value, n.valid.1);
      if value.value != [] {
        CollectedIsWhole(cr, n, m, i, value.value, n.valid.1);
      }
    }
  }

  lemma ValidFits(w: World, cr: Crypto, n: Node, start: nat)
    requires Staked(w) && Good(w, cr, n, start)
    ensures -1 <= n.valid.1 <= n.round && (n.valid.0.None? <==> n.valid.1 == -1) && n.roster == w.rosterAt(n.height)
    ensures n.valid.0.Some? ==> |n.valid.0.value| < SIZE_LIMIT
  {
  }

  /**
   * Entering a round sets its timer, five seconds and one more for every round. The proposer's own entry then holds
   * the whole proposal, unless it has no bytes; everybody else's is what it was.
   */
  lemma StartRoundOpens(w: World, cr: Crypto, n: Node, now: nat, r: nat, offer: Option<Value>, start: nat)
    requires WorldOk(w, cr) && MayEnter(w, cr, n, r, start) && InRange(n.(round := r)) && Signing(cr, n.key)
    requires offer.Some? ==> |offer.value| < SIZE_LIMIT
    ensures var m, i := StartRound(cr, n, now, r, offer), LowerBound(n.rounds, n.height, r);
      var value := if n.valid.0.Some? then n.valid.0 else offer;
      && IsAt(m.rounds, i, n.height, r) && |m.rounds| == |WithRound(n, r)|
      && (forall x :: 0 <= x < |m.rounds| && x != i ==> m.rounds[x] == WithRound(n, r)[x])
      && m.rounds[i].timeout == Some(Timeout(now + 5000 + 1000 * r, n.height, r, AtPropose))
      && if ProposerKey(cr, n.roster, n.height, r) == n.key && value.Some? then
           value.value != [] ==>
             HoldsProposal(cr, m.rounds[i], value.value, if n.valid.0.Some? then n.valid.1 else -1)
         else m.rounds[i] == EntryFor(n, r).(timeout := m.rounds[i].timeout)
  {
    hide Offering, ProposerKey, Good, MayEnter;
    var i, e := LowerBound(n.rounds, n.height, r), EnterRound(n, r);
    EnterGood(w, cr, n, r, start);
    ValidFits(w, cr, e, start);
    OfferingHolds(w, cr, e, i, offer, start);
  }

  /** The timer alone, which does not depend on the node's own signatures. */
  lemma StartRoundTimer(w: World, cr: Crypto, n: Node, now: nat, r: nat, offer: Option<Value>, start: nat)
    requires WorldOk(w, cr) && MayEnter(w, cr, n, r, start) && InRange(n.(round := r))
    requires offer.Some? ==> |offer.value| < SIZE_LIMIT
    ensures var m, i := StartRound(cr, n, now, r, offer), LowerBound(n.rounds, n.height, r);
      && IsAt(m.rounds, i, n.height, r)
      && m.rounds[i].timeout == Some(Timeout(now + 5000 + 1000 * r, n.height, r, AtPropose))
  {
    hide Offering, Good, MayEnter;
    EnterGood(w, cr, n, r, start);
    OfferingGood(w, cr, EnterRound(n, r), LowerBound(n.rounds, n.height, r), offer, start);
  }
}
