/** Entering rounds, closing heights, and the whole of `bft_update`. */
module Heights {
  import opened Types
  import opened Roster
  import opened VoteLog
  import opened Messages
  import opened Rounds
  import opened Node
  import opened Invariant
  import opened Steps

  // Counts are stake behind signed votes ---------------------------------------------------------

  /** The stake counted as yes belongs to members of `keys`, if every yes vote does. */
  lemma {:induction false} YesStake(votes: seq<Slots>, ms: seq<Member>, k: Kind, keys: set<PubKey>)
    requires |votes| == |ms|
    requires forall j :: 0 <= j < |votes| && votes[j].Get(k).Yes() ==> ms[j].key in keys
    ensures var counts := SumCounts(votes, ms);
      (if k == Prevote then counts.yesPrevotes else counts.yesPrecommits) <= StakeOf(ms, keys)
  {
    if votes != [] {
      var n := |votes| - 1;
      YesStake(votes[..n], ms[..n], k, keys);
      SumPrefix(votes[..n], ms, n);
      assert votes[n].Get(k).Yes() ==> ms[n].key in keys;
    }
  }

  lemma {:induction false} SumPrefix(votes: seq<Slots>, ms: seq<Member>, n: nat)
    requires |votes| <= n <= |ms|
    ensures SumCounts(votes, ms[..n]) == SumCounts(votes, ms)
  {
    if votes != [] {
      SumPrefix(votes[..|votes| - 1], ms, n);
    }
  }

  /** Once a chunk is held, a yes count of `big` stake is a quorum for the round's id. */
  lemma CountIsQuorum(w: World, cr: Crypto, n: Node, rd: RoundData, k: Kind)
    requires Staked(w) && n.roster == w.rosterAt(n.height) && rd.height == n.height
    requires RoundOk(cr, rd, n.roster) && RoundSigned(cr, rd, n) && rd.sigsN > 0
    requires Big(Total(ActiveAt(w, n.height))) <= if k == Prevote then rd.counts.yesPrevotes
      else rd.counts.yesPrecommits
    ensures Quorum(w, n.votes, rd.height, rd.round, k, rd.id)
  {
    var ms, keys := Active(n.roster), Voters(w, n.votes, rd.height, rd.round, k, rd.id);
    forall j | 0 <= j < |rd.votes| && rd.votes[j].Get(k).Yes()
      ensures ms[j].key in keys
    {
      assert rd.votes[j].Get(k).id == rd.id && ms[j] in ms;
    }
    YesStake(rd.votes, ms, k, keys);
  }

  lemma LookOk(w: World, cr: Crypto, n: Node, i: nat, start: nat)
    requires Staked(w) && Good(w, cr, n, start) && i < |n.rounds| && n.rounds[i].height == n.height
    ensures SnapOk(w, n, i, Look(n, i), Big(Total(ActiveAt(w, n.height))))
  {
    var rd := n.rounds[i];
    assert RoundOk(cr, rd, n.roster) && RoundSigned(cr, rd, n);
    LookAt(w, cr, n, i);
  }

  lemma LookAt(w: World, cr: Crypto, n: Node, i: nat)
    requires Staked(w) && n.roster == w.rosterAt(n.height) && i < |n.rounds| && n.rounds[i].height == n.height
    requires RoundOk(cr, n.rounds[i], n.roster) && RoundSigned(cr, n.rounds[i], n)
    ensures SnapOk(w, n, i, Look(n, i), Big(Total(ActiveAt(w, n.height))))
  {
    var s, big := Look(n, i), Big(Total(ActiveAt(w, n.height)));
    if s.decidable && big <= s.counts.yesPrevotes {
      CountIsQuorum(w, cr, n, n.rounds[i], Prevote);
    }
    if s.decidable && big <= s.counts.yesPrecommits {
      CountIsQuorum(w, cr, n, n.rounds[i], Precommit);
    }
  }

  // Entering a round -----------------------------------------------------------------------------

  /** Nothing of our own is signed for round `r` of the current height or later. */
  ghost predicate Untouched(n: Node, r: nat) {
    && (forall v :: v in n.votes && v.key == n.key ==> Before(v.height, v.round, n.height, r))
    && (forall c :: c in n.chunks && c.key == n.key ==> Before(c.header.height, c.header.round, n.height, r))
  }

  /** Round `r` may be entered: it lies ahead, and the lock and the valid value are from before it. */
  ghost predicate MayEnter(w: World, cr: Crypto, n: Node, r: nat, start: nat)
    requires Staked(w)
  {
    && Base(w, cr, n, start) && Untouched(n, r) && n.valid.1 < r
    && (exists old_: nat :: old_ <= r && LockOk(cr, n.(round := old_)))
    && (r == 0 || Entry(n, 0).Some?)
  }

  lemma EnterGood(w: World, cr: Crypto, n: Node, r: nat, start: nat)
    requires Staked(w) && MayEnter(w, cr, n, r, start)
    ensures var e := EnterRound(n, r);
      && Good(w, cr, e, start) && Untouched(e, r) && Current(e, LowerBound(n.rounds, n.height, r))
      && (forall cut :: Cut(n, cut) ==> Cut(e, cut)) && |n.rounds| <= |e.rounds|
  {
    var e, a := EnterRound(n, r), n.(rounds := WithRound(n, r));
    WithRoundOk(cr, n, r);
    StepIrrelevant(cr, a, e);
    EntryAdded(n, r);
    if r != 0 {
      EntryWithRound(n, r, 0);
    }
    assert Entry(e, 0) == Entry(a, 0) && Entry(e, r) == Entry(a, r);
    forall cut | Cut(n, cut)
      ensures Cut(e, cut) && Current(e, LowerBound(n.rounds, n.height, r)) && |n.rounds| <= |e.rounds|
    {
      WithRoundSorted(n, r, cut);
      assert Cut(a, cut);
    }
  }

  // Proposing ------------------------------------------------------------------------------------

  function ChunkOf(cr: Crypto, n: Node, value: Value, validRound: int, c: nat): SignedChunk
    requires c < ChunksN(|value|)
  {
    OwnChunk(cr, n, n.height, n.round, value, validRound, c)
  }

  /** Own chunks of the current round are the first `c` chunks of `value`. */
  ghost predicate ChunksSoFar(cr: Crypto, n: Node, value: Value, validRound: int, c: nat) {
    forall s :: s in n.chunks && s.key == n.key && s.header.height == n.height && s.header.round == n.round ==>
      s.header.chunk < c && s.header.chunk < ChunksN(|value|) && s == ChunkOf(cr, n, value, validRound, s.header.chunk)
  }

  lemma SignedChunkOk(w: World, cr: Crypto, n: Node, s: SignedChunk)
    requires WorldOk(w, cr) && SignedOk(n.votes, n.chunks) && WfChunk(s) && s.key !in w.faulty
    ensures SignedOk(n.votes, n.chunks + {s})
  {
    forall v: Vote | v.key == s.key
      ensures VoteBytes(v) != ChunkBytes(s.header, s.data)
    {
      ChunkIsNoVote(s.header, s.data, v, CHUNK);
    }
  }

  predicate Proposable(n: Node, value: Value, validRound: int) {
    |value| < SIZE_LIMIT && -1 <= validRound <= n.round
  }

  lemma ChunkOfWf(cr: Crypto, n: Node, value: Value, validRound: int, c: nat)
    requires InRange(n) && Proposable(n, value, validRound) && c < ChunksN(|value|)
    ensures WfChunk(ChunkOf(cr, n, value, validRound, c))
    ensures var s := ChunkOf(cr, n, value, validRound, c);
      ParseHeader(ChunkBytes(s.header, s.data)) == Some(s.header)
        && ChunkBytes(s.header, s.data)[HEADER_SIZE..] == s.data
  {
    var s := ChunkOf(cr, n, value, validRound, c);
    assert c <= |value|;
    HeaderRoundTrip(s.header, s.data);
    HeaderFields(s.header, s.data);
  }

  /** Signing one more chunk of the proposal. */
  lemma SignChunkGood(w: World, cr: Crypto, n: Node, value: Value, validRound: int, c: nat, start: nat)
    requires WorldOk(w, cr) && Good(w, cr, n, start) && InRange(n) && Proposable(n, value, validRound)
    requires c < ChunksN(|value|) && ChunksSoFar(cr, n, value, validRound, c)
    ensures var m := n.(chunks := n.chunks + {ChunkOf(cr, n, value, validRound, c)});
      Good(w, cr, m, start) && ChunksSoFar(cr, m, value, validRound, c + 1)
  {
    var s := ChunkOf(cr, n, value, validRound, c);
    var m := n.(chunks := n.chunks + {s});
    ChunkOfWf(cr, n, value, validRound, c);
    SignedChunkOk(w, cr, n, s);
    StoreGrows(cr, n, m);
    OwnChunksGrow(cr, n, value, validRound, c);
    ChunksChanged(w, cr, n, m, start);
  }

  lemma OwnChunksGrow(cr: Crypto, n: Node, value: Value, validRound: int, c: nat)
    requires OwnChunks(n) && c < ChunksN(|value|) && ChunksSoFar(cr, n, value, validRound, c)
    ensures var m := n.(chunks := n.chunks + {ChunkOf(cr, n, value, validRound, c)});
      OwnChunks(m) && ChunksSoFar(cr, m, value, validRound, c + 1)
  {
  }

  /** Only the set of signed chunks changed. */
  lemma ChunksChanged(w: World, cr: Crypto, n: Node, m: Node, start: nat)
    requires Staked(w) && Good(w, cr, n, start) && m == n.(chunks := m.chunks)
    requires StoreOk(cr, m) && OwnChunks(m) && SignedOk(m.votes, m.chunks)
    ensures Good(w, cr, m, start)
  {
    assert Entry(m, 0) == Entry(n, 0) && Entry(m, n.round) == Entry(n, n.round);
  }

  /** A message for a round that is already there changes no entry's place. */
  lemma IncorporateHere(w: World, cr: Crypto, n: Node, p: Packet, j: nat, sig: Sig, i: nat)
    requires WorldOk(w, cr) && n.key !in w.faulty && OwnChunks(n) && StoreOk(cr, n)
    requires p.height == n.height && j < |n.roster| && GoodPacket(cr, n, p, j) && IsAt(n.rounds, i, p.height, p.round)
    ensures var m := Incorporate(cr, n, p, j, sig).0; |m.rounds| == |n.rounds| && IsAt(m.rounds, i, p.height, p.round)
  {
    AtIsFound(n.rounds, i, p.height, p.round);
    if j < ActiveLen(n.roster) && cr.verify(n.roster[j].key, p.data, sig) {
      PacketInRange(cr, n, p, j);
      IncorporateIntoOk(w, cr, n, n.rounds[i], p, j, sig);
    }
  }

  /** Proposing stays in the current round and only fills its entry. */
  ghost predicate Within(n: Node, m: Node, i: nat) {
    && m == n.(rounds := m.rounds, chunks := m.chunks, step := m.step)
    && Current(m, i) && |m.rounds| == |n.rounds| && (forall cut :: Cut(n, cut) ==> Cut(m, cut))
  }

  lemma CastChunkGood(w: World, cr: Crypto, n: Node, i: nat, j: nat, value: Value, validRound: int, c: nat, start: nat)
    requires WorldOk(w, cr) && Good(w, cr, n, start) && InRange(n) && Current(n, i) && Proposable(n, value, validRound)
    requires c < ChunksN(|value|) && ChunksSoFar(cr, n, value, validRound, c) && j < |n.roster|
      && n.roster[j].key == n.key
    requires ProposerKey(cr, n.roster, n.height, n.round) == n.key
    ensures var m := CastChunk(cr, n, j, ChunkOf(cr, n, value, validRound, c));
      && Good(w, cr, m, start) && ChunksSoFar(cr, m, value, validRound, c + 1) && Within(n, m, i)
  {
    var s := ChunkOf(cr, n, value, validRound, c);
    var a := n.(chunks := n.chunks + {s});
    SignChunkGood(w, cr, n, value, validRound, c, start);
    OwnChunkGood(w, cr, a, i, j, value, validRound, c, start);
    forall cut | Cut(n, cut)
      ensures Cut(a, cut)
    {
    }
  }

  lemma OwnChunkGood(w: World, cr: Crypto, a: Node, i: nat, j: nat, value: Value, validRound: int, c: nat, start: nat)
    requires WorldOk(w, cr) && Good(w, cr, a, start) && InRange(a) && Current(a, i) && Proposable(a, value, validRound)
    requires c < ChunksN(|value|) && j < |a.roster| && a.roster[j].key == a.key
    requires ProposerKey(cr, a.roster, a.height, a.round) == a.key && ChunkOf(cr, a, value, validRound, c) in a.chunks
    ensures var s := ChunkOf(cr, a, value, validRound, c);
      var b := Incorporate(cr, a, ChunkPacket(s), j, cr.sign(a.key, ChunkBytes(s.header, s.data))).0;
      Good(w, cr, b, start) && Within(a, b, i) && b.chunks == a.chunks
  {
    var s := ChunkOf(cr, a, value, validRound, c);
    var p, sig := ChunkPacket(s), cr.sign(a.key, ChunkBytes(s.header, s.data));
    ChunkOfWf(cr, a, value, validRound, c);
    assert GoodPacket(cr, a, p, j);
    IncorporateOk(w, cr, a, p, j, sig);
    IncorporateHere(w, cr, a, p, j, sig, i);
    StoreChanged(w, cr, a, Incorporate(cr, a, p, j, sig).0, start);
  }

  ghost predicate Casting(w: World, cr: Crypto, n: Node, m: Node, i: nat, value: Value, validRound: int, c: nat,
                          start: nat)
    requires Staked(w)
  {
    Good(w, cr, m, start) && ChunksSoFar(cr, m, value, validRound, c) && Within(n, m, i) && m.step == n.step
  }

  lemma CastingStep(w: World, cr: Crypto, n: Node, m: Node, i: nat, j: nat, value: Value, validRound: int, c: nat,
                    start: nat)
    requires WorldOk(w, cr) && InRange(n) && Proposable(n, value, validRound) && c < ChunksN(|value|)
    requires Casting(w, cr, n, m, i, value, validRound, c, start)
    requires j < |n.roster| && n.roster[j].key == n.key && ProposerKey(cr, n.roster, n.height, n.round) == n.key
    ensures Casting(w, cr, n, CastChunk(cr, m, j, OwnChunk(cr, m, n.height, n.round, value, validRound, c)), i, value,
      validRound, c + 1, start)
  {
    CastChunkGood(w, cr, m, i, j, value, validRound, c, start);
    CastChunkStep(cr, m, j, ChunkOf(cr, m, value, validRound, c));
  }

  lemma CastingKept(w: World, cr: Crypto, n: Node, i: nat, j: nat, value: Value, validRound: int, start: nat)
    requires WorldOk(w, cr) && InRange(n) && Proposable(n, value, validRound)
    requires j < |n.roster| && n.roster[j].key == n.key && ProposerKey(cr, n.roster, n.height, n.round) == n.key
    ensures forall m, c: nat :: c < ChunksN(|value|) && Casting(w, cr, n, m, i, value, validRound, c, start) ==>
      Casting(w, cr, n, ChunkTurn(cr, n.height, n.round, j, value, validRound)(m, c), i, value, validRound, c + 1,
        start)
  {
    forall m, c: nat | c < ChunksN(|value|) && Casting(w, cr, n, m, i, value, validRound, c, start)
      ensures Casting(w, cr, n, ChunkTurn(cr, n.height, n.round, j, value, validRound)(m, c), i, value, validRound,
        c + 1, start)
    {
      CastingStep(w, cr, n, m, i, j, value, validRound, c, start);
    }
  }

  lemma CastChunksGood(w: World, cr: Crypto, n: Node, i: nat, j: nat, value: Value, validRound: int, start: nat)
    requires WorldOk(w, cr) && Casting(w, cr, n, n, i, value, validRound, 0, start) && InRange(n)
      && Proposable(n, value, validRound)
    requires j < |n.roster| && n.roster[j].key == n.key && ProposerKey(cr, n.roster, n.height, n.round) == n.key
    ensures Casting(w, cr, n, CastChunks(cr, n, n.height, n.round, j, value, validRound), i, value, validRound,
      ChunksN(|value|), start)
  {
    CastingKept(w, cr, n, i, j, value, validRound, start);
    LoopKeeps(ChunkTurn(cr, n.height, n.round, j, value, validRound), n, 0, ChunksN(|value|),
              (m: Node, c: nat) => Casting(w, cr, n, m, i, value, validRound, c, start));
  }

  lemma CastChunkStep(cr: Crypto, n: Node, j: nat, s: SignedChunk)
    ensures CastChunk(cr, n, j, s).step == n.step
  {
  }

  /** The proposer of a round always finds itself among the active members. */
  lemma ProposerSeated(w: World, cr: Crypto, n: Node)
    requires WorldOk(w, cr) && n.roster == w.rosterAt(n.height)
    requires ProposerKey(cr, n.roster, n.height, n.round) == n.key
    ensures Seat(n).Some?
  {
    assert Total(ActiveAt(w, n.height)) >= 1;
    ProposerIsActive(n.roster, cr.lot(n.height, n.round));
    var j := ProposerAt(cr, n.roster, n.height, n.round).value;
    assert Active(n.roster)[j].key == n.key;
  }

  lemma StepBack(w: World, cr: Crypto, n: Node, start: nat)
    requires Staked(w) && Good(w, cr, n, start)
    requires forall v :: v in n.votes && v.key == n.key ==> Before(v.height, v.round, n.height, n.round)
    ensures Good(w, cr, n.(step := AtPropose), start)
  {
    var m := n.(step := AtPropose);
    StepIrrelevant(cr, n, m);
    assert Entry(m, 0) == Entry(n, 0) && Entry(m, n.round) == Entry(n, n.round);
  }

  lemma StepWithin(n: Node, m: Node, i: nat)
    requires Within(n, m, i)
    ensures Within(n, m.(step := AtPropose), i)
  {
    forall cut | Cut(n, cut)
      ensures Cut(m.(step := AtPropose), cut)
    {
      assert Cut(m, cut);
    }
  }

  lemma OfferingGood(w: World, cr: Crypto, n: Node, i: nat, offer: Option<Value>, start: nat)
    requires WorldOk(w, cr) && Good(w, cr, n, start) && InRange(n) && Current(n, i) && Untouched(n, n.round)
    requires offer.Some? ==> |offer.value| < SIZE_LIMIT
    ensures var m := Offering(cr, n, i, offer); Good(w, cr, m, start) && Within(n, m, i)
  {
    hide CastChunks;
    if ProposerKey(cr, n.roster, n.height, n.round) == n.key && Choice(n, offer).Some? {
      ProposerSeated(w, cr, n);
      var value, j := Choice(n, offer).value, Seat(n).value;
      var m := CastChunks(cr, n, n.height, n.round, j, value, n.valid.1);
      CastChunksGood(w, cr, n, i, j, value, n.valid.1, start);
      StepBack(w, cr, m, start);
      StepWithin(n, m, i);
    } else {
      StepBack(w, cr, n, start);
      StepWithin(n, n, i);
    }
  }

  /** `start_round` keeps the invariant and ends in the round asked for. */
  lemma StartRoundGood(w: World, cr: Crypto, n: Node, now: nat, r: nat, offer: Option<Value>, start: nat)
    requires WorldOk(w, cr) && MayEnter(w, cr, n, r, start) && InRange(n.(round := r))
    requires offer.Some? ==> |offer.value| < SIZE_LIMIT
    ensures var m := StartRound(cr, n, now, r, offer);
      && Good(w, cr, m, start) && m.round == r && m.votes == n.votes && |n.rounds| <= |m.rounds|
      && m == n.(round := m.round, rounds := m.rounds, chunks := m.chunks, step := m.step)
      && (forall cut :: Cut(n, cut) ==> Cut(m, cut))
  {
    hide Offering;
    EnterGood(w, cr, n, r, start);
    OpenRoundGood(w, cr, EnterRound(n, r), LowerBound(n.rounds, n.height, r), now, offer, start);
  }

  /** What `start_round` does once the round is entered: propose, and start the timer. */
  lemma OpenRoundGood(w: World, cr: Crypto, e: Node, i: nat, now: nat, offer: Option<Value>, start: nat)
    requires WorldOk(w, cr) && Good(w, cr, e, start) && InRange(e) && Current(e, i) && Untouched(e, e.round)
    requires offer.Some? ==> |offer.value| < SIZE_LIMIT
    ensures var m := SetTimeout(Offering(cr, e, i, offer), i, now, AtPropose); Good(w, cr, m, start) && Within(e, m, i)
  {
    hide Offering;
    var o := Offering(cr, e, i, offer);
    OfferingGood(w, cr, e, i, offer, start);
    TimeoutGood(w, cr, o, i, o.rounds[i], now, AtPropose, start);
    assert Put(o, i, o.rounds[i]) == o;
  }

  /** A later round of the same height may be entered. */
  lemma LaterRoundMayEnter(w: World, cr: Crypto, n: Node, r: nat, start: nat)
    requires Staked(w) && Good(w, cr, n, start) && n.round < r
    ensures MayEnter(w, cr, n, r, start)
  {
    assert n.(round := n.round) == n;
    assert LockOk(cr, n.(round := n.round));
  }
}
