/** What every operation of a correct node keeps, relative to everything signed so far. */
module Invariant {
  import opened Types
  import opened Roster
  import opened VoteLog
  import opened Messages
  import opened Rounds
  import opened Reassembly
  import opened Node

  /** Assumptions on the world: rosters are well formed and signatures of correct keys are deterministic. */
  ghost predicate WorldOk(w: World, cr: Crypto) {
    && Staked(w)
    && (forall h: nat :: PrefixSums(w.rosterAt(h)))
    && (forall k, d, s :: cr.verify(k, d, s) ==> s != NIL_SIG)
    && (forall k, d, s :: k !in w.faulty && cr.verify(k, d, s) ==> s == cr.sign(k, d))
    && (forall k :: k !in w.faulty ==> SeparatesVotes(k, CHUNK))
    && (forall v :: cr.idOf(v) != NIL_ID)
  }

  // Everything signed so far ---------------------------------------------------------------------

  predicate WfChunk(c: SignedChunk) {
    WfHeader(c.header) && -1 <= c.header.validRound < NO_ROUND && Fits(c.header, c.data)
  }

  /** Signed byte strings are well formed, and one that reads both as a vote and as a chunk counts as both. */
  ghost predicate SignedOk(votes: Log, chunks: set<SignedChunk>) {
    && (forall v :: v in votes ==> WfVote(v))
    && (forall c :: c in chunks ==> WfChunk(c))
    && (forall v, c: SignedChunk ::
      WfVote(v) && WfChunk(c) && v.key == c.key && VoteBytes(v) == ChunkBytes(c.header, c.data) ==>
          (v in votes <==> c in chunks))
  }

  /** Some member key `k` has signed exactly these bytes. */
  ghost predicate Authentic(votes: Log, chunks: set<SignedChunk>, k: PubKey, data: seq<byte>) {
    || (exists v :: v in votes && v.key == k && VoteBytes(v) == data)
    || (exists c :: c in chunks && c.key == k && ChunkBytes(c.header, c.data) == data)
  }

  lemma AuthenticVote(votes: Log, chunks: set<SignedChunk>, v: Vote)
    requires SignedOk(votes, chunks) && WfVote(v) && Authentic(votes, chunks, v.key, VoteBytes(v))
    ensures v in votes
  {
    if u :| u in votes && u.key == v.key && VoteBytes(u) == VoteBytes(v) {
      VoteBytesInjective(u, v);
    }
  }

  lemma ChunkBytesInjective(a: SignedChunk, b: SignedChunk)
    requires WfChunk(a) && WfChunk(b) && a.key == b.key && ChunkBytes(a.header, a.data) == ChunkBytes(b.header, b.data)
    ensures a == b
  {
    HeaderRoundTrip(a.header, a.data);
    HeaderRoundTrip(b.header, b.data);
    HeaderFields(a.header, a.data);
    HeaderFields(b.header, b.data);
  }

  lemma AuthenticChunk(votes: Log, chunks: set<SignedChunk>, c: SignedChunk)
    requires SignedOk(votes, chunks) && WfChunk(c) && Authentic(votes, chunks, c.key, ChunkBytes(c.header, c.data))
    ensures c in chunks
  {
    if d :| d in chunks && d.key == c.key && ChunkBytes(d.header, d.data) == ChunkBytes(c.header, c.data) {
      ChunkBytesInjective(d, c);
    }
  }

  // Rounds of the current height -----------------------------------------------------------------

  /** Every vote stored is one that its member signed. */
  ghost predicate Backed(rd: RoundData, ms: seq<Member>, votes: Log) {
    forall j, k :: 0 <= j < |rd.votes| && j < |ms| && rd.votes[j].Get(k).Cast() ==>
      Vote(rd.height, rd.round, k, rd.votes[j].Get(k).id, ms[j].key) in votes
  }

  function HeaderHeld(rd: RoundData, c: nat): ChunkHeader {
    ChunkHeader(c, |rd.proposal|, rd.round, rd.validRound, rd.height, rd.id)
  }

  /** The signature held for chunk `c` is the proposer's, on a chunk of this very proposal. */
  ghost predicate Proposed(cr: Crypto, rd: RoundData, c: nat, proposer: PubKey, chunks: set<SignedChunk>)
    requires c < |rd.sigs|
  {
    exists d :: SignedChunk(proposer, HeaderHeld(rd, c), d) in chunks
             && cr.verify(proposer, ChunkBytes(HeaderHeld(rd, c), d), rd.sigs[c])
  }

  ghost predicate Offered(cr: Crypto, rd: RoundData, proposer: PubKey, chunks: set<SignedChunk>) {
    forall c :: 0 <= c < |rd.sigs| && rd.sigsN > 0 && rd.sigs[c] != NIL_SIG ==> Proposed(cr, rd, c, proposer, chunks)
  }

  /** A full proposal that is not known to be faulty hashes to its id, and only such a one is ever valid. */
  predicate Vetted(cr: Crypto, rd: RoundData) {
    && (rd.Full() ==> rd.faulty || rd.id == cr.idOf(rd.proposal))
    && (rd.checked == Pass ==> rd.Full() && rd.id == cr.idOf(rd.proposal))
    && (rd.faulty ==> rd.sigsN > 0)
  }

  predicate Timed(rd: RoundData) {
    rd.timeout.Some? ==> rd.timeout.value.height == rd.height && rd.timeout.value.round == rd.round
  }

  const SIZE_LIMIT: nat := 0x1_0000_0000

  /** The local part: what the round's own data satisfy. */
  ghost predicate RoundOk(cr: Crypto, rd: RoundData, roster: seq<Member>) {
    && Shaped(rd, ActiveLen(roster)) && Counted(rd, Active(roster)) && Homogeneous(rd) && Assembled(rd)
      && Vetted(cr, rd)
    && |rd.proposal| < SIZE_LIMIT
  }

  ghost predicate RoundSigned(cr: Crypto, rd: RoundData, n: Node) {
    && Backed(rd, Active(n.roster), n.votes)
    && Offered(cr, rd, ProposerKey(cr, n.roster, rd.height, rd.round), n.chunks)
  }

  // The node -------------------------------------------------------------------------------------

  /** Entries before `cut` belong to closed heights, the others to the current one. */
  ghost predicate Cut(n: Node, cut: nat) {
    && cut <= |n.rounds|
    && (forall i :: 0 <= i < cut ==> n.rounds[i].height < n.height)
    && (forall i :: cut <= i < |n.rounds| ==> n.rounds[i].height == n.height)
  }

  ghost predicate StoreOk(cr: Crypto, n: Node) {
    && Sorted(n.rounds)
    && (exists cut :: Cut(n, cut))
    && (forall i :: 0 <= i < |n.rounds| ==> Timed(n.rounds[i]))
    && (forall i :: 0 <= i < |n.rounds| && n.rounds[i].height == n.height ==>
          RoundOk(cr, n.rounds[i], n.roster) && RoundSigned(cr, n.rounds[i], n))
  }

  /** Own votes lie at or before the current round, and the step tells which of its votes are cast. */
  ghost predicate OwnVotes(n: Node) {
    forall v :: v in n.votes && v.key == n.key ==>
      && !Before(n.height, n.round, v.height, v.round)
      && (v.height == n.height && v.round == n.round ==>
        n.step != AtPropose && (n.step == AtPrevote ==> v.kind == Prevote))
  }

  predicate SamePlace(a: ChunkHeader, b: ChunkHeader) {
    a.height == b.height && a.round == b.round
  }

  predicate SameOffer(a: ChunkHeader, b: ChunkHeader) {
    a.size == b.size && a.id == b.id && a.validRound == b.validRound
  }

  /** Own chunks lie at or before the current round, and each round has one proposal. */
  ghost predicate OwnChunks(n: Node) {
    && (forall c :: c in n.chunks && c.key == n.key ==> !Before(n.height, n.round, c.header.height, c.header.round))
    && (forall a, b ::
      a in n.chunks && b in n.chunks && a.key == n.key && b.key == n.key && SamePlace(a.header, b.header) ==>
          SameOffer(a.header, b.header) && (a.header.chunk == b.header.chunk ==> a == b))
  }

  /** Every height closed since `start` was closed with a precommit quorum for the hash of its value. */
  ghost predicate CommittedOk(w: World, cr: Crypto, n: Node, start: nat)
    requires Staked(w)
  {
    && |n.committed| == n.height
    && (forall h: nat :: start <= h < n.height ==>
          var rd := n.committed[h];
          rd.height == h && rd.id != NIL_ID && rd.id == cr.idOf(rd.proposal)
            && Quorum(w, n.votes, h, rd.round, Precommit, rd.id))
  }

  ghost predicate Base(w: World, cr: Crypto, n: Node, start: nat)
    requires Staked(w)
  {
    && n.key !in w.faulty && n.roster == w.rosterAt(n.height)
    && StoreOk(cr, n) && OwnVotes(n) && OwnChunks(n) && CommittedOk(w, cr, n, start)
    && LogOk(w, n.votes) && SignedOk(n.votes, n.chunks)
  }

  /** The lock is the last non-nil precommit of this height, and the valid value is at least as recent. */
  ghost predicate LockOk(cr: Crypto, n: Node) {
    var l := LockOf(n.votes, n.key, n.height);
    && (l == None ==> n.locked == (None, -1))
    && (l.Some? ==> n.locked.0.Some? && cr.idOf(n.locked.0.value) == l.value.id && n.locked.1 == l.value.round)
    && -1 <= n.locked.1 <= n.valid.1 <= n.round
    && (n.locked.1 == n.valid.1 ==> n.locked.0 == n.valid.0)
    && (n.valid.1 == -1 <==> n.valid.0 == None)
    && (n.valid.0.Some? ==> |n.valid.0.value| < SIZE_LIMIT)
    && (n.locked.1 == n.round ==>
          var e := Entry(n, n.round);
          e.Some? && e.value.checked == Pass && n.locked.0 == Some(e.value.proposal))
  }

  /** The current height's data for round `r`. */
  function Entry(n: Node, r: nat): Option<RoundData> {
    if Found(n.rounds, n.height, r) then Some(n.rounds[LowerBound(n.rounds, n.height, r)]) else None
  }

  predicate Placed(n: Node) {
    Entry(n, 0).Some? && Entry(n, n.round).Some?
  }

  /** The invariant of a running correct node. */
  ghost predicate Good(w: World, cr: Crypto, n: Node, start: nat)
    requires Staked(w)
  {
    Base(w, cr, n, start) && LockOk(cr, n) && Placed(n)
  }

  // The store ------------------------------------------------------------------------------------

  lemma AtIsFound(rs: seq<RoundData>, i: nat, h: nat, r: nat)
    requires Sorted(rs) && IsAt(rs, i, h, r)
    ensures LowerBound(rs, h, r) == i && Found(rs, h, r)
  {
    var l := LowerBound(rs, h, r);
    assert l <= i;
  }

  /** The search-and-insert keeps the store sorted and cut, and afterwards the entry is there. */
  lemma WithRoundSorted(n: Node, r: nat, cut: nat)
    requires Sorted(n.rounds) && Cut(n, cut)
    ensures var i, rs := LowerBound(n.rounds, n.height, r), WithRound(n, r);
      && Sorted(rs) && cut <= i && IsAt(rs, i, n.height, r) && Cut(n.(rounds := rs), cut)
      && |n.rounds| <= |rs|
      && (rs == n.rounds || (rs[..i] == n.rounds[..i] && rs[i] == EmptyRound(n.height, r, ActiveLen(n.roster))
        && rs[i + 1..] == n.rounds[i..]))
  {
    var i, rs := LowerBound(n.rounds, n.height, r), WithRound(n, r);
    if !Found(n.rounds, n.height, r) {
      assert i < |n.rounds| ==> Before(n.height, r, n.rounds[i].height, n.rounds[i].round);
      InsertSorted(n.rounds, i, EmptyRound(n.height, r, ActiveLen(n.roster)));
    }
  }

  lemma InsertSorted(rs: seq<RoundData>, i: nat, e: RoundData)
    requires Sorted(rs) && i <= |rs|
    requires forall j :: 0 <= j < i ==> Before(rs[j].height, rs[j].round, e.height, e.round)
    requires i < |rs| ==> Before(e.height, e.round, rs[i].height, rs[i].round)
    ensures Sorted(rs[..i] + [e] + rs[i..])
  {
    var out := rs[..i] + [e] + rs[i..];
    forall a, b | 0 <= a < b < |out|
      ensures Before(out[a].height, out[a].round, out[b].height, out[b].round)
    {
      if a == i {
        assert out[b] == rs[b - 1];
      } else if b == i {
        assert out[a] == rs[a];
      } else {
        var x, y := if a < i then a else a - 1, if b < i then b else b - 1;
        assert out[a] == rs[x] && out[b] == rs[y];
      }
    }
  }

  lemma EmptyRoundOk(cr: Crypto, n: Node, r: nat)
    ensures RoundOk(cr, EmptyRound(n.height, r, ActiveLen(n.roster)), n.roster)
    ensures RoundSigned(cr, EmptyRound(n.height, r, ActiveLen(n.roster)), n)
  {
    var rd := EmptyRound(n.height, r, ActiveLen(n.roster));
    assert Counted(rd, Active(n.roster)) by { SumEmpty(ActiveLen(n.roster), Active(n.roster)); }
    assert |rd.sigs| == ChunksN(|rd.proposal|) && Held(rd.sigs) == 0;
    assert Vetted(cr, rd);
    NoVotesBacked(rd, Active(n.roster), n.votes);
  }

  lemma NoVotesBacked(rd: RoundData, ms: seq<Member>, votes: Log)
    requires forall j :: 0 <= j < |rd.votes| ==> rd.votes[j] == NO_VOTES
    ensures Backed(rd, ms, votes)
  {
  }

  lemma WithRoundOk(cr: Crypto, n: Node, r: nat)
    requires StoreOk(cr, n)
    ensures StoreOk(cr, n.(rounds := WithRound(n, r)))
  {
    var m := n.(rounds := WithRound(n, r));
    var cut :| Cut(n, cut);
    WithRoundSorted(n, r, cut);
    EmptyRoundOk(cr, n, r);
    var i := LowerBound(n.rounds, n.height, r);
    if m.rounds != n.rounds {
      forall x | 0 <= x < |m.rounds|
        ensures Timed(m.rounds[x])
        ensures m.rounds[x].height == m.height ==> RoundOk(cr, m.rounds[x], m.roster) && RoundSigned(cr, m.rounds[x], m)
      {
        if x < i {
          assert m.rounds[x] == n.rounds[x];
        } else if x > i {
          assert m.rounds[x] == n.rounds[x - 1];
        }
        assert m.rounds[x].height == m.height ==> RoundSigned(cr, m.rounds[x], n);
      }
    }
  }

  /** Replacing an entry by one with the same place keeps the store. */
  lemma PutOk(cr: Crypto, n: Node, i: nat, rd: RoundData)
    requires StoreOk(cr, n) && i < |n.rounds|
    requires rd.height == n.rounds[i].height && rd.round == n.rounds[i].round && Timed(rd)
    requires rd.height == n.height ==> RoundOk(cr, rd, n.roster) && RoundSigned(cr, rd, n)
    ensures StoreOk(cr, Put(n, i, rd))
    ensures forall cut :: Cut(n, cut) ==> Cut(Put(n, i, rd), cut)
  {
    var m := Put(n, i, rd);
    var cut :| Cut(n, cut);
    assert Cut(m, cut);
    forall x | 0 <= x < |m.rounds| && m.rounds[x].height == m.height
      ensures RoundOk(cr, m.rounds[x], m.roster) && RoundSigned(cr, m.rounds[x], m)
    {
      assert RoundSigned(cr, m.rounds[x], n);
    }
  }

  /** More signatures never hurt. */
  lemma StoreGrows(cr: Crypto, n: Node, m: Node)
    requires StoreOk(cr, n)
    requires m == n.(votes := m.votes, chunks := m.chunks)
    requires (forall v :: v in n.votes ==> v in m.votes) && n.chunks <= m.chunks
    ensures StoreOk(cr, m)
  {
    var cut :| Cut(n, cut);
    assert Cut(m, cut);
    forall i | 0 <= i < |m.rounds| && m.rounds[i].height == m.height
      ensures RoundSigned(cr, m.rounds[i], m)
    {
      var rd, p := m.rounds[i], ProposerKey(cr, m.roster, m.rounds[i].height, m.rounds[i].round);
      assert RoundSigned(cr, rd, n);
      forall c | 0 <= c < |rd.sigs| && rd.sigsN > 0 && rd.sigs[c] != NIL_SIG
        ensures Proposed(cr, rd, c, p, m.chunks)
      {
        assert Proposed(cr, rd, c, p, n.chunks);
      }
    }
  }

  // Messages into a round ------------------------------------------------------------------------

  lemma AddVoteOk(cr: Crypto, n: Node, rd: RoundData, k: Kind, j: nat, id: ValueId, sig: Sig)
    requires RoundOk(cr, rd, n.roster) && RoundSigned(cr, rd, n) && j < ActiveLen(n.roster)
    requires Vote(rd.height, rd.round, k, id, n.roster[j].key) in n.votes
    ensures var r := AddVote(rd, k, j, id, sig, Active(n.roster)).0;
      && RoundOk(cr, r, n.roster) && RoundSigned(cr, r, n)
      && r == rd.(votes := r.votes, counts := r.counts)
  {
    var ms := Active(n.roster);
    var r := AddVote(rd, k, j, id, sig, ms).0;
    AddVoteCounted(rd, k, j, id, sig, ms);
    AddVoteHomogeneous(rd, k, j, id, sig, ms);
    forall x, l | 0 <= x < |r.votes| && x < |ms| && r.votes[x].Get(l).Cast()
      ensures Vote(r.height, r.round, l, r.votes[x].Get(l).id, ms[x].key) in n.votes
    {
      assert r.votes[x].Get(l) == rd.votes[x].Get(l) || (x == j && l == k && r.votes[x].Get(l) == Slot(id, sig));
    }
    OfferedSame(cr, rd, r, ProposerKey(cr, n.roster, rd.height, rd.round), n.chunks);
  }

  lemma OfferedSame(cr: Crypto, a: RoundData, b: RoundData, proposer: PubKey, chunks: set<SignedChunk>)
    requires Offered(cr, a, proposer, chunks)
    requires b == a.(checked := b.checked, faulty := b.faulty, votes := b.votes, counts := b.counts,
      timeout := b.timeout,
                     prevoteTimeout := b.prevoteTimeout, precommitTimeout := b.precommitTimeout)
    ensures Offered(cr, b, proposer, chunks)
  {
    forall c | 0 <= c < |b.sigs| && b.sigsN > 0 && b.sigs[c] != NIL_SIG
      ensures Proposed(cr, b, c, proposer, chunks)
    {
      assert Proposed(cr, a, c, proposer, chunks) && HeaderHeld(a, c) == HeaderHeld(b, c);
    }
  }

  lemma AdoptBacked(rd: RoundData, id: ValueId, ms: seq<Member>, votes: Log)
    requires Backed(rd, ms, votes) && |rd.votes| <= |ms|
    ensures Backed(Adopt(rd, id, ms), ms, votes)
  {
    var a := Adopt(rd, id, ms);
    forall j, k | 0 <= j < |a.votes| && j < |ms| && a.votes[j].Get(k).Cast()
      ensures Vote(a.height, a.round, k, a.votes[j].Get(k).id, ms[j].key) in votes
    {
      assert a.votes[j].Get(k) == PurgeSlot(rd.votes[j].Get(k), id);
    }
  }

  /** A chunk of the round's proposal whose signature is the proposer's. */
  ghost predicate Genuine(cr: Crypto, n: Node, rd: RoundData, h: ChunkHeader, data: seq<byte>, sig: Sig) {
    var p := ProposerKey(cr, n.roster, rd.height, rd.round);
    && h.height == rd.height && h.round == rd.round && WfHeader(h) && Fits(h, data)
    && SignedChunk(p, h, data) in n.chunks && cr.verify(p, ChunkBytes(h, data), sig) && sig != NIL_SIG
  }

  /** The new chunk joins a proposal that already agrees with it. */
  lemma WriteOffered(cr: Crypto, n: Node, rd: RoundData, h: ChunkHeader, data: seq<byte>, sig: Sig)
    requires |rd.proposal| == h.size && |rd.sigs| == ChunksN(h.size) && Genuine(cr, n, rd, h, data, sig)
    requires var p := ProposerKey(cr, n.roster, rd.height, rd.round);
      forall c :: 0 <= c < |rd.sigs| && rd.sigs[c] != NIL_SIG ==> Proposed(cr, rd, c, p, n.chunks)
    requires (exists c :: 0 <= c < |rd.sigs| && rd.sigs[c] != NIL_SIG) ==>
      rd.validRound == h.validRound && rd.id == h.id
    ensures var w := Write(rd, h, data, sig).(id := h.id);
      Offered(cr, w, ProposerKey(cr, n.roster, w.height, w.round), n.chunks)
  {
    var w, p := Write(rd, h, data, sig).(id := h.id), ProposerKey(cr, n.roster, rd.height, rd.round);
    forall c | 0 <= c < |w.sigs| && w.sigs[c] != NIL_SIG
      ensures Proposed(cr, w, c, p, n.chunks)
    {
      if c == h.chunk {
        assert HeaderHeld(w, c) == h;
      } else {
        assert Proposed(cr, rd, c, p, n.chunks) && HeaderHeld(w, c) == HeaderHeld(rd, c);
      }
    }
  }

  lemma StoreChunkVetted(cr: Crypto, rd: RoundData, mine: bool, h: ChunkHeader, data: seq<byte>, sig: Sig,
                         ms: seq<Member>)
    requires |rd.proposal| == h.size && Fits(h, data) && |rd.votes| <= |ms| && Assembled(rd) && Vetted(cr, rd)
    requires !(mine && rd.sigs[h.chunk] != NIL_SIG && rd.sigs[h.chunk] != sig)
    ensures Vetted(cr, StoreChunk(rd, mine, h, data, sig, ms, cr.idOf).0)
  {
    HeldAll(rd.sigs);
  }

  lemma StoreChunkLocal(cr: Crypto, rd: RoundData, roster: seq<Member>, mine: bool, h: ChunkHeader, data: seq<byte>,
                        sig: Sig)
    requires RoundOk(cr, rd, roster) && |rd.proposal| == h.size && Fits(h, data) && sig != NIL_SIG
    requires !(mine && rd.sigs[h.chunk] != NIL_SIG && rd.sigs[h.chunk] != sig)
    ensures RoundOk(cr, StoreChunk(rd, mine, h, data, sig, Active(roster), cr.idOf).0, roster)
  {
    var ms := Active(roster);
    StoreChunkCounted(rd, mine, h, data, sig, ms, cr.idOf);
    StoreChunkHomogeneous(rd, mine, h, data, sig, ms, cr.idOf);
    StoreChunkAssembled(rd, mine, h, data, sig, ms, cr.idOf);
    StoreChunkVetted(cr, rd, mine, h, data, sig, ms);
    StoreChunkShaped(rd, mine, h, data, sig, ms, cr.idOf);
  }

  lemma StoreChunkShaped(rd: RoundData, mine: bool, h: ChunkHeader, data: seq<byte>, sig: Sig, ms: seq<Member>,
                         idOf: Value -> ValueId)
    requires |rd.proposal| == h.size && Fits(h, data) && Shaped(rd, |ms|)
    ensures var r := StoreChunk(rd, mine, h, data, sig, ms, idOf).0;
      && Shaped(r, |ms|) && r.height == rd.height && r.round == rd.round && r.timeout == rd.timeout
      && |r.proposal| == |rd.proposal|
  {
  }

  lemma StoreChunkSigned(cr: Crypto, n: Node, rd: RoundData, mine: bool, h: ChunkHeader, data: seq<byte>, sig: Sig)
    requires Shaped(rd, ActiveLen(n.roster)) && Assembled(rd) && RoundSigned(cr, rd, n)
      && Genuine(cr, n, rd, h, data, sig)
    requires |rd.proposal| == h.size && (rd.id == h.id || (rd.id == NIL_ID && rd.sigsN == 0))
    requires rd.sigsN > 0 ==> rd.validRound == h.validRound
    requires !(mine && rd.sigs[h.chunk] != NIL_SIG && rd.sigs[h.chunk] != sig)
    ensures RoundSigned(cr, StoreChunk(rd, mine, h, data, sig, Active(n.roster), cr.idOf).0, n)
  {
    var ms := Active(n.roster);
    var r, p := StoreChunk(rd, mine, h, data, sig, ms, cr.idOf).0, ProposerKey(cr, n.roster, rd.height, rd.round);
    if rd.sigs[h.chunk] == NIL_SIG {
      WriteSigned(cr, n, rd, h, data, sig);
      OfferedSame(cr, Joined(rd, h, data, sig, ms), r, p, n.chunks);
    } else {
      OfferedSame(cr, rd, r, p, n.chunks);
    }
  }

  /** The round after a new chunk was written and, if it was the first, adopted. */
  function Joined(rd: RoundData, h: ChunkHeader, data: seq<byte>, sig: Sig, ms: seq<Member>): RoundData
    requires |rd.proposal| == h.size && |rd.sigs| == ChunksN(h.size) && Fits(h, data) && |rd.votes| <= |ms|
  {
    var w := Write(rd, h, data, sig);
    if w.id == NIL_ID then Adopt(w, h.id, ms) else w
  }

  lemma WriteSigned(cr: Crypto, n: Node, rd: RoundData, h: ChunkHeader, data: seq<byte>, sig: Sig)
    requires Shaped(rd, ActiveLen(n.roster)) && Assembled(rd) && RoundSigned(cr, rd, n)
      && Genuine(cr, n, rd, h, data, sig)
    requires |rd.proposal| == h.size && (rd.id == h.id || (rd.id == NIL_ID && rd.sigsN == 0))
    requires rd.sigsN > 0 ==> rd.validRound == h.validRound
    ensures RoundSigned(cr, Joined(rd, h, data, sig, Active(n.roster)), n)
  {
    var ms := Active(n.roster);
    var w, j := Write(rd, h, data, sig), Joined(rd, h, data, sig, ms);
    HeldAll(rd.sigs);
    WriteOffered(cr, n, rd, h, data, sig);
    OfferedSame(cr, w.(id := h.id), j, ProposerKey(cr, n.roster, rd.height, rd.round), n.chunks);
    assert Backed(w, ms, n.votes);
    AdoptBacked(w, h.id, ms, n.votes);
  }

  lemma AddChunkOk(cr: Crypto, n: Node, rd: RoundData, mine: bool, h: ChunkHeader, data: seq<byte>, sig: Sig)
    requires RoundOk(cr, rd, n.roster) && RoundSigned(cr, rd, n) && Genuine(cr, n, rd, h, data, sig)
    requires !Flushes(rd, mine, h, sig)
    ensures var r := AddChunk(rd, mine, h, data, sig, Active(n.roster), cr.idOf).0;
      RoundOk(cr, r, n.roster) && RoundSigned(cr, r, n)
  {
    if rd.sigsN == 0 {
      var blank := rd.(proposal := Zeros(h.size), sigs := seq(ChunksN(h.size), _ => NIL_SIG));
      HeldNone(ChunksN(h.size));
      StoreChunkLocal(cr, blank, n.roster, mine, h, data, sig);
      StoreChunkSigned(cr, n, blank, mine, h, data, sig);
    } else if !Differs(rd, h) {
      StoreChunkLocal(cr, rd, n.roster, mine, h, data, sig);
      StoreChunkSigned(cr, n, rd, mine, h, data, sig);
    }
  }

  // Incorporating a message ----------------------------------------------------------------------

  lemma EntryWithRound(n: Node, r: nat, x: nat)
    requires Sorted(n.rounds) && exists cut :: Cut(n, cut)
    requires Entry(n, x).Some?
    ensures Entry(n.(rounds := WithRound(n, r)), x) == Entry(n, x)
  {
    var cut :| Cut(n, cut);
    WithRoundSorted(n, r, cut);
    var i, rs := LowerBound(n.rounds, n.height, r), WithRound(n, r);
    var y := LowerBound(n.rounds, n.height, x);
    if rs != n.rounds {
      var z := if y < i then y else y + 1;
      assert rs[z] == n.rounds[y] by {
        assert y >= i ==> rs[i + 1..][y - i] == n.rounds[i..][y - i];
        assert y < i ==> rs[..i][y] == n.rounds[..i][y];
      }
      AtIsFound(rs, z, n.height, x);
    }
  }

  lemma EntryAdded(n: Node, r: nat)
    requires Sorted(n.rounds) && exists cut :: Cut(n, cut)
    ensures Entry(n.(rounds := WithRound(n, r)), r) ==
            if Entry(n, r).Some? then Entry(n, r) else Some(EmptyRound(n.height, r, ActiveLen(n.roster)))
  {
    var cut :| Cut(n, cut);
    WithRoundSorted(n, r, cut);
    AtIsFound(WithRound(n, r), LowerBound(n.rounds, n.height, r), n.height, r);
  }

  lemma EntryPut(n: Node, i: nat, rd: RoundData, x: nat)
    requires Sorted(n.rounds) && i < |n.rounds| && rd.height == n.rounds[i].height && rd.round == n.rounds[i].round
    ensures Sorted(Put(n, i, rd).rounds)
    ensures Entry(Put(n, i, rd), x) == if IsAt(n.rounds, i, n.height, x) then Some(rd) else Entry(n, x)
  {
    var m := Put(n, i, rd);
    if Entry(n, x).Some? {
      AtIsFound(m.rounds, LowerBound(n.rounds, n.height, x), n.height, x);
      if IsAt(n.rounds, i, n.height, x) {
        AtIsFound(n.rounds, i, n.height, x);
      }
    } else if Entry(m, x).Some? {
      AtIsFound(n.rounds, LowerBound(m.rounds, n.height, x), n.height, x);
    } else if IsAt(n.rounds, i, n.height, x) {
      AtIsFound(n.rounds, i, n.height, x);
    }
  }

  /** What the callers of `check_and_incorporate_msg` pass it, given that signatures cannot be forged. */
  ghost predicate GoodPacket(cr: Crypto, n: Node, p: Packet, j: nat)
    requires j < |n.roster|
  {
    match p.body
    case VoteBody(k, id) => Vote(p.height, p.round, k, id, n.roster[j].key) in n.votes
    case ChunkBody(c, id, vr) =>
      && ParseHeader(p.data).Some?
      && var h := ParseHeader(p.data).value;
         && h == HeaderFor(p, h.size) && WfHeader(h) && Fits(h, p.data[HEADER_SIZE..])
         && p.data == ChunkBytes(h, p.data[HEADER_SIZE..])
         && n.roster[j].key == ProposerKey(cr, n.roster, p.height, p.round)
         && SignedChunk(n.roster[j].key, h, p.data[HEADER_SIZE..]) in n.chunks
    case OtherBody => true
  }

  /** A correct node that does not restart never flushes: its own chunks of a round agree with each other. */
  lemma NeverFlushes(w: World, cr: Crypto, n: Node, rd: RoundData, h: ChunkHeader, data: seq<byte>, sig: Sig)
    requires WorldOk(w, cr) && n.key !in w.faulty && OwnChunks(n)
    requires RoundOk(cr, rd, n.roster) && RoundSigned(cr, rd, n) && Genuine(cr, n, rd, h, data, sig)
    requires ProposerKey(cr, n.roster, rd.height, rd.round) == n.key
    ensures !Flushes(rd, true, h, sig)
  {
    HeldAll(rd.sigs);
    if rd.sigsN > 0 {
      var c :| 0 <= c < |rd.sigs| && rd.sigs[c] != NIL_SIG;
      assert Proposed(cr, rd, c, n.key, n.chunks);
      assert !Differs(rd, h);
      if rd.sigs[h.chunk] != NIL_SIG {
        assert Proposed(cr, rd, h.chunk, n.key, n.chunks);
      }
    }
  }

  lemma IncorporateIntoOk(w: World, cr: Crypto, n: Node, rd: RoundData, p: Packet, j: nat, sig: Sig)
    requires WorldOk(w, cr) && n.key !in w.faulty && OwnChunks(n)
    requires RoundOk(cr, rd, n.roster) && RoundSigned(cr, rd, n) && rd.height == p.height && rd.round == p.round
    requires j < ActiveLen(n.roster) && ChunkInRange(p) && GoodPacket(cr, n, p, j)
      && cr.verify(n.roster[j].key, p.data, sig)
    ensures var r := IncorporateInto(cr, n, rd, p, j, sig).0;
      && RoundOk(cr, r, n.roster) && RoundSigned(cr, r, n)
      && r.height == rd.height && r.round == rd.round && r.timeout == rd.timeout
      && (rd.checked == Pass ==> r.checked == Pass && r.proposal == rd.proposal)
  {
    hide AddVote, AddChunk, RoundOk, RoundSigned, OwnChunks;
    match p.body
    case OtherBody =>
    case VoteBody(k, id) => AddVoteOk(cr, n, rd, k, j, id, sig);
    case ChunkBody(c, id, vr) =>
      var h := ParseHeader(p.data).value;
      var data := p.data[HEADER_SIZE..];
      assert data == p.data[HEADER_SIZE..HEADER_SIZE + ChunkSize(h.size, c)];
      IncorporateChunkOk(w, cr, n, rd, n.roster[j].key == n.key, h, data, sig);
  }

  lemma IncorporateChunkOk(w: World, cr: Crypto, n: Node, rd: RoundData, mine: bool, h: ChunkHeader, data: seq<byte>,
                           sig: Sig)
    requires WorldOk(w, cr) && n.key !in w.faulty && OwnChunks(n)
    requires RoundOk(cr, rd, n.roster) && RoundSigned(cr, rd, n) && Genuine(cr, n, rd, h, data, sig)
    requires mine ==> ProposerKey(cr, n.roster, rd.height, rd.round) == n.key
    ensures var r := AddChunk(rd, mine, h, data, sig, Active(n.roster), cr.idOf).0;
      && RoundOk(cr, r, n.roster) && RoundSigned(cr, r, n)
      && r.height == rd.height && r.round == rd.round && r.timeout == rd.timeout
      && (rd.checked == Pass ==> r.checked == Pass && r.proposal == rd.proposal)
  {
    if mine {
      NeverFlushes(w, cr, n, rd, h, data, sig);
    }
    AddChunkOk(cr, n, rd, mine, h, data, sig);
    AddChunkPlace(rd, mine, h, data, sig, Active(n.roster), cr.idOf);
  }

  lemma AddChunkPlace(rd: RoundData, mine: bool, h: ChunkHeader, data: seq<byte>, sig: Sig, ms: seq<Member>,
                      idOf: Value -> ValueId)
    requires Assembled(rd) && Shaped(rd, |ms|) && Fits(h, data) && !Flushes(rd, mine, h, sig)
    ensures var r := AddChunk(rd, mine, h, data, sig, ms, idOf).0;
      && r.height == rd.height && r.round == rd.round && r.timeout == rd.timeout
      && (rd.checked == Pass && rd.Full() ==> r.checked == Pass && r.proposal == rd.proposal)
  {
    if rd.sigsN == 0 {
      var blank := rd.(proposal := Zeros(h.size), sigs := seq(ChunksN(h.size), _ => NIL_SIG));
      StoreChunkShaped(blank, mine, h, data, sig, ms, idOf);
    } else if !Differs(rd, h) {
      StoreChunkShaped(rd, mine, h, data, sig, ms, idOf);
      if rd.Full() {
        HeldAll(rd.sigs);
        assert rd.sigs[h.chunk] != NIL_SIG;
      }
    }
  }

  /** The store after a message: sorted, cut where it was, and every entry's verdict kept. */
  lemma IncorporateOk(w: World, cr: Crypto, n: Node, p: Packet, j: nat, sig: Sig)
    requires WorldOk(w, cr) && n.key !in w.faulty && OwnChunks(n) && StoreOk(cr, n)
    requires j < |n.roster| && (p.height == n.height ==> GoodPacket(cr, n, p, j))
    ensures var m := Incorporate(cr, n, p, j, sig).0;
      && m == n.(rounds := m.rounds) && StoreOk(cr, m) && |n.rounds| <= |m.rounds|
      && (forall cut :: Cut(n, cut) ==> Cut(m, cut))
      && (forall x: nat :: Entry(n, x).Some? ==> Entry(m, x).Some? && EntryKept(Entry(n, x).value, Entry(m, x).value))
  {
    if p.height == n.height && j < ActiveLen(n.roster) && cr.verify(n.roster[j].key, p.data, sig) {
      var i, m := LowerBound(n.rounds, p.height, p.round), n.(rounds := WithRound(n, p.round));
      forall cut | Cut(n, cut)
        ensures Cut(m, cut) && IsAt(m.rounds, i, n.height, p.round)
      {
        WithRoundSorted(n, p.round, cut);
      }
      WithRoundOk(cr, n, p.round);
      var rd := m.rounds[i];
      assert RoundSigned(cr, rd, m) && RoundSigned(cr, rd, n);
      PacketInRange(cr, n, p, j);
      IncorporateIntoOk(w, cr, n, rd, p, j, sig);
      var r := IncorporateInto(cr, n, rd, p, j, sig).0;
      assert RoundSigned(cr, r, m);
      PutOk(cr, m, i, r);
      forall x: nat | Entry(n, x).Some?
        ensures var q := Put(m, i, r); Entry(q, x).Some? && EntryKept(Entry(n, x).value, Entry(q, x).value)
      {
        EntryWithRound(n, p.round, x);
        EntryPut(m, i, r, x);
        if IsAt(m.rounds, i, n.height, x) {
          AtIsFound(m.rounds, i, n.height, x);
        }
      }
    }
  }

  predicate EntryKept(a: RoundData, b: RoundData) {
    a.checked == Pass ==> b.checked == Pass && b.proposal == a.proposal
  }

  lemma PacketInRange(cr: Crypto, n: Node, p: Packet, j: nat)
    requires j < |n.roster| && GoodPacket(cr, n, p, j)
    ensures ChunkInRange(p)
  {
  }
}
