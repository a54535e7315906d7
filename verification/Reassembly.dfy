/** Chunk reassembly: an honest proposer's chunks rebuild its value in any order. */
module Reassembly {
  import opened Types
  import opened Roster
  import opened VoteLog
  import opened Messages
  import opened Rounds

  /** The number of chunk signatures held. */
  function Held(sigs: seq<Sig>): nat {
    if sigs == [] then 0 else Held(sigs[..|sigs| - 1]) + if sigs[|sigs| - 1] != NIL_SIG then 1 else 0
  }

  predicate Assembled(rd: RoundData) {
    |rd.sigs| == ChunksN(|rd.proposal|) && rd.sigsN == Held(rd.sigs)
  }

  lemma {:induction false} HeldNone(n: nat)
    ensures Held(seq(n, _ => NIL_SIG)) == 0
  {
    if n > 0 {
      assert seq(n, _ => NIL_SIG)[..n - 1] == seq(n - 1, _ => NIL_SIG);
      HeldNone(n - 1);
    }
  }

  lemma {:induction false} HeldSet(sigs: seq<Sig>, c: nat, sig: Sig)
    requires c < |sigs| && sigs[c] == NIL_SIG && sig != NIL_SIG
    ensures Held(sigs[c := sig]) == Held(sigs) + 1
  {
    var n := |sigs| - 1;
    if c == n {
      assert sigs[c := sig][..n] == sigs[..n];
    } else {
      assert sigs[c := sig][..n] == sigs[..n][c := sig];
      HeldSet(sigs[..n], c, sig);
    }
  }

  lemma {:induction false} HeldAll(sigs: seq<Sig>)
    ensures Held(sigs) <= |sigs|
    ensures Held(sigs) == |sigs| <==> forall c :: 0 <= c < |sigs| ==> sigs[c] != NIL_SIG
    ensures Held(sigs) == 0 <==> forall c :: 0 <= c < |sigs| ==> sigs[c] == NIL_SIG
  {
    if sigs != [] {
      HeldAll(sigs[..|sigs| - 1]);
      assert sigs == sigs[..|sigs| - 1] + [sigs[|sigs| - 1]];
    }
  }

  lemma StoreChunkAssembled(rd: RoundData, mine: bool, h: ChunkHeader, data: seq<byte>, sig: Sig, ms: seq<Member>,
                            idOf: Value -> ValueId)
    requires |rd.proposal| == h.size && Fits(h, data) && |rd.votes| <= |ms|
    requires Assembled(rd) && sig != NIL_SIG
    ensures Assembled(StoreChunk(rd, mine, h, data, sig, ms, idOf).0)
  {
    HeldNone(ChunksN(h.size));
    if rd.sigs[h.chunk] == NIL_SIG {
      HeldSet(rd.sigs, h.chunk, sig);
    }
  }

  /** The running chunk count is the number of signatures held, flushes included. */
  lemma AddChunkAssembled(rd: RoundData, mine: bool, h: ChunkHeader, data: seq<byte>, sig: Sig, ms: seq<Member>,
                          idOf: Value -> ValueId)
    requires Assembled(rd) && Fits(h, data) && |rd.votes| <= |ms| && sig != NIL_SIG
    ensures Assembled(AddChunk(rd, mine, h, data, sig, ms, idOf).0)
  {
    HeldNone(ChunksN(h.size));
    if rd.sigsN == 0 {
      var blank := rd.(proposal := Zeros(h.size), sigs := seq(ChunksN(h.size), _ => NIL_SIG));
      StoreChunkAssembled(blank, mine, h, data, sig, ms, idOf);
    } else if !Differs(rd, h) {
      StoreChunkAssembled(rd, mine, h, data, sig, ms, idOf);
    } else if mine {
      StoreChunkAssembled(Flush(rd, h, |ms|), mine, h, data, sig, ms, idOf);
    }
  }

  // The honest proposer -------------------------------------------------------------------------

  /** One proposal: its value, valid round and place, and one signature per chunk. */
  datatype Offer = Offer(value: Value, validRound: int, height: nat, round: nat, id: ValueId, sigs: seq<Sig>)

  predicate WfOffer(o: Offer, idOf: Value -> ValueId) {
    && o.id == idOf(o.value) && |o.sigs| == ChunksN(|o.value|)
    && forall c :: 0 <= c < |o.sigs| ==> o.sigs[c] != NIL_SIG
  }

  function HeaderOf(o: Offer, c: nat): ChunkHeader {
    ChunkHeader(c, |o.value|, o.round, o.validRound, o.height, o.id)
  }

  function Piece(v: Value, c: nat): (s: seq<byte>)
    requires c < ChunksN(|v|)
    ensures |s| == ChunkSize(|v|, c)
  {
    v[c * CHUNK..c * CHUNK + ChunkSize(|v|, c)]
  }

  /** The chunks held so far carry the offer's bytes. */
  predicate Partial(rd: RoundData, o: Offer) {
    && |rd.proposal| == |o.value| && |rd.sigs| == ChunksN(|o.value|) == |o.sigs|
    && rd.id == o.id && rd.validRound == o.validRound && !rd.faulty
    && (forall c :: 0 <= c < |rd.sigs| && rd.sigs[c] != NIL_SIG ==>
      rd.sigs[c] == o.sigs[c] && Piece(rd.proposal, c) == Piece(o.value, c))
  }

  /** A vote or a chunk of the offer, as they may arrive in any order and any number of times. */
  datatype Arrival = Chunk(c: nat) | Ballot(kind: Kind, member: nat, id: ValueId, sig: Sig)

  predicate Possible(a: Arrival, o: Offer, members: nat) {
    match a
    case Chunk(c) => c < ChunksN(|o.value|)
    case Ballot(_, j, _, _) => j < members
  }

  function Arrive(rd: RoundData, a: Arrival, o: Offer, mine: bool, ms: seq<Member>, idOf: Value -> ValueId): RoundData
    requires WfOffer(o, idOf) && Possible(a, o, |ms|) && |rd.sigs| == ChunksN(|rd.proposal|) && |rd.votes| == |ms|
  {
    match a
    case Chunk(c) => AddChunk(rd, mine, HeaderOf(o, c), Piece(o.value, c), o.sigs[c], ms, idOf).0
    case Ballot(k, j, id, sig) => AddVote(rd, k, j, id, sig, ms).0
  }

  ghost predicate Clean(rd: RoundData, o: Offer, ms: seq<Member>) {
    && Assembled(rd) && |rd.votes| == |ms| && Homogeneous(rd)
    && (rd.sigsN > 0 ==> Partial(rd, o))
    && (rd.sigsN == 0 ==> !rd.faulty)
  }

  /** Chunks other than the one written keep their bytes. */
  lemma WriteElsewhere(p: Value, o: nat, data: seq<byte>, c: nat)
    requires c < ChunksN(|p|) && o < ChunksN(|p|) && c != o && |data| == ChunkSize(|p|, o)
    ensures var q := p[..o * CHUNK] + data + p[o * CHUNK + |data|..]; |q| == |p| && Piece(q, c) == Piece(p, c)
  {
    if c < o {
      assert c * CHUNK + CHUNK <= o * CHUNK;
    } else {
      assert o * CHUNK + CHUNK <= c * CHUNK;
    }
  }

  lemma WriteHere(p: Value, o: nat, data: seq<byte>)
    requires o < ChunksN(|p|) && |data| == ChunkSize(|p|, o)
    ensures var q := p[..o * CHUNK] + data + p[o * CHUNK + |data|..]; |q| == |p| && Piece(q, o) == data
  {
  }

  /** Equal pieces make equal values. */
  lemma PiecesDetermine(p: Value, q: Value)
    requires |p| == |q|
    requires forall c :: 0 <= c < ChunksN(|p|) ==> Piece(p, c) == Piece(q, c)
    ensures p == q
  {
    forall i | 0 <= i < |p|
      ensures p[i] == q[i]
    {
      var c := i / CHUNK;
      assert c < ChunksN(|p|);
      assert Piece(p, c)[i - c * CHUNK] == Piece(q, c)[i - c * CHUNK];
    }
  }

  lemma FullIsWhole(rd: RoundData, o: Offer)
    requires Partial(rd, o) && Assembled(rd) && rd.sigsN == |rd.sigs|
    ensures rd.proposal == o.value
  {
    HeldAll(rd.sigs);
    PiecesDetermine(rd.proposal, o.value);
  }

  lemma WritePartial(rd: RoundData, o: Offer, c: nat, idOf: Value -> ValueId)
    requires WfOffer(o, idOf) && c < ChunksN(|o.value|)
    requires |rd.proposal| == |o.value| && |rd.sigs| == ChunksN(|o.value|) && !rd.faulty && rd.id == o.id
    requires forall x :: 0 <= x < |rd.sigs| && rd.sigs[x] != NIL_SIG ==>
      rd.sigs[x] == o.sigs[x] && Piece(rd.proposal, x) == Piece(o.value, x)
    ensures Partial(Write(rd, HeaderOf(o, c), Piece(o.value, c), o.sigs[c]), o)
  {
    var w := Write(rd, HeaderOf(o, c), Piece(o.value, c), o.sigs[c]);
    WriteHere(rd.proposal, c, Piece(o.value, c));
    forall x | 0 <= x < |w.sigs| && w.sigs[x] != NIL_SIG
      ensures w.sigs[x] == o.sigs[x] && Piece(w.proposal, x) == Piece(o.value, x)
    {
      if x != c {
        WriteElsewhere(rd.proposal, c, Piece(o.value, c), x);
      }
    }
  }

  lemma StoreChunkPartial(rd: RoundData, o: Offer, c: nat, mine: bool, ms: seq<Member>, idOf: Value -> ValueId)
    requires WfOffer(o, idOf) && c < ChunksN(|o.value|) && |rd.votes| <= |ms| && Assembled(rd)
    requires |rd.proposal| == |o.value| && !rd.faulty && (rd.id == o.id || rd.id == NIL_ID)
    requires rd.sigsN > 0 ==> Partial(rd, o)
    ensures Partial(StoreChunk(rd, mine, HeaderOf(o, c), Piece(o.value, c), o.sigs[c], ms, idOf).0, o)
  {
    HeldAll(rd.sigs);
    if rd.sigs[c] == NIL_SIG {
      var w := Write(rd, HeaderOf(o, c), Piece(o.value, c), o.sigs[c]);
      var a := if w.id == NIL_ID then Adopt(w, o.id, ms) else w;
      WritePartial(rd.(id := o.id), o, c, idOf);
      assert Partial(a, o);
      HeldSet(rd.sigs, c, o.sigs[c]);
      if a.sigsN == |a.sigs| {
        FullIsWhole(a, o);
      }
    }
  }

  lemma ArriveClean(rd: RoundData, a: Arrival, o: Offer, mine: bool, ms: seq<Member>, idOf: Value -> ValueId)
    requires WfOffer(o, idOf) && Possible(a, o, |ms|) && Clean(rd, o, ms)
    ensures Clean(Arrive(rd, a, o, mine, ms, idOf), o, ms)
  {
    match a
    case Ballot(k, j, id, sig) => AddVoteHomogeneous(rd, k, j, id, sig, ms);
    case Chunk(c) => ChunkClean(rd, c, o, mine, ms, idOf);
  }

  lemma ChunkClean(rd: RoundData, c: nat, o: Offer, mine: bool, ms: seq<Member>, idOf: Value -> ValueId)
    requires WfOffer(o, idOf) && c < ChunksN(|o.value|) && Clean(rd, o, ms)
    ensures Clean(AddChunk(rd, mine, HeaderOf(o, c), Piece(o.value, c), o.sigs[c], ms, idOf).0, o, ms)
  {
    hide StoreChunk, Piece, Held;
    var h, data, sig := HeaderOf(o, c), Piece(o.value, c), o.sigs[c];
    AddChunkAssembled(rd, mine, h, data, sig, ms, idOf);
    AddChunkHomogeneous(rd, mine, h, data, sig, ms, idOf);
    var blank := rd.(proposal := Zeros(h.size), sigs := seq(ChunksN(h.size), _ => NIL_SIG));
    HeldNone(ChunksN(h.size));
    var base := if rd.sigsN == 0 then blank else rd;
    StoreChunkPartial(base, o, c, mine, ms, idOf);
    assert AddChunk(rd, mine, h, data, sig, ms, idOf) == StoreChunk(base, mine, h, data, sig, ms, idOf);
    StoreChunkVotes(base, mine, h, data, sig, ms, idOf);
  }

  lemma StoreChunkVotes(rd: RoundData, mine: bool, h: ChunkHeader, data: seq<byte>, sig: Sig, ms: seq<Member>,
                        idOf: Value -> ValueId)
    requires |rd.proposal| == h.size && |rd.sigs| == ChunksN(h.size) && Fits(h, data) && |rd.votes| == |ms|
    ensures |StoreChunk(rd, mine, h, data, sig, ms, idOf).0.votes| == |ms|
  {
  }

  lemma StoreChunkSigs(rd: RoundData, mine: bool, h: ChunkHeader, data: seq<byte>, sig: Sig, ms: seq<Member>,
                       idOf: Value -> ValueId)
    requires |rd.proposal| == h.size && |rd.sigs| == ChunksN(h.size) && Fits(h, data) && |rd.votes| <= |ms|
    requires rd.sigs[h.chunk] == NIL_SIG || rd.sigs[h.chunk] == sig
    ensures StoreChunk(rd, mine, h, data, sig, ms, idOf).0.sigs == rd.sigs[h.chunk := sig]
  {
  }

  /** Which chunk signatures are held after one arrival. */
  lemma ArriveHeld(rd: RoundData, a: Arrival, o: Offer, mine: bool, ms: seq<Member>, idOf: Value -> ValueId, x: nat)
    requires WfOffer(o, idOf) && Possible(a, o, |ms|) && Clean(rd, o, ms) && x < ChunksN(|o.value|)
    ensures Holds(Arrive(rd, a, o, mine, ms, idOf), x) <==> Holds(rd, x) || a == Chunk(x)
  {
    if a.Chunk? {
      ArriveClean(rd, a, o, mine, ms, idOf);
      ArriveSigs(rd, a.c, o, mine, ms, idOf);
      OneMoreHeld(rd, Arrive(rd, a, o, mine, ms, idOf), a.c, o.sigs[a.c], |o.sigs|, x);
    }
  }

  lemma OneMoreHeld(rd: RoundData, r: RoundData, c: nat, sig: Sig, n: nat, x: nat)
    requires c < n && x < n && sig != NIL_SIG && Assembled(r) && (rd.sigsN > 0 ==> |rd.sigs| == n)
    requires r.sigs == (if rd.sigsN == 0 then seq(n, _ => NIL_SIG) else rd.sigs)[c := sig]
    ensures Holds(r, x) <==> Holds(rd, x) || c == x
  {
    HeldAll(r.sigs);
    assert r.sigs[c] == sig;
  }

  /** After a chunk has arrived, its signature is held beside those held before. */
  lemma ArriveSigs(rd: RoundData, c: nat, o: Offer, mine: bool, ms: seq<Member>, idOf: Value -> ValueId)
    requires WfOffer(o, idOf) && c < ChunksN(|o.value|) && Clean(rd, o, ms)
    ensures Arrive(rd, Chunk(c), o, mine, ms, idOf).sigs ==
      (if rd.sigsN == 0 then seq(ChunksN(|o.value|), _ => NIL_SIG) else rd.sigs)[c := o.sigs[c]]
  {
    hide StoreChunk, Piece;
    var h, data, sig := HeaderOf(o, c), Piece(o.value, c), o.sigs[c];
    var blank := rd.(proposal := Zeros(h.size), sigs := seq(ChunksN(h.size), _ => NIL_SIG));
    StoreChunkSigs(if rd.sigsN == 0 then blank else rd, mine, h, data, sig, ms, idOf);
  }

  predicate Holds(rd: RoundData, x: nat) {
    rd.sigsN > 0 && x < |rd.sigs| && rd.sigs[x] != NIL_SIG
  }

  ghost function Receive(rd: RoundData, as_: seq<Arrival>, o: Offer, mine: bool, ms: seq<Member>,
                         idOf: Value -> ValueId): (r: RoundData)
    requires WfOffer(o, idOf) && Clean(rd, o, ms)
    requires forall i :: 0 <= i < |as_| ==> Possible(as_[i], o, |ms|)
    ensures Clean(r, o, ms)
    decreases |as_|
  {
    if as_ == [] then rd
    else
      var last := as_[|as_| - 1];
      var before := Receive(rd, as_[..|as_| - 1], o, mine, ms, idOf);
      ArriveClean(before, last, o, mine, ms, idOf);
      Arrive(before, last, o, mine, ms, idOf)
  }

  lemma ReceiveOneMore(had: bool, before: RoundData, rest: seq<Arrival>, last: Arrival, o: Offer, mine: bool,
                       ms: seq<Member>, idOf: Value -> ValueId, x: nat)
    requires WfOffer(o, idOf) && Clean(before, o, ms) && x < ChunksN(|o.value|) && Possible(last, o, |ms|)
    requires Holds(before, x) <==> had || Chunk(x) in rest
    ensures Holds(Arrive(before, last, o, mine, ms, idOf), x) <==> had || Chunk(x) in rest + [last]
  {
    ArriveHeld(before, last, o, mine, ms, idOf, x);
  }

  /** After any arrivals, the chunks held are those held before and those that arrived. */
  lemma {:induction false} ReceiveHeld(rd: RoundData, as_: seq<Arrival>, o: Offer, mine: bool, ms: seq<Member>,
                                       idOf: Value -> ValueId, x: nat)
    requires WfOffer(o, idOf) && Clean(rd, o, ms) && x < ChunksN(|o.value|)
    requires forall i :: 0 <= i < |as_| ==> Possible(as_[i], o, |ms|)
    ensures Holds(Receive(rd, as_, o, mine, ms, idOf), x) <==> Holds(rd, x) || Chunk(x) in as_
    decreases |as_|
  {
    hide Receive, Arrive, Holds, Clean, WfOffer, Possible;
    if as_ == [] {
      ReceiveNone(rd, o, mine, ms, idOf);
    } else {
      var last, rest := as_[|as_| - 1], as_[..|as_| - 1];
      ReceiveLast(rd, as_, o, mine, ms, idOf);
      ReceiveHeld(rd, rest, o, mine, ms, idOf, x);
      ReceiveOneMore(Holds(rd, x), Receive(rd, rest, o, mine, ms, idOf), rest, last, o, mine, ms, idOf, x);
      assert as_ == rest + [last];
    }
  }

  lemma ReceiveNone(rd: RoundData, o: Offer, mine: bool, ms: seq<Member>, idOf: Value -> ValueId)
    requires WfOffer(o, idOf) && Clean(rd, o, ms)
    ensures Receive(rd, [], o, mine, ms, idOf) == rd
  {
  }

  lemma ReceiveLast(rd: RoundData, as_: seq<Arrival>, o: Offer, mine: bool, ms: seq<Member>, idOf: Value -> ValueId)
    requires WfOffer(o, idOf) && Clean(rd, o, ms) && as_ != []
    requires forall i :: 0 <= i < |as_| ==> Possible(as_[i], o, |ms|)
    ensures var last, rest := as_[|as_| - 1], as_[..|as_| - 1];
      && Possible(last, o, |ms|) && (forall i :: 0 <= i < |rest| ==> Possible(rest[i], o, |ms|))
      && Receive(rd, as_, o, mine, ms, idOf) == Arrive(Receive(rd, rest, o, mine, ms, idOf), last, o, mine, ms, idOf)
  {
    hide Arrive, WfOffer;
  }

  /**
   * Whatever votes and chunks arrive, in any order and with any repetition, an empty round holds
   * the full proposal exactly when every chunk has arrived, and it is then the offered value. A value
   * without bytes has no chunks and is never full.
   */
  lemma Reassembles(as_: seq<Arrival>, o: Offer, mine: bool, ms: seq<Member>, idOf: Value -> ValueId)
    requires WfOffer(o, idOf)
    requires forall i :: 0 <= i < |as_| ==> Possible(as_[i], o, |ms|)
    ensures Clean(EmptyRound(o.height, o.round, |ms|), o, ms)
    ensures var r := Receive(EmptyRound(o.height, o.round, |ms|), as_, o, mine, ms, idOf);
      && (r.Full() <==> o.value != [] && forall x: nat :: x < ChunksN(|o.value|) ==> Chunk(x) in as_)
      && (r.Full() ==> r.proposal == o.value && !r.faulty && r.id == o.id)
  {
    var rd := EmptyRound(o.height, o.round, |ms|);
    var r := Receive(rd, as_, o, mine, ms, idOf);
    HeldAll(r.sigs);
    forall x: nat | x < ChunksN(|o.value|)
      ensures Holds(r, x) <==> Chunk(x) in as_
    {
      ReceiveHeld(rd, as_, o, mine, ms, idOf, x);
    }
    if r.Full() {
      FullIsWhole(r, o);
      forall x: nat | x < ChunksN(|o.value|)
        ensures Chunk(x) in as_
      {
        assert Holds(r, x);
      }
    } else if o.value != [] && forall x: nat :: x < ChunksN(|o.value|) ==> Chunk(x) in as_ {
      assert Chunk(0) in as_ && Holds(r, 0);
      forall x | 0 <= x < |r.sigs|
        ensures r.sigs[x] != NIL_SIG
      {
        assert Holds(r, x);
      }
    }
  }

  // The dishonest proposer -----------------------------------------------------------------------

  /** Another member's chunk that agrees with the proposal, but differs in its signature from the one held. */
  predicate Conflicts(rd: RoundData, h: ChunkHeader, sig: Sig) {
    && rd.sigsN > 0 && h.size == |rd.proposal| && h.id == rd.id && h.validRound == rd.validRound
    && h.chunk < |rd.sigs| && rd.sigs[h.chunk] != NIL_SIG && rd.sigs[h.chunk] != sig
  }

  /** The chunk is another proposal's than the one that has begun to arrive. */
  predicate Strays(rd: RoundData, h: ChunkHeader) {
    rd.sigsN > 0 && (h.size != |rd.proposal| || h.id != rd.id || h.validRound != rd.validRound)
  }

  /** The chunk is new and makes the proposal complete, but the proposal does not hash to its id. */
  predicate Betrays(rd: RoundData, r: RoundData, idOf: Value -> ValueId) {
    r.sigsN == rd.sigsN + 1 == |r.sigs| && r.id != idOf(r.proposal)
  }

  /**
   * A chunk of another proposal is refused and changes nothing. A second signature for a chunk is refused and marks
   * the proposal as faulty, and so does a chunk that completes a proposal which does not hash to its id. Every other
   * chunk passes, and nothing else marks the proposal.
   */
  lemma FaultyExactly(rd: RoundData, mine: bool, h: ChunkHeader, data: seq<byte>, sig: Sig, ms: seq<Member>,
                      idOf: Value -> ValueId)
    requires |rd.sigs| == ChunksN(|rd.proposal|) && Fits(h, data) && |rd.votes| <= |ms| && !Flushes(rd, mine, h, sig)
    ensures var (r, status) := AddChunk(rd, mine, h, data, sig, ms, idOf);
      && (Strays(rd, h) ==> r == rd) && (Conflicts(rd, h, sig) ==> r == rd.(faulty := true))
      && (status == Fail <==> Strays(rd, h) || Conflicts(rd, h, sig) || Betrays(rd, r, idOf))
      && (status == Pass || status == Fail) && r.checked == rd.checked
      && (r.faulty <==> rd.faulty || Conflicts(rd, h, sig) || Betrays(rd, r, idOf))
  {
    if rd.sigsN == 0 {
      var blank := rd.(proposal := Zeros(h.size), sigs := seq(ChunksN(h.size), _ => NIL_SIG));
      StoreExactly(blank, mine, h, data, sig, ms, idOf);
    } else if !Differs(rd, h) {
      StoreExactly(rd, mine, h, data, sig, ms, idOf);
    }
  }

  lemma StoreExactly(rd: RoundData, mine: bool, h: ChunkHeader, data: seq<byte>, sig: Sig, ms: seq<Member>,
                     idOf: Value -> ValueId)
    requires |rd.proposal| == h.size && |rd.sigs| == ChunksN(h.size) && Fits(h, data) && |rd.votes| <= |ms|
    requires !(mine && rd.sigs[h.chunk] != NIL_SIG && rd.sigs[h.chunk] != sig)
    ensures var (r, status) := StoreChunk(rd, mine, h, data, sig, ms, idOf);
      var clash := rd.sigs[h.chunk] != NIL_SIG && rd.sigs[h.chunk] != sig;
      && (clash ==> r == rd.(faulty := true)) && r.checked == rd.checked
      && (status == Fail <==> clash || Betrays(rd, r, idOf)) && (status == Pass || status == Fail)
      && (r.faulty <==> rd.faulty || clash || Betrays(rd, r, idOf))
  {
    hide PurgeVotes, SumCounts;
  }

  /** Once a proposal is marked as faulty, consulting the closure never makes it valid. */
  lemma FaultyNeverPasses(rd: RoundData, verdict: Status)
    requires rd.faulty
    ensures Validate(rd, verdict).checked == Pass <==> rd.checked == Pass
    ensures rd.checked == Indeterminate ==> Validate(rd, verdict).checked == Fail
  {
  }

  /** The first chunk of a proposal drops exactly the votes for other values, and is the only chunk held. */
  lemma FirstChunkPurges(rd: RoundData, mine: bool, h: ChunkHeader, data: seq<byte>, sig: Sig, ms: seq<Member>,
                         idOf: Value -> ValueId)
    requires rd.sigsN == 0 && rd.id == NIL_ID && |rd.sigs| == ChunksN(|rd.proposal|) && Fits(h, data)
    requires |rd.votes| <= |ms|
    ensures var r := AddChunk(rd, mine, h, data, sig, ms, idOf).0;
      && |r.votes| == |rd.votes|
      && (forall j, k :: 0 <= j < |rd.votes| ==>
            var s := rd.votes[j].Get(k);
            r.votes[j].Get(k) == if s.id == NIL_ID || s.id == h.id then s else Slot(NIL_ID, NIL_SIG))
      && r.id == h.id && r.validRound == h.validRound && |r.proposal| == h.size && r.sigsN == 1
      && r.sigs == seq(ChunksN(h.size), _ => NIL_SIG)[h.chunk := sig] && Piece(r.proposal, h.chunk) == data
      && r.timeout == rd.timeout && r.prevoteTimeout == rd.prevoteTimeout && r.precommitTimeout == rd.precommitTimeout
  {
    WriteHere(Zeros(h.size), h.chunk, data);
  }

  /**
   * A node's own chunk that contradicts what it holds starts the round over: every vote is dropped and only the
   * timers stay. The chunk is then the only one held if its header differs, and not even that if only its
   * signature does.
   */
  lemma OwnConflictStartsOver(rd: RoundData, h: ChunkHeader, data: seq<byte>, sig: Sig, ms: seq<Member>,
                              idOf: Value -> ValueId)
    requires |rd.sigs| == ChunksN(|rd.proposal|) && Fits(h, data) && |rd.votes| <= |ms| && Flushes(rd, true, h, sig)
    ensures var (r, status) := AddChunk(rd, true, h, data, sig, ms, idOf);
      && r.height == rd.height && r.round == rd.round && r.timeout == rd.timeout
      && r.prevoteTimeout == rd.prevoteTimeout && r.precommitTimeout == rd.precommitTimeout
      && |r.votes| == |ms| && (forall j, k :: 0 <= j < |ms| ==> r.votes[j].Get(k) == Slot(NIL_ID, NIL_SIG))
      && r.id == h.id && r.validRound == h.validRound && |r.proposal| == h.size && r.checked == Indeterminate
      && if |rd.proposal| != h.size || rd.id != h.id || rd.validRound != h.validRound then
           && r.sigsN == 1 && r.sigs == seq(ChunksN(h.size), _ => NIL_SIG)[h.chunk := sig]
           && Piece(r.proposal, h.chunk) == data && status == (if r.faulty then Fail else Pass)
           && (r.faulty <==> ChunksN(h.size) == 1 && h.id != idOf(r.proposal))
         else r.sigsN == 0 && r.sigs == seq(ChunksN(h.size), _ => NIL_SIG) && !r.faulty && status == Pass
  {
    if Differs(rd, h) {
      FreshStart(rd, h, data, sig, ms, idOf);
    }
  }

  lemma FreshStart(rd: RoundData, h: ChunkHeader, data: seq<byte>, sig: Sig, ms: seq<Member>, idOf: Value -> ValueId)
    requires Fits(h, data)
    ensures ChunksN(h.size) == |Flush(rd, h, |ms|).sigs|
    ensures var (r, status) := StoreChunk(Flush(rd, h, |ms|), true, h, data, sig, ms, idOf);
      && r == Flush(rd, h, |ms|).(proposal := r.proposal, sigs := r.sigs, sigsN := 1, faulty := r.faulty)
      && |r.proposal| == h.size && r.sigs == seq(ChunksN(h.size), _ => NIL_SIG)[h.chunk := sig]
      && Piece(r.proposal, h.chunk) == data && status == (if r.faulty then Fail else Pass)
      && (r.faulty <==> ChunksN(h.size) == 1 && h.id != idOf(r.proposal))
  {
    var f := Flush(rd, h, |ms|);
    WriteHere(Zeros(h.size), h.chunk, data);
    assert PurgeVotes(f.votes, h.id) == f.votes && !AnyPurged(f.votes, h.id);
  }
}
