/**
 * The data a node keeps for one round: the proposal it is reassembling, the votes it has seen
 * and the running stake counts.
 */
module Rounds {
  import opened Types
  import opened Roster
  import opened VoteLog
  import opened Messages

  datatype Slot = Slot(id: ValueId, sig: Sig) {
    predicate Cast() { sig != NIL_SIG }
    predicate Yes() { Cast() && id != NIL_ID }
  }

  const NO_VOTE: Slot := Slot(NIL_ID, NIL_SIG)

  /** One member's prevote and precommit. */
  datatype Slots = Slots(prevote: Slot, precommit: Slot) {
    function Get(k: Kind): Slot {
      if k == Prevote then prevote else precommit
    }

    function Set(k: Kind, s: Slot): Slots {
      if k == Prevote then this.(prevote := s) else this.(precommit := s)
    }
  }

  const NO_VOTES: Slots := Slots(NO_VOTE, NO_VOTE)

  /** Stake behind each class of vote in one round. */
  datatype Counts = Counts(anys: nat, prevotes: nat, nilPrevotes: nat, yesPrevotes: nat, precommits: nat,
                           yesPrecommits: nat) {
    function Add(o: Counts): Counts {
      Counts(anys + o.anys, prevotes + o.prevotes, nilPrevotes + o.nilPrevotes, yesPrevotes + o.yesPrevotes,
             precommits + o.precommits, yesPrecommits + o.yesPrecommits)
    }

    predicate Covers(o: Counts) {
      && anys >= o.anys && prevotes >= o.prevotes && nilPrevotes >= o.nilPrevotes
      && yesPrevotes >= o.yesPrevotes && precommits >= o.precommits && yesPrecommits >= o.yesPrecommits
    }

    /** Unsigned subtraction: defined only where no field underflows. */
    function Sub(o: Counts): Counts
      requires Covers(o)
    {
      Counts(anys - o.anys, prevotes - o.prevotes, nilPrevotes - o.nilPrevotes, yesPrevotes - o.yesPrevotes,
             precommits - o.precommits, yesPrecommits - o.yesPrecommits)
    }
  }

  const ZERO: Counts := Counts(0, 0, 0, 0, 0, 0)

  function If(b: bool, stake: nat): nat {
    if b then stake else 0
  }

  /** What one member contributes; a prevote and a precommit of one member count once in `anys`. */
  function CountsOf(s: Slots, stake: nat): Counts {
    Counts(If(s.prevote.Cast() || s.precommit.Cast(), stake), If(s.prevote.Cast(), stake),
           If(s.prevote.Cast() && s.prevote.id == NIL_ID, stake), If(s.prevote.Yes(), stake),
           If(s.precommit.Cast(), stake), If(s.precommit.Yes(), stake))
  }

  /** The counts recomputed from scratch. */
  function SumCounts(votes: seq<Slots>, ms: seq<Member>): Counts
    requires |votes| <= |ms|
  {
    if votes == [] then ZERO
    else SumCounts(votes[..|votes| - 1], ms).Add(CountsOf(votes[|votes| - 1], ms[|votes| - 1].stake))
  }

  /** The stake of the members whose votes satisfy `p`. */
  function StakeWhere(votes: seq<Slots>, ms: seq<Member>, p: Slots -> bool): nat
    requires |votes| <= |ms|
  {
    if votes == [] then 0
    else StakeWhere(votes[..|votes| - 1], ms, p) + If(p(votes[|votes| - 1]), ms[|votes| - 1].stake)
  }

  /** What the counts mean: each is the stake of the members with that kind of vote, and nobody counts twice. */
  lemma {:induction false} CountsAreStake(votes: seq<Slots>, ms: seq<Member>)
    requires |votes| <= |ms|
    ensures var c := SumCounts(votes, ms);
      && c.anys == StakeWhere(votes, ms, (s: Slots) => s.prevote.sig != NIL_SIG || s.precommit.sig != NIL_SIG)
      && c.prevotes == StakeWhere(votes, ms, (s: Slots) => s.prevote.sig != NIL_SIG)
      && c.nilPrevotes == StakeWhere(votes, ms, (s: Slots) => s.prevote.sig != NIL_SIG && s.prevote.id == NIL_ID)
      && c.yesPrevotes == StakeWhere(votes, ms, (s: Slots) => s.prevote.sig != NIL_SIG && s.prevote.id != NIL_ID)
      && c.precommits == StakeWhere(votes, ms, (s: Slots) => s.precommit.sig != NIL_SIG)
      && c.yesPrecommits == StakeWhere(votes, ms, (s: Slots) => s.precommit.sig != NIL_SIG && s.precommit.id != NIL_ID)
    ensures var c := SumCounts(votes, ms);
      && c.prevotes == c.nilPrevotes + c.yesPrevotes && c.yesPrecommits <= c.precommits
      && c.prevotes <= c.anys && c.precommits <= c.anys <= c.prevotes + c.precommits && c.anys <= Total(ms[..|votes|])
  {
    if votes != [] {
      var n := |votes| - 1;
      CountsAreStake(votes[..n], ms);
      TotalStep(ms, n);
    }
  }

  datatype Status = Indeterminate | Pass | Fail

  datatype Step = AtPropose | AtPrevote | AtPrecommit

  datatype Timeout = Timeout(time: nat, height: nat, round: nat, step: Step)

  type Value = seq<byte>

  datatype RoundData = RoundData(
    height: nat,
    round: nat,
    proposal: Value,
    validRound: int,
    sigs: seq<Sig>,
    sigsN: nat,
    id: ValueId,
    checked: Status,
    faulty: bool,
    votes: seq<Slots>,
    counts: Counts,
    timeout: Option<Timeout>,
    prevoteTimeout: bool,
    precommitTimeout: bool)
  {
    predicate Full() {
      sigsN > 0 && sigsN == |sigs|
    }

    predicate Decidable() {
      faulty || Full()
    }
  }

  function EmptyRound(height: nat, round: nat, members: nat): RoundData {
    RoundData(height, round, [], -1, [], 0, NIL_ID, Indeterminate, false, seq(members, _ => NO_VOTES), ZERO, None,
      false, false)
  }

  /** `PROPOSAL_CHUNK_DATA_SIZE`: a 1400-byte frame less 24 bytes of transport and 164 of packet framing. */
  const CHUNK: nat := 1212

  function ChunksN(size: nat): nat {
    (size + CHUNK - 1) / CHUNK
  }

  function ChunkSize(size: nat, c: nat): nat
    requires c < ChunksN(size)
  {
    if size - c * CHUNK < CHUNK then size - c * CHUNK else CHUNK
  }

  /** The chunk a header announces exists, and `data` is as long as it. */
  predicate Fits(h: ChunkHeader, data: seq<byte>) {
    h.chunk < ChunksN(h.size) && |data| == ChunkSize(h.size, h.chunk)
  }

  /** `flush_for_amnesiac_proposer`: start the round over with another proposal of our own. */
  function Flush(rd: RoundData, h: ChunkHeader, members: nat): RoundData {
    EmptyRound(rd.height, rd.round, members).(
      id := h.id, validRound := h.validRound, timeout := rd.timeout,
      prevoteTimeout := rd.prevoteTimeout, precommitTimeout := rd.precommitTimeout,
      proposal := Zeros(h.size), sigs := seq(ChunksN(h.size), _ => NIL_SIG))
  }

  predicate Purged(s: Slot, id: ValueId) {
    s.id != NIL_ID && s.id != id
  }

  function PurgeSlot(s: Slot, id: ValueId): Slot {
    if Purged(s, id) then NO_VOTE else s
  }

  /** Drop the speculative votes that name another value than the proposal. */
  function PurgeVotes(votes: seq<Slots>, id: ValueId): (r: seq<Slots>)
    ensures |r| == |votes|
  {
    seq(|votes|, i requires 0 <= i < |votes| =>
      Slots(PurgeSlot(votes[i].prevote, id), PurgeSlot(votes[i].precommit, id)))
  }

  predicate AnyPurged(votes: seq<Slots>, id: ValueId) {
    exists i :: 0 <= i < |votes| && (Purged(votes[i].prevote, id) || Purged(votes[i].precommit, id))
  }

  /** The first chunk fixes the round's value and purges the votes for any other. */
  function Adopt(rd: RoundData, id: ValueId, ms: seq<Member>): RoundData
    requires |rd.votes| <= |ms|
  {
    var votes := PurgeVotes(rd.votes, id);
    rd.(id := id, votes := votes, counts := if AnyPurged(rd.votes, id) then SumCounts(votes, ms) else rd.counts)
  }

  /** Whether a chunk header contradicts the proposal already being reassembled. */
  predicate Differs(rd: RoundData, h: ChunkHeader) {
    |rd.proposal| != h.size || rd.id != h.id || rd.validRound != h.validRound
  }

  function Write(rd: RoundData, h: ChunkHeader, data: seq<byte>, sig: Sig): (w: RoundData)
    requires |rd.proposal| == h.size && |rd.sigs| == ChunksN(h.size) && Fits(h, data)
    ensures |w.proposal| == |rd.proposal| && |w.sigs| == |rd.sigs|
  {
    var o := h.chunk * CHUNK;
    rd.(proposal := rd.proposal[..o] + data + rd.proposal[o + |data|..], sigs := rd.sigs[h.chunk := sig],
        sigsN := rd.sigsN + 1, validRound := h.validRound)
  }

  function StoreChunk(rd: RoundData, mine: bool, h: ChunkHeader, data: seq<byte>, sig: Sig, ms: seq<Member>,
                      idOf: Value -> ValueId): (RoundData, Status)
    requires |rd.proposal| == h.size && |rd.sigs| == ChunksN(h.size) && Fits(h, data) && |rd.votes| <= |ms|
  {
    if rd.sigs[h.chunk] == NIL_SIG then
      var w := Write(rd, h, data, sig);
      var a := if w.id == NIL_ID then Adopt(w, h.id, ms) else w;
      if a.sigsN == |a.sigs| && a.id != idOf(a.proposal) then (a.(faulty := true), Fail) else (a, Pass)
    else if rd.sigs[h.chunk] == sig then (rd, Pass)
    else if mine then (Flush(rd, h, |ms|), Pass)
    else (rd.(faulty := true), Fail)
  }

  /** The proposal-chunk case of `check_and_incorporate_msg`; `ms` is the active roster. */
  function AddChunk(rd: RoundData, mine: bool, h: ChunkHeader, data: seq<byte>, sig: Sig, ms: seq<Member>,
                    idOf: Value -> ValueId): (RoundData, Status)
    requires |rd.sigs| == ChunksN(|rd.proposal|) && Fits(h, data) && |rd.votes| <= |ms|
  {
    if rd.sigsN == 0 then
      StoreChunk(rd.(proposal := Zeros(h.size), sigs := seq(ChunksN(h.size), _ => NIL_SIG)), mine, h, data, sig, ms,
        idOf)
    else if !Differs(rd, h) then StoreChunk(rd, mine, h, data, sig, ms, idOf)
    else if mine then StoreChunk(Flush(rd, h, |ms|), mine, h, data, sig, ms, idOf)
    else (rd, Fail)
  }

  /** Whether this chunk makes the node flush its own earlier proposal. */
  predicate Flushes(rd: RoundData, mine: bool, h: ChunkHeader, sig: Sig)
    requires |rd.sigs| == ChunksN(|rd.proposal|) && h.chunk < ChunksN(h.size)
  {
    && mine && rd.sigsN > 0
    && (Differs(rd, h) || (rd.sigs[h.chunk] != NIL_SIG && rd.sigs[h.chunk] != sig))
  }

  /** The vote cases of `check_and_incorporate_msg`. */
  function AddVote(rd: RoundData, k: Kind, j: nat, id: ValueId, sig: Sig, ms: seq<Member>): (RoundData, Status)
    requires j < |rd.votes| <= |ms|
  {
    var old_, new_ := rd.votes[j].Get(k), Slot(id, sig);
    if id != NIL_ID && rd.sigsN > 0 && rd.id != id then (rd, Fail)
    else if old_.Cast() && new_ != old_ then (rd, Fail)
    else
      var slots := rd.votes[j].Set(k, new_);
      SlotGrows(rd.votes[j], k, new_, ms[j].stake);
      var delta := CountsOf(slots, ms[j].stake).Sub(CountsOf(rd.votes[j], ms[j].stake));
      (rd.(votes := rd.votes[j := slots], counts := rd.counts.Add(delta)),
       if id != NIL_ID && rd.sigsN == 0 then Indeterminate else Pass)
  }

  /**
   * A vote is stored exactly if it is nil, or no proposal has begun to arrive, or it names the proposal, and its
   * member has no other vote of its kind in the round; anything else leaves the round as it is.
   */
  lemma AddVoteExactly(rd: RoundData, k: Kind, j: nat, id: ValueId, sig: Sig, ms: seq<Member>)
    requires j < |rd.votes| <= |ms|
    ensures var (r, status) := AddVote(rd, k, j, id, sig, ms);
      var held := if k == Prevote then rd.votes[j].prevote else rd.votes[j].precommit;
      if && (id == NIL_ID || rd.sigsN == 0 || id == rd.id)
         && (held.sig == NIL_SIG || (held.id == id && held.sig == sig))
      then
        && r == rd.(votes := r.votes, counts := r.counts) && |r.votes| == |rd.votes|
        && (forall x :: 0 <= x < |rd.votes| && x != j ==> r.votes[x] == rd.votes[x])
        && r.votes[j] == (if k == Prevote then Slots(Slot(id, sig), rd.votes[j].precommit)
                          else Slots(rd.votes[j].prevote, Slot(id, sig)))
        && status == if id != NIL_ID && rd.sigsN == 0 then Indeterminate else Pass
      else r == rd && status == Fail
  {
  }

  /** `proposal_is_valid`: consult the validation closure once and cache its verdict. */
  function Validate(rd: RoundData, verdict: Status): RoundData {
    if rd.checked != Indeterminate then rd
    else if rd.faulty then rd.(checked := Fail)
    else if rd.Full() then rd.(checked := verdict)
    else rd
  }

  // Incremental counts --------------------------------------------------------------------------

  /** The delta subtraction never underflows: a slot is only ever filled or left as it was. */
  lemma SlotGrows(s: Slots, k: Kind, n: Slot, stake: nat)
    requires s.Get(k).Cast() ==> n == s.Get(k)
    ensures CountsOf(s.Set(k, n), stake).Covers(CountsOf(s, stake))
  {
  }

  predicate Counted(rd: RoundData, ms: seq<Member>) {
    |rd.votes| <= |ms| && rd.counts == SumCounts(rd.votes, ms)
  }

  lemma {:induction false} SumUpdate(votes: seq<Slots>, ms: seq<Member>, j: nat, s: Slots)
    requires j < |votes| <= |ms|
    ensures SumCounts(votes[j := s], ms).Add(CountsOf(votes[j], ms[j].stake))
         == SumCounts(votes, ms).Add(CountsOf(s, ms[j].stake))
  {
    var n, next := |votes| - 1, votes[j := s];
    if j == n {
      assert next[..n] == votes[..n];
      AddSwaps(SumCounts(votes[..n], ms), CountsOf(s, ms[j].stake), CountsOf(votes[j], ms[j].stake));
    } else {
      assert next[..n] == votes[..n][j := s] && next[n] == votes[n];
      SumUpdate(votes[..n], ms, j, s);
      var last := CountsOf(votes[n], ms[n].stake);
      AddSwaps(SumCounts(next[..n], ms), last, CountsOf(votes[j], ms[j].stake));
      AddSwaps(SumCounts(votes[..n], ms), last, CountsOf(s, ms[j].stake));
    }
  }

  lemma AddSwaps(a: Counts, b: Counts, c: Counts)
    ensures a.Add(b).Add(c) == a.Add(c).Add(b)
  {
  }

  lemma SumStep(votes: seq<Slots>, ms: seq<Member>, n: nat)
    requires n < |votes| <= |ms|
    ensures SumCounts(votes[..n + 1], ms) == SumCounts(votes[..n], ms).Add(CountsOf(votes[n], ms[n].stake))
  {
    hide CountsOf;
    var some := votes[..n + 1];
    assert some[..n] == votes[..n] && some[n] == votes[n];
    assert SumCounts(some, ms) == SumCounts(some[..n], ms).Add(CountsOf(some[n], ms[n].stake));
  }

  lemma SumBase(votes: seq<Slots>, ms: seq<Member>)
    ensures SumCounts(votes[..0], ms) == ZERO
  {
  }

  lemma SumMore(votes: seq<Slots>, ms: seq<Member>, n: nat)
    requires n < |votes| <= |ms| && SumCounts(votes[..n], ms) == ZERO == CountsOf(votes[n], ms[n].stake)
    ensures SumCounts(votes[..n + 1], ms) == ZERO
  {
    SumStep(votes, ms, n);
    AddNothing(SumCounts(votes[..n], ms), CountsOf(votes[n], ms[n].stake));
  }

  lemma AddNothing(a: Counts, b: Counts)
    requires b == ZERO
    ensures a.Add(b) == a
  {
    assert b.anys == b.prevotes == b.nilPrevotes == b.yesPrevotes == b.precommits == b.yesPrecommits == 0;
  }

  lemma {:induction false} SumNone(votes: seq<Slots>, ms: seq<Member>, n: nat)
    requires n <= |votes| <= |ms| && forall i :: 0 <= i < n ==> CountsOf(votes[i], ms[i].stake) == ZERO
    ensures SumCounts(votes[..n], ms) == ZERO
  {
    hide CountsOf, SumCounts;
    if n == 0 {
      SumBase(votes, ms);
    } else {
      SumNone(votes, ms, n - 1);
      SumMore(votes, ms, n - 1);
    }
  }

  lemma NobodyVotes(stake: nat)
    ensures CountsOf(NO_VOTES, stake) == ZERO
  {
  }

  lemma SumEmpty(n: nat, ms: seq<Member>)
    requires n <= |ms|
    ensures SumCounts(seq(n, _ => NO_VOTES), ms) == ZERO
  {
    hide SumCounts, CountsOf;
    forall i | 0 <= i < n
      ensures CountsOf(NO_VOTES, ms[i].stake) == ZERO
    {
      NobodyVotes(ms[i].stake);
    }
    var votes := seq(n, _ => NO_VOTES);
    SumNone(votes, ms, n);
    assert votes[..n] == votes;
  }

  lemma NothingPurged(votes: seq<Slots>, id: ValueId)
    requires !AnyPurged(votes, id)
    ensures PurgeVotes(votes, id) == votes
  {
  }

  lemma AddCancels(s: Counts, t: Counts, a: Counts, b: Counts)
    requires t.Add(a) == s.Add(b) && b.Covers(a)
    ensures t == s.Add(b.Sub(a))
  {
  }

  /** The incremental count after a vote equals the recomputed one. */
  lemma AddVoteCounted(rd: RoundData, k: Kind, j: nat, id: ValueId, sig: Sig, ms: seq<Member>)
    requires Counted(rd, ms) && j < |rd.votes|
    ensures Counted(AddVote(rd, k, j, id, sig, ms).0, ms)
  {
    var r := AddVote(rd, k, j, id, sig, ms).0;
    if r != rd {
      var slots := rd.votes[j].Set(k, Slot(id, sig));
      SlotGrows(rd.votes[j], k, Slot(id, sig), ms[j].stake);
      SumUpdate(rd.votes, ms, j, slots);
      AddCancels(rd.counts, SumCounts(r.votes, ms), CountsOf(rd.votes[j], ms[j].stake), CountsOf(slots, ms[j].stake));
    }
  }

  lemma AdoptCounted(rd: RoundData, id: ValueId, ms: seq<Member>)
    requires Counted(rd, ms)
    ensures Counted(Adopt(rd, id, ms), ms)
  {
    if !AnyPurged(rd.votes, id) {
      NothingPurged(rd.votes, id);
    }
  }

  lemma FlushCounted(rd: RoundData, h: ChunkHeader, ms: seq<Member>)
    ensures Counted(Flush(rd, h, |ms|), ms)
  {
    SumEmpty(|ms|, ms);
  }

  lemma StoreChunkCounted(rd: RoundData, mine: bool, h: ChunkHeader, data: seq<byte>, sig: Sig, ms: seq<Member>,
                          idOf: Value -> ValueId)
    requires |rd.proposal| == h.size && |rd.sigs| == ChunksN(h.size) && Fits(h, data) && Counted(rd, ms)
    ensures Counted(StoreChunk(rd, mine, h, data, sig, ms, idOf).0, ms)
  {
    if rd.sigs[h.chunk] == NIL_SIG {
      var w := Write(rd, h, data, sig);
      assert Counted(w, ms);
      AdoptCounted(w, h.id, ms);
    } else {
      FlushCounted(rd, h, ms);
    }
  }

  /** A chunk keeps the counts equal to the recomputed ones, purge and flush included. */
  lemma AddChunkCounted(rd: RoundData, mine: bool, h: ChunkHeader, data: seq<byte>, sig: Sig, ms: seq<Member>,
                        idOf: Value -> ValueId)
    requires Counted(rd, ms) && |rd.sigs| == ChunksN(|rd.proposal|) && Fits(h, data)
    ensures Counted(AddChunk(rd, mine, h, data, sig, ms, idOf).0, ms)
  {
    FlushCounted(rd, h, ms);
    if rd.sigsN == 0 {
      var blank := rd.(proposal := Zeros(h.size), sigs := seq(ChunksN(h.size), _ => NIL_SIG));
      StoreChunkCounted(blank, mine, h, data, sig, ms, idOf);
    } else if !Differs(rd, h) {
      StoreChunkCounted(rd, mine, h, data, sig, ms, idOf);
    } else if mine {
      StoreChunkCounted(Flush(rd, h, |ms|), mine, h, data, sig, ms, idOf);
    }
  }

  // Vote homogeneity ----------------------------------------------------------------------------

  /** Once a chunk is held, every non-nil vote names the proposal. A flush can break the first part. */
  ghost predicate Homogeneous(rd: RoundData) {
    && (rd.sigsN == 0 ==> rd.id == NIL_ID)
    && (rd.sigsN > 0 ==> forall j, k :: 0 <= j < |rd.votes| && rd.votes[j].Get(k).id != NIL_ID ==>
      rd.votes[j].Get(k).id == rd.id)
  }

  lemma AddVoteHomogeneous(rd: RoundData, k: Kind, j: nat, id: ValueId, sig: Sig, ms: seq<Member>)
    requires Homogeneous(rd) && j < |rd.votes| <= |ms|
    ensures Homogeneous(AddVote(rd, k, j, id, sig, ms).0)
  {
    var r := AddVote(rd, k, j, id, sig, ms).0;
    forall i, l | rd.sigsN > 0 && 0 <= i < |r.votes| && r.votes[i].Get(l).id != NIL_ID
      ensures r.votes[i].Get(l).id == r.id
    {
      assert r.votes[i].Get(l) == rd.votes[i].Get(l) || r.votes[i].Get(l) == Slot(id, sig);
    }
  }

  lemma AdoptHomogeneous(rd: RoundData, id: ValueId, ms: seq<Member>)
    requires |rd.votes| <= |ms| && rd.sigsN > 0
    ensures Homogeneous(Adopt(rd, id, ms))
  {
    var a := Adopt(rd, id, ms);
    forall j, k | 0 <= j < |a.votes| && a.votes[j].Get(k).id != NIL_ID
      ensures a.votes[j].Get(k).id == id
    {
      assert a.votes[j].Get(k) == PurgeSlot(rd.votes[j].Get(k), id);
    }
  }

  lemma StoreChunkHomogeneous(rd: RoundData, mine: bool, h: ChunkHeader, data: seq<byte>, sig: Sig, ms: seq<Member>,
                              idOf: Value -> ValueId)
    requires |rd.proposal| == h.size && |rd.sigs| == ChunksN(h.size) && Fits(h, data) && |rd.votes| <= |ms|
    requires Homogeneous(rd) && !(mine && rd.sigs[h.chunk] != NIL_SIG && rd.sigs[h.chunk] != sig)
    ensures Homogeneous(StoreChunk(rd, mine, h, data, sig, ms, idOf).0)
  {
    if rd.sigs[h.chunk] == NIL_SIG {
      var w := Write(rd, h, data, sig);
      if w.id == NIL_ID {
        AdoptHomogeneous(w, h.id, ms);
      }
    }
  }

  lemma AddChunkHomogeneous(rd: RoundData, mine: bool, h: ChunkHeader, data: seq<byte>, sig: Sig, ms: seq<Member>,
                            idOf: Value -> ValueId)
    requires |rd.sigs| == ChunksN(|rd.proposal|) && Fits(h, data) && |rd.votes| <= |ms|
    requires Homogeneous(rd) && !Flushes(rd, mine, h, sig)
    ensures Homogeneous(AddChunk(rd, mine, h, data, sig, ms, idOf).0)
  {
    if rd.sigsN == 0 {
      StoreChunkHomogeneous(rd.(proposal := Zeros(h.size), sigs := seq(ChunksN(h.size), _ => NIL_SIG)), mine, h, data,
        sig, ms, idOf);
    } else if !Differs(rd, h) {
      StoreChunkHomogeneous(rd, mine, h, data, sig, ms, idOf);
    }
  }
}
