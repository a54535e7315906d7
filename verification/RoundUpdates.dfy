/** The loops of `check_and_incorporate_msg` over one round's data. */
module RoundUpdates {
  import opened Types
  import opened Roster
  import opened VoteLog
  import opened Messages
  import opened Rounds

  /** The votes for another value than the proposed one are dropped, and the caller learns whether there were any. */
  method Purge(votes: seq<Slots>, id: ValueId) returns (kept: seq<Slots>, any: bool)
    ensures kept == PurgeVotes(votes, id) && (any <==> AnyPurged(votes, id))
  {
    kept, any := votes, false;
    for i := 0 to |votes|
      invariant |kept| == |votes| && kept[i..] == votes[i..]
      invariant forall x :: 0 <= x < i ==> kept[x] == PurgeVotes(votes, id)[x]
      invariant any <==> exists x :: 0 <= x < i && (Purged(votes[x].prevote, id) || Purged(votes[x].precommit, id))
    {
      assert kept[i] == votes[i];
      if Purged(kept[i].prevote, id) {
        any := true;
        kept := kept[i := kept[i].(prevote := NO_VOTE)];
      }
      if Purged(kept[i].precommit, id) {
        any := true;
        kept := kept[i := kept[i].(precommit := NO_VOTE)];
      }
    }
  }

  /** The counts are recomputed from scratch. */
  method Recount(votes: seq<Slots>, ms: seq<Member>) returns (counts: Counts)
    requires |votes| <= |ms|
    ensures counts == SumCounts(votes, ms)
  {
    counts := ZERO;
    for i := 0 to |votes|
      invariant counts == SumCounts(votes[..i], ms)
    {
      assert votes[..i + 1][..i] == votes[..i];
      counts := counts.Add(CountsOf(votes[i], ms[i].stake));
    }
    assert votes[..|votes|] == votes;
  }

  /** The chunk's bytes, its signature and the counter beside the signatures are stored. */
  method StoreBytes(rd: RoundData, h: ChunkHeader, data: seq<byte>, sig: Sig) returns (out: RoundData)
    requires |rd.proposal| == h.size && |rd.sigs| == ChunksN(h.size) && Fits(h, data)
    ensures out == Write(rd, h, data, sig)
  {
    var o, size := h.chunk * CHUNK, ChunkSize(h.size, h.chunk);
    var bytes := rd.proposal;
    for i := 0 to size
      invariant |bytes| == |rd.proposal| && bytes == rd.proposal[..o] + data[..i] + rd.proposal[o + i..]
    {
      bytes := bytes[o + i := data[i]];
    }
    out := rd.(proposal := bytes);
    out := out.(sigs := out.sigs[h.chunk := sig]);
    out := out.(sigsN := out.sigsN + 1);
    out := out.(validRound := h.validRound);
  }

  /** `flush_for_amnesiac_proposer`: everything but the place and the timers starts over. */
  method FlushForAmnesiac(rd: RoundData, h: ChunkHeader, members: nat) returns (out: RoundData)
    ensures out == Flush(rd, h, members)
  {
    out := RoundData(rd.height, rd.round, [], h.validRound, [], 0, h.id, Indeterminate, false,
                     seq(members, _ => NO_VOTES), ZERO, rd.timeout, rd.prevoteTimeout, rd.precommitTimeout);
    out := out.(proposal := Zeros(h.size));
    out := out.(sigs := seq(ChunksN(|out.proposal|), _ => NIL_SIG));
  }

  /** A chunk not seen before is written; a second signature for one already held is a fault or an amnesia. */
  method KeepChunk(rd: RoundData, mine: bool, h: ChunkHeader, data: seq<byte>, sig: Sig, ms: seq<Member>,
                   idOf: Value -> ValueId)
    returns (out: RoundData, status: Status)
    requires |rd.proposal| == h.size && |rd.sigs| == ChunksN(h.size) && Fits(h, data) && |rd.votes| <= |ms|
    ensures (out, status) == StoreChunk(rd, mine, h, data, sig, ms, idOf)
  {
    out := rd;
    if out.sigs[h.chunk] == NIL_SIG {
      out := StoreBytes(out, h, data, sig);
      if out.id == NIL_ID {
        var votes, any := Purge(out.votes, h.id);
        out := out.(id := h.id, votes := votes);
        if any {
          var counts := Recount(votes, ms);
          out := out.(counts := counts);
        }
      }
      if out.sigsN == |out.sigs| && out.id != idOf(out.proposal) {
        out := out.(faulty := true);
        return out, Fail;
      }
    } else if out.sigs[h.chunk] != sig {
      if mine {
        out := FlushForAmnesiac(out, h, |ms|);
      } else {
        out := out.(faulty := true);
        return out, Fail;
      }
    }
    status := Pass;
  }

  /** The proposal-chunk branch. */
  method TakeChunk(rd: RoundData, mine: bool, h: ChunkHeader, data: seq<byte>, sig: Sig, ms: seq<Member>,
                   idOf: Value -> ValueId)
    returns (out: RoundData, status: Status)
    requires |rd.sigs| == ChunksN(|rd.proposal|) && Fits(h, data) && |rd.votes| <= |ms|
    ensures (out, status) == AddChunk(rd, mine, h, data, sig, ms, idOf)
  {
    out := rd;
    if out.sigsN > 0 {
      if mine && (|out.proposal| != h.size || out.id != h.id || out.validRound != h.validRound) {
        out := FlushForAmnesiac(out, h, |ms|);
      } else {
        if |out.proposal| != h.size {
          return out, Fail;
        }
        if out.id != h.id {
          return out, Fail;
        }
        if out.validRound != h.validRound {
          return out, Fail;
        }
      }
    } else {
      out := out.(proposal := Zeros(h.size), sigs := seq(ChunksN(h.size), _ => NIL_SIG));
    }
    out, status := KeepChunk(out, mine, h, data, sig, ms, idOf);
  }

  /** The vote branches: the counts move by the difference that this one slot makes. */
  method TakeVote(rd: RoundData, k: Kind, j: nat, id: ValueId, sig: Sig, ms: seq<Member>)
    returns (out: RoundData, status: Status)
    requires j < |rd.votes| <= |ms|
    ensures (out, status) == AddVote(rd, k, j, id, sig, ms)
  {
    out := rd;
    if id == NIL_ID {
      status := Pass;
    } else if out.sigsN == 0 {
      status := Indeterminate;
    } else if out.id != id {
      return out, Fail;
    } else {
      status := Pass;
    }
    var before, after := out.votes[j].Get(k), Slot(id, sig);
    if before.Cast() && after != before {
      return out, Fail;
    }
    var was := CountsOf(out.votes[j], ms[j].stake);
    SlotGrows(out.votes[j], k, after, ms[j].stake);
    out := out.(votes := out.votes[j := out.votes[j].Set(k, after)]);
    var now := CountsOf(out.votes[j], ms[j].stake);
    out := out.(counts := out.counts.Add(now.Sub(was)));
  }
}
