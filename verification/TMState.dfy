/**
 * The consensus state machine as the object it is: fields updated in place, loops over chunks and
 * rounds. Every method is proved to do to the fields what the functions of `Node` say, and never to
 * leave the bounds of a list.
 */
module TMState {
  import opened Types
  import opened Bytes
  import opened Roster
  import opened VoteLog
  import opened Messages
  import opened Rounds
  import opened Reassembly
  import opened RoundUpdates
  import opened Node
  import opened Reception
  import opened Invariant

  /** The structure that in-bounds indexing rests on; it does not depend on what anybody signs. */
  ghost predicate Shape(n: Node) {
    && PrefixSums(n.roster) && Sorted(n.rounds)
    && (exists cut :: Cut(n, cut))
    && (forall i :: 0 <= i < |n.rounds| ==> Timed(n.rounds[i]))
    && (forall i :: 0 <= i < |n.rounds| && n.rounds[i].height == n.height ==> Fitted(n.rounds[i], ActiveLen(n.roster)))
    && (n.valid.0.Some? ==> |n.valid.0.value| < SIZE_LIMIT)
  }

  predicate Fitted(rd: RoundData, members: nat) {
    Shaped(rd, members) && |rd.proposal| < SIZE_LIMIT
  }

  /** Entries of closed heights stay where they are. */
  predicate ClosedKept(a: seq<RoundData>, b: seq<RoundData>, h: nat) {
    forall x :: 0 <= x < |a| && a[x].height < h ==> x < |b| && b[x].height < h
  }

  lemma WithRoundShape(n: Node, r: nat)
    requires Shape(n)
    ensures var i, m := LowerBound(n.rounds, n.height, r), n.(rounds := WithRound(n, r));
      && Shape(m) && IsAt(m.rounds, i, n.height, r) && |n.rounds| <= |m.rounds|
        && Fitted(m.rounds[i], ActiveLen(n.roster))
      && ClosedKept(n.rounds, m.rounds, n.height)
  {
    var i, m := LowerBound(n.rounds, n.height, r), n.(rounds := WithRound(n, r));
    var cut :| Cut(n, cut);
    WithRoundSorted(n, r, cut);
    forall x | 0 <= x < |m.rounds|
      ensures Timed(m.rounds[x]) && (m.rounds[x].height == n.height ==> Fitted(m.rounds[x], ActiveLen(n.roster)))
    {
      if m.rounds != n.rounds && x < i {
        assert m.rounds[x] == n.rounds[x];
      } else if m.rounds != n.rounds && x > i {
        assert m.rounds[x] == n.rounds[x - 1];
      }
    }
  }

  lemma PutShape(n: Node, i: nat, rd: RoundData)
    requires Shape(n) && i < |n.rounds| && rd.height == n.rounds[i].height && rd.round == n.rounds[i].round && Timed(rd)
    requires rd.height == n.height ==> Fitted(rd, ActiveLen(n.roster))
    ensures Shape(Put(n, i, rd))
  {
    var cut :| Cut(n, cut);
    assert Cut(Put(n, i, rd), cut);
  }

  lemma ShapeFrame(n: Node, m: Node)
    requires Shape(n) && m.roster == n.roster && m.height == n.height && m.rounds == n.rounds
    requires m.valid == n.valid || (m.valid.0.Some? && |m.valid.0.value| < SIZE_LIMIT)
    ensures Shape(m)
  {
    var cut :| Cut(n, cut);
    assert Cut(m, cut);
  }

  lemma ClosedShape(n: Node, i: nat, next: seq<Member>)
    requires Shape(n) && PrefixSums(next)
    ensures var m := CloseHeight(n, i, next);
      Shape(m) && m.rounds == n.rounds && forall x :: 0 <= x < |m.rounds| ==> m.rounds[x].height < m.height
  {
    hide Sorted, Below, PrefixSums;
    var cut :| Cut(n, cut);
    NothingPruned(n.rounds, n.height + 1);
    assert Cut(CloseHeight(n, i, next), |n.rounds|);
  }

  /** What a message leaves alone in the round it goes to. */
  predicate Kept(rd: RoundData, out: RoundData, members: nat) {
    && out.height == rd.height && out.round == rd.round && out.timeout == rd.timeout
    && Fitted(out, members)
  }

  lemma StoreShape(rd: RoundData, mine: bool, h: ChunkHeader, data: seq<byte>, sig: Sig, ms: seq<Member>,
                   idOf: Value -> ValueId)
    requires Fitted(rd, |ms|) && |rd.proposal| == h.size && Fits(h, data)
    ensures Kept(rd, StoreChunk(rd, mine, h, data, sig, ms, idOf).0, |ms|)
  {
    hide AnyPurged, SumCounts, ChunkSize, ChunksN;
  }

  lemma ChunkShape(rd: RoundData, mine: bool, h: ChunkHeader, data: seq<byte>, sig: Sig, ms: seq<Member>,
                   idOf: Value -> ValueId)
    requires Fitted(rd, |ms|) && h.size < SIZE_LIMIT && Fits(h, data)
    ensures Kept(rd, AddChunk(rd, mine, h, data, sig, ms, idOf).0, |ms|)
  {
    hide StoreChunk, ChunksN, ChunkSize;
    if rd.sigsN == 0 {
      StoreShape(rd.(proposal := Zeros(h.size), sigs := seq(ChunksN(h.size), _ => NIL_SIG)), mine, h, data, sig, ms,
        idOf);
    } else if !Differs(rd, h) {
      StoreShape(rd, mine, h, data, sig, ms, idOf);
    } else if mine {
      StoreShape(Flush(rd, h, |ms|), mine, h, data, sig, ms, idOf);
    }
  }

  lemma IntoShape(cr: Crypto, n: Node, rd: RoundData, p: Packet, j: nat, sig: Sig)
    requires j < ActiveLen(n.roster) && Fitted(rd, ActiveLen(n.roster)) && ChunkInRange(p)
    ensures Kept(rd, IncorporateInto(cr, n, rd, p, j, sig).0, ActiveLen(n.roster))
  {
    hide AddChunk, ChunksN, ChunkSize;
    if p.body.ChunkBody? && ParseHeader(p.data).Some? {
      SizeFits(p.data);
      var size := ParseHeader(p.data).value.size;
      var data := p.data[HEADER_SIZE..HEADER_SIZE + ChunkSize(size, p.body.chunk)];
      ChunkShape(rd, n.roster[j].key == n.key, HeaderFor(p, size), data, sig, Active(n.roster), cr.idOf);
    }
  }

  /** The entries are where they were. */
  predicate SamePlaces(a: seq<RoundData>, b: seq<RoundData>) {
    |a| == |b| && forall x :: 0 <= x < |a| ==> b[x].height == a[x].height && b[x].round == a[x].round
  }

  lemma SizeFits(data: seq<byte>)
    requires ParseHeader(data).Some?
    ensures ParseHeader(data).value.size < SIZE_LIMIT
  {
    UnLeRoundTrip(data[4..8]);
    Widths();
  }

  /** Our own chunks are in range, so storing them cannot panic. */
  lemma OwnChunkInRange(s: SignedChunk)
    requires s.header.size < SIZE_LIMIT && Fits(s.header, s.data)
    ensures ChunkInRange(ChunkPacket(s))
  {
    HeaderFields(s.header, s.data);
    Widths();
    LeRoundTrip(s.header.size, 4);
  }

  /** Header and chunk are written one behind the other into the send buffer. */
  method EncodeChunk(h: ChunkHeader, piece: seq<byte>) returns (data: seq<byte>)
    requires |piece| <= CHUNK
    ensures data == ChunkBytes(h, piece)
  {
    var buf := new byte[2048](_ => 0);
    ghost var blank := buf[..];
    var o := WriteHeader(buf, 0, h);
    assert buf[..] == Overlay(blank, 0, HeaderBytes(h));
    o := PutBytes(buf, blank, 0, HeaderBytes(h), o, piece);
    data := buf[..o];
    assert data == Overlay(blank, 0, ChunkBytes(h, piece))[..o];
  }

  class TMState {
    const cr: Crypto
    const key: PubKey
    var roster: seq<Member>
    var height: nat
    var round: nat
    var step: Step
    var valid: (Option<Value>, int)
    var locked: (Option<Value>, int)
    var rounds: seq<RoundData>
    var committed: seq<RoundData>
    ghost var votes: Log
    ghost var chunks: set<SignedChunk>

    ghost function Now(): Node
      reads this
    {
      Node(key, roster, height, round, step, valid, locked, rounds, committed, votes, chunks)
    }

    ghost predicate Valid()
      reads this
    {
      Shape(Now())
    }

    constructor (cr: Crypto, key: PubKey, roster: seq<Member>, ingest: seq<RoundData>, ghost votes: Log,
                 ghost chunks: set<SignedChunk>)
      requires PrefixSums(roster)
      ensures Now() == Newborn(key, roster, ingest, votes, chunks) && Valid() && this.cr == cr
    {
      this.cr, this.key, this.roster := cr, key, roster;
      height, round, step, valid, locked := |ingest|, 0, AtPropose, (None, -1), (None, -1);
      rounds, committed := [], ingest;
      this.votes, this.chunks := votes, chunks;
      new;
      assert Cut(Now(), 0);
    }

    method InsertRound(i: nat, r: nat)
      requires Valid() && i == LowerBound(rounds, height, r) && !Found(rounds, height, r)
      modifies this`rounds
      ensures Now() == old(Now()).(rounds := WithRound(old(Now()), r)) && Valid()
    {
      WithRoundShape(Now(), r);
      rounds := rounds[..i] + [EmptyRound(height, r, ActiveLen(roster))] + rounds[i..];
    }

    /** The binary search for (height, round), which inserts an empty entry where it fails. */
    method RoundIndex(r: nat) returns (i: nat)
      requires Valid()
      modifies this`rounds
      ensures Now() == old(Now()).(rounds := WithRound(old(Now()), r)) && Valid()
      ensures i == old(LowerBound(rounds, height, r)) && IsAt(rounds, i, height, r) && old(|rounds|) <= |rounds|
      ensures ClosedKept(old(rounds), rounds, height)
    {
      WithRoundShape(Now(), r);
      i := LowerBound(rounds, height, r);
      if !Found(rounds, height, r) {
        InsertRound(i, r);
      }
    }

    method CheckAndIncorporate(p: Packet, j: nat, sig: Sig) returns (outcome: Outcome)
      requires Valid()
      modifies this`rounds
      ensures outcome == Panicked <==> Panics(cr, old(Now()), p, j, sig)
      ensures outcome.Done? ==>
        (Now(), outcome.status) == Incorporate(cr, old(Now()), p, j, sig) && Valid() && old(|rounds|) <= |rounds|
      ensures outcome.Done? && (p.height != height || old(Found(rounds, p.height, p.round))) ==>
        SamePlaces(old(rounds), rounds)
    {
      if p.height != height || j >= ActiveLen(roster) || !cr.verify(roster[j].key, p.data, sig) {
        return Done(Fail);
      }
      var i := RoundIndex(p.round);
      assert rounds[i] == EntryFor(old(Now()), p.round);
      var rd;
      rd, outcome := IntoRound(i, p, j, sig);
      PutShape(Now(), i, rd);
      assert rounds[i := rounds[i]] == rounds;
      rounds := rounds[i := rd];
    }

    /** The part of `check_and_incorporate_msg` behind its preliminary checks, on the round it found. */
    method IntoRound(i: nat, p: Packet, j: nat, sig: Sig) returns (rd: RoundData, outcome: Outcome)
      requires Valid() && i < |rounds| && rounds[i].height == height && j < ActiveLen(roster)
      ensures outcome == Panicked <==> !ChunkInRange(p) && !Contradicts(Now(), rounds[i], p, j)
      ensures ChunkInRange(p) ==>
        outcome.Done? && (rd, outcome.status) == IncorporateInto(cr, Now(), rounds[i], p, j, sig)
      ensures !ChunkInRange(p) ==> rd == rounds[i] && (outcome.Done? ==> outcome.status == Fail)
      ensures Kept(rounds[i], rd, ActiveLen(roster))
    {
      rd := rounds[i];
      var status;
      match p.body {
        case ChunkBody(c, _, _) =>
          var hdr := ParseHeader(p.data);
          if hdr.None? {
            return rd, Done(Fail);
          }
          var size := hdr.value.size;
          if c >= ChunksN(size) || HEADER_SIZE + ChunkSize(size, c) > |p.data| {
            var refused := rd.sigsN > 0 && roster[j].key != key && Differs(rd, HeaderFor(p, size));
            return rd, if refused then Done(Fail) else Panicked;
          }
          IntoShape(cr, Now(), rd, p, j, sig);
          var data := p.data[HEADER_SIZE..HEADER_SIZE + ChunkSize(size, c)];
          rd, status := TakeChunk(rd, roster[j].key == key, HeaderFor(p, size), data, sig, Active(roster), cr.idOf);
        case VoteBody(k, id) =>
          IntoShape(cr, Now(), rd, p, j, sig);
          rd, status := TakeVote(rd, k, j, id, sig, Active(roster));
        case OtherBody =>
          status := Fail;
      }
      outcome := Done(status);
    }

    /** The receiving loop on one chunk message, whose chunk header starts at `at`. */
    method ReceiveChunk(msg: seq<byte>, at: nat) returns (panicked: bool)
      requires Valid() && Opened(msg, at)
      modifies this`rounds
      ensures panicked <==> Crashes(cr, old(Now()), msg, at)
      ensures !panicked ==> Now() == AfterChunk(cr, old(Now()), msg, at) && Valid()
    {
      hide Panics, Incorporate, ParseHeader, Shape;
      var c := new Cursor(msg[at..]);
      var hdr := ReadHeader(c);
      if hdr.None? {
        return false;
      }
      var h := hdr.value;
      if h.size < h.chunk * CHUNK {
        return true;
      }
      var rest := h.size - h.chunk * CHUNK;
      var size := if rest < CHUNK then rest else CHUNK;
      if |msg| != size + EXTRA {
        return false;
      }
      var j := ProposerAt(cr, roster, h.height, h.round);
      if j.None? {
        return false;
      }
      var end := at + HEADER_SIZE + size;
      var p := Packet(h.height, h.round, ChunkBody(h.chunk, h.id, h.validRound), msg[at..end]);
      var outcome := CheckAndIncorporate(p, j.value, Sig(msg[end..end + 64]));
      return outcome == Panicked;
    }

    /** `broadcast` of a vote; the caller moves to the step that it returns. */
    method BroadcastVote(i: nat, k: Kind, id: ValueId) returns (s: Step)
      requires Valid() && i < |rounds|
      modifies this`rounds, this`votes
      ensures Now().(step := s) == CastVote(cr, old(Now()), i, k, id)
      ensures Valid() && SamePlaces(old(rounds), rounds)
    {
      var j := Position(Active(roster), key);
      if j.None? {
        return step;
      }
      var v := Vote(rounds[i].height, rounds[i].round, k, id, key);
      var _, data := MakeVoteSignDatas(v);
      votes := votes + [v];
      ShapeFrame(old(Now()), Now());
      AtIsFound(rounds, i, v.height, v.round);
      var _ := CheckAndIncorporate(VotePacket(v), j.value, cr.sign(key, data));
      s := StepOf(k);
    }

    /** One chunk of our own proposal is signed and stored as if received. */
    method BroadcastChunk(i: nat, j: nat, value: Value, validRound: int, c: nat)
      requires Valid() && i < |rounds| && c < ChunksN(|value|) && |value| < SIZE_LIMIT
      modifies this`rounds, this`chunks
      ensures Now() == CastChunk(cr, old(Now()), j, OwnChunk(cr, old(Now()), old(rounds[i].height),
        old(rounds[i].round), value, validRound, c))
      ensures Valid() && SamePlaces(old(rounds), rounds)
    {
      var h, r := rounds[i].height, rounds[i].round;
      var s := SignedChunk(key, ChunkHeader(c, |value|, r, validRound, h, cr.idOf(value)), Piece(value, c));
      var data := EncodeChunk(s.header, s.data);
      chunks := chunks + {s};
      OwnChunkInRange(s);
      ShapeFrame(old(Now()), Now());
      AtIsFound(rounds, i, h, r);
      var _ := CheckAndIncorporate(ChunkPacket(s), j, cr.sign(key, data));
    }

    /** `broadcast` of a proposal. */
    method BroadcastProposal(i: nat, value: Value, validRound: int) returns (s: Step)
      requires Valid() && i < |rounds| && |value| < SIZE_LIMIT
      modifies this`rounds, this`chunks
      ensures Now().(step := s) == CastProposal(cr, old(Now()), i, value, validRound)
      ensures Valid() && SamePlaces(old(rounds), rounds)
    {
      var j := Position(Active(roster), key);
      if j.None? {
        return step;
      }
      ghost var turn := ChunkTurn(cr, rounds[i].height, rounds[i].round, j.value, value, validRound);
      for c := 0 to ChunksN(|value|)
        invariant Valid() && SamePlaces(old(rounds), rounds)
        invariant Loop(turn, Now(), c, ChunksN(|value|)) == Loop(turn, old(Now()), 0, ChunksN(|value|))
        invariant Now() == old(Now()).(rounds := rounds, chunks := chunks)
      {
        BroadcastChunk(i, j.value, value, validRound, c);
      }
      s := AtPropose;
    }

    method ProposerKeyNow() returns (k: PubKey)
      requires Valid()
      ensures k == ProposerKey(cr, roster, height, round)
    {
      ProposerIsActive(roster, cr.lot(height, round));
      var j := ProposerAt(cr, roster, height, round);
      match j
      case None => k := NIL_KEY;
      case Some(x) => k := roster[x].key;
    }

    /** Entry `i` gets the timer of the current round. */
    method SetTimer(i: nat, now: nat, s: Step)
      requires Valid() && i < |rounds| && rounds[i].height == height && rounds[i].round == round
      modifies this`rounds
      ensures Now() == SetTimeout(old(Now()), i, now, s) && Valid() && |rounds| == old(|rounds|)
    {
      PutShape(Now(), i, rounds[i].(timeout := NewTimeout(now, height, round, s)));
      var timer := Timeout(now + (5000 + round * 1000), height, round, s);
      rounds := rounds[i := rounds[i].(timeout := Some(timer))];
    }

    /** The middle of `start_round`: the proposer puts its value forward. */
    method Propose(i: nat, offer: Option<Value>)
      requires Valid() && i < |rounds| && (offer.Some? ==> |offer.value| < SIZE_LIMIT)
      modifies this`rounds, this`step, this`chunks
      ensures Now() == Offering(cr, old(Now()), i, offer) && Valid() && SamePlaces(old(rounds), rounds)
    {
      var k := ProposerKeyNow();
      var next := AtPropose;
      if k == key {
        var proposal := if valid.0.Some? then valid.0 else offer;
        if proposal.Some? {
          next := BroadcastProposal(i, proposal.value, valid.1);
        }
      }
      ghost var n := Now();
      step := next;
      ShapeFrame(n, Now());
    }

    /** `start_round`; `offer` is what the proposal closure answers if it is asked. */
    method StartRoundAt(now: nat, r: nat, offer: Option<Value>)
      requires Valid() && (offer.Some? ==> |offer.value| < SIZE_LIMIT)
      modifies this`round, this`rounds, this`step, this`chunks
      ensures Now() == StartRound(cr, old(Now()), now, r, offer)
      ensures Valid() && old(|rounds|) <= |rounds| && ClosedKept(old(rounds), rounds, height)
    {
      hide Offering, Shape;
      round := r;
      ShapeFrame(old(Now()), Now());
      var i := RoundIndex(r);
      Propose(i, offer);
      SetTimer(i, now, AtPropose);
    }

    // The rules of bft_update, in the order of its loop body ---------------------------------------

    /** `proposal_is_valid` on entry `i`. */
    method ProposalIsValid(i: nat, verdict: Status) returns (status: Status)
      requires Valid() && i < |rounds|
      modifies this`rounds
      ensures Now() == Check(old(Now()), i, verdict) && status == rounds[i].checked
      ensures Valid() && SamePlaces(old(rounds), rounds)
    {
      PutShape(Now(), i, Validate(rounds[i], verdict));
      ghost var before := rounds[i];
      if rounds[i].checked == Indeterminate {
        if rounds[i].faulty {
          rounds := rounds[i := rounds[i].(checked := Fail)];
        } else if rounds[i].sigsN > 0 && rounds[i].sigsN == |rounds[i].sigs| {
          rounds := rounds[i := rounds[i].(checked := verdict)];
        }
      }
      assert rounds == old(rounds)[i := Validate(before, verdict)];
      status := rounds[i].checked;
    }

    /** The node moves to the step that a broadcast returned. */
    method VoteAndStep(i: nat, k: Kind, id: ValueId)
      requires Valid() && i < |rounds|
      modifies this`rounds, this`votes, this`step
      ensures Now() == CastVote(cr, old(Now()), i, k, id) && Valid() && SamePlaces(old(rounds), rounds)
    {
      hide Shape, CastVote;
      var s := BroadcastVote(i, k, id);
      ghost var n := Now();
      step := s;
      assert Shape(Now()) by { ShapeFrame(n, Now()); }
    }

    method Line22(i: nat, s: Snap, env: Env)
      requires Valid() && i < |rounds|
      modifies this`rounds, this`votes, this`step
      ensures Now() == Rule22(cr, old(Now()), i, s, env) && Valid() && SamePlaces(old(rounds), rounds)
    {
      hide Shape, CastVote, Validate;
      if s.onRoster && s.current && s.decidable && rounds[i].validRound == -1 && step == AtPropose {
        var status := ProposalIsValid(i, env.verdict(22, i, rounds[i].proposal));
        if status == Pass && (locked.1 == -1 || locked.0 == Some(rounds[i].proposal)) {
          VoteAndStep(i, Prevote, rounds[i].id);
        } else {
          VoteAndStep(i, Prevote, NIL_ID);
        }
      }
    }

    method Line28(i: nat, s: Snap, big: nat, env: Env)
      requires Valid() && i < |rounds|
      modifies this`rounds, this`votes, this`step
      ensures Now() == Rule28(cr, old(Now()), i, s, big, env) && Valid() && SamePlaces(old(rounds), rounds)
    {
      hide Shape, CastVote, Validate;
      if && s.onRoster && s.current && s.decidable && big <= s.counts.yesPrevotes && step == AtPropose
         && 0 <= rounds[i].validRound < round
      {
        var status := ProposalIsValid(i, env.verdict(28, i, rounds[i].proposal));
        if status == Pass && (locked.1 <= rounds[i].validRound || locked.0 == Some(rounds[i].proposal)) {
          VoteAndStep(i, Prevote, rounds[i].id);
        } else {
          VoteAndStep(i, Prevote, NIL_ID);
        }
      }
    }

    method Line34(i: nat, s: Snap, big: nat, env: Env)
      requires Valid() && i < |rounds| && s.current == (rounds[i].height == height && rounds[i].round == round)
      modifies this`rounds
      ensures Now() == Rule34(old(Now()), i, s, big, env) && Valid() && SamePlaces(old(rounds), rounds)
    {
      if s.onRoster && s.current && big <= s.counts.prevotes && step == AtPrevote && !rounds[i].prevoteTimeout {
        PutShape(Now(), i, rounds[i].(prevoteTimeout := true));
        rounds := rounds[i := rounds[i].(prevoteTimeout := true)];
        SetTimer(i, env.now, AtPrevote);
      }
    }

    method Line36(i: nat, s: Snap, big: nat, env: Env)
      requires Valid() && i < |rounds| && s.current == (rounds[i].height == height && rounds[i].round == round)
      modifies this`rounds, this`votes, this`step, this`locked, this`valid
      ensures Now() == Rule36(cr, old(Now()), i, s, big, env) && Valid() && SamePlaces(old(rounds), rounds)
    {
      hide CastVote, Validate;
      if s.onRoster && s.current && s.decidable && big <= s.counts.yesPrevotes {
        var status := ProposalIsValid(i, env.verdict(36, i, rounds[i].proposal));
        if status == Pass && (step == AtPrevote || step == AtPrecommit) {
          if step == AtPrevote {
            LockAt(i);
          }
          ghost var n := Now();
          valid := (Some(rounds[i].proposal), round);
          ShapeFrame(n, Now());
        }
      }
    }

    /** The node locks the proposal of the current round and precommits it. */
    method LockAt(i: nat)
      requires Valid() && i < |rounds|
      modifies this`rounds, this`votes, this`step, this`locked
      ensures Now() == LockAndPrecommit(cr, old(Now()), i) && Valid() && SamePlaces(old(rounds), rounds)
    {
      hide CastVote;
      locked := (Some(rounds[i].proposal), round);
      ShapeFrame(old(Now()), Now());
      VoteAndStep(i, Precommit, rounds[i].id);
    }

    method Line44(i: nat, s: Snap, big: nat)
      requires Valid() && i < |rounds|
      modifies this`rounds, this`votes, this`step
      ensures Now() == Rule44(cr, old(Now()), i, s, big) && Valid() && SamePlaces(old(rounds), rounds)
    {
      hide CastVote;
      if s.onRoster && s.current && big <= s.counts.nilPrevotes && step == AtPrevote {
        VoteAndStep(i, Precommit, NIL_ID);
      }
    }

    method Line47(i: nat, s: Snap, big: nat, env: Env)
      requires Valid() && i < |rounds| && s.current == (rounds[i].height == height && rounds[i].round == round)
      modifies this`rounds
      ensures Now() == Rule47(old(Now()), i, s, big, env) && Valid() && SamePlaces(old(rounds), rounds)
    {
      if s.onRoster && s.current && big <= s.counts.precommits && !rounds[i].precommitTimeout {
        PutShape(Now(), i, rounds[i].(precommitTimeout := true));
        rounds := rounds[i := rounds[i].(precommitTimeout := true)];
        SetTimer(i, env.now, AtPrecommit);
      }
    }

    /** Every rule that acts on the current round only. */
    method VoteLines(i: nat, s: Snap, big: nat, env: Env)
      requires Valid() && i < |rounds| && s.current == (rounds[i].height == height && rounds[i].round == round)
      modifies this`rounds, this`votes, this`step, this`locked, this`valid
      ensures Now() == VoteRules(cr, old(Now()), i, s, big, env) && Valid() && SamePlaces(old(rounds), rounds)
    {
      hide Shape, Rule22, Rule28, Rule34, Rule36, Rule44, Rule47;
      Line22(i, s, env);
      Line28(i, s, big, env);
      Line34(i, s, big, env);
      Line36(i, s, big, env);
      Line44(i, s, big);
      Line47(i, s, big, env);
    }

    /** The height is closed with entry `i`; the pruning that follows the increment removes nothing. */
    method Close(i: nat, next: seq<Member>)
      requires Valid() && i < |rounds| && PrefixSums(next)
      modifies this`roster, this`height, this`committed, this`rounds, this`locked, this`valid
      ensures Now() == CloseHeight(old(Now()), i, next) && Valid()
      ensures rounds == old(rounds) && forall x :: 0 <= x < |rounds| ==> rounds[x].height < height
    {
      hide Shape;
      ClosedShape(Now(), i, next);
      roster := next;
      height := height + 1;
      committed := committed + [rounds[i]];
      rounds := Below(rounds, height);
      locked := (None, -1);
      valid := (None, -1);
    }

    method Line49(i: nat, s: Snap, big: nat, env: Env)
      requires Valid() && i < |rounds| && Answers(env)
      modifies this
      ensures Now() == Rule49(cr, old(Now()), i, s, big, env) && Valid() && old(|rounds|) <= |rounds|
      ensures height == old(height) ==> SamePlaces(old(rounds), rounds)
      ensures height != old(height) ==> rounds[i].height < height
    {
      hide StartRound, CloseHeight, Validate, Shape;
      if height == rounds[i].height && s.decidable && big <= s.counts.yesPrecommits {
        var status := ProposalIsValid(i, env.verdict(49, i, rounds[i].proposal));
        if status == Pass {
          Decide(i, env);
        }
      }
    }

    method Decide(i: nat, env: Env)
      requires Valid() && i < |rounds| && Answers(env)
      modifies this
      ensures Now() == StartRound(cr, CloseHeight(old(Now()), i, env.nextRoster(i)), env.now, 0, env.offer(49, i))
      ensures Valid() && height == old(height) + 1 && old(|rounds|) <= |rounds| && rounds[i].height < height
    {
      hide StartRound, Shape;
      Close(i, env.nextRoster(i));
      StartRoundAt(env.now, 0, env.offer(49, i));
    }

    method Line55(i: nat, s: Snap, small: nat, env: Env)
      requires Valid() && i < |rounds| && Answers(env)
      modifies this`round, this`rounds, this`step, this`chunks
      ensures Now() == Rule55(cr, old(Now()), i, s, small, env) && Valid() && old(|rounds|) <= |rounds|
    {
      hide StartRound, Shape;
      if s.onRoster && height == rounds[i].height && round < rounds[i].round && small <= s.counts.anys {
        StartRoundAt(env.now, rounds[i].round, env.offer(55, i));
      }
    }

    method Timeouts(i: nat, s: Snap, env: Env)
      requires Valid() && i < |rounds| && Answers(env)
      modifies this`round, this`rounds, this`step, this`chunks, this`votes
      ensures Now() == RuleTimeout(cr, old(Now()), i, s, env) && Valid() && old(|rounds|) <= |rounds|
    {
      hide StartRound, CastVote, Shape;
      var t := rounds[i].timeout;
      if t.Some? && t.value.time <= env.now && height == t.value.height && round == t.value.round && s.onRoster {
        match t.value.step {
          case AtPropose => if step == AtPropose { VoteAndStep(i, Prevote, NIL_ID); }
          case AtPrevote => if step == AtPrevote { VoteAndStep(i, Precommit, NIL_ID); }
          case AtPrecommit => StartRoundAt(env.now, round + 1, env.offer(65, i));
        }
      }
    }

    /** The body of `bft_update`'s loop. */
    method OneTurn(i: nat, big: nat, small: nat, env: Env)
      requires Valid() && i < |rounds| && Answers(env)
      modifies this
      ensures Now() == Turn(cr, old(Now()), i, big, small, env) && Valid() && old(|rounds|) <= |rounds|
    {
      hide Shape, VoteRules, Rule49, Rule55, RuleTimeout;
      var seat := Position(Active(roster), key);
      var s := Snap(seat.Some?, rounds[i].counts, rounds[i].Decidable(), height == rounds[i].height
        && round == rounds[i].round);
      VoteLines(i, s, big, env);
      Line49(i, s, big, env);
      Line55(i, s, small, env);
      Timeouts(i, s, env);
    }

    /** The active stake, summed up afresh. */
    method ActiveStake() returns (total: nat)
      ensures total == Total(Active(roster))
    {
      total := 0;
      for i := 0 to ActiveLen(roster)
        invariant total == Total(Active(roster)[..i])
      {
        TotalStep(Active(roster), i);
        total := total + roster[i].stake;
      }
      assert Active(roster)[..ActiveLen(roster)] == Active(roster);
    }

    /** `bft_update`: one turn for every round known at the start. */
    method BftUpdate(env: Env)
      requires Valid() && Answers(env) && Total(Active(roster)) >= 1
      modifies this
      ensures Now() == Update(cr, old(Now()), env) && Valid()
    {
      hide Shape, Turn;
      var total := ActiveStake();
      var start := if Found(rounds, height, 0) then LowerBound(rounds, height, 0) else 0;
      var end := |rounds|;
      ghost var turn := TurnWith(cr, total, env);
      for i := start to end
        invariant Valid() && end <= |rounds|
        invariant Loop(turn, Now(), i, end) == Loop(turn, old(Now()), start, end)
      {
        OneTurn(i, Big(total), Small(total), env);
      }
    }
  }

  /** What the closures may answer: proposals with a 32-bit size, and rosters with their prefix sums. */
  ghost predicate Answers(env: Env) {
    && (forall l, i :: env.offer(l, i).Some? ==> |env.offer(l, i).value| < SIZE_LIMIT)
    && (forall i :: PrefixSums(env.nextRoster(i)))
  }
}
