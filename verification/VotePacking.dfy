/** Gossip of stored votes: packed two-ended into packets of 18, sent, parsed and told apart again. */
module VotePacking {
  import opened Types
  import opened Bytes
  import opened VoteLog
  import opened Messages
  import opened Rounds

  const SLOTS: nat := 18

  /** `PubKeySig`: a roster position and that member's signature. */
  datatype Entry = Entry(member: nat, sig: Sig)

  /** `PubKeySig::NIL`, with which the sender fills a new packet; its member is the largest 16-bit number. */
  const NIL_ENTRY: Entry := Entry(0xFFFF, NIL_SIG)

  /** The default of `PubKeySig`, with which the parser fills a packet before it reads the votes. */
  const DEFAULT_ENTRY: Entry := Entry(0, NIL_SIG)

  /** `PacketVotes`: first the nil votes, then the votes for `id`. */
  datatype PacketVotes = PacketVotes(no: nat, yes: nat, round: nat, height: nat, id: ValueId, votes: seq<Entry>)

  /** One vote as the receiver understands it. */
  datatype Ballot = Ballot(member: nat, sig: Sig, id: ValueId)

  predicate WfPacket(p: PacketVotes) {
    && |p.votes| == SLOTS && 0 < p.no + p.yes <= SLOTS
    && p.round < 0x1_0000_0000 && p.height < 0x1_0000_0000_0000_0000
    && Narrow(p.votes)
  }

  function Tagged(s: seq<Entry>, id: ValueId): (t: seq<Ballot>)
    ensures |t| == |s|
  {
    seq(|s|, x requires 0 <= x < |s| => Ballot(s[x].member, s[x].sig, id))
  }

  /** The receiver's reading of a packet: the position decides between nil and the packet's value. */
  function Ballots(p: PacketVotes): seq<Ballot>
    requires p.no + p.yes <= |p.votes|
  {
    Tagged(p.votes[..p.no], NIL_ID) + Tagged(p.votes[p.no..p.no + p.yes], p.id)
  }

  function AllBallots(ps: seq<PacketVotes>): seq<Ballot>
    requires forall p :: p in ps ==> WfPacket(p)
  {
    if ps == [] then []
    else
      var p := ps[|ps| - 1];
      assert p in ps && WfPacket(p);
      AllBallots(ps[..|ps| - 1]) + Ballots(p)
  }

  // What should arrive ---------------------------------------------------------------------------

  /** The one value a round's packets may carry: the proposal's, or the first one anybody voted for. */
  function Target(slots: seq<Slot>, id: ValueId): ValueId {
    if slots == [] then id
    else
      var t := Target(slots[..|slots| - 1], id);
      if t == NIL_ID && slots[|slots| - 1].Cast() then slots[|slots| - 1].id else t
  }

  predicate Deliverable(s: Slot, target: ValueId) {
    s.Cast() && (s.id == NIL_ID || s.id == target)
  }

  /** Every stored vote that is nil or for `target`, once. */
  function Kept(slots: seq<Slot>, target: ValueId): seq<Ballot> {
    if slots == [] then []
    else
      var j := |slots| - 1;
      Kept(slots[..j], target) + if Deliverable(slots[j], target) then [Ballot(j, slots[j].sig, slots[j].id)] else []
  }

  /** As long as no value is fixed, only nil votes have been seen, so fixing one changes nothing. */
  lemma {:induction false} KeptBeforeTarget(slots: seq<Slot>, id: ValueId, target: ValueId)
    requires Target(slots, id) == NIL_ID
    ensures Kept(slots, target) == Kept(slots, NIL_ID)
  {
    if slots != [] {
      KeptBeforeTarget(slots[..|slots| - 1], id, target);
    }
  }

  // Packing --------------------------------------------------------------------------------------

  /** What a packet under construction holds: nil votes at the front, the others at the end. */
  ghost function Loose(v: seq<Entry>, no: nat, yes: nat, id: ValueId): multiset<Ballot>
    requires |v| == SLOTS && no + yes <= SLOTS
  {
    multiset(Tagged(v[..no], NIL_ID)) + multiset(Tagged(v[SLOTS - yes..], id))
  }

  lemma LooseNo(v: seq<Entry>, no: nat, yes: nat, id: ValueId, e: Entry)
    requires |v| == SLOTS && no + yes < SLOTS
    ensures Loose(v[no := e], no + 1, yes, id) == Loose(v, no, yes, id) + multiset{Ballot(e.member, e.sig, NIL_ID)}
  {
    var w := v[no := e];
    assert Tagged(w[..no + 1], NIL_ID) == Tagged(v[..no], NIL_ID) + [Ballot(e.member, e.sig, NIL_ID)];
    assert w[SLOTS - yes..] == v[SLOTS - yes..];
  }

  lemma LooseYes(v: seq<Entry>, no: nat, yes: nat, id: ValueId, e: Entry)
    requires |v| == SLOTS && no + yes < SLOTS
    ensures Loose(v[SLOTS - (yes + 1) := e], no, yes + 1, id) ==
      Loose(v, no, yes, id) + multiset{Ballot(e.member, e.sig, id)}
  {
    var w := v[SLOTS - (yes + 1) := e];
    assert Tagged(w[SLOTS - (yes + 1)..], id) == [Ballot(e.member, e.sig, id)] + Tagged(v[SLOTS - yes..], id);
    assert w[..no] == v[..no];
  }

  function Reversed<T>(s: seq<T>): (r: seq<T>)
    ensures |r| == |s|
  {
    seq(|s|, x requires 0 <= x < |s| => s[|s| - 1 - x])
  }

  lemma {:induction false} ReversedKeeps<T>(s: seq<T>)
    ensures multiset(Reversed(s)) == multiset(s)
  {
    if s == [] {
      assert Reversed(s) == s;
    } else {
      var n := |s| - 1;
      ReversedKeeps(s[..n]);
      assert Reversed(s) == [s[n]] + Reversed(s[..n]);
      assert s == s[..n] + [s[n]];
    }
  }

  /** The order in which closing a gap of `gap` slots leaves the yes votes `y`. */
  function Closed<T>(y: seq<T>, gap: nat): seq<T> {
    if gap >= |y| then Reversed(y) else Reversed(y[|y| - gap..]) + y[..|y| - gap]
  }

  lemma ClosedKeeps<T>(y: seq<T>, gap: nat)
    ensures multiset(Closed(y, gap)) == multiset(y)
  {
    if gap >= |y| {
      ReversedKeeps(y);
    } else {
      ReversedKeeps(y[|y| - gap..]);
      assert y == y[..|y| - gap] + y[|y| - gap..];
    }
  }

  lemma ClosedTagged(y: seq<Entry>, gap: nat, id: ValueId)
    ensures Tagged(Closed(y, gap), id) == Closed(Tagged(y, id), gap)
  {
    hide Tagged, Reversed;
    if gap >= |y| {
      TaggedReversed(y, id);
    } else {
      var k := |y| - gap;
      TaggedReversed(y[k..], id);
      TaggedParts(y, k, id);
      TaggedJoin(Reversed(y[k..]), y[..k], id);
    }
  }

  lemma TaggedReversed(y: seq<Entry>, id: ValueId)
    ensures Tagged(Reversed(y), id) == Reversed(Tagged(y, id))
  {
  }

  lemma TaggedParts(y: seq<Entry>, k: nat, id: ValueId)
    requires k <= |y|
    ensures Tagged(y, id)[k..] == Tagged(y[k..], id) && Tagged(y, id)[..k] == Tagged(y[..k], id)
  {
  }

  lemma TaggedJoin(a: seq<Entry>, b: seq<Entry>, id: ValueId)
    ensures Tagged(a + b, id) == Tagged(a, id) + Tagged(b, id)
  {
  }

  /** What closing the gap makes of the slots, as far as the packet is sent. */
  lemma ClosedAt(v: seq<Entry>, w: seq<Entry>, no: nat, yes: nat)
    requires |v| == |w| == SLOTS && no + yes <= SLOTS
    requires forall x :: 0 <= x < no || SLOTS - yes <= x < SLOTS ==> w[x] == v[x]
    requires forall x :: no <= x < SLOTS - yes && x < no + yes ==> w[x] == v[SLOTS - 1 - (x - no)]
    ensures w[..no] == v[..no] && w[no..no + yes] == Closed(v[SLOTS - yes..], SLOTS - (no + yes))
  {
    var y, gap := v[SLOTS - yes..], SLOTS - (no + yes);
    forall k | 0 <= k < yes
      ensures w[no + k] == Closed(y, gap)[k]
    {
      if gap <= k {
        assert w[no + k] == v[no + k] && y[k - gap] == v[SLOTS - yes + (k - gap)];
      } else {
        assert w[no + k] == v[SLOTS - 1 - k] == y[yes - 1 - k];
      }
    }
  }

  /** Entries from the end move into the gap behind the nil votes, however wide it is. */
  method CloseGap(votes: array<Entry>, no: nat, yes: nat)
    requires votes.Length == SLOTS && no + yes <= SLOTS && Narrow(votes[..])
    modifies votes
    ensures votes[..no] == old(votes[..no])
    ensures votes[no..no + yes] == Closed(old(votes[SLOTS - yes..]), SLOTS - (no + yes))
    ensures Narrow(votes[..])
  {
    ghost var v := votes[..];
    for gap := 0 to SLOTS - (no + yes)
      invariant forall x :: 0 <= x < no || no + gap <= x < SLOTS - yes || SLOTS - yes <= x < SLOTS ==> votes[x] == v[x]
      invariant forall x :: no <= x < no + gap && x < no + yes ==> votes[x] == v[SLOTS - 1 - (x - no)]
      invariant Narrow(votes[..])
    {
      votes[no + gap] := votes[SLOTS - 1 - gap];
    }
    ClosedAt(v, votes[..], no, yes);
    assert v[SLOTS - yes..] == old(votes[SLOTS - yes..]);
  }

  predicate Narrow(v: seq<Entry>) {
    forall x :: 0 <= x < |v| ==> v[x].member < 0x1_0000
  }

  /** Every packet sent is well formed and for this round, and together they carry exactly these votes. */
  ghost predicate Packs(sent: seq<PacketVotes>, height: nat, round: nat, votes: multiset<Ballot>) {
    && (forall p :: p in sent ==> WfPacket(p) && p.height == height && p.round == round)
    && multiset(AllBallots(sent)) == votes
  }

  lemma PacksOneMore(sent: seq<PacketVotes>, height: nat, round: nat, votes: multiset<Ballot>, p: PacketVotes)
    requires Packs(sent, height, round, votes) && WfPacket(p) && p.height == height && p.round == round
    ensures Packs(sent + [p], height, round, votes + multiset(Ballots(p)))
  {
    assert (sent + [p])[..|sent|] == sent;
  }

  lemma FullPacket(p: PacketVotes)
    requires |p.votes| == SLOTS == p.no + p.yes
    ensures multiset(Ballots(p)) == Loose(p.votes, p.no, p.yes, p.id)
  {
    assert p.votes[p.no..SLOTS] == p.votes[SLOTS - p.yes..];
  }

  lemma ClosedPacket(p: PacketVotes, v: seq<Entry>)
    requires |p.votes| == |v| == SLOTS && p.no + p.yes <= SLOTS && p.votes[..p.no] == v[..p.no]
    requires p.votes[p.no..p.no + p.yes] == Closed(v[SLOTS - p.yes..], SLOTS - (p.no + p.yes))
    ensures multiset(Ballots(p)) == Loose(v, p.no, p.yes, p.id)
  {
    var y := v[SLOTS - p.yes..];
    ClosedTagged(y, SLOTS - (p.no + p.yes), p.id);
    ClosedKeeps(Tagged(y, p.id), SLOTS - (p.no + p.yes));
  }

  /** The state of the packing loop before slot `i`. */
  ghost predicate Packing(slots: seq<Slot>, proposal: ValueId, i: nat, height: nat, round: nat,
                          sent: seq<PacketVotes>, v: seq<Entry>, no: nat, yes: nat, id: ValueId)
    requires i <= |slots|
  {
    && |v| == SLOTS && no + yes <= SLOTS && Narrow(v)
    && id == Target(slots[..i], proposal) && (id == NIL_ID ==> yes == 0)
    && (forall p :: p in sent ==> WfPacket(p) && p.height == height && p.round == round)
    && multiset(AllBallots(sent)) + Loose(v, no, yes, id) == multiset(Kept(slots[..i], id))
  }

  /** A vote moves the target at most once, and adds itself if it is deliverable. */
  lemma KeptStep(slots: seq<Slot>, proposal: ValueId, i: nat)
    requires i < |slots|
    ensures var id, next := Target(slots[..i], proposal), Target(slots[..i + 1], proposal);
      && next == (if id == NIL_ID && slots[i].Cast() then slots[i].id else id)
      && Kept(slots[..i + 1], next) == Kept(slots[..i], id)
           + if Deliverable(slots[i], next) then [Ballot(i, slots[i].sig, slots[i].id)] else []
  {
    assert slots[..i + 1][..i] == slots[..i];
    if Target(slots[..i], proposal) == NIL_ID {
      KeptBeforeTarget(slots[..i], proposal, Target(slots[..i + 1], proposal));
    }
  }

  /** The value that a packet carries once it has looked at a vote for `value`. */
  function Settle(id: ValueId, value: ValueId): ValueId {
    if id == NIL_ID then value else id
  }

  lemma PackSkip(slots: seq<Slot>, proposal: ValueId, i: nat, height: nat, round: nat,
                 sent: seq<PacketVotes>, v: seq<Entry>, no: nat, yes: nat, id: ValueId)
    requires i < |slots| && Packing(slots, proposal, i, height, round, sent, v, no, yes, id)
    requires !slots[i].Cast() || (id != NIL_ID && slots[i].id != NIL_ID && slots[i].id != id)
    ensures Packing(slots, proposal, i + 1, height, round, sent, v, no, yes, id)
  {
    KeptStep(slots, proposal, i);
  }

  lemma PackNo(slots: seq<Slot>, proposal: ValueId, i: nat, height: nat, round: nat,
               sent: seq<PacketVotes>, v: seq<Entry>, no: nat, yes: nat, id: ValueId)
    requires i < |slots| && i < 0x1_0000 && Packing(slots, proposal, i, height, round, sent, v, no, yes, id)
      && no + yes < SLOTS
    requires slots[i].Cast() && slots[i].id == NIL_ID
    ensures Packing(slots, proposal, i + 1, height, round, sent, v[no := Entry(i, slots[i].sig)], no + 1, yes, id)
  {
    KeptStep(slots, proposal, i);
    LooseNo(v, no, yes, id, Entry(i, slots[i].sig));
  }

  lemma PackYes(slots: seq<Slot>, proposal: ValueId, i: nat, height: nat, round: nat,
                sent: seq<PacketVotes>, v: seq<Entry>, no: nat, yes: nat, id: ValueId)
    requires i < |slots| && i < 0x1_0000 && Packing(slots, proposal, i, height, round, sent, v, no, yes, id)
      && no + yes < SLOTS
    requires slots[i].Cast() && slots[i].id != NIL_ID && slots[i].id == Settle(id, slots[i].id)
    ensures Packing(slots, proposal, i + 1, height, round, sent, v[SLOTS - (yes + 1) := Entry(i, slots[i].sig)], no,
      yes + 1, slots[i].id)
  {
    KeptStep(slots, proposal, i);
    assert Loose(v, no, yes, slots[i].id) == Loose(v, no, yes, id);
    LooseYes(v, no, yes, slots[i].id, Entry(i, slots[i].sig));
  }

  lemma PackSend(slots: seq<Slot>, proposal: ValueId, i: nat, height: nat, round: nat,
                 sent: seq<PacketVotes>, v: seq<Entry>, no: nat, yes: nat, id: ValueId, p: PacketVotes,
                   blank: seq<Entry>)
    requires i <= |slots| && Packing(slots, proposal, i, height, round, sent, v, no, yes, id)
    requires WfPacket(p) && p.height == height && p.round == round && multiset(Ballots(p)) == Loose(v, no, yes, id)
    requires |blank| == SLOTS && Narrow(blank)
    ensures Packing(slots, proposal, i, height, round, sent + [p], blank, 0, 0, id)
  {
    hide Target, Kept, Ballots, AllBallots;
    PacksOneMore(sent, height, round, multiset(AllBallots(sent)), p);
  }

  lemma PackDone(slots: seq<Slot>, proposal: ValueId, height: nat, round: nat, sent: seq<PacketVotes>, v: seq<Entry>,
                 id: ValueId)
    requires Packing(slots, proposal, |slots|, height, round, sent, v, 0, 0, id)
    ensures Packs(sent, height, round, multiset(Kept(slots, Target(slots, proposal))))
  {
    assert slots[..|slots|] == slots;
  }

  /** The packet under construction and what has been sent so far. */
  class Packer {
    const height: nat
    const round: nat
    var no: nat
    var yes: nat
    var id: ValueId
    var votes: array<Entry>
    var sent: seq<PacketVotes>

    ghost predicate Valid(slots: seq<Slot>, proposal: ValueId, i: nat)
      requires i <= |slots|
      reads this, votes
    {
      && votes.Length == SLOTS && height < 0x1_0000_0000_0000_0000 && round < 0x1_0000_0000
      && Packing(slots, proposal, i, height, round, sent, votes[..], no, yes, id)
      && forall x :: 0 <= x < |sent| ==> sent[x].no + sent[x].yes == 18
    }

    constructor (proposal: ValueId, height: nat, round: nat, ghost slots: seq<Slot>)
      requires height < 0x1_0000_0000_0000_0000 && round < 0x1_0000_0000
      ensures Valid(slots, proposal, 0) && fresh(votes) && no + yes == 0
      ensures this.height == height && this.round == round
    {
      this.height, this.round := height, round;
      no, yes, id, sent := 0, 0, proposal, [];
      votes := new Entry[SLOTS](_ => NIL_ENTRY);
    }

    /** A full packet goes out and the slots are blanked; the value stays. */
    method SendFull(ghost slots: seq<Slot>, ghost proposal: ValueId, ghost i: nat)
      requires i <= |slots| && Valid(slots, proposal, i) && no + yes == SLOTS
      modifies this
      ensures Valid(slots, proposal, i) && fresh(votes) && no + yes == 0
    {
      var p := PacketVotes(no, yes, round, height, id, votes[..]);
      FullPacket(p);
      PackSend(slots, proposal, i, height, round, sent, votes[..], no, yes, id, p, seq(SLOTS, _ => NIL_ENTRY));
      sent := sent + [p];
      no, yes := 0, 0;
      votes := new Entry[SLOTS](_ => NIL_ENTRY);
      assert votes[..] == seq(SLOTS, _ => NIL_ENTRY);
    }

    /** One turn of the loop: nil votes go to the front, the others to the end. */
    method Take(ghost slots: seq<Slot>, ghost proposal: ValueId, i: nat, slot: Slot)
      requires i < |slots| && i < 0x1_0000 && slots[i] == slot && Valid(slots, proposal, i) && no + yes < SLOTS
      modifies this, votes
      ensures Valid(slots, proposal, i + 1) && no + yes < SLOTS && (votes == old(votes) || fresh(votes))
    {
      hide Packing, Tagged, Target, Kept, Loose;
      ghost var v := votes[..];
      if !slot.Cast() {
        PackSkip(slots, proposal, i, height, round, sent, v, no, yes, id);
        return;
      }
      if id == NIL_ID {
        id := slot.id;
      }
      if slot.id != NIL_ID && slot.id != id {
        PackSkip(slots, proposal, i, height, round, sent, v, no, yes, old(id));
        return;
      }
      if slot.id == NIL_ID {
        PackNo(slots, proposal, i, height, round, sent, v, no, yes, old(id));
        votes[no] := Entry(i, slot.sig);
        no := no + 1;
      } else {
        PackYes(slots, proposal, i, height, round, sent, v, no, yes, old(id));
        yes := yes + 1;
        votes[SLOTS - yes] := Entry(i, slot.sig);
      }
      assert votes[..] == v[(if slot.id == NIL_ID then no - 1 else SLOTS - yes) := Entry(i, slot.sig)];
      if no + yes == SLOTS {
        SendFull(slots, proposal, i + 1);
      }
    }

    /** The half-filled packet that is left at the end. */
    method Finish(ghost slots: seq<Slot>, ghost proposal: ValueId)
      requires Valid(slots, proposal, |slots|)
      modifies this, votes
      ensures Packs(sent, height, round, multiset(Kept(slots, Target(slots, proposal))))
      ensures forall x :: 0 <= x < |sent| - 1 ==> sent[x].no + sent[x].yes == 18
    {
      hide Target, Kept, Tagged, Closed, Loose, Ballots, AllBallots;
      ghost var v := votes[..];
      if no + yes > 0 {
        CloseGap(votes, no, yes);
        var p := PacketVotes(no, yes, round, height, id, votes[..]);
        assert v[SLOTS - yes..] == old(votes[SLOTS - yes..]) && v[..no] == old(votes[..no]);
        ClosedPacket(p, v);
        PackSend(slots, proposal, |slots|, height, round, sent, v, no, yes, id, p, v);
        sent := sent + [p];
      }
      PackDone(slots, proposal, height, round, sent, v, id);
    }
  }

  /** The packing loop of `send_round_data_to_peer` for one kind of vote. */
  method PackVotes(slots: seq<Slot>, proposal: ValueId, height: nat, round: nat) returns (sent: seq<PacketVotes>)
    requires |slots| <= 0x1_0000 && height < 0x1_0000_0000_0000_0000 && round < 0x1_0000_0000
    ensures Packs(sent, height, round, multiset(Kept(slots, Target(slots, proposal))))
    ensures forall x :: 0 <= x < |sent| - 1 ==> sent[x].no + sent[x].yes == 18
  {
    var packer := new Packer(proposal, height, round, slots);
    for i := 0 to |slots|
      invariant fresh(packer) && fresh(packer.votes) && packer.Valid(slots, proposal, i)
        && packer.no + packer.yes < SLOTS
    {
      packer.Take(slots, proposal, i, slots[i]);
    }
    packer.Finish(slots, proposal);
    sent := packer.sent;
  }

  // On the wire ----------------------------------------------------------------------------------

  function EntryBytes(e: Entry): (s: seq<byte>)
    ensures |s| == 66
  {
    Le(e.member, 2) + e.sig.bytes
  }

  function EntriesBytes(es: seq<Entry>): (s: seq<byte>)
    ensures |s| == 66 * |es|
  {
    if es == [] then [] else EntriesBytes(es[..|es| - 1]) + EntryBytes(es[|es| - 1])
  }

  function HeadBytes(p: PacketVotes): (s: seq<byte>)
    ensures |s| == 46
  {
    Le(p.no, 1) + Le(p.yes, 1) + Le(p.round, 4) + Le(p.height, 8) + p.id.bytes
  }

  /** Only the filled slots are sent. */
  function PacketBytes(p: PacketVotes): seq<byte>
    requires p.no + p.yes <= |p.votes|
  {
    HeadBytes(p) + EntriesBytes(p.votes[..p.no + p.yes])
  }

  /** `PacketVotes::write_to`. */
  method WriteVotes(buf: array<byte>, p: PacketVotes) returns (n: nat)
    requires p.no + p.yes <= |p.votes| && 46 + 66 * (p.no + p.yes) <= buf.Length
    modifies buf
    ensures n == |PacketBytes(p)| && buf[..] == Overlay(old(buf[..]), 0, PacketBytes(p))
  {
    hide HeadBytes, EntriesBytes, Overlay;
    ghost var start := buf[..];
    n := WriteHead(buf, p);
    var count := p.no + p.yes;
    assert p.votes[..0] == [];
    for i := 0 to count
      invariant n == 46 + 66 * i
      invariant buf[..] == Overlay(start, 0, HeadBytes(p) + EntriesBytes(p.votes[..i]))
    {
      ghost var done := HeadBytes(p) + EntriesBytes(p.votes[..i]);
      n := PutLe(buf, start, 0, done, n, p.votes[i].member, 2);
      n := PutBytes(buf, start, 0, done + Le(p.votes[i].member, 2), n, p.votes[i].sig.bytes);
      EntriesStep(HeadBytes(p), p.votes, i);
    }
  }

  lemma EntriesStep(head: seq<byte>, es: seq<Entry>, i: nat)
    requires i < |es|
    ensures head + EntriesBytes(es[..i]) + Le(es[i].member, 2) + es[i].sig.bytes == head + EntriesBytes(es[..i + 1])
  {
    assert es[..i + 1][..i] == es[..i];
    assert EntriesBytes(es[..i + 1]) == EntriesBytes(es[..i]) + (Le(es[i].member, 2) + es[i].sig.bytes);
  }

  method WriteHead(buf: array<byte>, p: PacketVotes) returns (n: nat)
    requires 46 <= buf.Length
    modifies buf
    ensures n == 46 && buf[..] == Overlay(old(buf[..]), 0, HeadBytes(p) + EntriesBytes([]))
  {
    ghost var start := buf[..];
    ghost var d1 := Le(p.no, 1);
    ghost var d2 := d1 + Le(p.yes, 1);
    ghost var d3 := d2 + Le(p.round, 4);
    n := WriteLe(buf, 0, p.no, 1);
    n := PutLe(buf, start, 0, d1, n, p.yes, 1);
    n := PutLe(buf, start, 0, d2, n, p.round, 4);
    n := PutLe(buf, start, 0, d3, n, p.height, 8);
    n := PutBytes(buf, start, 0, d3 + Le(p.height, 8), n, p.id.bytes);
    assert HeadBytes(p) + EntriesBytes([]) == HeadBytes(p);
  }

  lemma {:induction false} EntryAt(es: seq<Entry>, i: nat)
    requires i < |es|
    ensures |EntriesBytes(es)| == 66 * |es| && EntriesBytes(es)[66 * i..66 * i + 66] == EntryBytes(es[i])
  {
    var n := |es| - 1;
    var s, last := EntriesBytes(es[..n]), EntryBytes(es[n]);
    assert EntriesBytes(es) == s + last;
    if i < n {
      EntryAt(es[..n], i);
      assert (s + last)[66 * i..66 * i + 66] == s[66 * i..66 * i + 66];
    } else {
      assert (s + last)[|s|..|s| + 66] == last;
    }
  }

  lemma HeadFields(p: PacketVotes, rest: seq<byte>)
    ensures var s := HeadBytes(p) + rest;
      && s[0..1] == Le(p.no, 1) && s[1..2] == Le(p.yes, 1) && s[2..6] == Le(p.round, 4)
      && s[6..14] == Le(p.height, 8) && s[14..46] == p.id.bytes && s[46..] == rest
  {
  }

  /** The bytes of a packet one by one: the two counts, round, height and value, then member and signature by vote. */
  lemma PacketLayout(p: PacketVotes, i: nat)
    requires WfPacket(p)
    ensures var s, count := PacketBytes(p), p.no + p.yes;
      && count <= 18 && |s| == 46 + 66 * count
      && DigitsAt(s, 0, p.no, 1) && DigitsAt(s, 1, p.yes, 1) && DigitsAt(s, 2, p.round, 4)
      && DigitsAt(s, 6, p.height, 8) && s[14..46] == p.id.bytes
      && (i < count ==>
            DigitsAt(s, 46 + 66 * i, p.votes[i].member, 2) && s[48 + 66 * i..112 + 66 * i] == p.votes[i].sig.bytes)
  {
    hide EntriesBytes, HeadBytes, Le, DigitsAt;
    var head, tail, count := HeadBytes(p), EntriesBytes(p.votes[..p.no + p.yes]), p.no + p.yes;
    var s := head + tail;
    HeadFields(p, tail);
    LeAt(s, 0, p.no, 1);
    LeAt(s, 1, p.yes, 1);
    LeAt(s, 2, p.round, 4);
    LeAt(s, 6, p.height, 8);
    if i < count {
      EntryAt(p.votes[..count], i);
      var o := 46 + 66 * i;
      assert s[o..o + 66] == tail[66 * i..66 * i + 66] == EntryBytes(p.votes[i]);
      assert s[o..o + 2] == s[o..o + 66][..2] == Le(p.votes[i].member, 2);
      assert s[o + 2..o + 66] == s[o..o + 66][2..] == p.votes[i].sig.bytes;
      LeAt(s, o, p.votes[i].member, 2);
    }
  }

  /** A short buffer yields nothing; counts beyond the eighteen slots make the parser panic. */
  datatype Parse = Short | Panic | Read(packet: PacketVotes)

  /** The entries from slot `i` on, read into `votes`. */
  function ParseEntries(p: PacketVotes, i: nat, s: seq<byte>): Parse
    requires |p.votes| == SLOTS
    decreases p.no + p.yes - i
  {
    if i >= p.no + p.yes then Read(p)
    else if |s| < 2 then Short
    else if i >= SLOTS then Panic
    else if |s| < 66 then Short
    else ParseEntries(p.(votes := p.votes[i := Entry(UnLe(s[..2]), Sig(s[2..66]))]), i + 1, s[66..])
  }

  function ParseHead(s: seq<byte>): PacketVotes
    requires |s| >= 46
  {
    PacketVotes(UnLe(s[..1]), UnLe(s[1..2]), UnLe(s[2..6]), UnLe(s[6..14]), ValueId(s[14..46]),
      seq(SLOTS, _ => DEFAULT_ENTRY))
  }

  /** `PacketVotes::read_from`; the sum of the two counts is an 8-bit sum that must not overflow. */
  function ParseVotes(s: seq<byte>): Parse {
    if |s| < 46 then Short
    else if ParseHead(s).no + ParseHead(s).yes > 255 then Panic
    else ParseEntries(ParseHead(s), 0, s[46..])
  }

  /** The packet with its unsent slots blank. */
  function Blanked(p: PacketVotes): PacketVotes
    requires |p.votes| == SLOTS && p.no + p.yes <= SLOTS
  {
    p.(votes := p.votes[..p.no + p.yes] + seq(SLOTS - (p.no + p.yes), _ => DEFAULT_ENTRY))
  }

  lemma HeadRoundTrip(p: PacketVotes, rest: seq<byte>)
    requires WfPacket(p)
    ensures var s := HeadBytes(p) + rest;
      ParseHead(s) == p.(votes := seq(SLOTS, _ => DEFAULT_ENTRY)) && s[46..] == rest
  {
    var s := HeadBytes(p) + rest;
    Widths();
    assert Pow256(1) == 256;
    HeadFields(p, rest);
    assert s[..1] == s[0..1];
    LeRoundTrip(p.no, 1);
    LeRoundTrip(p.yes, 1);
    LeRoundTrip(p.round, 4);
    LeRoundTrip(p.height, 8);
  }

  lemma {:induction false} EntriesSplit(es: seq<Entry>)
    requires es != []
    ensures EntriesBytes(es) == EntryBytes(es[0]) + EntriesBytes(es[1..])
  {
    var n := |es| - 1;
    if n > 0 {
      EntriesSplit(es[..n]);
      assert es[1..][..n - 1] == es[..n][1..];
    }
  }

  lemma EntryParts(e: Entry, rest: seq<byte>)
    requires e.member < 0x1_0000
    ensures var s := EntryBytes(e) + rest; |s| >= 66 && Entry(UnLe(s[..2]), Sig(s[2..66])) == e && s[66..] == rest
  {
    var s := EntryBytes(e) + rest;
    assert s[..2] == Le(e.member, 2) && s[2..66] == e.sig.bytes;
    assert Pow256(2) == 0x1_0000 by { assert Pow256(1) == 256; }
    LeRoundTrip(e.member, 2);
  }

  lemma {:induction false} EntriesRoundTrip(p: PacketVotes, q: PacketVotes, i: nat, rest: seq<byte>)
    requires WfPacket(p) && i <= p.no + p.yes
    requires q == p.(votes := p.votes[..i] + seq(SLOTS - i, _ => DEFAULT_ENTRY))
    ensures ParseEntries(q, i, EntriesBytes(p.votes[i..p.no + p.yes]) + rest) == Read(Blanked(p))
    decreases SLOTS - i
  {
    hide EntriesBytes, EntryBytes, UnLe;
    var n := p.no + p.yes;
    if i < n {
      var es := p.votes[i..n];
      var tail := EntriesBytes(es[1..]) + rest;
      EntriesSplit(es);
      assert EntriesBytes(es) + rest == EntryBytes(es[0]) + tail;
      EntryParts(es[0], tail);
      assert es[1..] == p.votes[i + 1..n];
      var next := p.(votes := p.votes[..i + 1] + seq(SLOTS - (i + 1), _ => DEFAULT_ENTRY));
      assert q.votes[i := es[0]] == next.votes;
      EntriesRoundTrip(p, next, i + 1, rest);
    } else {
      assert EntriesBytes(p.votes[i..n]) + rest == rest by { assert |EntriesBytes(p.votes[i..n])| == 0; }
    }
  }

  /** A packet survives the wire, apart from the slots it does not use. */
  lemma VotesRoundTrip(p: PacketVotes, rest: seq<byte>)
    requires WfPacket(p)
    ensures ParseVotes(PacketBytes(p) + rest) == Read(Blanked(p))
  {
    var n := p.no + p.yes;
    var tail := EntriesBytes(p.votes[..n]) + rest;
    assert PacketBytes(p) + rest == HeadBytes(p) + tail;
    HeadRoundTrip(p, tail);
    assert p.votes[0..n] == p.votes[..n];
    assert p.votes[..0] + seq(SLOTS, _ => DEFAULT_ENTRY) == seq(SLOTS, _ => DEFAULT_ENTRY);
    EntriesRoundTrip(p, p.(votes := seq(SLOTS, _ => DEFAULT_ENTRY)), 0, rest);
  }

  /** The parser panics exactly on counts that overflow a byte, or exceed the slots with a nineteenth entry begun. */
  lemma {:induction false} EntriesPanic(p: PacketVotes, i: nat, s: seq<byte>)
    requires |p.votes| == SLOTS && i <= SLOTS
    ensures ParseEntries(p, i, s) == Panic <==> p.no + p.yes > SLOTS && |s| >= 66 * (SLOTS - i) + 2
    decreases SLOTS - i
  {
    if i < p.no + p.yes && i < SLOTS && |s| >= 66 {
      EntriesPanic(p.(votes := p.votes[i := Entry(UnLe(s[..2]), Sig(s[2..66]))]), i + 1, s[66..]);
    }
  }

  lemma VotesPanic(s: seq<byte>)
    ensures ParseVotes(s) == Panic <==>
            |s| >= 46 && var total := s[0] as nat + s[1] as nat;
              total > 255 || (total > SLOTS && |s| >= 46 + 66 * SLOTS + 2)
  {
    if |s| >= 46 {
      assert UnLe(s[..1]) == s[0] as nat && UnLe(s[1..2]) == s[1] as nat;
      if ParseHead(s).no + ParseHead(s).yes <= 255 {
        EntriesPanic(ParseHead(s), 0, s[46..]);
      }
    }
  }

  /** `PacketVotes::read_from` over the unread part of a message. */
  method ReadVotes(c: Cursor) returns (r: Parse)
    modifies c
    ensures r == ParseVotes(old(c.rest))
  {
    ghost var s := c.rest;
    var no := c.ReadLe(1);
    if no.None? { return Short; }
    var yes := c.ReadLe(1);
    if yes.None? { return Short; }
    assert c.rest == s[2..] && s[1..][..1] == s[1..2];
    var round := c.ReadLe(4);
    if round.None? { return Short; }
    assert c.rest == s[6..] && s[2..][..4] == s[2..6];
    var height := c.ReadLe(8);
    if height.None? { return Short; }
    assert c.rest == s[14..] && s[6..][..8] == s[6..14];
    var id := c.ReadBytes(32);
    if id.None? { return Short; }
    assert c.rest == s[46..] && s[14..][..32] == s[14..46];
    var p := PacketVotes(no.value, yes.value, round.value, height.value, ValueId(id.value),
      seq(SLOTS, _ => DEFAULT_ENTRY));
    if p.no + p.yes > 255 { return Panic; }
    r := ReadEntries(c, p);
  }

  method ReadEntries(c: Cursor, head: PacketVotes) returns (r: Parse)
    requires |head.votes| == SLOTS
    modifies c
    ensures r == ParseEntries(head, 0, old(c.rest))
  {
    var p := head;
    for i := 0 to head.no + head.yes
      invariant |p.votes| == SLOTS && p.no == head.no && p.yes == head.yes
      invariant ParseEntries(p, i, c.rest) == ParseEntries(head, 0, old(c.rest))
    {
      ghost var s := c.rest;
      var member := c.ReadLe(2);
      if member.None? { return Short; }
      if i >= SLOTS { return Panic; }
      var sig := c.ReadBytes(64);
      if sig.None? { return Short; }
      assert s[2..][..64] == s[2..66] && s[2..][64..] == s[66..];
      p := p.(votes := p.votes[i := Entry(member.value, Sig(sig.value))]);
    }
    r := Read(p);
  }

  // The whole way --------------------------------------------------------------------------------

  /** What the peer reads out of a sequence of packets. */
  function Received(ps: seq<PacketVotes>): seq<Ballot>
    requires forall p :: p in ps ==> WfPacket(p)
  {
    if ps == [] then []
    else
      var p := ps[|ps| - 1];
      assert p in ps && WfPacket(p);
      Received(ps[..|ps| - 1]) + match ParseVotes(PacketBytes(p))
                                 case Read(q) => if q.no + q.yes <= |q.votes| then Ballots(q) else []
                                 case _ => []
  }

  lemma {:induction false} ReceivedAll(ps: seq<PacketVotes>)
    requires forall p :: p in ps ==> WfPacket(p)
    ensures Received(ps) == AllBallots(ps)
  {
    if ps != [] {
      var p := ps[|ps| - 1];
      assert p in ps && WfPacket(p);
      ReceivedAll(ps[..|ps| - 1]);
      VotesRoundTrip(p, []);
      assert PacketBytes(p) + [] == PacketBytes(p);
      var q := Blanked(p);
      assert q.votes[..p.no] == p.votes[..p.no] && q.votes[p.no..p.no + p.yes] == p.votes[p.no..p.no + p.yes];
    }
  }

  /** Every deliverable vote arrives exactly once, with its member, signature and value, and nothing else does. */
  lemma DeliveredExactlyOnce(sent: seq<PacketVotes>, height: nat, round: nat, slots: seq<Slot>, proposal: ValueId)
    requires Packs(sent, height, round, multiset(Kept(slots, Target(slots, proposal))))
    ensures multiset(Received(sent)) == multiset(Kept(slots, Target(slots, proposal)))
  {
    ReceivedAll(sent);
  }

  /** A vote is kept once if it is nil or for the target, and otherwise not at all. */
  lemma {:induction false} KeptOnce(slots: seq<Slot>, target: ValueId, b: Ballot)
    ensures multiset(Kept(slots, target))[b] ==
            if && b.member < |slots| && slots[b.member] == Slot(b.id, b.sig) && b.sig != NIL_SIG
               && (b.id == NIL_ID || b.id == target)
            then 1 else 0
  {
    if slots != [] {
      var j := |slots| - 1;
      KeptOnce(slots[..j], target, b);
      var last := if Deliverable(slots[j], target) then [Ballot(j, slots[j].sig, slots[j].id)] else [];
      assert Kept(slots, target) == Kept(slots[..j], target) + last;
      hide Kept;
      assert multiset(last)[b] == if b in last then 1 else 0;
    }
  }

  /** With a known proposal, or none but one value voted for, no vote for the round's value is dropped. */
  lemma {:induction false} TargetIsFirst(slots: seq<Slot>, proposal: ValueId)
    ensures proposal != NIL_ID ==> Target(slots, proposal) == proposal
    ensures proposal == NIL_ID ==>
      if exists j :: 0 <= j < |slots| && slots[j].Yes()
      then exists j :: 0 <= j < |slots| && slots[j].Yes() && Target(slots, proposal) == slots[j].id
                    && forall x :: 0 <= x < j ==> !slots[x].Yes()
      else Target(slots, proposal) == NIL_ID
  {
    if slots != [] {
      var n := |slots| - 1;
      TargetIsFirst(slots[..n], proposal);
      if proposal == NIL_ID {
        if j :| 0 <= j < n && slots[..n][j].Yes() {
          assert slots[j].Yes();
          var k :| 0 <= k < n && slots[..n][k].Yes() && Target(slots[..n], proposal) == slots[..n][k].id
                && forall x :: 0 <= x < k ==> !slots[..n][x].Yes();
          assert slots[k].Yes() && forall x :: 0 <= x < k ==> slots[x] == slots[..n][x];
        } else {
          assert forall x :: 0 <= x < n ==> slots[x] == slots[..n][x];
        }
      }
    }
  }

  /** The bytes against which the receiver checks the vote at slot `x` are the ones its member signed. */
  method SignedBytes(p: PacketVotes, x: nat, kind: Kind, key: PubKey) returns (data: seq<byte>)
    requires x < p.no + p.yes <= |p.votes|
    ensures data == VoteBytes(Vote(p.height, p.round, kind, if x < p.no then NIL_ID else p.id, key))
    ensures Ballots(p)[x] == Ballot(p.votes[x].member, p.votes[x].sig, if x < p.no then NIL_ID else p.id)
  {
    var no, yes := MakeVoteSignDatas(Vote(p.height, p.round, kind, p.id, key));
    data := if x >= p.no then yes else no;
  }
}
