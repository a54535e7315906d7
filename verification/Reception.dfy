/** The receiving loop's treatment of proposal chunks: which messages it hands on, and which make it panic. */
module Reception {
  import opened Types
  import opened Bytes
  import opened Roster
  import opened Messages
  import opened Rounds
  import opened Node

  const PACKET_HEADER: nat := 16
  const STATUS: nat := 28

  /** What a chunk packet holds besides the chunk: packet header, status, chunk header and signature. */
  const EXTRA: nat := PACKET_HEADER + STATUS + HEADER_SIZE + 64

  /** What becomes of the chunk message `msg`, whose chunk header starts at `at`. */
  datatype Reading = Unreadable | Underflow | WrongSize | NoProposer | Handed(packet: Packet, member: nat, sig: Sig)

  /** The packet header has been read, with or without a status behind it. */
  predicate Opened(msg: seq<byte>, at: nat) {
    (at == PACKET_HEADER || at == PACKET_HEADER + STATUS) && at <= |msg|
  }

  function ChunkArrival(cr: Crypto, roster: seq<Member>, msg: seq<byte>, at: nat): Reading
    requires Opened(msg, at)
  {
    match ParseHeader(msg[at..])
    case None => Unreadable
    case Some(h) =>
      if h.size < h.chunk * CHUNK then Underflow
      else
        var rest := h.size - h.chunk * CHUNK;
        var size := if rest < CHUNK then rest else CHUNK;
        if |msg| != size + EXTRA then WrongSize
        else match ProposerAt(cr, roster, h.height, h.round)
          case None => NoProposer
          case Some(j) =>
            var end := at + HEADER_SIZE + size;
            Handed(Packet(h.height, h.round, ChunkBody(h.chunk, h.id, h.validRound), msg[at..end]), j,
              Sig(msg[end..end + 64]))
  }

  /** Handling the message ends in a panic, in the loop itself or in `check_and_incorporate_msg`. */
  predicate Crashes(cr: Crypto, n: Node, msg: seq<byte>, at: nat)
    requires Opened(msg, at)
  {
    match ChunkArrival(cr, n.roster, msg, at)
    case Underflow => true
    case Handed(p, j, sig) => Panics(cr, n, p, j, sig)
    case _ => false
  }

  /** The node after a message that does not make it panic. */
  function AfterChunk(cr: Crypto, n: Node, msg: seq<byte>, at: nat): Node
    requires Opened(msg, at)
  {
    match ChunkArrival(cr, n.roster, msg, at)
    case Handed(p, j, sig) => Incorporate(cr, n, p, j, sig).0
    case _ => n
  }

  /** A longer string has the same header. */
  lemma HeaderPrefix(s: seq<byte>, n: nat)
    requires HEADER_SIZE <= n <= |s|
    ensures ParseHeader(s[..n]) == ParseHeader(s)
  {
    var t := s[..n];
    assert t[..4] == s[..4] && t[4..8] == s[4..8] && t[8..12] == s[8..12] && t[12..16] == s[12..16]
      && t[16..24] == s[16..24] && t[24..56] == s[24..56];
  }

  lemma ChunksExactly(size: nat, c: nat)
    ensures c < ChunksN(size) <==> c * CHUNK < size
  {
  }

  /**
   * What is handed on is the header and exactly as many bytes as the chunk has; the chunk exists
   * unless it starts at the end.
   */
  lemma HandedExactly(cr: Crypto, roster: seq<Member>, msg: seq<byte>, at: nat)
    requires Opened(msg, at)
    ensures var a := ChunkArrival(cr, roster, msg, at);
      a.Handed? ==>
        var h := ParseHeader(msg[at..]).value;
        && ParseHeader(a.packet.data) == Some(h) && h == HeaderFor(a.packet, h.size)
          && ProposerAt(cr, roster, h.height, h.round) == Some(a.member)
        && a.packet.data == msg[at..at + |a.packet.data|] && h.chunk * CHUNK <= h.size
        && (Fits(h, a.packet.data[HEADER_SIZE..]) <==> h.chunk * CHUNK < h.size) && (ChunkInRange(a.packet) <==>
          h.chunk * CHUNK < h.size)
  {
    hide ParseHeader, ChunksN;
    var a := ChunkArrival(cr, roster, msg, at);
    if a.Handed? {
      var h := ParseHeader(msg[at..]).value;
      assert a.packet.data == msg[at..][..|a.packet.data|];
      HeaderPrefix(msg[at..], |a.packet.data|);
      ChunksExactly(h.size, h.chunk);
    }
  }

  /**
   * A chunk message makes the node panic exactly if its chunk starts beyond the proposal's end, or at the end
   * of it in a message of the right size that the round's proposer signed for this height and that does not
   * contradict another member's proposal.
   */
  lemma CrashesExactly(cr: Crypto, n: Node, msg: seq<byte>, at: nat)
    requires Opened(msg, at)
    ensures Crashes(cr, n, msg, at) <==>
      && ParseHeader(msg[at..]).Some?
      && var h := ParseHeader(msg[at..]).value;
         || h.chunk * CHUNK > h.size
         || (&& h.chunk * CHUNK == h.size && |msg| == EXTRA && h.height == n.height
             && var proposer := ProposerAt(cr, n.roster, h.height, h.round);
             && proposer.Some? && proposer.value < ActiveLen(n.roster)
             && cr.verify(n.roster[proposer.value].key, msg[at..at + HEADER_SIZE],
               Sig(msg[at + HEADER_SIZE..at + HEADER_SIZE + 64]))
             && var rd := EntryFor(n, h.round);
             && (rd.sigsN == 0 || n.roster[proposer.value].key == n.key || !Differs(rd, h)))
  {
    hide ParseHeader, ChunksN, ProposerAt, EntryFor;
    HandedExactly(cr, n.roster, msg, at);
  }

  /**
   * What `check_and_incorporate_msg` comes to unless it panics. A message of another height, of nobody among the first
   * hundred members or without that member's signature changes nothing and fails. Any other gives its round an entry
   * and goes to that entry alone: a vote or a chunk as the entry takes it, and anything else in vain.
   */
  lemma IncorporateExactly(cr: Crypto, n: Node, p: Packet, j: nat, sig: Sig)
    ensures var (m, status) := Incorporate(cr, n, p, j, sig);
      var i, rd, ms := LowerBound(n.rounds, n.height, p.round), EntryFor(n, p.round), Active(n.roster);
      if p.height != n.height || j >= |n.roster| || j >= 100 || !cr.verify(n.roster[j].key, p.data, sig) then
        m == n && status == Fail
      else
        ChunkInRange(p) && |rd.votes| == |ms| && |rd.sigs| == ChunksN(|rd.proposal|) ==>
          && i < |m.rounds| && m == n.(rounds := WithRound(n, p.round)[i := m.rounds[i]])
          && match p.body
             case VoteBody(k, id) => (m.rounds[i], status) == AddVote(rd, k, j, id, sig, ms)
             case OtherBody => m.rounds[i] == rd && status == Fail
             case ChunkBody(c, id, vr) =>
               if |p.data| < 56 then m.rounds[i] == rd && status == Fail
               else
                 var size := UnLe(p.data[4..8]);
                 var h, data := ChunkHeader(c, size, p.round, vr, p.height, id), p.data[56..56 + ChunkSize(size, c)];
                 (m.rounds[i], status) == AddChunk(rd, n.roster[j].key == n.key, h, data, sig, ms, cr.idOf)
  {
    hide AddChunk, AddVote, UnLe;
  }
}
