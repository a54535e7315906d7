/** The byte strings that members sign: votes and proposal chunks. */
module Messages {
  import opened Types
  import opened Bytes
  import opened VoteLog

  const PRECOMMIT_FLAG: nat := 0x8000_0000

  /** Heights are 64-bit and rounds leave the top bit of their 32 free for the precommit flag. */
  predicate WfVote(v: Vote) {
    v.height < 0x1_0000_0000_0000_0000 && v.round < PRECOMMIT_FLAG
  }

  function RoundWord(v: Vote): nat {
    v.round + if v.kind == Precommit then PRECOMMIT_FLAG else 0
  }

  /** What a finalizer signs after its own key: the 44 bytes that a fat pointer carries. */
  function VoteTail(v: Vote): (s: seq<byte>)
    ensures |s| == 44
  {
    v.id.bytes + Le(v.height, 8) + Le(RoundWord(v), 4)
  }

  /** The 76 signed bytes of a vote. */
  function VoteBytes(v: Vote): (s: seq<byte>)
    ensures |s| == 76
  {
    v.key.bytes + VoteTail(v)
  }

  /** The bytes that the nil and the non-nil variant of a vote share, written over a zeroed buffer. */
  function Frame(v: Vote): (s: seq<byte>)
    ensures |s| == 76
  {
    Overlay(Overlay(Overlay(Zeros(76), 0, v.key.bytes), 64, Le(v.height, 8)), 72, Le(RoundWord(v), 4))
  }

  method WriteFrame(v: Vote) returns (data: array<byte>)
    ensures fresh(data) && data[..] == Frame(v)
  {
    data := new byte[76](_ => 0);
    assert data[..] == Zeros(76);
    var n := WriteBytes(data, 0, v.key.bytes);
    n := WriteLe(data, 64, v.height, 8);
    n := WriteLe(data, 72, RoundWord(v), 4);
  }

  lemma FrameIsVote(v: Vote)
    ensures Frame(v) == VoteBytes(v.(id := NIL_ID)) && Overlay(Frame(v), 32, v.id.bytes) == VoteBytes(v)
  {
    VoteLayout(v.key.bytes, v.id.bytes, Le(v.height, 8), Le(RoundWord(v), 4));
  }

  /** `make_vote_sign_datas`: the nil and the non-nil variant of one vote's signed bytes. */
  method MakeVoteSignDatas(v: Vote) returns (no: seq<byte>, yes: seq<byte>)
    ensures no == VoteBytes(v.(id := NIL_ID)) && yes == VoteBytes(v)
  {
    var data := WriteFrame(v);
    FrameIsVote(v);
    no := data[..];
    var n := WriteBytes(data, 32, v.id.bytes);
    yes := data[..];
  }

  /** Where the four writes land in the 76 zero bytes. */
  lemma VoteLayout(key: seq<byte>, id: seq<byte>, height: seq<byte>, round: seq<byte>)
    requires |key| == 32 && |id| == 32 && |height| == 8 && |round| == 4
    ensures var no := Overlay(Overlay(Overlay(Zeros(76), 0, key), 64, height), 72, round);
      no == key + (Zeros(32) + height + round) && Overlay(no, 32, id) == key + (id + height + round)
  {
    var a := Overlay(Zeros(76), 0, key);
    assert a == key + Zeros(44);
    var b := Overlay(a, 64, height);
    assert b == key + (Zeros(32) + height + Zeros(4));
    var c := Overlay(b, 72, round);
    assert c == key + (Zeros(32) + height + round);
  }

  lemma VoteBytesFields(v: Vote)
    ensures VoteBytes(v)[..32] == v.key.bytes
    ensures VoteBytes(v)[32..64] == v.id.bytes
    ensures VoteBytes(v)[64..72] == Le(v.height, 8)
    ensures VoteBytes(v)[72..76] == Le(RoundWord(v), 4)
  {
  }

  /** The signed bytes one by one: key, value, height, and the round with its top bit set for a precommit. */
  lemma SignedVoteLayout(v: Vote)
    ensures var s := VoteBytes(v);
      && |s| == 76 && s[..32] == v.key.bytes && s[32..64] == v.id.bytes && DigitsAt(s, 64, v.height, 8)
      && DigitsAt(s, 72, v.round + (if v.kind == Precommit then 0x8000_0000 else 0), 4)
  {
    VoteBytesFields(v);
    LeAt(VoteBytes(v), 64, v.height, 8);
    LeAt(VoteBytes(v), 72, RoundWord(v), 4);
  }

  /** A signed byte string is the vote of at most one key, height, round, step and value. */
  lemma VoteBytesInjective(u: Vote, v: Vote)
    requires WfVote(u) && WfVote(v) && VoteBytes(u) == VoteBytes(v)
    ensures u == v
  {
    VoteBytesFields(u);
    VoteBytesFields(v);
    Widths();
    LeInjective(u.height, v.height, 8);
    LeInjective(RoundWord(u), RoundWord(v), 4);
  }

  /** The round word fits its 32 bits; beyond that the source's addition overflows. */
  predicate Signable(v: Vote) {
    v.height < 0x1_0000_0000_0000_0000 && RoundWord(v) < 0x1_0000_0000
  }

  /**
   * Without the bound on rounds the bytes are ambiguous: a precommit always reads as a prevote of a
   * round with the top bit set as well. The one unambiguous kind is a prevote below that bit.
   */
  lemma OnlyLowPrevotesAreUnambiguous(v: Vote)
    requires Signable(v)
    ensures (forall u :: Signable(u) && VoteBytes(u) == VoteBytes(v) ==> u == v) <==>
      v.kind == Prevote && v.round < PRECOMMIT_FLAG
  {
    if v.kind == Prevote && v.round < PRECOMMIT_FLAG {
      forall u | Signable(u) && VoteBytes(u) == VoteBytes(v)
        ensures u == v
      {
        VoteBytesFields(u);
        VoteBytesFields(v);
        Widths();
        LeInjective(u.height, v.height, 8);
        LeInjective(RoundWord(u), RoundWord(v), 4);
      }
    } else {
      var u := if v.kind == Precommit then v.(kind := Prevote, round := v.round + PRECOMMIT_FLAG)
               else v.(kind := Precommit, round := v.round - PRECOMMIT_FLAG);
      assert RoundWord(u) == RoundWord(v) && VoteBytes(u) == VoteBytes(v) && Signable(u) && u != v;
    }
  }

  /** Whatever 76 bytes a member signs behind its own key, they are one of its votes below the bit. */
  lemma EverySignedStringIsAVote(key: PubKey, s: seq<byte>) returns (v: Vote)
    requires |s| == 76 && s[..32] == key.bytes
    ensures WfVote(v) && v.key == key && VoteBytes(v) == s
  {
    var word := UnLe(s[72..]);
    UnLeRoundTrip(s[64..72]);
    UnLeRoundTrip(s[72..]);
    Widths();
    v := if word < PRECOMMIT_FLAG then Vote(UnLe(s[64..72]), word, Prevote, ValueId(s[32..64]), key)
         else Vote(UnLe(s[64..72]), word - PRECOMMIT_FLAG, Precommit, ValueId(s[32..64]), key);
    assert RoundWord(v) == word;
    assert s == s[..32] + (s[32..64] + s[64..72] + s[72..]);
  }

  datatype ChunkHeader = ChunkHeader(chunk: nat, size: nat, round: nat, validRound: int, height: nat, id: ValueId)

  const NO_ROUND: nat := 0xFFFF_FFFF
  const HEADER_SIZE: nat := 56

  /** The integer widths of the header; `valid_round` must convert to an unsigned 32-bit word. */
  predicate WfHeader(h: ChunkHeader) {
    && h.chunk < 0x1_0000_0000 && h.size < 0x1_0000_0000 && h.round < 0x1_0000_0000
    && h.validRound < 0x1_0000_0000 && h.height < 0x1_0000_0000_0000_0000
  }

  function ValidRoundWord(r: int): (w: nat)
    ensures r >= 0 ==> w == r
  {
    if r >= 0 then r else NO_ROUND
  }

  function HeaderBytes(h: ChunkHeader): (s: seq<byte>)
    ensures |s| == HEADER_SIZE
  {
    Le(h.chunk, 4) + Le(h.size, 4) + Le(h.round, 4) + Le(ValidRoundWord(h.validRound), 4) + Le(h.height, 8) + h.id.bytes
  }

  function ChunkBytes(h: ChunkHeader, data: seq<byte>): seq<byte> {
    HeaderBytes(h) + data
  }

  /** The fields of a header, one behind the other. */
  method WriteHeader(buf: array<byte>, at: nat, h: ChunkHeader) returns (n: nat)
    requires at + HEADER_SIZE <= buf.Length
    modifies buf
    ensures n == HEADER_SIZE
    ensures buf[..] == Overlay(old(buf[..]), at, HeaderBytes(h))
  {
    ghost var start := buf[..];
    ghost var d1 := Le(h.chunk, 4);
    ghost var d2 := d1 + Le(h.size, 4);
    ghost var d3 := d2 + Le(h.round, 4);
    ghost var d4 := d3 + Le(ValidRoundWord(h.validRound), 4);
    var o := WriteLe(buf, at, h.chunk, 4);
    o := PutLe(buf, start, at, d1, at + o, h.size, 4);
    o := PutLe(buf, start, at, d2, o, h.round, 4);
    o := PutLe(buf, start, at, d3, o, ValidRoundWord(h.validRound), 4);
    o := PutLe(buf, start, at, d4, o, h.height, 8);
    o := PutBytes(buf, start, at, d4 + Le(h.height, 8), o, h.id.bytes);
    n := o - at;
  }

  /**
   * `PacketProposalChunkHeader::write_to`; `None` stands for its panic, which comes before the
   * first byte is written.
   */
  method SerializeHeader(buf: array<byte>, at: nat, h: ChunkHeader) returns (r: Option<nat>)
    requires at + HEADER_SIZE <= buf.Length
    modifies buf
    ensures r.None? <==> h.validRound >= 0x1_0000_0000
    ensures r.None? ==> buf[..] == old(buf[..])
    ensures r.Some? ==> r.value == HEADER_SIZE && buf[..] == Overlay(old(buf[..]), at, HeaderBytes(h))
  {
    if h.validRound >= 0x1_0000_0000 {
      return None;
    }
    var n := WriteHeader(buf, at, h);
    return Some(n);
  }

  /** The header in front of `s`, if `s` is long enough to hold one. */
  function ParseHeader(s: seq<byte>): Option<ChunkHeader> {
    if |s| < HEADER_SIZE then None
    else
      var w := UnLe(s[12..16]);
      Some(ChunkHeader(UnLe(s[..4]), UnLe(s[4..8]), UnLe(s[8..12]), if w != NO_ROUND then w else -1,
                       UnLe(s[16..24]), ValueId(s[24..56])))
  }

  /** `PacketProposalChunkHeader::read_from`: field by field, giving up at the first short read. */
  method ReadHeader(c: Cursor) returns (r: Option<ChunkHeader>)
    modifies c
    ensures r == ParseHeader(old(c.rest))
    ensures r.Some? ==> c.rest == old(c.rest)[HEADER_SIZE..]
  {
    ghost var s := c.rest;
    var chunk := c.ReadLe(4);
    if chunk.None? { return None; }
    var size := c.ReadLe(4);
    if size.None? { return None; }
    assert c.rest == s[8..];
    var round := c.ReadLe(4);
    if round.None? { return None; }
    assert c.rest == s[12..];
    var word := c.ReadLe(4);
    if word.None? { return None; }
    assert c.rest == s[16..];
    var height := c.ReadLe(8);
    if height.None? { return None; }
    assert c.rest == s[24..];
    var id := c.ReadBytes(32);
    if id.None? { return None; }
    assert c.rest == s[56..];
    assert s[4..][..4] == s[4..8] && s[8..][..4] == s[8..12] && s[12..][..4] == s[12..16]
        && s[16..][..8] == s[16..24] && s[24..][..32] == s[24..56];
    r := Some(ChunkHeader(chunk.value, size.value, round.value, if word.value != NO_ROUND then word.value else -1,
                          height.value, ValueId(id.value)));
  }

  lemma HeaderFields(h: ChunkHeader, data: seq<byte>)
    ensures var s := ChunkBytes(h, data);
      && s[..4] == Le(h.chunk, 4) && s[4..8] == Le(h.size, 4) && s[8..12] == Le(h.round, 4)
      && s[12..16] == Le(ValidRoundWord(h.validRound), 4) && s[16..24] == Le(h.height, 8)
      && s[24..56] == h.id.bytes && s[56..] == data
  {
  }

  /** The bytes of a chunk one by one; a valid round of none is the word of all ones. */
  lemma ChunkLayout(h: ChunkHeader, data: seq<byte>)
    ensures var s := ChunkBytes(h, data);
      && |s| == 56 + |data| && DigitsAt(s, 0, h.chunk, 4) && DigitsAt(s, 4, h.size, 4) && DigitsAt(s, 8, h.round, 4)
      && DigitsAt(s, 12, if h.validRound >= 0 then h.validRound else 0xFFFF_FFFF, 4) && DigitsAt(s, 16, h.height, 8)
      && s[24..56] == h.id.bytes && s[56..] == data
  {
    var s := ChunkBytes(h, data);
    HeaderFields(h, data);
    LeAt(s, 0, h.chunk, 4);
    LeAt(s, 4, h.size, 4);
    LeAt(s, 8, h.round, 4);
    LeAt(s, 12, ValidRoundWord(h.validRound), 4);
    LeAt(s, 16, h.height, 8);
  }

  /** The header survives the wire exactly when its valid round is not the word that means "none". */
  lemma HeaderRoundTrip(h: ChunkHeader, data: seq<byte>)
    requires WfHeader(h)
    ensures ParseHeader(ChunkBytes(h, data)) == Some(h) <==> h.validRound >= -1 && h.validRound != NO_ROUND
  {
    HeaderFields(h, data);
    Widths();
    LeRoundTrip(h.chunk, 4);
    LeRoundTrip(h.size, 4);
    LeRoundTrip(h.round, 4);
    LeRoundTrip(ValidRoundWord(h.validRound), 4);
    LeRoundTrip(h.height, 8);
  }

  /** Conversely, whatever parses as a header is the encoding of that header. */
  lemma ParsedHeaderBytes(s: seq<byte>)
    requires ParseHeader(s).Some?
    ensures var h := ParseHeader(s).value;
      WfHeader(h) && -1 <= h.validRound < NO_ROUND && s == ChunkBytes(h, s[HEADER_SIZE..])
  {
    var h := ParseHeader(s).value;
    Widths();
    UnLeRoundTrip(s[..4]);
    UnLeRoundTrip(s[4..8]);
    UnLeRoundTrip(s[8..12]);
    UnLeRoundTrip(s[12..16]);
    UnLeRoundTrip(s[16..24]);
    assert ValidRoundWord(h.validRound) == UnLe(s[12..16]);
    assert s == s[..4] + s[4..8] + s[8..12] + s[12..16] + s[16..24] + s[24..56] + s[56..];
  }

  /**
   * A chunk signed by `key` can be read as one of its votes only if `key` itself spells a chunk
   * header: its second word is twenty more than `chunkSize` times its first.
   */
  predicate SeparatesVotes(key: PubKey, chunkSize: nat) {
    UnLe(key.bytes[4..8]) != chunkSize * UnLe(key.bytes[..4]) + 20
  }

  lemma ChunkIsNoVote(h: ChunkHeader, data: seq<byte>, v: Vote, chunkSize: nat)
    requires WfHeader(h) && SeparatesVotes(v.key, chunkSize)
    requires |data| == h.size - chunkSize * h.chunk || |data| == chunkSize
    requires chunkSize != 20
    ensures ChunkBytes(h, data) != VoteBytes(v)
  {
    HeaderFields(h, data);
    VoteBytesFields(v);
    Widths();
    LeRoundTrip(h.chunk, 4);
    LeRoundTrip(h.size, 4);
    assert v.key.bytes[..4] == VoteBytes(v)[..4] && v.key.bytes[4..8] == VoteBytes(v)[4..8];
  }
}
