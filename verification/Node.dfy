/**
 * One consensus node as a value: what each operation of `TMState` does to its state, and the
 * rules of `bft_update` under the line numbers of Algorithm 1 of "The latest gossip on BFT consensus".
 */
module Node {
  import opened Types
  import opened Roster
  import opened VoteLog
  import opened Messages
  import opened Rounds
  import opened Reassembly

  /** Signatures, the value hash and the proposer hash are supplied from outside. */
  datatype Crypto = Crypto(
    verify: (PubKey, seq<byte>, Sig) -> bool,
    sign: (PubKey, seq<byte>) -> Sig,
    idOf: Value -> ValueId,
    lot: (nat, nat) -> nat)

  /** What one call of `bft_update` is told from outside: the time, and the closures' answers by call site. */
  datatype Env = Env(
    now: nat,
    verdict: (nat, nat, Value) -> Status,
    offer: (nat, nat) -> Option<Value>,
    nextRoster: nat -> seq<Member>)

  datatype SignedChunk = SignedChunk(key: PubKey, header: ChunkHeader, data: seq<byte>)

  /**
   * The node, with the roster its caller threads through. `votes` and `chunks` list what every
   * member has signed so far, oldest first; an operation only ever appends what it signs itself.
   */
  datatype Node = Node(
    key: PubKey,
    roster: seq<Member>,
    height: nat,
    round: nat,
    step: Step,
    valid: (Option<Value>, int),
    locked: (Option<Value>, int),
    rounds: seq<RoundData>,
    committed: seq<RoundData>,
    votes: Log,
    chunks: set<SignedChunk>)

  // The round store ------------------------------------------------------------------------------

  predicate Before(h1: nat, r1: nat, h2: nat, r2: nat) {
    h1 < h2 || (h1 == h2 && r1 < r2)
  }

  predicate Sorted(rs: seq<RoundData>) {
    forall i, j :: 0 <= i < j < |rs| ==> Before(rs[i].height, rs[i].round, rs[j].height, rs[j].round)
  }

  /** Where a binary search for (height, round) ends: the first entry that is not before it. */
  function LowerBound(rs: seq<RoundData>, h: nat, r: nat): (i: nat)
    ensures i <= |rs|
    ensures forall j :: 0 <= j < i ==> Before(rs[j].height, rs[j].round, h, r)
    ensures i < |rs| ==> !Before(rs[i].height, rs[i].round, h, r)
  {
    if rs == [] || !Before(rs[0].height, rs[0].round, h, r) then 0 else 1 + LowerBound(rs[1..], h, r)
  }

  predicate IsAt(rs: seq<RoundData>, i: nat, h: nat, r: nat) {
    i < |rs| && rs[i].height == h && rs[i].round == r
  }

  predicate Found(rs: seq<RoundData>, h: nat, r: nat) {
    IsAt(rs, LowerBound(rs, h, r), h, r)
  }

  /** The store with an entry for (height, round), inserting an empty one where the search ended. */
  function WithRound(n: Node, r: nat): seq<RoundData> {
    var i := LowerBound(n.rounds, n.height, r);
    if Found(n.rounds, n.height, r) then n.rounds
    else n.rounds[..i] + [EmptyRound(n.height, r, ActiveLen(n.roster))] + n.rounds[i..]
  }

  /** Indexing is in bounds in every reachable state; see `StoreOk`. */
  function Get(n: Node, i: nat): RoundData {
    if i < |n.rounds| then n.rounds[i] else EmptyRound(n.height, n.round, ActiveLen(n.roster))
  }

  function Put(n: Node, i: nat, rd: RoundData): Node {
    if i < |n.rounds| then n.(rounds := n.rounds[i := rd]) else n
  }

  /** The state that `entry_point` sets up before it enters round 0. */
  function Newborn(k: PubKey, roster: seq<Member>, ingest: seq<RoundData>, votes: Log, chunks: set<SignedChunk>): Node {
    Node(k, roster, |ingest|, 0, AtPropose, (None, -1), (None, -1), [], ingest, votes, chunks)
  }

  predicate Shaped(rd: RoundData, members: nat) {
    |rd.votes| == members && |rd.sigs| == ChunksN(|rd.proposal|)
  }

  // Messages -------------------------------------------------------------------------------------

  datatype Body = ChunkBody(chunk: nat, id: ValueId, validRound: int) | VoteBody(kind: Kind, id: ValueId) | OtherBody

  /** The arguments of `check_and_incorporate_msg`; `data` is what was signed. */
  datatype Packet = Packet(height: nat, round: nat, body: Body, data: seq<byte>)

  function HeaderFor(p: Packet, size: nat): ChunkHeader
    requires p.body.ChunkBody?
  {
    ChunkHeader(p.body.chunk, size, p.round, p.body.validRound, p.height, p.body.id)
  }

  /** The chunk the packet announces exists and its bytes follow the header; otherwise the source panics. */
  predicate ChunkInRange(p: Packet) {
    p.body.ChunkBody? && ParseHeader(p.data).Some? ==>
      var size := ParseHeader(p.data).value.size;
      p.body.chunk < ChunksN(size) && HEADER_SIZE + ChunkSize(size, p.body.chunk) <= |p.data|
  }

  function IncorporateInto(cr: Crypto, n: Node, rd: RoundData, p: Packet, j: nat, sig: Sig): (RoundData, Status)
    requires j < ActiveLen(n.roster) && Shaped(rd, ActiveLen(n.roster)) && ChunkInRange(p)
  {
    match p.body
    case ChunkBody(c, _, _) =>
      (match ParseHeader(p.data)
       case None => (rd, Fail)
       case Some(hdr) =>
         var data := p.data[HEADER_SIZE..HEADER_SIZE + ChunkSize(hdr.size, c)];
         AddChunk(rd, n.roster[j].key == n.key, HeaderFor(p, hdr.size), data, sig, Active(n.roster), cr.idOf))
    case VoteBody(k, id) => AddVote(rd, k, j, id, sig, Active(n.roster))
    case OtherBody => (rd, Fail)
  }

  /** `check_and_incorporate_msg` for the member at `j` of the roster, unless it panics. */
  function Incorporate(cr: Crypto, n: Node, p: Packet, j: nat, sig: Sig): (Node, Status) {
    if p.height != n.height || j >= ActiveLen(n.roster) || !cr.verify(n.roster[j].key, p.data, sig) then (n, Fail)
    else
      var i := LowerBound(n.rounds, p.height, p.round);
      var m := n.(rounds := WithRound(n, p.round));
      if Shaped(Get(m, i), ActiveLen(n.roster)) && ChunkInRange(p) then
        var (rd, status) := IncorporateInto(cr, n, Get(m, i), p, j, sig);
        (Put(m, i, rd), status)
      else (m, Fail)
  }

  /** How `check_and_incorporate_msg` ends. */
  datatype Outcome = Done(status: Status) | Panicked

  /** The entry that a message for round `r` of the current height goes to. */
  function EntryFor(n: Node, r: nat): RoundData {
    Get(n.(rounds := WithRound(n, r)), LowerBound(n.rounds, n.height, r))
  }

  /** The chunk contradicts what another member has proposed, which is noticed before anything is indexed. */
  predicate Contradicts(n: Node, rd: RoundData, p: Packet, j: nat)
    requires j < |n.roster| && p.body.ChunkBody? && ParseHeader(p.data).Some?
  {
    rd.sigsN > 0 && n.roster[j].key != n.key && Differs(rd, HeaderFor(p, ParseHeader(p.data).value.size))
  }

  /** `check_and_incorporate_msg` panics: a verified chunk is not there and does not contradict the proposal. */
  predicate Panics(cr: Crypto, n: Node, p: Packet, j: nat, sig: Sig) {
    && p.height == n.height && j < ActiveLen(n.roster) && cr.verify(n.roster[j].key, p.data, sig)
    && !ChunkInRange(p) && !Contradicts(n, EntryFor(n, p.round), p, j)
  }

  function Position(ms: seq<Member>, key: PubKey): (r: Option<nat>)
    ensures r.Some? ==> r.value < |ms| && ms[r.value].key == key
    ensures r.None? ==> forall j :: 0 <= j < |ms| ==> ms[j].key != key
  {
    if ms == [] then None
    else if ms[0].key == key then Some(0)
    else match Position(ms[1..], key) case None => None case Some(j) => Some(j + 1)
  }

  /** This node's place among the active members. */
  function Seat(n: Node): (r: Option<nat>)
    ensures r.Some? ==> r.value < ActiveLen(n.roster) && n.roster[r.value].key == n.key
  {
    Position(Active(n.roster), n.key)
  }

  function VotePacket(v: Vote): Packet {
    Packet(v.height, v.round, VoteBody(v.kind, v.id), VoteBytes(v))
  }

  function StepOf(k: Kind): Step {
    if k == Prevote then AtPrevote else AtPrecommit
  }

  /** `broadcast` of a vote in round entry `i`: sign it, store it as if received, and move the step. */
  function CastVote(cr: Crypto, n: Node, i: nat, k: Kind, id: ValueId): Node {
    match Seat(n)
    case None => n
    case Some(j) =>
      var v := Vote(Get(n, i).height, Get(n, i).round, k, id, n.key);
      var m := n.(votes := n.votes + [v]);
      Incorporate(cr, m, VotePacket(v), j, cr.sign(n.key, VoteBytes(v))).0.(step := StepOf(k))
  }

  function ChunkPacket(s: SignedChunk): Packet {
    Packet(s.header.height, s.header.round, ChunkBody(s.header.chunk, s.header.id, s.header.validRound),
      ChunkBytes(s.header, s.data))
  }

  function OwnChunk(cr: Crypto, n: Node, h: nat, r: nat, value: Value, validRound: int, c: nat): SignedChunk
    requires c < ChunksN(|value|)
  {
    SignedChunk(n.key, ChunkHeader(c, |value|, r, validRound, h, cr.idOf(value)), Piece(value, c))
  }

  /** One chunk of our own proposal: sign it and store it as if received. */
  function CastChunk(cr: Crypto, n: Node, j: nat, s: SignedChunk): Node {
    Incorporate(cr, n.(chunks := n.chunks + {s}), ChunkPacket(s), j, cr.sign(n.key, ChunkBytes(s.header, s.data))).0
  }

  /** A `for` loop from `from` to `to`. */
  function Loop(turn: (Node, nat) -> Node, n: Node, from: nat, to: nat): Node
    decreases to - from
  {
    if from >= to then n else Loop(turn, turn(n, from), from + 1, to)
  }

  /** Whatever each turn of a loop keeps, the loop keeps. */
  lemma {:induction false} LoopKeeps(turn: (Node, nat) -> Node, n: Node, from: nat, to: nat, inv: (Node, nat) -> bool)
    requires from <= to && inv(n, from)
    requires forall m, i: nat :: from <= i < to && inv(m, i) ==> inv(turn(m, i), i + 1)
    ensures inv(Loop(turn, n, from, to), to)
    decreases if from < to then to - from else 0
  {
    if from < to {
      LoopKeeps(turn, turn(n, from), from + 1, to, inv);
    }
  }

  function ChunkTurn(cr: Crypto, h: nat, r: nat, j: nat, value: Value, validRound: int): (Node, nat) -> Node {
    (n: Node, c: nat) => if c < ChunksN(|value|) then CastChunk(cr, n, j, OwnChunk(cr, n, h, r, value, validRound, c))
      else n
  }

  function CastChunks(cr: Crypto, n: Node, h: nat, r: nat, j: nat, value: Value, validRound: int): Node {
    Loop(ChunkTurn(cr, h, r, j, value, validRound), n, 0, ChunksN(|value|))
  }

  /** `broadcast` of a proposal. */
  function CastProposal(cr: Crypto, n: Node, i: nat, value: Value, validRound: int): Node {
    match Seat(n)
    case None => n
    case Some(j) => CastChunks(cr, n, Get(n, i).height, Get(n, i).round, j, value, validRound).(step := AtPropose)
  }

  const NIL_KEY: PubKey := PubKey(Zeros(32))

  function ProposerAt(cr: Crypto, roster: seq<Member>, h: nat, r: nat): Option<nat> {
    Proposer(roster, cr.lot(h, r))
  }

  function ProposerKey(cr: Crypto, roster: seq<Member>, h: nat, r: nat): PubKey {
    match ProposerAt(cr, roster, h, r)
    case None => NIL_KEY
    case Some(j) => if j < |roster| then roster[j].key else NIL_KEY
  }

  function NewTimeout(now: nat, h: nat, r: nat, step: Step): Option<Timeout> {
    Some(Timeout(now + 5000 + 1000 * r, h, r, step))
  }

  /** The value a proposer puts forward: the one it knows a quorum prevoted, or an offered one. */
  function Choice(n: Node, offer: Option<Value>): Option<Value> {
    if n.valid.0.Some? then n.valid.0 else offer
  }

  /** The round is entered and its entry exists, but nothing is proposed yet. */
  function EnterRound(n: Node, r: nat): Node {
    n.(round := r, rounds := WithRound(n, r))
  }

  function Offering(cr: Crypto, n: Node, i: nat, offer: Option<Value>): Node {
    if ProposerKey(cr, n.roster, n.height, n.round) == n.key && Choice(n, offer).Some?
    then CastProposal(cr, n, i, Choice(n, offer).value, n.valid.1)
    else n.(step := AtPropose)
  }

  function SetTimeout(n: Node, i: nat, now: nat, step: Step): Node {
    Put(n, i, Get(n, i).(timeout := NewTimeout(now, n.height, n.round, step)))
  }

  /** `start_round`. */
  function StartRound(cr: Crypto, n: Node, now: nat, r: nat, offer: Option<Value>): Node {
    var i := LowerBound(n.rounds, n.height, r);
    SetTimeout(Offering(cr, EnterRound(n, r), i, offer), i, now, AtPropose)
  }

  // The rules of bft_update ----------------------------------------------------------------------

  /** What one turn of the loop reads before it acts. */
  datatype Snap = Snap(onRoster: bool, counts: Counts, decidable: bool, current: bool)

  function Look(n: Node, i: nat): Snap {
    var rd := Get(n, i);
    Snap(Seat(n).Some?, rd.counts, rd.Decidable(), n.height == rd.height && n.round == rd.round)
  }

  /** `proposal_is_valid` on entry `i`. */
  function Check(n: Node, i: nat, verdict: Status): Node {
    Put(n, i, Validate(Get(n, i), verdict))
  }

  function PrevoteOn(cr: Crypto, n: Node, i: nat, ok: bool): Node {
    CastVote(cr, n, i, Prevote, if ok then Get(n, i).id else NIL_ID)
  }

  /** Line 22: a first proposal arrived. */
  function Rule22(cr: Crypto, n: Node, i: nat, s: Snap, env: Env): Node {
    if s.onRoster && s.current && s.decidable && Get(n, i).validRound == -1 && n.step == AtPropose then
      var m := Check(n, i, env.verdict(22, i, Get(n, i).proposal));
      PrevoteOn(cr, m, i, Get(m, i).checked == Pass && (m.locked.1 == -1 || m.locked.0 == Some(Get(m, i).proposal)))
    else n
  }

  /** Line 28: a re-proposal, with a quorum of prevotes in the current round. */
  function Rule28(cr: Crypto, n: Node, i: nat, s: Snap, big: nat, env: Env): Node {
    if && s.onRoster && s.current && s.decidable && big <= s.counts.yesPrevotes && n.step == AtPropose
       && 0 <= Get(n, i).validRound < n.round
    then
      var m := Check(n, i, env.verdict(28, i, Get(n, i).proposal));
      PrevoteOn(cr, m, i, Get(m, i).checked == Pass &&
                          (m.locked.1 <= Get(m, i).validRound || m.locked.0 == Some(Get(m, i).proposal)))
    else n
  }

  /** Line 34: a quorum prevoted something, once. */
  function Rule34(n: Node, i: nat, s: Snap, big: nat, env: Env): Node {
    if s.onRoster && s.current && big <= s.counts.prevotes && n.step == AtPrevote && !Get(n, i).prevoteTimeout then
      SetTimeout(Put(n, i, Get(n, i).(prevoteTimeout := true)), i, env.now, AtPrevote)
    else n
  }

  function LockAndPrecommit(cr: Crypto, n: Node, i: nat): Node {
    CastVote(cr, n.(locked := (Some(Get(n, i).proposal), n.round)), i, Precommit, Get(n, i).id)
  }

  /** Line 36: a quorum prevoted the valid proposal. */
  function Rule36(cr: Crypto, n: Node, i: nat, s: Snap, big: nat, env: Env): Node {
    if s.onRoster && s.current && s.decidable && big <= s.counts.yesPrevotes then
      var m := Check(n, i, env.verdict(36, i, Get(n, i).proposal));
      if Get(m, i).checked == Pass && m.step != AtPropose then
        var l := if m.step == AtPrevote then LockAndPrecommit(cr, m, i) else m;
        l.(valid := (Some(Get(l, i).proposal), l.round))
      else m
    else n
  }

  /** Line 44: a quorum prevoted nil. */
  function Rule44(cr: Crypto, n: Node, i: nat, s: Snap, big: nat): Node {
    if s.onRoster && s.current && big <= s.counts.nilPrevotes && n.step == AtPrevote then
      CastVote(cr, n, i, Precommit, NIL_ID)
    else n
  }

  /** Line 47: a quorum precommitted something, once. */
  function Rule47(n: Node, i: nat, s: Snap, big: nat, env: Env): Node {
    if s.onRoster && s.current && big <= s.counts.precommits && !Get(n, i).precommitTimeout then
      SetTimeout(Put(n, i, Get(n, i).(precommitTimeout := true)), i, env.now, AtPrecommit)
    else n
  }

  function Below(rs: seq<RoundData>, h: nat): seq<RoundData> {
    if rs == [] then []
    else Below(rs[..|rs| - 1], h) + if rs[|rs| - 1].height < h then [rs[|rs| - 1]] else []
  }

  /** The height has already moved on when the store is pruned, so nothing is. */
  lemma {:induction false} NothingPruned(rs: seq<RoundData>, h: nat)
    requires forall i :: 0 <= i < |rs| ==> rs[i].height < h
    ensures Below(rs, h) == rs
  {
    if rs != [] {
      NothingPruned(rs[..|rs| - 1], h);
    }
  }

  /** The height is closed with entry `i` and the locks are released. */
  function CloseHeight(n: Node, i: nat, roster: seq<Member>): Node {
    n.(roster := roster, height := n.height + 1, committed := n.committed + [Get(n, i)],
       rounds := Below(n.rounds, n.height + 1), locked := (None, -1), valid := (None, -1))
  }

  /** Line 49: a quorum precommitted the valid proposal of any round of this height. */
  function Rule49(cr: Crypto, n: Node, i: nat, s: Snap, big: nat, env: Env): Node {
    if n.height == Get(n, i).height && s.decidable && big <= s.counts.yesPrecommits then
      var m := Check(n, i, env.verdict(49, i, Get(n, i).proposal));
      if Get(m, i).checked == Pass then
        StartRound(cr, CloseHeight(m, i, env.nextRoster(i)), env.now, 0, env.offer(49, i))
      else m
    else n
  }

  /** Line 55: enough stake is already in a later round. */
  function Rule55(cr: Crypto, n: Node, i: nat, s: Snap, small: nat, env: Env): Node {
    if s.onRoster && n.height == Get(n, i).height && n.round < Get(n, i).round && small <= s.counts.anys then
      StartRound(cr, n, env.now, Get(n, i).round, env.offer(55, i))
    else n
  }

  predicate Expired(n: Node, i: nat, s: Snap, now: nat) {
    match Get(n, i).timeout
    case None => false
    case Some(t) => t.time <= now && n.height == t.height && n.round == t.round && s.onRoster
  }

  /** Lines 57, 61 and 65: the timeouts. */
  function RuleTimeout(cr: Crypto, n: Node, i: nat, s: Snap, env: Env): Node {
    if !Expired(n, i, s, env.now) then n
    else
      var step := Get(n, i).timeout.value.step;
      if step == AtPrecommit then StartRound(cr, n, env.now, n.round + 1, env.offer(65, i))
      else if n.step == step then CastVote(cr, n, i, if step == AtPropose then Prevote else Precommit, NIL_ID)
      else n
  }

  /** The rules that act on the current round only. */
  function VoteRules(cr: Crypto, n: Node, i: nat, s: Snap, big: nat, env: Env): Node {
    var n22 := Rule22(cr, n, i, s, env);
    var n28 := Rule28(cr, n22, i, s, big, env);
    var n34 := Rule34(n28, i, s, big, env);
    var n36 := Rule36(cr, n34, i, s, big, env);
    var n44 := Rule44(cr, n36, i, s, big);
    Rule47(n44, i, s, big, env)
  }

  /** One turn of the loop over the rounds. */
  function Turn(cr: Crypto, n: Node, i: nat, big: nat, small: nat, env: Env): Node {
    var s := Look(n, i);
    var voted := VoteRules(cr, n, i, s, big, env);
    var decided := Rule49(cr, voted, i, s, big, env);
    var caughtUp := Rule55(cr, decided, i, s, small, env);
    RuleTimeout(cr, caughtUp, i, s, env)
  }

  /** The loop's body, with the thresholds of the roster that `bft_update` starts with. */
  function TurnWith(cr: Crypto, total: nat, env: Env): (Node, nat) -> Node
    requires total >= 1
  {
    (n: Node, i: nat) => Turn(cr, n, i, Big(total), Small(total), env)
  }

  function FirstOfHeight(n: Node): nat {
    if Found(n.rounds, n.height, 0) then LowerBound(n.rounds, n.height, 0) else 0
  }

  /** `bft_update`: one turn for every round of the current height that is known when it starts. */
  function Update(cr: Crypto, n: Node, env: Env): Node
    requires Total(Active(n.roster)) >= 1
  {
    Loop(TurnWith(cr, Total(Active(n.roster)), env), n, FirstOfHeight(n), |n.rounds|)
  }
}
