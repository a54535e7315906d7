/** The effect of single events on nodes whose state is known, from which whole runs are put together. */
module Scenario {
  import opened Types
  import opened Bytes
  import opened Roster
  import opened VoteLog
  import opened Messages
  import opened Rounds
  import opened Reassembly
  import opened Node
  import opened Invariant
  import opened Steps
  import opened Updates

  const MARK: Sig := Sig(Zeros(63) + [1])
  const ID_ONE: ValueId := ValueId(Zeros(31) + [1])
  const ID_TWO: ValueId := ValueId(Zeros(31) + [2])
  const VALUE_ONE: Value := [7]
  const VALUE_TWO: Value := [8]

  function KeyOf(b: byte): PubKey {
    PubKey(Zeros(31) + [b])
  }

  /** Tells the two values apart. */
  function IdOf(v: Value): ValueId {
    if v == VALUE_ONE then ID_ONE else ID_TWO
  }

  /** One signature for everything, and proposers by `lot`. */
  function Lab(lot: (nat, nat) -> nat): Crypto {
    Crypto((k, d, s) => s == MARK, (k, d) => MARK, IdOf, lot)
  }

  /** The same roster at every height; keys that could confuse chunks and votes count as faulty. */
  ghost function Town(roster: seq<Member>, bad: iset<PubKey>): World {
    World(h => roster, iset k: PubKey | k in bad || !SeparatesVotes(k, CHUNK))
  }

  lemma Names()
    ensures ID_ONE != ID_TWO && ID_ONE != NIL_ID && ID_TWO != NIL_ID && MARK != NIL_SIG
    ensures KeyOf(1) != KeyOf(2) && KeyOf(2) != KeyOf(3) && KeyOf(1) != KeyOf(3)
  {
    assert ID_ONE.bytes[31] == 1 && ID_TWO.bytes[31] == 2 && NIL_ID.bytes[31] == 0;
    assert MARK.bytes[63] == 1 && NIL_SIG.bytes[63] == 0;
    assert KeyOf(1).bytes[31] == 1 && KeyOf(2).bytes[31] == 2 && KeyOf(3).bytes[31] == 3;
  }

  lemma {:induction false} ZerosAreZero(n: nat)
    ensures UnLe(Zeros(n)) == 0
  {
    if n > 0 {
      ZerosAreZero(n - 1);
      assert Zeros(n)[1..] == Zeros(n - 1);
    }
  }

  lemma KeysSeparate(b: byte)
    ensures SeparatesVotes(KeyOf(b), CHUNK)
  {
    assert KeyOf(b).bytes[4..8] == Zeros(4) && KeyOf(b).bytes[..4] == Zeros(4);
    ZerosAreZero(4);
  }

  lemma TownOk(roster: seq<Member>, bad: iset<PubKey>, lot: (nat, nat) -> nat)
    requires PrefixSums(roster) && Total(Active(roster)) >= 1
    ensures WorldOk(Town(roster, bad), Lab(lot))
  {
    Names();
    var w := Town(roster, bad);
    assert forall h: nat :: w.rosterAt(h) == roster;
  }

  /** Signed strings of separating keys are never both a vote and a chunk. */
  lemma SeparateSigned(votes: Log, chunks: set<SignedChunk>)
    requires forall v :: v in votes ==> WfVote(v) && SeparatesVotes(v.key, CHUNK)
    requires forall c :: c in chunks ==> WfChunk(c) && SeparatesVotes(c.key, CHUNK)
    ensures SignedOk(votes, chunks)
  {
    forall v, c: SignedChunk | WfVote(v) && WfChunk(c) && v.key == c.key && VoteBytes(v) == ChunkBytes(c.header, c.data)
      ensures v in votes <==> c in chunks
    {
      if SeparatesVotes(v.key, CHUNK) {
        ChunkIsNoVote(c.header, c.data, v, CHUNK);
      }
    }
  }

  // The one chunk --------------------------------------------------------------------------------

  predicate Short(v: Value) { v == VALUE_ONE || v == VALUE_TWO }

  function HeaderFor1(v: Value, r: nat, validRound: int := -1): ChunkHeader {
    ChunkHeader(0, 1, r, validRound, 0, IdOf(v))
  }

  function Chunk1(key: PubKey, v: Value, r: nat, validRound: int := -1): SignedChunk {
    SignedChunk(key, HeaderFor1(v, r, validRound), v)
  }

  lemma OneChunk(v: Value, r: nat, validRound: int := -1)
    requires Short(v) && -1 <= validRound < r < PRECOMMIT_FLAG
    ensures ChunksN(1) == 1 && ChunksN(0) == 0 && ChunkSize(1, 0) == 1
    ensures var h := HeaderFor1(v, r, validRound); var b := ChunkBytes(h, v);
      && |b| == HEADER_SIZE + 1 && ParseHeader(b) == Some(h) && b[HEADER_SIZE..HEADER_SIZE + 1] == v
        && b[HEADER_SIZE..] == v
    ensures forall k :: WfChunk(Chunk1(k, v, r, validRound))
  {
    HeaderRoundTrip(HeaderFor1(v, r, validRound), v);
    HeaderFields(HeaderFor1(v, r, validRound), v);
  }

  /** The round with its whole proposal and these votes. */
  function Offered1(v: Value, r: nat, checked: Status, votes: seq<Slots>, counts: Counts, timer: Option<Timeout>,
                    prevoteTimeout: bool, validRound: int := -1): RoundData {
    RoundData(0, r, v, validRound, [MARK], 1, IdOf(v), checked, false, votes, counts, timer, prevoteTimeout, false)
  }

  function NoVotes(members: nat): seq<Slots> {
    seq(members, _ => NO_VOTES)
  }

  /** The chunk completes the proposal of a round that has nothing yet. */
  lemma FirstChunk(v: Value, r: nat, mine: bool, ms: seq<Member>, timer: Option<Timeout>, validRound: int := -1)
    requires Short(v) && -1 <= validRound < r < PRECOMMIT_FLAG
    ensures var rd, h := EmptyRound(0, r, |ms|).(timeout := timer), HeaderFor1(v, r, validRound);
      && ChunksN(0) == 0 && Fits(h, v)
      && AddChunk(rd, mine, h, v, MARK, ms, IdOf) ==
         (Offered1(v, r, Indeterminate, NoVotes(|ms|), ZERO, timer, false, validRound), Pass)
  {
    OneChunk(v, r, validRound);
    Names();
    var h, rd := HeaderFor1(v, r, validRound), EmptyRound(0, r, |ms|).(timeout := timer);
    var blank := rd.(proposal := Zeros(1), sigs := seq(1, _ => NIL_SIG));
    var w := Write(blank, h, v, MARK);
    assert w.proposal == v && w.sigs == [MARK];
    assert PurgeVotes(w.votes, h.id) == w.votes && !AnyPurged(w.votes, h.id);
    assert Adopt(w, h.id, ms) == Offered1(v, r, Indeterminate, NoVotes(|ms|), ZERO, timer, false, validRound);
  }

  // Votes ----------------------------------------------------------------------------------------

  function Yes(id: ValueId): Slot { Slot(id, MARK) }

  lemma PrevoteAdded(rd: RoundData, j: nat, id: ValueId, ms: seq<Member>)
    requires j < |rd.votes| <= |ms| && rd.votes[j] == NO_VOTES && (id == NIL_ID || rd.id == id)
    ensures var s, c := ms[j].stake, rd.counts;
      AddVote(rd, Prevote, j, id, MARK, ms).0 == rd.(votes := rd.votes[j := Slots(Yes(id), NO_VOTE)],
        counts := Counts(c.anys + s, c.prevotes + s, c.nilPrevotes + (if id == NIL_ID then s else 0),
                         c.yesPrevotes + (if id == NIL_ID then 0 else s), c.precommits, c.yesPrecommits))
  {
    Names();
  }

  lemma PrecommitAdded(rd: RoundData, j: nat, id: ValueId, ms: seq<Member>)
    requires j < |rd.votes| <= |ms| && rd.votes[j] == Slots(Yes(id), NO_VOTE) && (id == NIL_ID || rd.id == id)
    ensures var s, c := ms[j].stake, rd.counts;
      AddVote(rd, Precommit, j, id, MARK, ms).0 == rd.(votes := rd.votes[j := Slots(Yes(id), Yes(id))],
        counts := c.(precommits := c.precommits + s,
                     yesPrecommits := c.yesPrecommits + (if id == NIL_ID then 0 else s)))
  {
    Names();
  }

  // Nodes ----------------------------------------------------------------------------------------

  /** A node at height 0 that sits at `j` of the roster, with a sorted store whose entry `i` is its current round. */
  predicate Placed1(n: Node, j: nat, i: nat) {
    && Seat(n) == Some(j) && n.height == 0 && Sorted(n.rounds) && i < |n.rounds|
    && n.rounds[i].height == 0 && n.rounds[i].round == n.round && Shaped(n.rounds[i], ActiveLen(n.roster))
  }

  /** A message for a round that is in the store goes there. */
  lemma IncorporateAt(cr: Crypto, n: Node, p: Packet, j: nat, i: nat)
    requires Sorted(n.rounds) && i < |n.rounds| && p.height == n.height == n.rounds[i].height
      && p.round == n.rounds[i].round
    requires j < ActiveLen(n.roster) && cr.verify(n.roster[j].key, p.data, MARK)
    requires Shaped(n.rounds[i], ActiveLen(n.roster)) && ChunkInRange(p)
    ensures Incorporate(cr, n, p, j, MARK).0 ==
      n.(rounds := n.rounds[i := IncorporateInto(cr, n, n.rounds[i], p, j, MARK).0])
  {
    hide IncorporateInto, LowerBound, Sorted;
    AtIsFound(n.rounds, i, p.height, p.round);
  }

  /** A vote of our own lands in the current round. */
  lemma CastAt(lot: (nat, nat) -> nat, n: Node, j: nat, i: nat, k: Kind, id: ValueId)
    requires Placed1(n, j, i)
    ensures j < |n.rounds[i].votes| <= |Active(n.roster)|
    ensures CastVote(Lab(lot), n, i, k, id) ==
            n.(votes := n.votes + [Vote(0, n.round, k, id, n.key)], step := StepOf(k),
               rounds := n.rounds[i := AddVote(n.rounds[i], k, j, id, MARK, Active(n.roster)).0])
  {
    hide AddVote, LowerBound, VoteBytes, Sorted, Position;
    var v := Vote(0, n.round, k, id, n.key);
    IncorporateAt(Lab(lot), n.(votes := n.votes + [v]), VotePacket(v), j, i);
  }

  // Turns of the loop ----------------------------------------------------------------------------

  /** Every value is valid, the roster stays, and the proposal closure answers `offer`. */
  function EnvAt(now: nat, offer: Option<Value>, roster: seq<Member>): Env {
    Env(now, (l, i, v) => Pass, (l, i) => offer, i => roster)
  }

  predicate Later(t: Option<Timeout>, now: nat) {
    t.Some? && t.value.time > now
  }

  /** With nothing counted and no timer due, only line 22 can act on the current round. */
  lemma OnlyLine22(cr: Crypto, n: Node, i: nat, s: Snap, big: nat, small: nat, env: Env)
    requires s.counts == ZERO && big >= 1 && small >= 1 && i < |n.rounds| && Later(n.rounds[i].timeout, env.now)
    ensures Rule28(cr, n, i, s, big, env) == n && Rule34(n, i, s, big, env) == n && Rule36(cr, n, i, s, big, env) == n
    ensures Rule44(cr, n, i, s, big) == n && Rule47(n, i, s, big, env) == n && Rule49(cr, n, i, s, big, env) == n
    ensures Rule55(cr, n, i, s, small, env) == n && RuleTimeout(cr, n, i, s, env) == n
  {
    hide CastVote, StartRound;
  }

  /** The proposal has just arrived: the node prevotes it. */
  lemma TurnPrevote(lot: (nat, nat) -> nat, n: Node, j: nat, i: nat, v: Value, votes: seq<Slots>,
                    timer: Option<Timeout>, big: nat, small: nat, env: Env)
    requires Placed1(n, j, i) && Short(v) && big >= 1 && small >= 1 && n.step == AtPropose && n.locked == (None, -1)
    requires n.rounds[i] == Offered1(v, n.round, Indeterminate, votes, ZERO, timer, false)
    requires j < |votes| && Later(timer, env.now) && env.verdict(22, i, v) == Pass
    ensures Turn(Lab(lot), n, i, big, small, env) ==
            n.(votes := n.votes + [Vote(0, n.round, Prevote, IdOf(v), n.key)], step := AtPrevote,
               rounds := n.rounds[i := AddVote(Offered1(v, n.round, Pass, votes, ZERO, timer, false), Prevote, j,
                 IdOf(v), MARK, Active(n.roster)).0])
  {
    hide CastVote, LowerBound, AddVote, Sorted, Rule28, Rule34, Rule36, Rule44, Rule47, Rule49, Rule55, RuleTimeout;
    var cr, s, rd := Lab(lot), Look(n, i), Offered1(v, n.round, Pass, votes, ZERO, timer, false);
    var checked := n.(rounds := n.rounds[i := rd]);
    assert Check(n, i, Pass) == checked;
    assert Placed1(checked, j, i) by { CheckedPlaced(n, j, i, rd); }
    CastAt(lot, checked, j, i, Prevote, IdOf(v));
    assert checked.rounds[i := AddVote(rd, Prevote, j, IdOf(v), MARK, Active(n.roster)).0] ==
      n.rounds[i := AddVote(rd, Prevote, j, IdOf(v), MARK, Active(n.roster)).0];
    var m := Rule22(cr, n, i, s, env);
    assert Later(m.rounds[i].timeout, env.now) by { AddVoteTimer(rd, Prevote, j, IdOf(v), Active(n.roster)); }
    OnlyLine22(cr, m, i, s, big, small, env);
  }

  lemma CheckedPlaced(n: Node, j: nat, i: nat, rd: RoundData)
    requires Placed1(n, j, i) && rd.height == 0 && rd.round == n.rounds[i].round && Shaped(rd, ActiveLen(n.roster))
    ensures Placed1(n.(rounds := n.rounds[i := rd]), j, i)
  {
  }

  lemma AddVoteTimer(rd: RoundData, k: Kind, j: nat, id: ValueId, ms: seq<Member>)
    requires j < |rd.votes| <= |ms|
    ensures AddVote(rd, k, j, id, MARK, ms).0.timeout == rd.timeout
  {
  }

  /** A quorum has prevoted the value: the node locks it and precommits. */
  lemma TurnPrecommit(lot: (nat, nat) -> nat, n: Node, j: nat, i: nat, v: Value, votes: seq<Slots>, c: Counts,
                      timer: Option<Timeout>, big: nat, small: nat, env: Env)
    requires Placed1(n, j, i) && Short(v) && n.step == AtPrevote
      && n.rounds[i] == Offered1(v, n.round, Pass, votes, c, timer, false)
    requires j < |votes| && big <= c.yesPrevotes && big <= c.prevotes && c.nilPrevotes < big && c.precommits < big
      && c.yesPrecommits < big
    ensures var t := NewTimeout(env.now, 0, n.round, AtPrevote);
      Turn(Lab(lot), n, i, big, small, env) ==
        n.(votes := n.votes + [Vote(0, n.round, Precommit, IdOf(v), n.key)], step := AtPrecommit,
           locked := (Some(v), n.round), valid := (Some(v), n.round),
           rounds := n.rounds[i := AddVote(Offered1(v, n.round, Pass, votes, c, t, true), Precommit, j, IdOf(v), MARK,
             Active(n.roster)).0])
  {
    hide CastVote, LowerBound, AddVote, Sorted;
    var cr, s, t := Lab(lot), Look(n, i), NewTimeout(env.now, 0, n.round, AtPrevote);
    var rd := Offered1(v, n.round, Pass, votes, c, t, true);
    var timed := n.(rounds := n.rounds[i := rd]);
    assert Rule34(n, i, s, big, env) == timed;
    assert Check(timed, i, env.verdict(36, i, v)) == timed by { assert timed.rounds[i := rd] == timed.rounds; }
    var locked := timed.(locked := (Some(v), n.round));
    assert Placed1(locked, j, i) by { CheckedPlaced(n, j, i, rd); }
    CastAt(lot, locked, j, i, Precommit, IdOf(v));
    var last := AddVote(rd, Precommit, j, IdOf(v), MARK, Active(n.roster)).0;
    assert last.proposal == v && last.timeout == t && last.height == 0 && last.round == n.round by {
      AddVoteKeeps(rd, Precommit, j, IdOf(v), Active(n.roster));
    }
    assert locked.rounds[i := last] == n.rounds[i := last];
    var m := Rule36(cr, timed, i, s, big, env);
    AfterPrecommit(cr, m, i, s, big, small, env);
  }

  lemma AddVoteKeeps(rd: RoundData, k: Kind, j: nat, id: ValueId, ms: seq<Member>)
    requires j < |rd.votes| <= |ms|
    ensures var r := AddVote(rd, k, j, id, MARK, ms).0;
      r.proposal == rd.proposal && r.timeout == rd.timeout && r.height == rd.height && r.round == rd.round
  {
  }

  lemma AfterPrecommit(cr: Crypto, m: Node, i: nat, s: Snap, big: nat, small: nat, env: Env)
    requires i < |m.rounds| && m.step == AtPrecommit && m.height == 0 == m.rounds[i].height
      && m.round == m.rounds[i].round
    requires m.rounds[i].timeout == NewTimeout(env.now, 0, m.round, AtPrevote)
    requires s.counts.nilPrevotes < big && s.counts.precommits < big && s.counts.yesPrecommits < big
    ensures Rule44(cr, m, i, s, big) == m && Rule47(m, i, s, big, env) == m && Rule49(cr, m, i, s, big, env) == m
    ensures Rule55(cr, m, i, s, small, env) == m && RuleTimeout(cr, m, i, s, env) == m
  {
    hide CastVote, StartRound;
  }

  // Deciding -------------------------------------------------------------------------------------

  /** The round as it is decided. */
  function Final1(v: Value, r: nat, votes: seq<Slots>, c: Counts, now: nat, validRound: int := -1): RoundData {
    Offered1(v, r, Pass, votes, c, NewTimeout(now, 0, r, AtPrecommit), true, validRound).(precommitTimeout := true)
  }

  lemma TallyTurn(lot: (nat, nat) -> nat, n: Node, j: nat, i: nat, v: Value, votes: seq<Slots>, c: Counts,
                  timer: Option<Timeout>, big: nat, env: Env, validRound: int := -1)
    requires Placed1(n, j, i) && n.step == AtPrecommit && n.valid == (Some(v), n.round)
    requires n.rounds[i] == Offered1(v, n.round, Pass, votes, c, timer, true, validRound)
    requires big <= c.yesPrevotes && c.nilPrevotes < big && big <= c.precommits
    ensures VoteRules(Lab(lot), n, i, Look(n, i), big, env) ==
      n.(rounds := n.rounds[i := Final1(v, n.round, votes, c, env.now, validRound)])
  {
    hide CastVote, LowerBound, Sorted, Position;
    var cr, s := Lab(lot), Look(n, i);
    assert n.rounds[i := n.rounds[i]] == n.rounds;
    assert Rule36(cr, n, i, s, big, env) == n;
    assert Rule47(n, i, s, big, env) ==
      n.(rounds := n.rounds[i := Final1(v, n.round, votes, c, env.now, validRound)]);
  }

  /** The node one height further, with an empty first round. */
  function Opened(n: Node, rd: RoundData, now: nat, roster: seq<Member>): Node {
    n.(roster := roster, height := 1, round := 0, step := AtPropose, committed := n.committed + [rd],
      locked := (None, -1), valid := (None, -1),
       rounds := n.rounds + [EmptyRound(1, 0, ActiveLen(roster)).(timeout := NewTimeout(now, 1, 0, AtPropose))])
  }

  /** The next height opens with nothing to propose. */
  lemma OpenNext(cr: Crypto, n: Node, now: nat)
    requires n.height == 1 && n.valid.0 == None && forall x :: 0 <= x < |n.rounds| ==> n.rounds[x].height == 0
    ensures StartRound(cr, n, now, 0, None) ==
            n.(round := 0, step := AtPropose,
               rounds := n.rounds + [EmptyRound(1, 0, ActiveLen(n.roster)).(
                 timeout := NewTimeout(now, 1, 0, AtPropose))])
  {
    hide ProposerKey, CastProposal;
    var i := LowerBound(n.rounds, 1, 0);
    assert i == |n.rounds|;
    var empty := EmptyRound(1, 0, ActiveLen(n.roster));
    assert EnterRound(n, 0).rounds == n.rounds + [empty];
  }

  lemma DecideTurn(cr: Crypto, n: Node, i: nat, s: Snap, v: Value, votes: seq<Slots>, c: Counts, big: nat, env: Env,
                   validRound: int := -1)
    requires i < |n.rounds| && n.height == 0 && (forall x :: 0 <= x < |n.rounds| ==> n.rounds[x].height == 0)
    requires n.rounds[i] == Final1(v, n.round, votes, c, env.now, validRound)
    requires s.decidable && big <= s.counts.yesPrecommits
      && env.offer(49, i) == None
    ensures Rule49(cr, n, i, s, big, env) == Opened(n, n.rounds[i], env.now, env.nextRoster(i))
  {
    hide StartRound;
    assert n.rounds[i := n.rounds[i]] == n.rounds;
    assert Check(n, i, env.verdict(49, i, v)) == n;
    NothingPruned(n.rounds, 1);
    OpenNext(cr, CloseHeight(n, i, env.nextRoster(i)), env.now);
  }

  /** A quorum has precommitted the value: the node decides it. */
  lemma TurnDecide(lot: (nat, nat) -> nat, n: Node, j: nat, i: nat, v: Value, votes: seq<Slots>, c: Counts,
                   timer: Option<Timeout>, big: nat, small: nat, env: Env, validRound: int := -1)
    requires Placed1(n, j, i) && n.step == AtPrecommit && n.valid == (Some(v), n.round)
      && (forall x :: 0 <= x < |n.rounds| ==> n.rounds[x].height == 0)
    requires n.rounds[i] == Offered1(v, n.round, Pass, votes, c, timer, true, validRound) && env.offer(49, i) == None
    requires big <= c.yesPrevotes && c.nilPrevotes < big && big <= c.precommits && big <= c.yesPrecommits
    ensures var rd := Final1(v, n.round, votes, c, env.now, validRound);
      Turn(Lab(lot), n, i, big, small, env) == Opened(n.(rounds := n.rounds[i := rd]), rd, env.now, env.nextRoster(i))
  {
    hide VoteRules, Rule49, Rule55, RuleTimeout, Sorted, Position;
    var cr, s, rd := Lab(lot), Look(n, i), Final1(v, n.round, votes, c, env.now, validRound);
    TallyTurn(lot, n, j, i, v, votes, c, timer, big, env, validRound);
    var tallied := n.(rounds := n.rounds[i := rd]);
    DecideTurn(cr, tallied, i, s, v, votes, c, big, env, validRound);
    ClosedIsIdle(cr, Opened(tallied, rd, env.now, env.nextRoster(i)), i, s, small, env);
  }

  // Waiting in vain ------------------------------------------------------------------------------

  /** A round without a proposal. */
  function Bare(r: nat, votes: seq<Slots>, c: Counts, timer: Option<Timeout>, prevoteTimeout: bool,
                precommitTimeout: bool): RoundData {
    EmptyRound(0, r, |votes|).(votes := votes, counts := c, timeout := timer, prevoteTimeout := prevoteTimeout,
      precommitTimeout := precommitTimeout)
  }

  /** No proposal comes: the node prevotes nil when its timer is due. */
  lemma TurnNilPrevote(lot: (nat, nat) -> nat, n: Node, j: nat, i: nat, votes: seq<Slots>, timer: Timeout, big: nat,
                       small: nat, env: Env)
    requires Placed1(n, j, i) && n.step == AtPropose && n.rounds[i] == Bare(n.round, votes, ZERO, Some(timer), false,
      false)
    requires big >= 1 && small >= 1 && timer.time <= env.now && timer.height == 0 && timer.round == n.round
      && timer.step == AtPropose
    ensures j < |votes| && Turn(Lab(lot), n, i, big, small, env) ==
            n.(votes := n.votes + [Vote(0, n.round, Prevote, NIL_ID, n.key)], step := AtPrevote,
               rounds := n.rounds[i := AddVote(n.rounds[i], Prevote, j, NIL_ID, MARK, Active(n.roster)).0])
  {
    hide CastVote, LowerBound, AddVote, Sorted, Position;
    CastAt(lot, n, j, i, Prevote, NIL_ID);
  }

  /** A quorum of nil prevotes: the node precommits nil. */
  lemma TurnNilPrecommit(lot: (nat, nat) -> nat, n: Node, j: nat, i: nat, votes: seq<Slots>, c: Counts,
                         timer: Option<Timeout>, big: nat, small: nat, env: Env)
    requires Placed1(n, j, i) && n.step == AtPrevote && n.rounds[i] == Bare(n.round, votes, c, timer, false, false)
    requires big <= c.nilPrevotes && big <= c.prevotes && c.precommits < big
    ensures var t := NewTimeout(env.now, 0, n.round, AtPrevote);
      j < |votes| && Turn(Lab(lot), n, i, big, small, env) ==
        n.(votes := n.votes + [Vote(0, n.round, Precommit, NIL_ID, n.key)], step := AtPrecommit,
           rounds := n.rounds[i := AddVote(Bare(n.round, votes, c, t, true, false), Precommit, j, NIL_ID, MARK,
             Active(n.roster)).0])
  {
    hide CastVote, LowerBound, AddVote, Sorted, Position;
    var t := NewTimeout(env.now, 0, n.round, AtPrevote);
    var rd := Bare(n.round, votes, c, t, true, false);
    var timed := n.(rounds := n.rounds[i := rd]);
    assert Rule34(n, i, Look(n, i), big, env) == timed;
    assert Placed1(timed, j, i) by { CheckedPlaced(n, j, i, rd); }
    CastAt(lot, timed, j, i, Precommit, NIL_ID);
    var last := AddVote(rd, Precommit, j, NIL_ID, MARK, Active(n.roster)).0;
    AddVoteKeeps(rd, Precommit, j, NIL_ID, Active(n.roster));
    assert timed.rounds[i := last] == n.rounds[i := last];
    assert Rule44(Lab(lot), timed, i, Look(n, i), big) ==
      timed.(votes := n.votes + [Vote(0, n.round, Precommit, NIL_ID, n.key)], step := AtPrecommit,
      rounds := n.rounds[i := last]);
  }

  /** A quorum of precommits: the node gives the round its last timer. */
  lemma TurnLastOrders(cr: Crypto, n: Node, j: nat, i: nat, votes: seq<Slots>, c: Counts, timer: Option<Timeout>,
                       big: nat, small: nat, env: Env)
    requires Placed1(n, j, i) && n.step == AtPrecommit && n.rounds[i] == Bare(n.round, votes, c, timer, true, false)
      && big <= c.precommits
    ensures Turn(cr, n, i, big, small, env) ==
            n.(rounds := n.rounds[i := Bare(n.round, votes, c, NewTimeout(env.now, 0, n.round, AtPrecommit), true,
              true)])
  {
    hide CastVote, LowerBound, Sorted, Position;
  }

  /** The last timer is due: the node enters the next round. */
  lemma TurnNextRound(cr: Crypto, n: Node, j: nat, i: nat, votes: seq<Slots>, c: Counts, timer: Timeout, big: nat,
                      small: nat, env: Env)
    requires Placed1(n, j, i) && n.step == AtPrecommit && n.rounds[i] == Bare(n.round, votes, c, Some(timer), true,
      true)
    requires timer.time <= env.now && timer.height == 0 && timer.round == n.round && timer.step == AtPrecommit
    ensures Turn(cr, n, i, big, small, env) == StartRound(cr, n, env.now, n.round + 1, env.offer(65, i))
  {
    hide CastVote, LowerBound, Sorted, Position, StartRound;
  }

  /** A round left behind without a proposal makes its turn idle. */
  lemma TurnIdle(cr: Crypto, n: Node, i: nat, votes: seq<Slots>, c: Counts, timer: Timeout, big: nat, small: nat,
                 env: Env)
    requires i < |n.rounds| && n.height == 0 && n.rounds[i].round < n.round
      && n.rounds[i] == Bare(n.rounds[i].round, votes, c, Some(timer), true, true)
    requires timer.round < n.round
    ensures Turn(cr, n, i, big, small, env) == n
  {
    hide CastVote, StartRound;
  }

  // Entering rounds ------------------------------------------------------------------------------

  /** The store holds only rounds of height 0 before `r`. */
  predicate Earlier(rs: seq<RoundData>, r: nat) {
    Sorted(rs) && forall x :: 0 <= x < |rs| ==> rs[x].height == 0 && rs[x].round < r
  }

  lemma EnterAfter(n: Node, r: nat)
    requires n.height == 0 && Earlier(n.rounds, r)
    ensures LowerBound(n.rounds, 0, r) == |n.rounds|
    ensures EnterRound(n, r) == n.(round := r, rounds := n.rounds + [EmptyRound(0, r, ActiveLen(n.roster))])
    ensures Sorted(n.rounds + [EmptyRound(0, r, ActiveLen(n.roster))])
  {
    var e := EmptyRound(0, r, ActiveLen(n.roster));
    assert LowerBound(n.rounds, 0, r) == |n.rounds|;
    InsertSorted(n.rounds, |n.rounds|, e);
    assert n.rounds[..|n.rounds|] + [e] + n.rounds[|n.rounds|..] == n.rounds + [e];
  }

  /** Without a value to propose, entering a round only starts its timer. */
  lemma StartIdle(cr: Crypto, n: Node, now: nat, r: nat)
    requires n.height == 0 && Earlier(n.rounds, r) && n.valid.0 == None
    ensures StartRound(cr, n, now, r, None) ==
            n.(round := r, step := AtPropose,
               rounds := n.rounds + [EmptyRound(0, r, ActiveLen(n.roster)).(
                 timeout := NewTimeout(now, 0, r, AtPropose))])
  {
    hide ProposerKey, CastProposal, LowerBound, EnterRound, Sorted;
    EnterAfter(n, r);
  }

  /** The round just entered, with our own proposal in it. */
  function Own1(n: Node, v: Value, timer: Option<Timeout>, validRound: int): RoundData {
    Offered1(v, n.round, Indeterminate, NoVotes(ActiveLen(n.roster)), ZERO, timer, false, validRound)
  }

  /** Storing our own chunk completes the proposal of the round just entered. */
  lemma OwnChunkAt(lot: (nat, nat) -> nat, n: Node, j: nat, i: nat, v: Value, validRound: int)
    requires Placed1(n, j, i) && n.rounds[i] == EmptyRound(0, n.round, ActiveLen(n.roster)) && Short(v)
      && -1 <= validRound < n.round < PRECOMMIT_FLAG
    ensures CastChunk(Lab(lot), n, j, Chunk1(n.key, v, n.round, validRound)) ==
            n.(chunks := n.chunks + {Chunk1(n.key, v, n.round, validRound)},
               rounds := n.rounds[i := Own1(n, v, None, validRound)])
  {
    hide AddChunk, LowerBound, ParseHeader, ChunkBytes, Sorted, Position;
    var c, cr := Chunk1(n.key, v, n.round, validRound), Lab(lot);
    var m := n.(chunks := n.chunks + {c});
    OneChunk(v, n.round, validRound);
    FirstChunk(v, n.round, n.roster[j].key == n.key, Active(n.roster), None, validRound);
    assert n.rounds[i] == EmptyRound(0, n.round, ActiveLen(n.roster)).(timeout := None);
    IncorporateAt(cr, m, ChunkPacket(c), j, i);
    assert HeaderFor(ChunkPacket(c), 1) == c.header;
  }

  lemma ProposeAt(lot: (nat, nat) -> nat, n: Node, j: nat, i: nat, v: Value, validRound: int)
    requires Placed1(n, j, i) && n.rounds[i] == EmptyRound(0, n.round, ActiveLen(n.roster)) && Short(v)
      && -1 <= validRound < n.round < PRECOMMIT_FLAG
    ensures CastProposal(Lab(lot), n, i, v, validRound) ==
            n.(chunks := n.chunks + {Chunk1(n.key, v, n.round, validRound)}, step := AtPropose,
               rounds := n.rounds[i := Own1(n, v, None, validRound)])
  {
    hide CastChunk, ChunksN, Sorted, Position;
    var cr, c := Lab(lot), Chunk1(n.key, v, n.round, validRound);
    OneChunk(v, n.round, validRound);
    OwnChunkAt(lot, n, j, i, v, validRound);
    var turn := ChunkTurn(cr, 0, n.round, j, v, validRound);
    assert OwnChunk(cr, n, 0, n.round, v, validRound, 0) == c by { assert Piece(v, 0) == v; }
    var m := CastChunk(cr, n, j, c);
    assert turn(n, 0) == m;
    assert Loop(turn, n, 0, 1) == Loop(turn, m, 1, 1) == m;
  }

  /** The proposer of a round enters it with its value: one it is offered, or the one it knows to be valid. */
  lemma StartPropose(lot: (nat, nat) -> nat, n: Node, j: nat, now: nat, r: nat, v: Value, validRound: int := -1)
    requires Seat(n) == Some(j) && n.height == 0 && Earlier(n.rounds, r) && Short(v)
      && -1 <= validRound < r < PRECOMMIT_FLAG
    requires n.valid == (if validRound == -1 then (None, -1) else (Some(v), validRound))
    requires ProposerKey(Lab(lot), n.roster, 0, r) == n.key
    ensures StartRound(Lab(lot), n, now, r, if validRound == -1 then Some(v) else None) ==
            n.(round := r, step := AtPropose, chunks := n.chunks + {Chunk1(n.key, v, r, validRound)},
               rounds := n.rounds + [Own1(n.(round := r), v, NewTimeout(now, 0, r, AtPropose), validRound)])
  {
    hide ProposerKey, CastProposal, LowerBound, EnterRound, Sorted, Position;
    var cr, i, e := Lab(lot), |n.rounds|, EnterRound(n, r);
    EnterAfter(n, r);
    assert Placed1(e, j, i) by { OneChunk(v, r, validRound); assert Seat(e) == Seat(n); }
    ProposeAt(lot, e, j, i, v, validRound);
    var rd := Own1(e, v, None, validRound);
    assert e.rounds[i := rd] == n.rounds + [rd];
    assert (n.rounds + [rd])[i := rd.(timeout := NewTimeout(now, 0, r, AtPropose))] ==
      n.rounds + [rd.(timeout := NewTimeout(now, 0, r, AtPropose))];
  }

  // Updates --------------------------------------------------------------------------------------

  /** An update over one round is one turn. */
  lemma UpdateOne(cr: Crypto, n: Node, env: Env, total: nat, m: Node)
    requires total == Total(Active(n.roster)) >= 1 && n.height == 0 && |n.rounds| == 1 && n.rounds[0].height == 0
      && n.rounds[0].round == 0
    requires m == Turn(cr, n, 0, Big(total), Small(total), env) && InRange(n) && InRange(m)
    ensures Update(cr, n, env) == m && RangeKept(TurnWith(cr, total, env), n, FirstOfHeight(n), |n.rounds|)
  {
    hide Turn;
    var turn := TurnWith(cr, total, env);
    assert FirstOfHeight(n) == 0;
    assert turn(n, 0) == m;
    assert RangeKept(turn, m, 1, 1) && Loop(turn, m, 1, 1) == m;
    assert RangeKept(turn, n, 0, 1) && Loop(turn, n, 0, 1) == m;
  }

  /** An update over two rounds of which the first is idle is the second turn. */
  lemma UpdateTwo(cr: Crypto, n: Node, env: Env, total: nat, m: Node)
    requires total == Total(Active(n.roster)) >= 1 && n.height == 0 && |n.rounds| == 2 && n.rounds[0].height == 0
      && n.rounds[0].round == 0
    requires Turn(cr, n, 0, Big(total), Small(total), env) == n && m == Turn(cr, n, 1, Big(total), Small(total), env)
      && InRange(n) && InRange(m)
    ensures Update(cr, n, env) == m && RangeKept(TurnWith(cr, total, env), n, FirstOfHeight(n), |n.rounds|)
  {
    hide Turn;
    var turn := TurnWith(cr, total, env);
    assert FirstOfHeight(n) == 0;
    assert turn(n, 0) == n && turn(n, 1) == m;
    assert RangeKept(turn, m, 2, 2) && Loop(turn, m, 2, 2) == m;
    assert RangeKept(turn, n, 1, 2) && Loop(turn, n, 1, 2) == m;
    assert RangeKept(turn, n, 0, 2) && Loop(turn, n, 0, 2) == m;
  }
}
