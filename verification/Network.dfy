/**
 * Any number of correct nodes and arbitrary faulty members, exchanging messages that may be lost,
 * delayed, repeated and reordered. Everything that is ever signed goes to one log.
 */
module Network {
  import opened Types
  import opened Roster
  import opened VoteLog
  import opened Messages
  import opened Rounds
  import opened Reassembly
  import opened Node
  import opened Reception
  import opened Invariant
  import opened Steps
  import opened Heights
  import opened Updates
  import opened Authorship

  /** The running correct nodes with the height each one started at, and everything signed so far. */
  datatype System = System(nodes: map<PubKey, Node>, starts: map<PubKey, nat>, votes: Log, chunks: set<SignedChunk>)

  datatype Event =
    | Boot(key: PubKey, roster: seq<Member>, ingest: seq<RoundData>, now: nat, offer: Option<Value>)
    | Receive(key: PubKey, packet: Packet, member: nat, sig: Sig)
    | Tick(key: PubKey, env: Env)
    | Sign(votes: Log, chunks: set<SignedChunk>)

  const EMPTY: System := System(map[], map[], [], {})

  /** A node as its operations see it. */
  function View(s: System, k: PubKey): Node
    requires k in s.nodes
  {
    s.nodes[k].(votes := s.votes, chunks := s.chunks)
  }

  function Replace(s: System, n: Node): System {
    s.(nodes := s.nodes[n.key := n], votes := n.votes, chunks := n.chunks)
  }

  /** What the receiving loop hands to `check_and_incorporate_msg`, and for which member. */
  predicate HandedOver(cr: Crypto, n: Node, p: Packet, j: nat) {
    match p.body
    case VoteBody(k, id) =>
      j < |n.roster| && var v := Vote(p.height, p.round, k, id, n.roster[j].key); Signable(v) && p == VotePacket(v)
    case ChunkBody(_, _, _) =>
      && ParseHeader(p.data).Some?
      && var h := ParseHeader(p.data).value;
         && p == Packet(h.height, h.round, ChunkBody(h.chunk, h.id, h.validRound), p.data)
         && h.chunk * CHUNK <= h.size && ProposerAt(cr, n.roster, h.height, h.round) == Some(j)
         && |p.data| == HEADER_SIZE + if h.size - h.chunk * CHUNK < CHUNK then h.size - h.chunk * CHUNK else CHUNK
    case OtherBody => false
  }

  /** Votes stay below the precommit flag, and a chunk is not empty. */
  predicate Regular(p: Packet) {
    match p.body
    case VoteBody(_, _) => p.round < PRECOMMIT_FLAG
    case ChunkBody(_, _, _) => |p.data| > HEADER_SIZE
    case OtherBody => true
  }

  /** The packets whose delivery the network models. */
  predicate WellFormed(cr: Crypto, n: Node, p: Packet, j: nat) {
    match p.body
    case VoteBody(k, id) =>
      j < |n.roster| && var v := Vote(p.height, p.round, k, id, n.roster[j].key); WfVote(v) && p == VotePacket(v)
    case ChunkBody(_, _, _) =>
      && ParseHeader(p.data).Some?
      && var h := ParseHeader(p.data).value;
         && p == Packet(h.height, h.round, ChunkBody(h.chunk, h.id, h.validRound), p.data)
         && Fits(h, p.data[HEADER_SIZE..]) && ProposerAt(cr, n.roster, h.height, h.round) == Some(j)
    case OtherBody => false
  }

  /** A signature that verifies was made by the holder of the key. */
  ghost predicate Unforged(cr: Crypto, n: Node, p: Packet, j: nat, sig: Sig) {
    j < |n.roster| && cr.verify(n.roster[j].key, p.data, sig) ==> Authentic(n.votes, n.chunks, n.roster[j].key, p.data)
  }

  ghost predicate Allowed(w: World, cr: Crypto, s: System, e: Event) {
    match e
    case Boot(k, roster, ingest, _, offer) =>
      && k !in s.nodes && k !in w.faulty && roster == w.rosterAt(|ingest|) && |ingest| < 0x1_0000_0000_0000_0000
      && (offer.Some? ==> |offer.value| < SIZE_LIMIT)
    case Receive(k, p, j, sig) =>
      k in s.nodes && WellFormed(cr, View(s, k), p, j) && Unforged(cr, View(s, k), p, j, sig)
    case Tick(k, env) =>
      k in s.nodes && var n := View(s, k);
      && EnvOk(w, env, n.height) && n.height + 1 < 0x1_0000_0000_0000_0000 && Total(Active(n.roster)) >= 1
      && RangeKept(TurnWith(cr, Total(Active(n.roster)), env), n, FirstOfHeight(n), |n.rounds|)
    case Sign(votes, chunks) =>
      && (forall v :: v in votes ==> v.key in w.faulty) && (forall c :: c in chunks ==> c.key in w.faulty)
      && SignedOk(s.votes + votes, s.chunks + chunks)
  }

  ghost function Apply(w: World, cr: Crypto, s: System, e: Event): System
    requires Allowed(w, cr, s, e)
  {
    match e
    case Boot(k, roster, ingest, now, offer) =>
      Replace(s, StartRound(cr, Newborn(k, roster, ingest, s.votes, s.chunks), now, 0,
        offer)).(starts := s.starts[k := |ingest|])
    case Receive(k, p, j, sig) => Replace(s, Incorporate(cr, View(s, k), p, j, sig).0)
    case Tick(k, env) => Replace(s, Update(cr, View(s, k), env))
    case Sign(votes, chunks) => s.(votes := s.votes + votes, chunks := s.chunks + chunks)
  }

  /** Nobody has signed with the key of a correct member that is not running. */
  ghost predicate Accounted(w: World, s: System) {
    && (forall v :: v in s.votes ==> v.key in w.faulty || v.key in s.nodes)
    && (forall c :: c in s.chunks ==> c.key in w.faulty || c.key in s.nodes)
  }

  ghost predicate Inv(w: World, cr: Crypto, s: System)
    requires Staked(w)
  {
    && LogOk(w, s.votes) && SignedOk(s.votes, s.chunks) && Accounted(w, s)
    && s.starts.Keys == s.nodes.Keys
    && (forall k :: k in s.nodes ==> s.nodes[k].key == k && Good(w, cr, View(s, k), s.starts[k]))
  }

  // What others sign does not disturb a node -----------------------------------------------------

  /** Between `n` and `m` only others have signed. */
  ghost predicate NotMine(n: Node, m: Node) {
    && m == n.(votes := m.votes, chunks := m.chunks) && n.votes <= m.votes && n.chunks <= m.chunks
    && (forall i :: |n.votes| <= i < |m.votes| ==> m.votes[i].key != n.key)
    && (forall c :: c in m.chunks && c !in n.chunks ==> c.key != n.key)
  }

  lemma {:induction false} LockOfOthers(log: Log, ext: Log, key: PubKey, h: nat)
    requires log <= ext && forall i :: |log| <= i < |ext| ==> ext[i].key != key
    ensures LockOf(ext, key, h) == LockOf(log, key, h)
    decreases |ext|
  {
    if |log| < |ext| {
      LockOfOthers(log, ext[..|ext| - 1], key, h);
    } else {
      assert log == ext;
    }
  }

  lemma OwnIsOld(n: Node, m: Node)
    requires NotMine(n, m)
    ensures forall v :: v in m.votes && v.key == n.key ==> v in n.votes
  {
    forall v | v in m.votes && v.key == n.key
      ensures v in n.votes
    {
      var i :| 0 <= i < |m.votes| && m.votes[i] == v;
      assert n.votes[i] == v;
    }
  }

  lemma OthersCommitted(w: World, cr: Crypto, n: Node, m: Node, start: nat)
    requires Staked(w) && CommittedOk(w, cr, n, start) && NotMine(n, m)
    ensures CommittedOk(w, cr, m, start)
  {
    forall h: nat | start <= h < m.height
      ensures Quorum(w, m.votes, h, m.committed[h].round, Precommit, m.committed[h].id)
    {
      QuorumGrows(w, n.votes, m.votes, h, n.committed[h].round, Precommit, n.committed[h].id);
    }
  }

  lemma OthersBase(w: World, cr: Crypto, n: Node, m: Node, start: nat)
    requires Staked(w) && Base(w, cr, n, start) && NotMine(n, m) && LogOk(w, m.votes) && SignedOk(m.votes, m.chunks)
    ensures Base(w, cr, m, start)
  {
    hide LogOk, SignedOk, StoreOk, Quorum, CommittedOk;
    assert forall v :: v in n.votes ==> v in m.votes;
    StoreGrows(cr, n, m);
    OwnIsOld(n, m);
    OthersCommitted(w, cr, n, m, start);
  }

  lemma OthersGood(w: World, cr: Crypto, n: Node, m: Node, start: nat)
    requires Staked(w) && Good(w, cr, n, start) && NotMine(n, m) && LogOk(w, m.votes) && SignedOk(m.votes, m.chunks)
    ensures Good(w, cr, m, start)
  {
    hide LogOk, SignedOk, Base;
    OthersBase(w, cr, n, m, start);
    LockOfOthers(n.votes, m.votes, n.key, n.height);
  }

  // Every step keeps the invariant ---------------------------------------------------------------

  /** The other nodes stay good when `n` replaces its old state. */
  lemma ReplaceKeeps(w: World, cr: Crypto, s: System, n: Node, starts: map<PubKey, nat>)
    requires Staked(w) && Inv(w, cr, s) && n.key !in w.faulty
    requires starts.Keys == s.nodes.Keys + {n.key} && Good(w, cr, n, starts[n.key])
    requires forall k :: k in s.nodes && k != n.key ==> starts[k] == s.starts[k]
    requires s.votes <= n.votes && s.chunks <= n.chunks
    requires forall i :: |s.votes| <= i < |n.votes| ==> n.votes[i].key == n.key
    requires forall c :: c in n.chunks && c !in s.chunks ==> c.key == n.key
    ensures Inv(w, cr, Replace(s, n).(starts := starts))
  {
    hide Good;
    var t := Replace(s, n).(starts := starts);
    assert Base(w, cr, n, starts[n.key]) by {
      assert Good(w, cr, n, starts[n.key]);
      GoodIsBase(w, cr, n, starts[n.key]);
    }
    AccountedGrows(w, s, n);
    forall k | k in t.nodes
      ensures t.nodes[k].key == k && Good(w, cr, View(t, k), t.starts[k])
    {
      if k == n.key {
        assert View(t, k) == n;
      } else {
        OthersGood(w, cr, View(s, k), View(t, k), s.starts[k]);
      }
    }
  }

  lemma GoodIsBase(w: World, cr: Crypto, n: Node, start: nat)
    requires Staked(w) && Good(w, cr, n, start)
    ensures Base(w, cr, n, start)
  {
  }

  lemma AccountedGrows(w: World, s: System, n: Node)
    requires Accounted(w, s) && s.votes <= n.votes
    requires forall i :: |s.votes| <= i < |n.votes| ==> n.votes[i].key == n.key
    requires forall c :: c in n.chunks && c !in s.chunks ==> c.key == n.key
    ensures Accounted(w, Replace(s, n))
  {
    forall v | v in n.votes
      ensures v.key in w.faulty || v.key in Replace(s, n).nodes
    {
      var i :| 0 <= i < |n.votes| && n.votes[i] == v;
      if i < |s.votes| {
        assert s.votes[i] == v;
      }
    }
  }

  lemma NewbornMayEnter(w: World, cr: Crypto, s: System, k: PubKey, ingest: seq<RoundData>)
    requires Staked(w) && Inv(w, cr, s) && k !in s.nodes && k !in w.faulty
    ensures MayEnter(w, cr, Newborn(k, w.rosterAt(|ingest|), ingest, s.votes, s.chunks), 0, |ingest|)
  {
    hide LogOk, SignedOk;
    var n := Newborn(k, w.rosterAt(|ingest|), ingest, s.votes, s.chunks);
    assert Cut(n, 0);
    LockOfOthers([], n.votes, k, n.height);
    assert LockOk(cr, n.(round := 0));
  }

  lemma BootKeeps(w: World, cr: Crypto, s: System, e: Event)
    requires WorldOk(w, cr) && Inv(w, cr, s) && e.Boot? && Allowed(w, cr, s, e)
    ensures Inv(w, cr, Apply(w, cr, s, e))
  {
    hide StartRound, Good, MayEnter, Inv;
    var n := Newborn(e.key, e.roster, e.ingest, s.votes, s.chunks);
    NewbornMayEnter(w, cr, s, e.key, e.ingest);
    StartRoundGood(w, cr, n, e.now, 0, e.offer, |e.ingest|);
    StartRoundMine(cr, n, e.now, 0, e.offer);
    assert s.starts.Keys == s.nodes.Keys by { InvParts(w, cr, s); }
    ReplaceKeeps(w, cr, s, StartRound(cr, n, e.now, 0, e.offer), s.starts[e.key := |e.ingest|]);
  }

  lemma InvParts(w: World, cr: Crypto, s: System)
    requires Staked(w) && Inv(w, cr, s)
    ensures s.starts.Keys == s.nodes.Keys
    ensures forall k :: k in s.nodes ==> View(s, k).key == k && k !in w.faulty && Good(w, cr, View(s, k), s.starts[k])
  {
    forall k | k in s.nodes
      ensures k !in w.faulty
    {
      GoodIsBase(w, cr, View(s, k), s.starts[k]);
    }
  }

  /** A packet that passes the signature check is one the member really signed. */
  lemma ReceivedIsGood(w: World, cr: Crypto, n: Node, p: Packet, j: nat, sig: Sig)
    requires WorldOk(w, cr) && SignedOk(n.votes, n.chunks) && n.roster == w.rosterAt(n.height)
    requires WellFormed(cr, n, p, j) && Unforged(cr, n, p, j, sig) && j < |n.roster|
      && cr.verify(n.roster[j].key, p.data, sig)
    ensures GoodPacket(cr, n, p, j)
  {
    match p.body
    case VoteBody(k, id) =>
      AuthenticVote(n.votes, n.chunks, Vote(p.height, p.round, k, id, n.roster[j].key));
    case ChunkBody(_, _, _) =>
      var h := ParseHeader(p.data).value;
      ParsedHeaderBytes(p.data);
      AuthenticChunk(n.votes, n.chunks, SignedChunk(n.roster[j].key, h, p.data[HEADER_SIZE..]));
  }

  /** The network models everything that is handed over, but for votes beyond the flag and empty chunks. */
  lemma WellFormedExactly(cr: Crypto, n: Node, p: Packet, j: nat)
    ensures WellFormed(cr, n, p, j) <==> HandedOver(cr, n, p, j) && Regular(p)
  {
    hide ParseHeader;
    if p.body.ChunkBody? && ParseHeader(p.data).Some? {
      var h := ParseHeader(p.data).value;
      assert |p.data| >= HEADER_SIZE by { ParsedHeaderBytes(p.data); }
      ChunksExactly(h.size, h.chunk);
    }
  }

  /** What a chunk message leads to is handed over, and crashes nobody if it is regular. */
  lemma ArrivalIsHanded(cr: Crypto, n: Node, msg: seq<byte>, at: nat)
    requires Opened(msg, at)
    ensures var a := ChunkArrival(cr, n.roster, msg, at);
      a.Handed? ==> HandedOver(cr, n, a.packet, a.member) && (Regular(a.packet) ==> !Crashes(cr, n, msg, at))
  {
    hide ParseHeader, ProposerAt, EntryFor;
    HandedExactly(cr, n.roster, msg, at);
  }

  /** A vote whose bytes the member signed is one that it cast exactly if its round is below the flag. */
  lemma GoodBelowTheFlag(cr: Crypto, n: Node, v: Vote, j: nat)
    requires SignedOk(n.votes, n.chunks) && Signable(v) && j < |n.roster| && n.roster[j].key == v.key
    requires Authentic(n.votes, n.chunks, v.key, VoteBytes(v))
    ensures GoodPacket(cr, n, VotePacket(v), j) <==> v.round < PRECOMMIT_FLAG
  {
    if WfVote(v) {
      AuthenticVote(n.votes, n.chunks, v);
    }
  }

  /** A precommit as a prevote of the round with the top bit set: the signed bytes are the same. */
  function Replay(v: Vote): Vote {
    v.(kind := Prevote, round := v.round + PRECOMMIT_FLAG)
  }

  lemma ReplayBytes(v: Vote)
    requires WfVote(v) && v.kind == Precommit
    ensures Signable(Replay(v)) && !WfVote(Replay(v)) && VoteBytes(Replay(v)) == VoteBytes(v)
  {
    assert RoundWord(Replay(v)) == RoundWord(v);
  }

  /** A verified vote for a round that is not in the store is stored there. */
  lemma NewRoundVote(cr: Crypto, n: Node, v: Vote, j: nat, sig: Sig)
    requires Sorted(n.rounds) && (exists cut :: Cut(n, cut)) && v.height == n.height
      && !Found(n.rounds, n.height, v.round)
    requires j < ActiveLen(n.roster) && n.roster[j].key == v.key && cr.verify(v.key, VoteBytes(v), sig)
    ensures var m := Incorporate(cr, n, VotePacket(v), j, sig).0;
      && m == n.(rounds := m.rounds) && Entry(m, v.round).Some?
      && var rd := Entry(m, v.round).value;
         j < |rd.votes| && rd.votes[j].Get(v.kind) == Slot(v.id, sig)
  {
    hide VoteBytes, AddVote, LowerBound, Sorted;
    var cut :| Cut(n, cut);
    WithRoundSorted(n, v.round, cut);
    var i, rs := LowerBound(n.rounds, n.height, v.round), WithRound(n, v.round);
    var ms, e := Active(n.roster), EmptyRound(n.height, v.round, ActiveLen(n.roster));
    var rd := AddVote(e, v.kind, j, v.id, sig, ms).0;
    assert rs[i] == e;
    EmptyTakesVote(e, v.kind, j, v.id, sig, ms);
    SortedPut(rs, i, rd);
    AtIsFound(rs[i := rd], i, n.height, v.round);
  }

  lemma EmptyTakesVote(e: RoundData, k: Kind, j: nat, id: ValueId, sig: Sig, ms: seq<Member>)
    requires e == EmptyRound(e.height, e.round, |ms|) && j < |ms|
    ensures var rd := AddVote(e, k, j, id, sig, ms).0;
      |rd.votes| == |ms| && rd.votes[j].Get(k) == Slot(id, sig) && rd.height == e.height && rd.round == e.round
  {
  }

  lemma SortedPut(rs: seq<RoundData>, i: nat, rd: RoundData)
    requires Sorted(rs) && i < |rs| && rd.height == rs[i].height && rd.round == rs[i].round
    ensures Sorted(rs[i := rd])
  {
  }

  /** A correct node's store holds only votes that were cast. */
  lemma StoredIsCast(w: World, cr: Crypto, n: Node, r: nat, j: nat, k: Kind, start: nat)
    requires Staked(w) && Good(w, cr, n, start) && Entry(n, r).Some? && j < |Entry(n, r).value.votes|
      && j < ActiveLen(n.roster)
    requires Entry(n, r).value.votes[j].Get(k).Cast()
    ensures Vote(n.height, r, k, Entry(n, r).value.votes[j].Get(k).id, n.roster[j].key) in n.votes
  {
    hide LogOk, SignedOk, LockOk, LowerBound;
    var rd := Entry(n, r).value;
    assert RoundSigned(cr, rd, n) && Backed(rd, Active(n.roster), n.votes);
  }

  /** Such a replay is handed over and stored in a new round, as a prevote that its member never cast. */
  lemma ReplayIsStored(w: World, cr: Crypto, n: Node, v: Vote, j: nat, sig: Sig, start: nat)
    requires WorldOk(w, cr) && Good(w, cr, n, start) && v in n.votes && v.kind == Precommit && v.height == n.height
    requires j < ActiveLen(n.roster) && n.roster[j].key == v.key && cr.verify(v.key, VoteBytes(v), sig)
    requires !Found(n.rounds, n.height, v.round + PRECOMMIT_FLAG)
    ensures var p := VotePacket(Replay(v)); var m := Incorporate(cr, n, p, j, sig).0;
      && HandedOver(cr, n, p, j) && Unforged(cr, n, p, j, sig) && Replay(v) !in n.votes
      && Entry(m, v.round + PRECOMMIT_FLAG).Some?
      && var rd := Entry(m, v.round + PRECOMMIT_FLAG).value;
      && j < |rd.votes| && rd.votes[j].prevote == Slot(v.id, sig) && !Good(w, cr, m, start)
  {
    hide Incorporate, Good, VoteBytes, Found, Entry;
    assert SignedOk(n.votes, n.chunks) && Sorted(n.rounds) && exists cut :: Cut(n, cut) by {
      GoodIsSigned(w, cr, n, start);
    }
    ReplayBytes(v);
    NewRoundVote(cr, n, Replay(v), j, sig);
    var m := Incorporate(cr, n, VotePacket(Replay(v)), j, sig).0;
    if Good(w, cr, m, start) {
      StoredIsCast(w, cr, m, v.round + PRECOMMIT_FLAG, j, Prevote, start);
    }
  }

  lemma GoodIsSigned(w: World, cr: Crypto, n: Node, start: nat)
    requires Staked(w) && Good(w, cr, n, start)
    ensures SignedOk(n.votes, n.chunks) && Sorted(n.rounds) && exists cut :: Cut(n, cut)
  {
  }

  lemma ReceiveGood(w: World, cr: Crypto, n: Node, p: Packet, j: nat, sig: Sig, start: nat)
    requires WorldOk(w, cr) && Good(w, cr, n, start)
    requires WellFormed(cr, n, p, j) && Unforged(cr, n, p, j, sig)
    ensures var m := Incorporate(cr, n, p, j, sig).0; m == n.(rounds := m.rounds) && Good(w, cr, m, start)
  {
    if j < |n.roster| && cr.verify(n.roster[j].key, p.data, sig) {
      ReceivedIsGood(w, cr, n, p, j, sig);
      IncorporatedGood(w, cr, n, p, j, sig, start);
    } else {
      RejectedIsNothing(cr, n, p, j, sig);
    }
  }

  lemma RejectedIsNothing(cr: Crypto, n: Node, p: Packet, j: nat, sig: Sig)
    requires j >= |n.roster| || !cr.verify(n.roster[j].key, p.data, sig)
    ensures Incorporate(cr, n, p, j, sig) == (n, Fail)
  {
  }

  lemma IncorporatedGood(w: World, cr: Crypto, n: Node, p: Packet, j: nat, sig: Sig, start: nat)
    requires WorldOk(w, cr) && Good(w, cr, n, start) && j < |n.roster| && GoodPacket(cr, n, p, j)
    ensures var m := Incorporate(cr, n, p, j, sig).0; m == n.(rounds := m.rounds) && Good(w, cr, m, start)
  {
    hide Incorporate, LogOk, SignedOk, LockOk, GoodPacket, Entry;
    IncorporateOk(w, cr, n, p, j, sig);
    StoreChanged(w, cr, n, Incorporate(cr, n, p, j, sig).0, start);
  }

  lemma ReceiveKeeps(w: World, cr: Crypto, s: System, e: Event)
    requires WorldOk(w, cr) && Inv(w, cr, s) && e.Receive? && Allowed(w, cr, s, e)
    ensures Inv(w, cr, Apply(w, cr, s, e))
  {
    hide Incorporate, Good, Inv, WellFormed, Unforged;
    InvParts(w, cr, s);
    var n := View(s, e.key);
    ReceiveGood(w, cr, n, e.packet, e.member, e.sig, s.starts[e.key]);
    assert s.starts.Keys == s.nodes.Keys + {e.key};
    ReplaceKeeps(w, cr, s, Incorporate(cr, n, e.packet, e.member, e.sig).0, s.starts);
  }

  lemma TickKeeps(w: World, cr: Crypto, s: System, e: Event)
    requires WorldOk(w, cr) && Inv(w, cr, s) && e.Tick? && Allowed(w, cr, s, e)
    ensures Inv(w, cr, Apply(w, cr, s, e))
    ensures Progress(View(s, e.key), Update(cr, View(s, e.key), e.env))
  {
    hide Update, Good, Inv, EnvOk, RangeKept;
    InvParts(w, cr, s);
    var n := View(s, e.key);
    UpdateGood(w, cr, n, e.env, s.starts[e.key]);
    UpdateMine(cr, n, e.env);
    assert s.starts.Keys == s.nodes.Keys + {e.key};
    ReplaceKeeps(w, cr, s, Update(cr, n, e.env), s.starts);
  }

  lemma {:induction false} LogOkFaulty(w: World, log: Log, votes: Log)
    requires Staked(w) && LogOk(w, log) && forall v :: v in votes ==> v.key in w.faulty
    ensures LogOk(w, log + votes)
  {
    var all := log + votes;
    forall k | 0 <= k < |all| && all[k].key !in w.faulty
      ensures CastOk(w, all[..k], all[k])
    {
      assert k < |log| && all[..k] == log[..k];
    }
  }

  lemma SignKeeps(w: World, cr: Crypto, s: System, e: Event)
    requires WorldOk(w, cr) && Inv(w, cr, s) && e.Sign? && Allowed(w, cr, s, e)
    ensures Inv(w, cr, Apply(w, cr, s, e))
  {
    hide LogOk, SignedOk, Good;
    var t := Apply(w, cr, s, e);
    LogOkFaulty(w, s.votes, e.votes);
    InvParts(w, cr, s);
    forall k | k in t.nodes
      ensures Good(w, cr, View(t, k), t.starts[k])
    {
      OthersGood(w, cr, View(s, k), View(t, k), s.starts[k]);
    }
  }

  /** Height, round and step compared lexicographically. */
  predicate NotBefore(n: Node, m: Node) {
    || n.height < m.height
    || (n.height == m.height && (n.round < m.round || (n.round == m.round && Rank(n.step) <= Rank(m.step))))
  }

  /** What only ever grows: the log, the set of nodes, and each node's place and chain of decisions. */
  ghost predicate Extends(s: System, t: System) {
    && s.votes <= t.votes
    && (forall k :: k in s.nodes ==>
          k in t.nodes && s.nodes[k].committed <= t.nodes[k].committed && NotBefore(s.nodes[k], t.nodes[k]))
    && (forall k :: k in s.starts ==> k in t.starts && t.starts[k] == s.starts[k])
  }

  lemma ReplaceExtends(s: System, n: Node, starts: map<PubKey, nat>)
    requires s.votes <= n.votes && forall k :: k in s.starts ==> k in starts && starts[k] == s.starts[k]
    requires n.key in s.nodes ==> s.nodes[n.key].committed <= n.committed && NotBefore(s.nodes[n.key], n)
    ensures Extends(s, Replace(s, n).(starts := starts))
  {
  }

  lemma StepExtends(w: World, cr: Crypto, s: System, e: Event)
    requires WorldOk(w, cr) && Inv(w, cr, s) && Allowed(w, cr, s, e)
    ensures Extends(s, Apply(w, cr, s, e))
  {
    hide StartRound, Update, Incorporate, Inv, Good, Extends, WellFormed, RangeKept;
    InvParts(w, cr, s);
    match e
    case Boot(_, _, _, _, _) =>
      var n := Newborn(e.key, e.roster, e.ingest, s.votes, s.chunks);
      StartRoundMine(cr, n, e.now, 0, e.offer);
      ReplaceExtends(s, StartRound(cr, n, e.now, 0, e.offer), s.starts[e.key := |e.ingest|]);
    case Receive(_, _, _, _) =>
      ReceiveGood(w, cr, View(s, e.key), e.packet, e.member, e.sig, s.starts[e.key]);
      ReplaceExtends(s, Incorporate(cr, View(s, e.key), e.packet, e.member, e.sig).0, s.starts);
    case Tick(_, _) =>
      TickKeeps(w, cr, s, e);
      ReplaceExtends(s, Update(cr, View(s, e.key), e.env), s.starts);
    case Sign(_, _) =>
      assert Extends(s, Apply(w, cr, s, e)) by { SignExtends(s, e.votes, e.chunks); }
  }

  lemma SignExtends(s: System, votes: Log, chunks: set<SignedChunk>)
    ensures Extends(s, s.(votes := s.votes + votes, chunks := s.chunks + chunks))
  {
  }

  lemma StepKeeps(w: World, cr: Crypto, s: System, e: Event)
    requires WorldOk(w, cr) && Inv(w, cr, s) && Allowed(w, cr, s, e)
    ensures Inv(w, cr, Apply(w, cr, s, e)) && Extends(s, Apply(w, cr, s, e))
  {
    hide Apply, Allowed, Inv, Extends;
    StepExtends(w, cr, s, e);
    match e
    case Boot(_, _, _, _, _) => BootKeeps(w, cr, s, e);
    case Receive(_, _, _, _) => ReceiveKeeps(w, cr, s, e);
    case Tick(_, _) => TickKeeps(w, cr, s, e);
    case Sign(_, _) => SignKeeps(w, cr, s, e);
  }

  // Whole runs -----------------------------------------------------------------------------------

  /** The states that the events lead through from the empty system. */
  ghost predicate Run(w: World, cr: Crypto, states: seq<System>, events: seq<Event>) {
    && |states| == |events| + 1 && states[0] == EMPTY
    && (forall i :: 0 <= i < |events| ==>
      Allowed(w, cr, states[i], events[i]) && states[i + 1] == Apply(w, cr, states[i], events[i]))
  }

  /** Some run ends here. */
  ghost predicate Reachable(w: World, cr: Crypto, s: System) {
    exists states, events :: Run(w, cr, states, events) && states[|states| - 1] == s
  }

  lemma ReachStep(w: World, cr: Crypto, s: System, e: Event)
    requires Reachable(w, cr, s) && Allowed(w, cr, s, e)
    ensures Reachable(w, cr, Apply(w, cr, s, e))
  {
    hide Apply, Allowed;
    var states, events :| Run(w, cr, states, events) && states[|states| - 1] == s;
    var t := Apply(w, cr, s, e);
    assert Run(w, cr, states + [t], events + [e]) && (states + [t])[|states|] == t;
  }

  /** Whoever is faulty may sign at any time. */
  lemma ReachSign(w: World, cr: Crypto, s: System, votes: Log, chunks: set<SignedChunk>)
    requires Reachable(w, cr, s) && SignedOk(s.votes + votes, s.chunks + chunks)
    requires (forall v :: v in votes ==> v.key in w.faulty) && (forall c :: c in chunks ==> c.key in w.faulty)
    ensures Reachable(w, cr, s.(votes := s.votes + votes, chunks := s.chunks + chunks))
  {
    hide Reachable, SignedOk;
    ReachStep(w, cr, s, Sign(votes, chunks));
  }

  lemma EmptyInv(w: World, cr: Crypto)
    requires Staked(w)
    ensures Inv(w, cr, EMPTY)
  {
  }

  lemma {:induction false} RunInv(w: World, cr: Crypto, states: seq<System>, events: seq<Event>, i: nat)
    requires WorldOk(w, cr) && Run(w, cr, states, events) && i < |states|
    ensures Inv(w, cr, states[i])
  {
    hide Inv, Apply, Allowed;
    if i == 0 {
      EmptyInv(w, cr);
    } else {
      RunInv(w, cr, states, events, i - 1);
      StepKeeps(w, cr, states[i - 1], events[i - 1]);
    }
  }

  /** Nothing signed and nothing decided is ever taken back. */
  lemma {:induction false} RunExtends(w: World, cr: Crypto, states: seq<System>, events: seq<Event>, i: nat, j: nat)
    requires WorldOk(w, cr) && Run(w, cr, states, events) && i <= j < |states|
    ensures Extends(states[i], states[j])
    decreases j
  {
    hide Inv, Apply, Allowed;
    if i < j {
      RunExtends(w, cr, states, events, i, j - 1);
      RunInv(w, cr, states, events, j - 1);
      StepKeeps(w, cr, states[j - 1], events[j - 1]);
    }
  }

  /** Over every run a node's height, round and step never go back. */
  lemma NeverGoesBack(w: World, cr: Crypto, states: seq<System>, events: seq<Event>, i: nat, j: nat, k: PubKey)
    requires WorldOk(w, cr) && Run(w, cr, states, events) && i <= j < |states| && k in states[i].nodes
    ensures k in states[j].nodes && NotBefore(states[i].nodes[k], states[j].nodes[k])
  {
    hide Run, WorldOk;
    RunExtends(w, cr, states, events, i, j);
  }

  /** What holds of a node's fields whatever the others do. */
  ghost predicate Orderly(n: Node) {
    && Sorted(n.rounds) && Found(n.rounds, n.height, 0) && Found(n.rounds, n.height, n.round)
    && (forall x, y :: 0 <= x <= y < |n.rounds| && n.rounds[x].height == n.height ==> n.rounds[y].height == n.height)
    && (forall x :: 0 <= x < |n.rounds| && n.rounds[x].height == n.height ==>
          |n.rounds[x].votes| == ActiveLen(n.roster) && Counted(n.rounds[x], Active(n.roster))
            && Homogeneous(n.rounds[x]))
    && -1 <= n.locked.1 <= n.valid.1 <= n.round && (n.locked.1 == n.valid.1 ==> n.locked.0 == n.valid.0)
    && |n.committed| == n.height
  }

  lemma GoodIsOrderly(w: World, cr: Crypto, n: Node, start: nat)
    requires Staked(w) && Good(w, cr, n, start)
    ensures Orderly(n)
  {
    hide LogOk, SignedOk, OwnVotes, OwnChunks, RoundSigned, Assembled, Vetted;
    var cut :| Cut(n, cut);
  }

  /**
   * Over every run each node's store is sorted, complete and counted, and its lock is no later than
   * its valid value.
   */
  lemma EveryNodeIsOrderly(w: World, cr: Crypto, states: seq<System>, events: seq<Event>, i: nat, k: PubKey)
    requires WorldOk(w, cr) && Run(w, cr, states, events) && i < |states| && k in states[i].nodes
    ensures Orderly(states[i].nodes[k])
  {
    hide Run, Good, Inv, Orderly, LogOk;
    RunInv(w, cr, states, events, i);
    InvParts(w, cr, states[i]);
    GoodIsOrderly(w, cr, View(states[i], k), states[i].starts[k]);
    assert Orderly(states[i].nodes[k]) by { OrderlyFrame(View(states[i], k), states[i].nodes[k]); }
  }

  lemma OrderlyFrame(n: Node, m: Node)
    requires Orderly(n) && m == n.(votes := m.votes, chunks := m.chunks)
    ensures Orderly(m)
  {
  }

  /** A node's decision for a height it has closed since it started. */
  predicate Decided(s: System, k: PubKey, h: nat) {
    k in s.nodes && k in s.starts && s.starts[k] <= h < |s.nodes[k].committed|
  }

  function Decision(s: System, k: PubKey, h: nat): RoundData
    requires Decided(s, k, h)
  {
    s.nodes[k].committed[h]
  }

  lemma DecisionHasQuorum(w: World, cr: Crypto, s: System, k: PubKey, h: nat)
    requires Staked(w) && Inv(w, cr, s) && Decided(s, k, h)
    ensures var rd := Decision(s, k, h);
      rd.id != NIL_ID && rd.id == cr.idOf(rd.proposal) && Quorum(w, s.votes, h, rd.round, Precommit, rd.id)
  {
    hide LogOk, SignedOk, StoreOk, Quorum;
    assert CommittedOk(w, cr, View(s, k), s.starts[k]);
  }

  /**
   * Agreement: over every run, whatever correct nodes decide for a height, at whatever times, is the
   * same value, as long as the faulty stake stays below the quorum overlap.
   */
  lemma Agreement(w: World, cr: Crypto, states: seq<System>, events: seq<Event>, i: nat, a: PubKey, j: nat, b: PubKey,
                  h: nat)
    requires WorldOk(w, cr) && FaultsBounded(w) && Run(w, cr, states, events)
    requires i <= j < |states| && Decided(states[i], a, h) && Decided(states[j], b, h)
    ensures var u, v := Decision(states[i], a, h).proposal, Decision(states[j], b, h).proposal;
      cr.idOf(u) == cr.idOf(v) && (u == v || Collide(cr, u, v))
  {
    hide Inv, Run, Quorum, LogOk, WorldOk;
    RunInv(w, cr, states, events, i);
    RunInv(w, cr, states, events, j);
    RunExtends(w, cr, states, events, i, j);
    DecisionHasQuorum(w, cr, states[i], a, h);
    DecisionHasQuorum(w, cr, states[j], b, h);
    var x, y := Decision(states[i], a, h), Decision(states[j], b, h);
    QuorumGrows(w, states[i].votes, states[j].votes, h, x.round, Precommit, x.id);
    assert LogOk(w, states[j].votes) by { InvLog(w, cr, states[j]); }
    LogAgreement(w, states[j].votes, h, x.round, x.id, y.round, y.id);
  }

  lemma InvLog(w: World, cr: Crypto, s: System)
    requires Staked(w) && Inv(w, cr, s)
    ensures LogOk(w, s.votes)
  {
  }

  /** Two values that the hash cannot tell apart. */
  predicate Collide(cr: Crypto, u: Value, v: Value) {
    u != v && cr.idOf(u) == cr.idOf(v)
  }

  /** Over every run a correct member signs at most one vote per height, round and kind. */
  lemma NeverVotesTwice(w: World, cr: Crypto, states: seq<System>, events: seq<Event>, i: nat, u: Vote, v: Vote)
    requires WorldOk(w, cr) && Run(w, cr, states, events) && i < |states|
    requires u in states[i].votes && v in states[i].votes && u.key == v.key && u.key !in w.faulty
    requires u.height == v.height && u.round == v.round && u.kind == v.kind
    ensures u == v
  {
    hide Inv, Run, LogOk;
    RunInv(w, cr, states, events, i);
    InvLog(w, cr, states[i]);
    NoDoubleVote(w, states[i].votes, u, v);
  }

  /** Over every run, once a value has a precommit quorum no other value gets a prevote quorum in a later round. */
  lemma LockIsFinal(w: World, cr: Crypto, states: seq<System>, events: seq<Event>, i: nat, h: nat, r1: nat,
                    id1: ValueId, r2: nat, id2: ValueId)
    requires WorldOk(w, cr) && FaultsBounded(w) && Run(w, cr, states, events) && i < |states|
    requires id1 != NIL_ID && id2 != NIL_ID && r1 <= r2
    requires Quorum(w, states[i].votes, h, r1, Precommit, id1) && Quorum(w, states[i].votes, h, r2, Prevote, id2)
    ensures id1 == id2
  {
    hide Inv, Run, LogOk, Quorum;
    RunInv(w, cr, states, events, i);
    InvLog(w, cr, states[i]);
    LockPreservation(w, states[i].votes, h, r1, id1, r2, id2);
  }
}
