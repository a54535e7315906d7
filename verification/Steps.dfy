/** Every rule of `bft_update` keeps the invariant of a correct node. */
module Steps {
  import opened Types
  import opened Roster
  import opened VoteLog
  import opened Messages
  import opened Rounds
  import opened Node
  import opened Invariant

  /** The integer widths that the signed bytes leave for heights and rounds. */
  predicate InRange(n: Node) {
    n.height < 0x1_0000_0000_0000_0000 && n.round < PRECOMMIT_FLAG
  }

  predicate SameData(a: RoundData, b: RoundData) {
    b == a.(checked := b.checked, votes := b.votes, counts := b.counts, timeout := b.timeout,
            prevoteTimeout := b.prevoteTimeout, precommitTimeout := b.precommitTimeout)
  }

  /** The effect of a rule that stays in the current round: votes are added and nothing is lost. */
  ghost predicate Advance(w: World, cr: Crypto, n: Node, m: Node, i: nat, start: nat)
    requires Staked(w)
  {
    && Good(w, cr, m, start)
    && m == n.(step := m.step, valid := m.valid, locked := m.locked, rounds := m.rounds, votes := m.votes)
    && n.votes <= m.votes && |m.rounds| == |n.rounds|
    && i < |n.rounds| && SameData(n.rounds[i], m.rounds[i])
    && (forall cut :: Cut(n, cut) ==> Cut(m, cut))
    && Rank(n.step) <= Rank(m.step) && n.locked.1 <= m.locked.1 && n.valid.1 <= m.valid.1
  }

  /** Nothing is cast, locked or entered. */
  predicate Quiet(n: Node, m: Node) {
    m == n.(rounds := m.rounds)
  }

  function Rank(s: Step): nat {
    match s case AtPropose => 0 case AtPrevote => 1 case AtPrecommit => 2
  }

  /** Entry `i` is the node's current round. */
  predicate Current(n: Node, i: nat) {
    IsAt(n.rounds, i, n.height, n.round)
  }

  lemma AdvanceTwice(w: World, cr: Crypto, n: Node, m: Node, k: Node, i: nat, start: nat)
    requires Staked(w) && Advance(w, cr, n, m, i, start) && Advance(w, cr, m, k, i, start)
    ensures Advance(w, cr, n, k, i, start)
  {
  }

  // Local changes to one entry -------------------------------------------------------------------

  lemma PutGood(w: World, cr: Crypto, n: Node, i: nat, rd: RoundData, start: nat)
    requires Staked(w) && Good(w, cr, n, start) && i < |n.rounds|
    requires SameData(n.rounds[i], rd) && EntryKept(n.rounds[i], rd) && Timed(rd)
    requires rd.height == n.height ==> RoundOk(cr, rd, n.roster) && RoundSigned(cr, rd, n)
    ensures Advance(w, cr, n, Put(n, i, rd), i, start)
  {
    PutOk(cr, n, i, rd);
    forall x: nat | Entry(n, x).Some?
      ensures Entry(Put(n, i, rd), x).Some? && EntryKept(Entry(n, x).value, Entry(Put(n, i, rd), x).value)
    {
      EntryPut(n, i, rd, x);
      if IsAt(n.rounds, i, n.height, x) {
        AtIsFound(n.rounds, i, n.height, x);
      }
    }
    StoreChanged(w, cr, n, Put(n, i, rd), start);
  }

  /** Only the round data changed, and no verdict was lost. */
  lemma StoreChanged(w: World, cr: Crypto, n: Node, m: Node, start: nat)
    requires Staked(w) && Good(w, cr, n, start) && m == n.(rounds := m.rounds) && StoreOk(cr, m)
    requires forall x: nat :: Entry(n, x).Some? ==> Entry(m, x).Some? && EntryKept(Entry(n, x).value, Entry(m, x).value)
    ensures Good(w, cr, m, start)
  {
    BaseChanged(w, cr, n, m, start);
    LockKept(cr, n, m);
  }

  lemma BaseChanged(w: World, cr: Crypto, n: Node, m: Node, start: nat)
    requires Staked(w) && Base(w, cr, n, start) && StoreOk(cr, m)
    requires m == n.(rounds := m.rounds, locked := m.locked, valid := m.valid)
    ensures Base(w, cr, m, start)
  {
  }

  lemma LockKept(cr: Crypto, n: Node, m: Node)
    requires LockOk(cr, n) && Placed(n)
    requires m == n.(rounds := m.rounds, step := m.step, votes := m.votes, chunks := m.chunks)
    requires LockOf(m.votes, n.key, n.height) == LockOf(n.votes, n.key, n.height)
    requires forall x: nat :: Entry(n, x).Some? ==> Entry(m, x).Some? && EntryKept(Entry(n, x).value, Entry(m, x).value)
    ensures LockOk(cr, m) && Placed(m)
  {
  }

  lemma CheckGood(w: World, cr: Crypto, n: Node, i: nat, verdict: Status, start: nat)
    requires Staked(w) && Good(w, cr, n, start) && i < |n.rounds|
    ensures Advance(w, cr, n, Check(n, i, verdict), i, start)
  {
    var a, b := n.rounds[i], Validate(n.rounds[i], verdict);
    if a.height == n.height {
      assert RoundSigned(cr, a, n);
      OfferedSame(cr, a, b, ProposerKey(cr, n.roster, a.height, a.round), n.chunks);
    }
    PutGood(w, cr, n, i, b, start);
  }

  lemma TimeoutGood(w: World, cr: Crypto, n: Node, i: nat, rd: RoundData, now: nat, step: Step, start: nat)
    requires Staked(w) && Good(w, cr, n, start) && Current(n, i)
    requires rd == n.rounds[i].(prevoteTimeout := rd.prevoteTimeout, precommitTimeout := rd.precommitTimeout)
    ensures Advance(w, cr, n, SetTimeout(Put(n, i, rd), i, now, step), i, start)
  {
    hide Good, RoundOk, RoundSigned, Advance;
    var b := rd.(timeout := NewTimeout(now, n.height, n.round, step));
    CurrentOk(w, cr, n, i, start);
    TimerOnly(cr, n, n.rounds[i], b);
    PutGood(w, cr, n, i, b, start);
    assert SetTimeout(Put(n, i, rd), i, now, step).rounds == n.rounds[i := b];
    assert SetTimeout(Put(n, i, rd), i, now, step) == Put(n, i, b);
  }

  /** The current round is in order. */
  lemma CurrentOk(w: World, cr: Crypto, n: Node, i: nat, start: nat)
    requires Staked(w) && Good(w, cr, n, start) && Current(n, i)
    ensures Sorted(n.rounds) && RoundOk(cr, n.rounds[i], n.roster) && RoundSigned(cr, n.rounds[i], n)
  {
    hide LogOk, SignedOk, CommittedOk, RoundOk, RoundSigned;
  }

  lemma TimerOnly(cr: Crypto, n: Node, a: RoundData, b: RoundData)
    requires RoundOk(cr, a, n.roster) && RoundSigned(cr, a, n)
    requires b == a.(timeout := b.timeout, prevoteTimeout := b.prevoteTimeout, precommitTimeout := b.precommitTimeout)
    ensures RoundOk(cr, b, n.roster) && RoundSigned(cr, b, n)
  {
    OfferedSame(cr, a, b, ProposerKey(cr, n.roster, a.height, a.round), n.chunks);
  }

  // Casting a vote -------------------------------------------------------------------------------

  function OwnVote(n: Node, k: Kind, id: ValueId): Vote {
    Vote(n.height, n.round, k, id, n.key)
  }

  lemma CastVoteForm(cr: Crypto, n: Node, i: nat, k: Kind, id: ValueId)
    requires Sorted(n.rounds) && Current(n, i) && Seat(n).Some? && Shaped(n.rounds[i], ActiveLen(n.roster))
    ensures var m := CastVote(cr, n, i, k, id);
      && m == n.(votes := n.votes + [OwnVote(n, k, id)], rounds := m.rounds, step := StepOf(k))
      && |m.rounds| == |n.rounds|
      && (forall x :: 0 <= x < |n.rounds| && x != i ==> m.rounds[x] == n.rounds[x])
      && SameData(n.rounds[i], m.rounds[i]) && m.rounds[i].checked == n.rounds[i].checked
  {
    AtIsFound(n.rounds, i, n.height, n.round);
  }

  lemma SignedVoteOk(w: World, cr: Crypto, votes: Log, chunks: set<SignedChunk>, v: Vote)
    requires WorldOk(w, cr) && SignedOk(votes, chunks) && WfVote(v) && v.key !in w.faulty
    ensures SignedOk(votes + [v], chunks)
  {
    forall c: SignedChunk | WfChunk(c) && v.key == c.key
      ensures VoteBytes(v) != ChunkBytes(c.header, c.data)
    {
      ChunkIsNoVote(c.header, c.data, v, CHUNK);
    }
  }

  lemma CommittedGrows(w: World, cr: Crypto, n: Node, m: Node, start: nat)
    requires Staked(w) && CommittedOk(w, cr, n, start)
    requires n.votes <= m.votes && m.committed == n.committed && m.height == n.height
    ensures CommittedOk(w, cr, m, start)
  {
    forall h: nat | start <= h < n.height
      ensures Quorum(w, m.votes, h, n.committed[h].round, Precommit, n.committed[h].id)
    {
      QuorumGrows(w, n.votes, m.votes, h, n.committed[h].round, Precommit, n.committed[h].id);
    }
  }

  /** Casting an allowed vote in the current round keeps everything but the lock, which the caller settles. */
  lemma CastVoteBase(w: World, cr: Crypto, n: Node, i: nat, k: Kind, id: ValueId, start: nat)
    requires WorldOk(w, cr) && Base(w, cr, n, start) && InRange(n) && Current(n, i) && Seat(n).Some?
    requires k == Prevote ==> n.step == AtPropose
    requires CastOk(w, n.votes, OwnVote(n, k, id))
    ensures var m := CastVote(cr, n, i, k, id);
      && Base(w, cr, m, start) && (forall cut :: Cut(n, cut) ==> Cut(m, cut))
      && (forall x: nat :: Entry(n, x).Some? ==> Entry(m, x).Some? && EntryKept(Entry(n, x).value, Entry(m, x).value))
  {
    hide StoreOk, LogOk, SignedOk, CommittedOk, CastOk, CastVote, Entry;
    var v, m := OwnVote(n, k, id), CastVote(cr, n, i, k, id);
    assert Sorted(n.rounds) && Shaped(n.rounds[i], ActiveLen(n.roster)) by { StoreShaped(cr, n, i); }
    CastVoteForm(cr, n, i, k, id);
    CastVoteStore(w, cr, n, i, k, id);
    LogOkAppend(w, n.votes, v);
    SignedVoteOk(w, cr, n.votes, n.chunks, v);
    CommittedGrows(w, cr, n, m, start);
  }

  lemma StoreShaped(cr: Crypto, n: Node, i: nat)
    requires StoreOk(cr, n) && Current(n, i)
    ensures Sorted(n.rounds) && Shaped(n.rounds[i], ActiveLen(n.roster))
  {
    assert RoundOk(cr, n.rounds[i], n.roster);
  }

  /** A vote of our own keeps the store in order. */
  lemma CastVoteStore(w: World, cr: Crypto, n: Node, i: nat, k: Kind, id: ValueId)
    requires WorldOk(w, cr) && StoreOk(cr, n) && Current(n, i) && Seat(n).Some? && OwnChunks(n) && n.key !in w.faulty
    ensures var m := CastVote(cr, n, i, k, id);
      && StoreOk(cr, m) && (forall cut :: Cut(n, cut) ==> Cut(m, cut))
      && (forall x: nat :: Entry(n, x).Some? ==> Entry(m, x).Some? && EntryKept(Entry(n, x).value, Entry(m, x).value))
  {
    hide RoundSigned, RoundOk, LowerBound, Incorporate, VoteBytes;
    var v, j := OwnVote(n, k, id), Seat(n).value;
    var a := n.(votes := n.votes + [v]);
    StoreGrows(cr, n, a);
    var b := Incorporate(cr, a, VotePacket(v), j, cr.sign(n.key, VoteBytes(v))).0;
    IncorporateOk(w, cr, a, VotePacket(v), j, cr.sign(n.key, VoteBytes(v)));
    var m := b.(step := StepOf(k));
    assert m == CastVote(cr, n, i, k, id);
    StepIrrelevant(cr, b, m);
    forall cut | Cut(n, cut)
      ensures Cut(m, cut)
    {
      assert Cut(a, cut);
    }
    forall x: nat | Entry(n, x).Some?
      ensures Entry(m, x).Some? && EntryKept(Entry(n, x).value, Entry(m, x).value)
    {
      assert Entry(a, x) == Entry(n, x) && Entry(m, x) == Entry(b, x);
    }
  }

  lemma StepIrrelevant(cr: Crypto, n: Node, m: Node)
    requires StoreOk(cr, n)
    requires m == n.(step := m.step, valid := m.valid, locked := m.locked, round := m.round)
    ensures StoreOk(cr, m)
  {
    var cut :| Cut(n, cut);
    assert Cut(m, cut);
    forall i | 0 <= i < |m.rounds| && m.rounds[i].height == m.height
      ensures RoundSigned(cr, m.rounds[i], m)
    {
      assert RoundSigned(cr, m.rounds[i], n);
    }
  }

  lemma LockAfter(log: Log, v: Vote, key: PubKey, h: nat)
    ensures LockOf(log + [v], key, h) == if IsLock(v, key, h) then Some(v) else LockOf(log, key, h)
  {
    assert (log + [v])[..|log|] == log;
  }

  /** A vote that is not a lock, cast in the current round. */
  lemma PlainVoteGood(w: World, cr: Crypto, n: Node, i: nat, k: Kind, id: ValueId, start: nat)
    requires WorldOk(w, cr) && Good(w, cr, n, start) && InRange(n) && Current(n, i) && Seat(n).Some?
    requires n.step == if k == Prevote then AtPropose else AtPrevote
    requires k == Precommit ==> id == NIL_ID
    requires k == Prevote && id != NIL_ID ==>
      var l := LockOf(n.votes, n.key, n.height);
      l == None || l.value.id == id || Quorum(w, n.votes, n.height, n.round, Prevote, id)
    ensures Advance(w, cr, n, CastVote(cr, n, i, k, id), i, start)
  {
    hide StoreOk, OwnVotes, OwnChunks, CommittedOk, LogOk, SignedOk, CastVote, CastOk;
    CurrentOk(w, cr, n, i, start);
    PlainVoteAllowed(w, cr, n, k, id, start);
    CastVoteForm(cr, n, i, k, id);
    CastVoteBase(w, cr, n, i, k, id, start);
    LockAfter(n.votes, OwnVote(n, k, id), n.key, n.height);
    LockKept(cr, n, CastVote(cr, n, i, k, id));
  }

  lemma PlainVoteAllowed(w: World, cr: Crypto, n: Node, k: Kind, id: ValueId, start: nat)
    requires WorldOk(w, cr) && Good(w, cr, n, start)
    requires n.step == if k == Prevote then AtPropose else AtPrevote
    requires k == Precommit ==> id == NIL_ID
    requires k == Prevote && id != NIL_ID ==>
      var l := LockOf(n.votes, n.key, n.height);
      l == None || l.value.id == id || Quorum(w, n.votes, n.height, n.round, Prevote, id)
    ensures CastOk(w, n.votes, OwnVote(n, k, id))
  {
  }

  // The rules ------------------------------------------------------------------------------------

  lemma Rule34Good(w: World, cr: Crypto, n: Node, i: nat, s: Snap, big: nat, env: Env, start: nat)
    requires Staked(w) && Good(w, cr, n, start) && i < |n.rounds| && (s.current ==> Current(n, i))
    ensures var m := Rule34(n, i, s, big, env); Advance(w, cr, n, m, i, start) && Quiet(n, m)
  {
    if s.current {
      TimeoutGood(w, cr, n, i, n.rounds[i].(prevoteTimeout := true), env.now, AtPrevote, start);
    }
  }

  lemma Rule47Good(w: World, cr: Crypto, n: Node, i: nat, s: Snap, big: nat, env: Env, start: nat)
    requires Staked(w) && Good(w, cr, n, start) && i < |n.rounds| && (s.current ==> Current(n, i))
    ensures var m := Rule47(n, i, s, big, env); Advance(w, cr, n, m, i, start) && Quiet(n, m)
  {
    if s.current {
      TimeoutGood(w, cr, n, i, n.rounds[i].(precommitTimeout := true), env.now, AtPrecommit, start);
    }
  }

  lemma Rule44Good(w: World, cr: Crypto, n: Node, i: nat, s: Snap, big: nat, start: nat)
    requires WorldOk(w, cr) && Good(w, cr, n, start) && InRange(n) && i < |n.rounds| && (s.current ==> Current(n, i))
    requires s.onRoster ==> Seat(n).Some?
    ensures Advance(w, cr, n, Rule44(cr, n, i, s, big), i, start)
  {
    hide Good, CastVote, Check;
    if Rule44(cr, n, i, s, big) != n {
      PlainVoteGood(w, cr, n, i, Precommit, NIL_ID, start);
    }
  }

  /** A proposal found valid hashes to the round's id, so being locked on it is being locked on the id. */
  lemma ValidIsHashed(w: World, cr: Crypto, n: Node, i: nat, start: nat)
    requires Staked(w) && Good(w, cr, n, start) && Current(n, i) && n.rounds[i].checked == Pass
    ensures n.rounds[i].id == cr.idOf(n.rounds[i].proposal) && n.rounds[i].sigsN > 0
    ensures n.locked.0 == Some(n.rounds[i].proposal) ==> LockOf(n.votes, n.key, n.height).Some?
    ensures n.locked.0 == Some(n.rounds[i].proposal) ==> LockOf(n.votes, n.key, n.height).value.id == n.rounds[i].id
    ensures n.locked.1 == -1 ==> LockOf(n.votes, n.key, n.height) == None
  {
  }

  lemma PrevoteOnGood(w: World, cr: Crypto, n: Node, i: nat, ok: bool, start: nat)
    requires WorldOk(w, cr) && Good(w, cr, n, start) && InRange(n) && Current(n, i) && Seat(n).Some?
    requires n.step == AtPropose
    requires ok ==> n.rounds[i].checked == Pass
    requires ok ==> || n.locked.1 == -1 || n.locked.0 == Some(n.rounds[i].proposal)
                    || Quorum(w, n.votes, n.height, n.round, Prevote, n.rounds[i].id)
    ensures Advance(w, cr, n, PrevoteOn(cr, n, i, ok), i, start)
  {
    hide CastVote;
    if ok {
      ValidIsHashed(w, cr, n, i, start);
    }
    PlainVoteGood(w, cr, n, i, Prevote, if ok then n.rounds[i].id else NIL_ID, start);
  }

  lemma Rule22Good(w: World, cr: Crypto, n: Node, i: nat, s: Snap, env: Env, start: nat)
    requires WorldOk(w, cr) && Good(w, cr, n, start) && InRange(n) && i < |n.rounds| && (s.current ==> Current(n, i))
    requires s.onRoster ==> Seat(n).Some?
    ensures Advance(w, cr, n, Rule22(cr, n, i, s, env), i, start)
  {
    hide Good, CastVote, Validate;
    if s.onRoster && s.current && s.decidable && n.rounds[i].validRound == -1 && n.step == AtPropose {
      var m := Check(n, i, env.verdict(22, i, n.rounds[i].proposal));
      CheckGood(w, cr, n, i, env.verdict(22, i, n.rounds[i].proposal), start);
      var ok := m.rounds[i].checked == Pass && (m.locked.1 == -1 || m.locked.0 == Some(m.rounds[i].proposal));
      PrevoteOnGood(w, cr, m, i, ok, start);
      AdvanceTwice(w, cr, n, m, PrevoteOn(cr, m, i, ok), i, start);
    }
  }

  /** What the counts read at the top of the turn prove about everything signed since. */
  ghost predicate SnapOk(w: World, n: Node, i: nat, s: Snap, big: nat)
    requires Staked(w)
  {
    && i < |n.rounds|
    && (s.current ==> Current(n, i)) && (s.onRoster ==> Seat(n).Some?)
    && (s.decidable && big <= s.counts.yesPrevotes ==>
          Quorum(w, n.votes, n.rounds[i].height, n.rounds[i].round, Prevote, n.rounds[i].id))
    && (s.decidable && big <= s.counts.yesPrecommits ==>
          Quorum(w, n.votes, n.rounds[i].height, n.rounds[i].round, Precommit, n.rounds[i].id))
  }

  lemma SnapKept(w: World, cr: Crypto, n: Node, m: Node, i: nat, s: Snap, big: nat, start: nat)
    requires Staked(w) && SnapOk(w, n, i, s, big) && Advance(w, cr, n, m, i, start)
    ensures SnapOk(w, m, i, s, big)
  {
    var rd := n.rounds[i];
    if s.decidable && big <= s.counts.yesPrevotes {
      QuorumGrows(w, n.votes, m.votes, rd.height, rd.round, Prevote, rd.id);
    }
    if s.decidable && big <= s.counts.yesPrecommits {
      QuorumGrows(w, n.votes, m.votes, rd.height, rd.round, Precommit, rd.id);
    }
  }

  lemma Rule28Good(w: World, cr: Crypto, n: Node, i: nat, s: Snap, big: nat, env: Env, start: nat)
    requires WorldOk(w, cr) && Good(w, cr, n, start) && InRange(n) && SnapOk(w, n, i, s, big)
    ensures Advance(w, cr, n, Rule28(cr, n, i, s, big, env), i, start)
  {
    hide Good, CastVote, Validate;
    if && s.onRoster && s.current && s.decidable && big <= s.counts.yesPrevotes && n.step == AtPropose
       && 0 <= n.rounds[i].validRound < n.round
    {
      var m := Check(n, i, env.verdict(28, i, n.rounds[i].proposal));
      CheckGood(w, cr, n, i, env.verdict(28, i, n.rounds[i].proposal), start);
      var ok := m.rounds[i].checked == Pass && (m.locked.1 <= m.rounds[i].validRound
        || m.locked.0 == Some(m.rounds[i].proposal));
      PrevoteOnGood(w, cr, m, i, ok, start);
      AdvanceTwice(w, cr, n, m, PrevoteOn(cr, m, i, ok), i, start);
    }
  }

  /** Locking, precommitting and remembering the value as valid belong together. */
  lemma LockGood(w: World, cr: Crypto, n: Node, i: nat, start: nat)
    requires WorldOk(w, cr) && Good(w, cr, n, start) && InRange(n) && Current(n, i) && Seat(n).Some?
    requires n.step == AtPrevote && n.rounds[i].checked == Pass
    requires Quorum(w, n.votes, n.height, n.round, Prevote, n.rounds[i].id)
    ensures var l := LockAndPrecommit(cr, n, i);
      Advance(w, cr, n, l.(valid := (Some(Get(l, i).proposal), l.round)), i, start)
  {
    hide LockAndPrecommit, Base;
    ValidIsHashed(w, cr, n, i, start);
    PrecommitBase(w, cr, n, i, start);
    NowLocked(w, cr, n.votes, LockAndPrecommit(cr, n, i), i, start);
  }

  /** The precommit of line 36, cast with the lock already taken. */
  lemma PrecommitBase(w: World, cr: Crypto, n: Node, i: nat, start: nat)
    requires WorldOk(w, cr) && Good(w, cr, n, start) && InRange(n) && Current(n, i) && Seat(n).Some?
    requires n.step == AtPrevote && n.rounds[i].id != NIL_ID
    requires Quorum(w, n.votes, n.height, n.round, Prevote, n.rounds[i].id)
    ensures var l := LockAndPrecommit(cr, n, i);
      && l == n.(votes := n.votes + [OwnVote(n, Precommit, n.rounds[i].id)], rounds := l.rounds, step := AtPrecommit,
                 locked := (Some(n.rounds[i].proposal), n.round))
      && Base(w, cr, l, start) && Entry(l, 0).Some? && |l.rounds| == |n.rounds|
      && SameData(n.rounds[i], l.rounds[i]) && l.rounds[i].checked == n.rounds[i].checked
      && (forall cut :: Cut(n, cut) ==> Cut(l.(valid := (Some(l.rounds[i].proposal), l.round)), cut))
  {
    hide StoreOk, LogOk, SignedOk, CommittedOk, CastVote, CastOk, Quorum, RoundOk;
    var id, a := n.rounds[i].id, n.(locked := (Some(n.rounds[i].proposal), n.round));
    assert Sorted(n.rounds) && Shaped(n.rounds[i], ActiveLen(n.roster)) by { StoreShaped(cr, n, i); }
    StepIrrelevant(cr, n, a);
    BaseChanged(w, cr, n, a, start);
    CastVoteForm(cr, a, i, Precommit, id);
    LockAllowed(w, cr, a, id, start);
    CastVoteBase(w, cr, a, i, Precommit, id, start);
    assert Entry(a, 0) == Entry(n, 0);
    forall cut | Cut(n, cut)
      ensures Cut(LockAndPrecommit(cr, n, i), cut)
    {
      assert Cut(a, cut);
    }
  }

  lemma LockAllowed(w: World, cr: Crypto, n: Node, id: ValueId, start: nat)
    requires WorldOk(w, cr) && Base(w, cr, n, start) && n.step == AtPrevote && id != NIL_ID
    requires Quorum(w, n.votes, n.height, n.round, Prevote, id)
    ensures CastOk(w, n.votes, OwnVote(n, Precommit, id))
  {
  }

  /** A node that just precommitted the proposal of its round and holds it as its lock. */
  lemma NowLocked(w: World, cr: Crypto, past: Log, l: Node, i: nat, start: nat)
    requires Staked(w) && Base(w, cr, l, start) && Current(l, i) && Entry(l, 0).Some?
    requires l.rounds[i].checked == Pass && l.rounds[i].id != NIL_ID && l.rounds[i].id == cr.idOf(l.rounds[i].proposal)
    requires l.locked == (Some(l.rounds[i].proposal), l.round)
    requires l.votes == past + [OwnVote(l, Precommit, l.rounds[i].id)]
    ensures Good(w, cr, l.(valid := (Some(l.rounds[i].proposal), l.round)), start)
  {
    var m := l.(valid := (Some(l.rounds[i].proposal), l.round));
    LockAfter(past, OwnVote(l, Precommit, l.rounds[i].id), l.key, l.height);
    StepIrrelevant(cr, l, m);
    BaseChanged(w, cr, l, m, start);
    AtIsFound(l.rounds, i, l.height, l.round);
    assert Entry(m, 0) == Entry(l, 0);
  }

  /** Seeing the quorum again after precommitting only refreshes the valid value. */
  lemma RevalidGood(w: World, cr: Crypto, n: Node, i: nat, start: nat)
    requires Staked(w) && Good(w, cr, n, start) && Current(n, i) && n.rounds[i].checked == Pass
    ensures Advance(w, cr, n, n.(valid := (Some(n.rounds[i].proposal), n.round)), i, start)
  {
    var m := n.(valid := (Some(n.rounds[i].proposal), n.round));
    StepIrrelevant(cr, n, m);
    BaseChanged(w, cr, n, m, start);
    AtIsFound(n.rounds, i, n.height, n.round);
    assert Entry(m, 0) == Entry(n, 0) && Entry(m, n.round) == Entry(n, n.round);
    forall cut | Cut(n, cut)
      ensures Cut(m, cut)
    {
    }
  }

  lemma Rule36Good(w: World, cr: Crypto, n: Node, i: nat, s: Snap, big: nat, env: Env, start: nat)
    requires WorldOk(w, cr) && Good(w, cr, n, start) && InRange(n) && SnapOk(w, n, i, s, big)
    ensures Advance(w, cr, n, Rule36(cr, n, i, s, big, env), i, start)
  {
    hide Good, CastVote, Validate;
    if s.onRoster && s.current && s.decidable && big <= s.counts.yesPrevotes {
      var m := Check(n, i, env.verdict(36, i, n.rounds[i].proposal));
      CheckGood(w, cr, n, i, env.verdict(36, i, n.rounds[i].proposal), start);
      if m.rounds[i].checked == Pass && m.step != AtPropose {
        var l := if m.step == AtPrevote then LockAndPrecommit(cr, m, i) else m;
        var r := l.(valid := (Some(Get(l, i).proposal), l.round));
        if m.step == AtPrevote {
          LockGood(w, cr, m, i, start);
        } else {
          RevalidGood(w, cr, m, i, start);
        }
        AdvanceTwice(w, cr, n, m, r, i, start);
      }
    }
  }
}
