/** One call of `bft_update` keeps the invariant, moves forward only, and closes at most one height. */
module Updates {
  import opened Types
  import opened Roster
  import opened VoteLog
  import opened Messages
  import opened Rounds
  import opened Node
  import opened Invariant
  import opened Steps
  import opened Heights

  /** (height, round, step) grows lexicographically; locks only grow within a height; nothing is forgotten. */
  predicate Progress(n: Node, m: Node) {
    && m.key == n.key && n.committed <= m.committed && n.votes <= m.votes
    && n.height <= m.height
    && (n.height == m.height ==>
          && n.round <= m.round && (n.round == m.round ==> Rank(n.step) <= Rank(m.step))
          && n.locked.1 <= m.locked.1 && n.valid.1 <= m.valid.1 && m.committed == n.committed && m.roster == n.roster)
  }

  lemma ProgressTwice(a: Node, b: Node, c: Node)
    requires Progress(a, b) && Progress(b, c)
    ensures Progress(a, c)
  {
  }

  /** The closures' answers fit: proposals have a 32-bit size, and the height's successor has its roster. */
  ghost predicate EnvOk(w: World, env: Env, height: nat) {
    && (forall l, i :: env.offer(l, i).Some? ==> |env.offer(l, i).value| < SIZE_LIMIT)
    && (forall i :: env.nextRoster(i) == w.rosterAt(height + 1))
  }

  /** Still at the height where the update began, with its entries where they were. */
  ghost predicate SameHeight(n: Node, m: Node) {
    m.height == n.height && |n.rounds| <= |m.rounds| && (forall cut :: Cut(n, cut) ==> Cut(m, cut))
  }

  /** One height further, with every entry that was there now belonging to closed heights. */
  ghost predicate NextHeight(n: Node, m: Node) {
    && m.height == n.height + 1 && |n.rounds| <= |m.rounds|
    && (forall i :: 0 <= i < |n.rounds| ==> m.rounds[i].height < m.height)
  }

  /** Nothing but the cached verdict on entry `i` is different. */
  predicate OnlyJudged(n: Node, m: Node, i: nat) {
    Quiet(n, m) && i < |n.rounds| == |m.rounds|
      && m.rounds == n.rounds[i := n.rounds[i].(checked := m.rounds[i].checked)]
  }

  /** Nothing is locked or known to be valid, and nothing was cast. */
  predicate Released(n: Node, m: Node) {
    m.locked == (None, -1) && m.valid == (None, -1) && m.votes == n.votes
  }

  /** At most one vote is cast: a nil vote of the current round that had not been cast. */
  ghost predicate CastsNil(n: Node, m: Node) {
    m.votes == n.votes || exists k :: OwnVote(n, k, NIL_ID) !in n.votes && m.votes == n.votes + [OwnVote(n, k, NIL_ID)]
  }

  // The vote rules in sequence -------------------------------------------------------------------

  lemma VoteRulesGood(w: World, cr: Crypto, n: Node, i: nat, s: Snap, big: nat, env: Env, start: nat)
    requires WorldOk(w, cr) && Good(w, cr, n, start) && InRange(n) && SnapOk(w, n, i, s, big)
    ensures Advance(w, cr, n, VoteRules(cr, n, i, s, big, env), i, start)
  {
    hide Rule22, Rule28, Rule34, Rule36, Rule44, Rule47, Good, SnapOk;
    var n28 := Rule28(cr, Rule22(cr, n, i, s, env), i, s, big, env);
    var n36 := Rule36(cr, Rule34(n28, i, s, big, env), i, s, big, env);
    PrevoteRulesGood(w, cr, n, i, s, big, env, start);
    SnapKept(w, cr, n, n28, i, s, big, start);
    LockRulesGood(w, cr, n28, i, s, big, env, start);
    AdvanceTwice(w, cr, n, n28, n36, i, start);
    SnapKept(w, cr, n, n36, i, s, big, start);
    LastRulesGood(w, cr, n36, i, s, big, env, start);
    AdvanceTwice(w, cr, n, n36, VoteRules(cr, n, i, s, big, env), i, start);
  }

  lemma PrevoteRulesGood(w: World, cr: Crypto, n: Node, i: nat, s: Snap, big: nat, env: Env, start: nat)
    requires WorldOk(w, cr) && Good(w, cr, n, start) && InRange(n) && SnapOk(w, n, i, s, big)
    ensures Advance(w, cr, n, Rule28(cr, Rule22(cr, n, i, s, env), i, s, big, env), i, start)
  {
    hide Rule22, Rule28, Good;
    var a := Rule22(cr, n, i, s, env);
    Rule22Good(w, cr, n, i, s, env, start);
    SnapKept(w, cr, n, a, i, s, big, start);
    Rule28Good(w, cr, a, i, s, big, env, start);
    AdvanceTwice(w, cr, n, a, Rule28(cr, a, i, s, big, env), i, start);
  }

  lemma LockRulesGood(w: World, cr: Crypto, n: Node, i: nat, s: Snap, big: nat, env: Env, start: nat)
    requires WorldOk(w, cr) && Good(w, cr, n, start) && InRange(n) && SnapOk(w, n, i, s, big)
    ensures Advance(w, cr, n, Rule36(cr, Rule34(n, i, s, big, env), i, s, big, env), i, start)
  {
    hide Rule34, Rule36, Good;
    var a := Rule34(n, i, s, big, env);
    Rule34Good(w, cr, n, i, s, big, env, start);
    SnapKept(w, cr, n, a, i, s, big, start);
    Rule36Good(w, cr, a, i, s, big, env, start);
    AdvanceTwice(w, cr, n, a, Rule36(cr, a, i, s, big, env), i, start);
  }

  lemma LastRulesGood(w: World, cr: Crypto, n: Node, i: nat, s: Snap, big: nat, env: Env, start: nat)
    requires WorldOk(w, cr) && Good(w, cr, n, start) && InRange(n) && SnapOk(w, n, i, s, big)
    ensures Advance(w, cr, n, Rule47(Rule44(cr, n, i, s, big), i, s, big, env), i, start)
  {
    hide Rule44, Rule47, Good;
    var a := Rule44(cr, n, i, s, big);
    Rule44Good(w, cr, n, i, s, big, start);
    Rule47Good(w, cr, a, i, s, big, env, start);
    AdvanceTwice(w, cr, n, a, Rule47(a, i, s, big, env), i, start);
  }

  // Closing a height -----------------------------------------------------------------------------

  /** The closed height's certificate: a valid value of this round with a precommit quorum behind it. */
  ghost predicate Certified(w: World, cr: Crypto, n: Node, rd: RoundData)
    requires Staked(w)
  {
    && rd.height == n.height && rd.id != NIL_ID && rd.id == cr.idOf(rd.proposal)
    && Quorum(w, n.votes, rd.height, rd.round, Precommit, rd.id)
  }

  lemma {:induction false} NoLockYet(log: Log, key: PubKey, h: nat)
    requires forall u :: u in log && u.key == key ==> u.height < h
    ensures LockOf(log, key, h) == None
  {
    if log != [] {
      NoLockYet(log[..|log| - 1], key, h);
    }
  }

  lemma CloseGood(w: World, cr: Crypto, n: Node, i: nat, roster: seq<Member>, start: nat)
    requires WorldOk(w, cr) && Good(w, cr, n, start) && i < |n.rounds| && Certified(w, cr, n, n.rounds[i])
    requires roster == w.rosterAt(n.height + 1)
    ensures var c := CloseHeight(n, i, roster);
      MayEnter(w, cr, c, 0, start) && c.rounds == n.rounds && Cut(c, |c.rounds|)
  {
    var c := CloseHeight(n, i, roster);
    NothingPruned(n.rounds, n.height + 1);
    CloseStore(cr, n, c);
    CloseCommitted(w, cr, n, i, roster, start);
    CloseOwn(cr, n, c);
    assert Base(w, cr, c, start);
  }

  /** Everything of our own belongs to closed heights, and no lock is left. */
  lemma CloseOwn(cr: Crypto, n: Node, c: Node)
    requires OwnVotes(n) && OwnChunks(n) && c.key == n.key && c.votes == n.votes && c.chunks == n.chunks
    requires c.height == n.height + 1 && c.locked == (None, -1) && c.valid == (None, -1)
    ensures OwnVotes(c) && OwnChunks(c) && Untouched(c, 0) && LockOk(cr, c.(round := 0))
  {
    NoLockYet(n.votes, n.key, n.height + 1);
  }

  /** No entry belongs to the new height yet. */
  lemma CloseStore(cr: Crypto, n: Node, c: Node)
    requires StoreOk(cr, n) && c.rounds == n.rounds && c.height == n.height + 1
    ensures StoreOk(cr, c) && Cut(c, |c.rounds|)
  {
    var cut :| Cut(n, cut);
    assert Cut(c, |c.rounds|);
  }

  lemma CloseCommitted(w: World, cr: Crypto, n: Node, i: nat, roster: seq<Member>, start: nat)
    requires Staked(w) && CommittedOk(w, cr, n, start) && i < |n.rounds| && Certified(w, cr, n, n.rounds[i])
    ensures CommittedOk(w, cr, CloseHeight(n, i, roster), start)
  {
  }

  /** Line 49 either leaves the node in its height or starts the next one. */
  lemma Rule49Good(w: World, cr: Crypto, n: Node, i: nat, s: Snap, big: nat, env: Env, start: nat)
    requires WorldOk(w, cr) && Good(w, cr, n, start) && SnapOk(w, n, i, s, big) && n.rounds[i].height == n.height
    requires EnvOk(w, env, n.height) && n.height + 1 < 0x1_0000_0000_0000_0000
    ensures var m := Rule49(cr, n, i, s, big, env);
      || (Advance(w, cr, n, m, i, start) && OnlyJudged(n, m, i))
      || (Good(w, cr, m, start) && Progress(n, m) && NextHeight(n, m) && Released(n, m))
  {
    hide StartRound, Good, Check, CloseHeight;
    if s.decidable && big <= s.counts.yesPrecommits {
      var m := Check(n, i, env.verdict(49, i, n.rounds[i].proposal));
      CheckGood(w, cr, n, i, env.verdict(49, i, n.rounds[i].proposal), start);
      SnapKept(w, cr, n, m, i, s, big, start);
      CheckIsJudging(n, i, env.verdict(49, i, n.rounds[i].proposal));
      if m.rounds[i].checked == Pass {
        DecideGood(w, cr, m, i, env, start);
      }
    } else {
      NotJudged(n, i);
    }
  }

  lemma CheckIsJudging(n: Node, i: nat, verdict: Status)
    requires i < |n.rounds|
    ensures OnlyJudged(n, Check(n, i, verdict), i)
  {
  }

  lemma NotJudged(n: Node, i: nat)
    requires i < |n.rounds|
    ensures OnlyJudged(n, n, i)
  {
    assert n.rounds[i := n.rounds[i]] == n.rounds;
  }

  lemma DecideGood(w: World, cr: Crypto, n: Node, i: nat, env: Env, start: nat)
    requires WorldOk(w, cr) && Good(w, cr, n, start) && i < |n.rounds| && n.rounds[i].height == n.height
    requires n.rounds[i].checked == Pass && Quorum(w, n.votes, n.height, n.rounds[i].round, Precommit, n.rounds[i].id)
    requires EnvOk(w, env, n.height) && n.height + 1 < 0x1_0000_0000_0000_0000
    ensures var m := StartRound(cr, CloseHeight(n, i, env.nextRoster(i)), env.now, 0, env.offer(49, i));
      Good(w, cr, m, start) && Progress(n, m) && NextHeight(n, m) && Released(n, m)
  {
    hide StartRound;
    assert RoundOk(cr, n.rounds[i], n.roster);
    var c := CloseHeight(n, i, env.nextRoster(i));
    CloseGood(w, cr, n, i, env.nextRoster(i), start);
    StartRoundGood(w, cr, c, env.now, 0, env.offer(49, i), start);
    assert Cut(StartRound(cr, c, env.now, 0, env.offer(49, i)), |c.rounds|);
  }

  // The later rounds and the timeouts ------------------------------------------------------------

  /** Starting a later round of this height. */
  lemma LaterRoundGood(w: World, cr: Crypto, n: Node, now: nat, r: nat, offer: Option<Value>, start: nat)
    requires WorldOk(w, cr) && Good(w, cr, n, start) && n.round < r < PRECOMMIT_FLAG && InRange(n)
    requires offer.Some? ==> |offer.value| < SIZE_LIMIT
    ensures var m := StartRound(cr, n, now, r, offer);
      Good(w, cr, m, start) && Progress(n, m) && SameHeight(n, m) && m.round == r && m.votes == n.votes
  {
    LaterRoundMayEnter(w, cr, n, r, start);
    StartRoundGood(w, cr, n, now, r, offer, start);
  }

  lemma Rule55Good(w: World, cr: Crypto, n: Node, i: nat, s: Snap, small: nat, env: Env, start: nat)
    requires WorldOk(w, cr) && Good(w, cr, n, start) && InRange(n) && i < |n.rounds| && EnvOk(w, env, n.height)
    requires Rule55(cr, n, i, s, small, env).round < PRECOMMIT_FLAG
    ensures var m := Rule55(cr, n, i, s, small, env); Good(w, cr, m, start) && Progress(n, m) && SameHeight(n, m)
  {
    hide StartRound;
    if n.height == n.rounds[i].height && n.round < n.rounds[i].round && s.onRoster && small <= s.counts.anys {
      RoundAfterStart(cr, n, env.now, n.rounds[i].round, env.offer(55, i));
      LaterRoundGood(w, cr, n, env.now, n.rounds[i].round, env.offer(55, i), start);
    }
  }

  lemma ChunksKeepRound(cr: Crypto, n: Node, h: nat, r: nat, j: nat, value: Value, validRound: int)
    ensures CastChunks(cr, n, h, r, j, value, validRound).round == n.round
    ensures CastChunks(cr, n, h, r, j, value, validRound).height == n.height
  {
    LoopKeeps(ChunkTurn(cr, h, r, j, value, validRound), n, 0, ChunksN(|value|),
              (m: Node, c: nat) => m.round == n.round && m.height == n.height);
  }

  lemma RoundAfterStart(cr: Crypto, n: Node, now: nat, r: nat, offer: Option<Value>)
    ensures StartRound(cr, n, now, r, offer).round == r && StartRound(cr, n, now, r, offer).height == n.height
  {
    var e := EnterRound(n, r);
    if Seat(e).Some? && Choice(e, offer).Some? {
      var rd := Get(e, LowerBound(n.rounds, n.height, r));
      ChunksKeepRound(cr, e, rd.height, rd.round, Seat(e).value, Choice(e, offer).value, e.valid.1);
    }
  }

  lemma TimeoutRuleGood(w: World, cr: Crypto, n: Node, i: nat, s: Snap, env: Env, start: nat)
    requires WorldOk(w, cr) && Good(w, cr, n, start) && InRange(n) && i < |n.rounds| && EnvOk(w, env, n.height)
    requires s.onRoster ==> Seat(n).Some?
    requires RuleTimeout(cr, n, i, s, env).round < PRECOMMIT_FLAG
    ensures var m := RuleTimeout(cr, n, i, s, env);
      Good(w, cr, m, start) && Progress(n, m) && SameHeight(n, m) && CastsNil(n, m)
  {
    hide StartRound, CastVote, Good;
    if Expired(n, i, s, env.now) {
      var step := n.rounds[i].timeout.value.step;
      if step == AtPrecommit {
        TimeoutRoundGood(w, cr, n, i, s, env, start);
      } else if n.step == step {
        TimeoutVoteGood(w, cr, n, i, s, env, start);
      }
    }
  }

  lemma TimeoutRoundGood(w: World, cr: Crypto, n: Node, i: nat, s: Snap, env: Env, start: nat)
    requires WorldOk(w, cr) && Good(w, cr, n, start) && InRange(n) && i < |n.rounds| && EnvOk(w, env, n.height)
    requires Expired(n, i, s, env.now) && n.rounds[i].timeout.value.step == AtPrecommit
    requires RuleTimeout(cr, n, i, s, env).round < PRECOMMIT_FLAG
    ensures var m := RuleTimeout(cr, n, i, s, env);
      Good(w, cr, m, start) && Progress(n, m) && SameHeight(n, m) && CastsNil(n, m)
  {
    hide StartRound, CastVote, Good;
    TimeoutIsNextRound(cr, n, i, s, env);
    RoundAfterStart(cr, n, env.now, n.round + 1, env.offer(65, i));
    LaterRoundGood(w, cr, n, env.now, n.round + 1, env.offer(65, i), start);
  }

  lemma TimeoutIsNextRound(cr: Crypto, n: Node, i: nat, s: Snap, env: Env)
    requires Expired(n, i, s, env.now) && Get(n, i).timeout.value.step == AtPrecommit
    ensures RuleTimeout(cr, n, i, s, env) == StartRound(cr, n, env.now, n.round + 1, env.offer(65, i))
  {
    hide StartRound, CastVote;
  }

  lemma TimeoutVoteGood(w: World, cr: Crypto, n: Node, i: nat, s: Snap, env: Env, start: nat)
    requires WorldOk(w, cr) && Good(w, cr, n, start) && InRange(n) && i < |n.rounds| && Expired(n, i, s, env.now)
    requires n.step == n.rounds[i].timeout.value.step != AtPrecommit && Seat(n).Some?
    ensures var m := RuleTimeout(cr, n, i, s, env);
      Good(w, cr, m, start) && Progress(n, m) && SameHeight(n, m) && CastsNil(n, m)
  {
    hide StartRound, CastVote, Good;
    ExpiredIsCurrent(w, cr, n, i, s, env.now, start);
    NilVoteGood(w, cr, n, i, if n.step == AtPropose then Prevote else Precommit, start);
  }

  lemma ExpiredIsCurrent(w: World, cr: Crypto, n: Node, i: nat, s: Snap, now: nat, start: nat)
    requires Staked(w) && Good(w, cr, n, start) && i < |n.rounds| && Expired(n, i, s, now)
    ensures Current(n, i) && s.onRoster
  {
    assert Timed(n.rounds[i]);
  }

  lemma NilVoteGood(w: World, cr: Crypto, n: Node, i: nat, k: Kind, start: nat)
    requires WorldOk(w, cr) && Good(w, cr, n, start) && InRange(n) && Current(n, i) && Seat(n).Some?
    requires n.step == if k == Prevote then AtPropose else AtPrevote
    ensures var m := CastVote(cr, n, i, k, NIL_ID);
      Good(w, cr, m, start) && Progress(n, m) && SameHeight(n, m) && CastsNil(n, m)
  {
    hide CastVote;
    PlainVoteGood(w, cr, n, i, k, NIL_ID, start);
    AdvanceIsProgress(w, cr, n, CastVote(cr, n, i, k, NIL_ID), i, start);
    CastVoteForm(cr, n, i, k, NIL_ID);
    assert OwnVote(n, k, NIL_ID) !in n.votes by { NotYetCast(w, cr, n, k, start); }
  }

  lemma NotYetCast(w: World, cr: Crypto, n: Node, k: Kind, start: nat)
    requires Staked(w) && Good(w, cr, n, start) && n.step == if k == Prevote then AtPropose else AtPrevote
    ensures OwnVote(n, k, NIL_ID) !in n.votes
  {
    hide StoreOk, CommittedOk, LogOk, SignedOk, LockOk;
  }

  lemma AdvanceIsProgress(w: World, cr: Crypto, n: Node, m: Node, i: nat, start: nat)
    requires Staked(w) && Advance(w, cr, n, m, i, start)
    ensures Progress(n, m) && SameHeight(n, m)
  {
  }

  // The loop -------------------------------------------------------------------------------------

  /** What one turn, or several, may do to a node that began the update as `n`. */
  ghost predicate Outcome(w: World, cr: Crypto, n: Node, m: Node, start: nat)
    requires Staked(w)
  {
    Good(w, cr, m, start) && Progress(n, m) && (SameHeight(n, m) || NextHeight(n, m))
  }

  /** Entries of closed heights make the rest of the turn idle. */
  lemma ClosedIsIdle(cr: Crypto, n: Node, i: nat, s: Snap, small: nat, env: Env)
    requires i < |n.rounds| && n.rounds[i].height < n.height && Timed(n.rounds[i])
    ensures Rule55(cr, n, i, s, small, env) == n && RuleTimeout(cr, n, i, s, env) == n
  {
    hide StartRound, CastVote;
  }

  lemma ClosedTurnIsIdle(cr: Crypto, n: Node, i: nat, big: nat, small: nat, env: Env)
    requires i < |n.rounds| && n.rounds[i].height < n.height && Timed(n.rounds[i])
    ensures Turn(cr, n, i, big, small, env) == n
  {
    hide StartRound, CastVote;
    ClosedIsIdle(cr, n, i, Look(n, i), small, env);
  }

  /** The rest of the turn after line 49, in the same height. */
  lemma TurnEndGood(w: World, cr: Crypto, n: Node, i: nat, s: Snap, small: nat, env: Env, start: nat)
    requires WorldOk(w, cr) && Good(w, cr, n, start) && InRange(n) && i < |n.rounds| && EnvOk(w, env, n.height)
    requires s.onRoster ==> Seat(n).Some?
    requires RuleTimeout(cr, Rule55(cr, n, i, s, small, env), i, s, env).round < PRECOMMIT_FLAG
    ensures var m := RuleTimeout(cr, Rule55(cr, n, i, s, small, env), i, s, env);
      Good(w, cr, m, start) && Progress(n, m) && SameHeight(n, m)
  {
    hide Rule55, RuleTimeout;
    var a := Rule55(cr, n, i, s, small, env);
    TimeoutGrows(cr, a, i, s, env);
    Rule55Good(w, cr, n, i, s, small, env, start);
    TimeoutRuleGood(w, cr, a, i, s, env, start);
    ProgressTwice(n, a, RuleTimeout(cr, a, i, s, env));
  }

  lemma TimeoutGrows(cr: Crypto, n: Node, i: nat, s: Snap, env: Env)
    ensures n.round <= RuleTimeout(cr, n, i, s, env).round
  {
    hide Offering;
    RoundAfterStart(cr, n, env.now, n.round + 1, env.offer(65, i));
  }

  /** One turn of the loop over the rounds of the current height. */
  lemma TurnGood(w: World, cr: Crypto, n: Node, i: nat, small: nat, env: Env, start: nat)
    requires WorldOk(w, cr) && Good(w, cr, n, start) && InRange(n) && i < |n.rounds| && n.rounds[i].height == n.height
    requires EnvOk(w, env, n.height) && n.height + 1 < 0x1_0000_0000_0000_0000
    requires InRange(Turn(cr, n, i, Big(Total(ActiveAt(w, n.height))), small, env))
    ensures Outcome(w, cr, n, Turn(cr, n, i, Big(Total(ActiveAt(w, n.height))), small, env), start)
  {
    hide Rule49, Rule55, RuleTimeout, VoteRules;
    var big, s := Big(Total(ActiveAt(w, n.height))), Look(n, i);
    var v := VoteRules(cr, n, i, s, big, env);
    LookOk(w, cr, n, i, start);
    VoteRulesGood(w, cr, n, i, s, big, env, start);
    SnapKept(w, cr, n, v, i, s, big, start);
    AdvanceIsProgress(w, cr, n, v, i, start);
    AfterVotesGood(w, cr, n, v, i, s, big, small, env, start);
  }

  lemma AfterVotesGood(w: World, cr: Crypto, n: Node, v: Node, i: nat, s: Snap, big: nat, small: nat, env: Env,
                       start: nat)
    requires WorldOk(w, cr) && Good(w, cr, v, start) && InRange(v) && SnapOk(w, v, i, s, big)
      && v.rounds[i].height == v.height
    requires EnvOk(w, env, v.height) && v.height + 1 < 0x1_0000_0000_0000_0000
    requires Progress(n, v) && SameHeight(n, v) && i < |n.rounds|
    requires InRange(RuleTimeout(cr, Rule55(cr, Rule49(cr, v, i, s, big, env), i, s, small, env), i, s, env))
    ensures Outcome(w, cr, n, RuleTimeout(cr, Rule55(cr, Rule49(cr, v, i, s, big, env), i, s, small, env), i, s, env),
      start)
  {
    hide Rule49, Rule55, RuleTimeout, Good;
    var d := Rule49(cr, v, i, s, big, env);
    Rule49Good(w, cr, v, i, s, big, env, start);
    if Advance(w, cr, v, d, i, start) {
      AdvanceIsProgress(w, cr, v, d, i, start);
      TurnEndGood(w, cr, d, i, s, small, env, start);
      var m := RuleTimeout(cr, Rule55(cr, d, i, s, small, env), i, s, env);
      ProgressTwice(n, v, d);
      ProgressTwice(n, d, m);
      SameHeightTwice(n, v, d);
      SameHeightTwice(n, d, m);
    } else {
      DecidedTurnEnds(w, cr, d, i, s, small, env, start);
      ProgressTwice(n, v, d);
      assert NextHeight(n, d);
    }
  }

  lemma SameHeightTwice(a: Node, b: Node, c: Node)
    requires SameHeight(a, b) && SameHeight(b, c)
    ensures SameHeight(a, c)
  {
  }

  lemma DecidedTurnEnds(w: World, cr: Crypto, d: Node, i: nat, s: Snap, small: nat, env: Env, start: nat)
    requires Staked(w) && Good(w, cr, d, start) && i < |d.rounds| && d.rounds[i].height < d.height
    ensures RuleTimeout(cr, Rule55(cr, d, i, s, small, env), i, s, env) == d
  {
    hide StartRound, CastVote;
    assert Timed(d.rounds[i]);
    ClosedIsIdle(cr, d, i, s, small, env);
  }

  // The whole update ---------------------------------------------------------------------------

  /** The node stays within the integer widths at every turn. */
  predicate RangeKept(turn: (Node, nat) -> Node, n: Node, from: nat, to: nat)
    decreases to - from
  {
    InRange(n) && (from < to ==> RangeKept(turn, turn(n, from), from + 1, to))
  }

  /** The two facts about a turn that the loop needs. */
  ghost predicate TurnOk(w: World, cr: Crypto, turn: (Node, nat) -> Node, height: nat, start: nat)
    requires Staked(w)
  {
    && (forall m, i: nat {:trigger IsOpen(m, i), turn(m, i)} ::
          Good(w, cr, m, start) && InRange(m) && m.height == height && IsOpen(m, i) && InRange(turn(m, i)) ==>
            Outcome(w, cr, m, turn(m, i), start))
    && (forall m, i: nat {:trigger IsClosed(m, i), turn(m, i)} :: IsClosed(m, i) ==> turn(m, i) == m)
  }

  predicate IsOpen(m: Node, i: nat) {
    i < |m.rounds| && m.rounds[i].height == m.height
  }

  predicate IsClosed(m: Node, i: nat) {
    i < |m.rounds| && m.rounds[i].height < m.height && Timed(m.rounds[i])
  }

  lemma TurnWithOk(w: World, cr: Crypto, height: nat, env: Env, start: nat)
    requires WorldOk(w, cr) && EnvOk(w, env, height) && height + 1 < 0x1_0000_0000_0000_0000
    ensures TurnOk(w, cr, TurnWith(cr, Total(ActiveAt(w, height)), env), height, start)
  {
    hide Turn;
    var total := Total(ActiveAt(w, height));
    forall m, i: nat | Good(w, cr, m, start) && InRange(m) && m.height == height && IsOpen(m, i)
                    && InRange(Turn(cr, m, i, Big(total), Small(total), env))
      ensures Outcome(w, cr, m, Turn(cr, m, i, Big(total), Small(total), env), start)
    {
      TurnGood(w, cr, m, i, Small(total), env, start);
    }
    forall m, i: nat | IsClosed(m, i)
      ensures Turn(cr, m, i, Big(total), Small(total), env) == m
    {
      ClosedTurnIsIdle(cr, m, i, Big(total), Small(total), env);
    }
  }

  /** The entry visited next belongs to the height where the update began, or to a closed one. */
  lemma NextEntry(n: Node, m: Node, i: nat, cut: nat)
    requires SameHeight(n, m) || NextHeight(n, m)
    requires Cut(n, cut) && cut <= i < |n.rounds|
    requires forall x :: 0 <= x < |m.rounds| ==> Timed(m.rounds[x])
    ensures IsOpen(m, i) || IsClosed(m, i)
    ensures IsOpen(m, i) ==> SameHeight(n, m)
  {
    if SameHeight(n, m) {
      assert Cut(m, cut);
    }
  }

  lemma TurnOutcome(w: World, cr: Crypto, turn: (Node, nat) -> Node, n: Node, m: Node, i: nat, cut: nat, start: nat)
    requires Staked(w) && TurnOk(w, cr, turn, n.height, start) && Outcome(w, cr, n, m, start)
    requires Cut(n, cut) && cut <= i < |n.rounds| && InRange(m) && InRange(turn(m, i))
    ensures Outcome(w, cr, n, turn(m, i), start)
  {
    NextEntry(n, m, i, cut);
    if IsOpen(m, i) {
      OutcomeTwice(w, cr, n, m, turn(m, i), start);
    }
  }

  lemma OutcomeTwice(w: World, cr: Crypto, n: Node, m: Node, t: Node, start: nat)
    requires Staked(w) && Progress(n, m) && SameHeight(n, m) && Outcome(w, cr, m, t, start)
    ensures Outcome(w, cr, n, t, start)
  {
    ProgressTwice(n, m, t);
    if SameHeight(m, t) {
      SameHeightTwice(n, m, t);
    } else {
      assert NextHeight(n, t);
    }
  }

  ghost predicate Running(w: World, cr: Crypto, turn: (Node, nat) -> Node, n: Node, m: Node, i: nat, start: nat)
    requires Staked(w)
  {
    Outcome(w, cr, n, m, start) && RangeKept(turn, m, i, |n.rounds|)
  }

  lemma RunningKept(w: World, cr: Crypto, turn: (Node, nat) -> Node, n: Node, cut: nat, start: nat)
    requires Staked(w) && TurnOk(w, cr, turn, n.height, start) && Cut(n, cut)
    ensures forall m, i: nat :: cut <= i < |n.rounds| && Running(w, cr, turn, n, m, i, start) ==>
                                  Running(w, cr, turn, n, turn(m, i), i + 1, start)
  {
    forall m, i: nat | cut <= i < |n.rounds| && Running(w, cr, turn, n, m, i, start)
      ensures Running(w, cr, turn, n, turn(m, i), i + 1, start)
    {
      RunningStep(w, cr, turn, n, m, i, cut, start);
    }
  }

  lemma RunningStep(w: World, cr: Crypto, turn: (Node, nat) -> Node, n: Node, m: Node, i: nat, cut: nat, start: nat)
    requires Staked(w) && TurnOk(w, cr, turn, n.height, start) && Cut(n, cut) && cut <= i < |n.rounds|
    requires Running(w, cr, turn, n, m, i, start)
    ensures Running(w, cr, turn, n, turn(m, i), i + 1, start)
  {
    RangeStep(turn, m, i, |n.rounds|);
    TurnOutcome(w, cr, turn, n, m, i, cut, start);
  }

  lemma RangeStep(turn: (Node, nat) -> Node, m: Node, i: nat, to: nat)
    requires RangeKept(turn, m, i, to) && i < to
    ensures InRange(m) && InRange(turn(m, i)) && RangeKept(turn, turn(m, i), i + 1, to)
  {
  }

  lemma LoopOutcome(w: World, cr: Crypto, turn: (Node, nat) -> Node, n: Node, cut: nat, start: nat)
    requires Staked(w) && TurnOk(w, cr, turn, n.height, start) && Cut(n, cut)
    requires Running(w, cr, turn, n, n, cut, start)
    ensures Running(w, cr, turn, n, Loop(turn, n, cut, |n.rounds|), |n.rounds|, start)
  {
    RunningKept(w, cr, turn, n, cut, start);
    LoopKeeps(turn, n, cut, |n.rounds|, (m: Node, i: nat) => Running(w, cr, turn, n, m, i, start));
  }

  /** The loop starts at the first entry of the current height. */
  lemma FirstIsCut(n: Node, cut: nat)
    requires Sorted(n.rounds) && Cut(n, cut) && Entry(n, 0).Some?
    ensures FirstOfHeight(n) == cut && cut < |n.rounds|
  {
    var f := FirstOfHeight(n);
    assert f >= cut;
    assert f > cut ==> Before(n.rounds[cut].height, n.rounds[cut].round, n.height, 0);
  }

  /**
   * One call of `bft_update` on a correct node keeps the invariant, moves (height, round, step) only
   * forward, and closes at most one height.
   */
  lemma UpdateGood(w: World, cr: Crypto, n: Node, env: Env, start: nat)
    requires WorldOk(w, cr) && Good(w, cr, n, start) && EnvOk(w, env, n.height)
      && n.height + 1 < 0x1_0000_0000_0000_0000
    requires Total(Active(n.roster)) >= 1
    requires RangeKept(TurnWith(cr, Total(Active(n.roster)), env), n, FirstOfHeight(n), |n.rounds|)
    ensures Outcome(w, cr, n, Update(cr, n, env), start)
  {
    TurnWithOk(w, cr, n.height, env, start);
    var cut :| Cut(n, cut);
    FirstIsCut(n, cut);
    LoopOutcome(w, cr, TurnWith(cr, Total(Active(n.roster)), env), n, cut, start);
  }
}
