/**
 * What a turn of the update loop comes to, told from what the node and the round's entry hold before it: the votes
 * it casts, what it locks and knows to be valid, its timers, and whether it closes the height or enters a round.
 */
module Conduct {
  import opened Types
  import opened Roster
  import opened VoteLog
  import opened Rounds
  import opened Node
  import opened Invariant
  import opened Steps
  import opened Heights
  import opened Updates
  import opened Proposing

  /** The node sits on the roster, and entry `i` is that of its current round. */
  predicate Ready(n: Node, i: nat) {
    Sorted(n.rounds) && Current(n, i) && Seat(n).Some? && Shaped(n.rounds[i], ActiveLen(n.roster))
  }

  lemma GoodIsReady(w: World, cr: Crypto, n: Node, i: nat, start: nat)
    requires WorldOk(w, cr) && Good(w, cr, n, start) && Current(n, i) && Seat(n).Some?
    ensures Ready(n, i)
  {
    StoreShaped(cr, n, i);
  }

  /** Every chunk is there, or the proposal is known to be faulty. */
  predicate Complete(rd: RoundData) {
    rd.faulty || (rd.sigsN > 0 && rd.sigsN == |rd.sigs|)
  }

  /** What is known about the proposal once the closure has been consulted, which happens only if nothing was known. */
  function Judgement(rd: RoundData, verdict: Status): Status {
    if rd.checked != Indeterminate then rd.checked else if rd.faulty then Fail else verdict
  }

  /** The first or a repeated proposal is there to be prevoted. */
  predicate PrevoteDue(n: Node, rd: RoundData, big: nat) {
    && n.step == AtPropose && Complete(rd)
    && (rd.validRound == -1 || (0 <= rd.validRound < n.round && big <= rd.counts.yesPrevotes))
  }

  /** The lock does not forbid the proposal: it is not newer than the valid round, or it is on this value. */
  predicate Unbound(n: Node, rd: RoundData) {
    || n.locked.0 == Some(rd.proposal)
    || if rd.validRound == -1 then n.locked.1 == -1 else n.locked.1 <= rd.validRound
  }

  /** What lines 22 and 28 find out about the proposal, if one of them applies. */
  function FirstJudgement(n: Node, i: nat, big: nat, env: Env): Status
    requires i < |n.rounds|
  {
    var rd := n.rounds[i];
    if PrevoteDue(n, rd, big) then Judgement(rd, env.verdict(if rd.validRound == -1 then 22 else 28, i, rd.proposal))
    else rd.checked
  }

  /** The prevote of lines 22 and 28: for the proposal exactly if it is valid and the lock allows it. */
  function FirstVotes(n: Node, i: nat, big: nat, env: Env): seq<Vote>
    requires i < |n.rounds|
  {
    var rd := n.rounds[i];
    if !PrevoteDue(n, rd, big) then []
    else [Vote(n.height, n.round, Prevote,
               if FirstJudgement(n, i, big, env) == Pass && Unbound(n, rd) then rd.id else NIL_ID, n.key)]
  }

  /** The node is waiting for prevotes, perhaps after prevoting in this very turn. */
  predicate Waiting(n: Node, rd: RoundData, big: nat) {
    n.step == AtPrevote || PrevoteDue(n, rd, big)
  }

  predicate PolkaSeen(rd: RoundData, big: nat) {
    Complete(rd) && big <= rd.counts.yesPrevotes
  }

  /** What line 36 finds out about the proposal, if it applies. */
  function SecondJudgement(n: Node, i: nat, big: nat, env: Env): Status
    requires i < |n.rounds|
  {
    var rd := n.rounds[i].(checked := FirstJudgement(n, i, big, env));
    if PolkaSeen(rd, big) then Judgement(rd, env.verdict(36, i, rd.proposal)) else rd.checked
  }

  /** A quorum prevoted a valid proposal: it becomes the valid value. */
  predicate Accepts(n: Node, i: nat, big: nat, env: Env)
    requires i < |n.rounds|
  {
    && PolkaSeen(n.rounds[i], big) && SecondJudgement(n, i, big, env) == Pass
    && (n.step != AtPropose || PrevoteDue(n, n.rounds[i], big))
  }

  /** The precommit of lines 36 and 44: for a valid proposal with a quorum, nil if a quorum prevoted nil, or none. */
  function SecondVotes(n: Node, i: nat, big: nat, env: Env): seq<Vote>
    requires i < |n.rounds|
  {
    var rd := n.rounds[i];
    if !Waiting(n, rd, big) then []
    else if Accepts(n, i, big, env) then [Vote(n.height, n.round, Precommit, rd.id, n.key)]
    else if big <= rd.counts.nilPrevotes then [Vote(n.height, n.round, Precommit, NIL_ID, n.key)]
    else []
  }

  /** The timer after lines 34 and 47: five seconds and one more for every round. */
  function Timer(n: Node, i: nat, big: nat, env: Env): Option<Timeout>
    requires i < |n.rounds|
  {
    var rd := n.rounds[i];
    if big <= rd.counts.precommits && !rd.precommitTimeout then
      Some(Timeout(env.now + 5000 + 1000 * n.round, n.height, n.round, AtPrecommit))
    else if big <= rd.counts.prevotes && Waiting(n, rd, big) && !rd.prevoteTimeout then
      Some(Timeout(env.now + 5000 + 1000 * n.round, n.height, n.round, AtPrevote))
    else rd.timeout
  }

  /** The rules change the node's own progress and its current entry, and nothing else. */
  predicate Own(n: Node, m: Node, i: nat) {
    && m == n.(step := m.step, valid := m.valid, locked := m.locked, rounds := m.rounds, votes := m.votes)
    && i < |n.rounds| == |m.rounds| && (forall x :: 0 <= x < |n.rounds| && x != i ==> m.rounds[x] == n.rounds[x])
    && SameData(n.rounds[i], m.rounds[i])
  }

  // The single rules -----------------------------------------------------------------------------

  lemma CastForm(cr: Crypto, n: Node, i: nat, k: Kind, id: ValueId)
    requires Ready(n, i)
    ensures var m := CastVote(cr, n, i, k, id);
      && m == n.(votes := n.votes + [Vote(n.height, n.round, k, id, n.key)], rounds := m.rounds, step := StepOf(k))
      && Own(n, m, i) && Ready(m, i)
      && m.rounds[i] == n.rounds[i].(votes := m.rounds[i].votes, counts := m.rounds[i].counts)
  {
    AtIsFound(n.rounds, i, n.height, n.round);
  }

  lemma CheckForm(n: Node, i: nat, verdict: Status)
    requires i < |n.rounds| && Complete(n.rounds[i])
    ensures Check(n, i, verdict) == n.(rounds := n.rounds[i :=
      n.rounds[i].(checked := Judgement(n.rounds[i], verdict))])
  {
  }

  /** After lines 22 and 28. */
  lemma PrevotePart(cr: Crypto, n: Node, i: nat, big: nat, env: Env)
    requires Ready(n, i)
    ensures var s, rd := Look(n, i), n.rounds[i];
      var m := Rule28(cr, Rule22(cr, n, i, s, env), i, s, big, env);
      && Own(n, m, i) && Ready(m, i) && m.votes == n.votes + FirstVotes(n, i, big, env)
      && m == n.(votes := m.votes, rounds := m.rounds, step := m.step)
      && m.step == (if PrevoteDue(n, rd, big) then AtPrevote else n.step)
      && m.rounds[i] == rd.(votes := m.rounds[i].votes, counts := m.rounds[i].counts,
                            checked := FirstJudgement(n, i, big, env))
  {
    hide CastVote, Sorted, Shaped, Check;
    var s, rd := Look(n, i), n.rounds[i];
    if PrevoteDue(n, rd, big) {
      var verdict := env.verdict(if rd.validRound == -1 then 22 else 28, i, rd.proposal);
      var j := n.(rounds := n.rounds[i := rd.(checked := Judgement(rd, verdict))]);
      CheckForm(n, i, verdict);
      JudgedReady(n, i, Judgement(rd, verdict));
      var id := if Judgement(rd, verdict) == Pass && Unbound(n, rd) then rd.id else NIL_ID;
      CastForm(cr, j, i, Prevote, id);
    }
  }

  lemma JudgedReady(n: Node, i: nat, checked: Status)
    requires Ready(n, i)
    ensures Ready(n.(rounds := n.rounds[i := n.rounds[i].(checked := checked)]), i)
  {
  }

  predicate Seen(s: Snap, rd: RoundData) {
    s.onRoster && s.current && s.decidable == Complete(rd)
  }

  /** A node at `AtPrevote` or later, after line 36. */
  lemma LockPart(cr: Crypto, n: Node, i: nat, s: Snap, big: nat, env: Env)
    requires Ready(n, i) && Seen(s, n.rounds[i])
    ensures var rd, m := n.rounds[i], Rule36(cr, n, i, s, big, env);
      var polka := Complete(rd) && big <= s.counts.yesPrevotes;
      var j := if polka then Judgement(rd, env.verdict(36, i, rd.proposal)) else rd.checked;
      var accepts := polka && j == Pass && n.step != AtPropose;
      var locks := accepts && n.step == AtPrevote;
      && Own(n, m, i) && Ready(m, i)
      && m.votes == n.votes + (if locks then [Vote(n.height, n.round, Precommit, rd.id, n.key)] else [])
      && m.step == (if locks then AtPrecommit else n.step)
      && m.locked == (if locks then (Some(rd.proposal), n.round) else n.locked)
      && m.valid == (if accepts then (Some(rd.proposal), n.round) else n.valid)
      && m.rounds[i] == rd.(votes := m.rounds[i].votes, counts := m.rounds[i].counts, checked := j)
  {
    hide CastVote, Sorted, Shaped, Check;
    var rd := n.rounds[i];
    if Complete(rd) && big <= s.counts.yesPrevotes {
      var verdict := env.verdict(36, i, rd.proposal);
      var m := n.(rounds := n.rounds[i := rd.(checked := Judgement(rd, verdict))]);
      CheckForm(n, i, verdict);
      JudgedReady(n, i, Judgement(rd, verdict));
      if Judgement(rd, verdict) == Pass && n.step == AtPrevote {
        CastForm(cr, m.(locked := (Some(rd.proposal), n.round)), i, Precommit, rd.id);
      }
    }
  }

  lemma NilPart(cr: Crypto, n: Node, i: nat, s: Snap, big: nat)
    requires Ready(n, i) && s.onRoster && s.current
    ensures var rd, m := n.rounds[i], Rule44(cr, n, i, s, big);
      var nils := n.step == AtPrevote && big <= s.counts.nilPrevotes;
      && Own(n, m, i) && Ready(m, i) && m == n.(votes := m.votes, rounds := m.rounds, step := m.step)
      && m.votes == n.votes + (if nils then [Vote(n.height, n.round, Precommit, NIL_ID, n.key)] else [])
      && m.step == (if nils then AtPrecommit else n.step)
      && m.rounds[i] == rd.(votes := m.rounds[i].votes, counts := m.rounds[i].counts)
  {
    hide CastVote, Sorted, Shaped;
    if n.step == AtPrevote && big <= s.counts.nilPrevotes {
      CastForm(cr, n, i, Precommit, NIL_ID);
    }
  }

  /** Lines 34 and 47 only set the timer, each once. */
  lemma TimerParts(n: Node, i: nat, s: Snap, big: nat, env: Env)
    requires Ready(n, i) && s.onRoster && s.current
    ensures var rd := n.rounds[i];
      && Rule34(n, i, s, big, env) == (
           if big <= s.counts.prevotes && n.step == AtPrevote && !rd.prevoteTimeout then
             n.(rounds := n.rounds[i := rd.(prevoteTimeout := true, timeout := Some(
               Timeout(env.now + 5000 + 1000 * n.round, n.height, n.round, AtPrevote)))])
           else n)
      && Rule47(n, i, s, big, env) == (
           if big <= s.counts.precommits && !rd.precommitTimeout then
             n.(rounds := n.rounds[i := rd.(precommitTimeout := true, timeout := Some(
               Timeout(env.now + 5000 + 1000 * n.round, n.height, n.round, AtPrecommit)))])
           else n)
  {
    hide Sorted, Shaped;
  }

  lemma TimedReady(n: Node, i: nat, rd: RoundData)
    requires Ready(n, i) && SameData(n.rounds[i], rd) && |rd.votes| == |n.rounds[i].votes|
    ensures Ready(n.(rounds := n.rounds[i := rd]), i)
  {
  }

  /** After lines 22, 28 and 34. */
  lemma FirstHalf(cr: Crypto, n: Node, i: nat, big: nat, env: Env)
    requires Ready(n, i)
    ensures var s, rd := Look(n, i), n.rounds[i];
      var m := Rule34(Rule28(cr, Rule22(cr, n, i, s, env), i, s, big, env), i, s, big, env);
      var waits := big <= rd.counts.prevotes && Waiting(n, rd, big);
      && Own(n, m, i) && Ready(m, i) && m.votes == n.votes + FirstVotes(n, i, big, env)
      && m == n.(votes := m.votes, rounds := m.rounds, step := m.step)
      && m.step == (if PrevoteDue(n, rd, big) then AtPrevote else n.step)
      && m.rounds[i] == rd.(votes := m.rounds[i].votes, counts := m.rounds[i].counts,
                            checked := FirstJudgement(n, i, big, env), prevoteTimeout := rd.prevoteTimeout || waits,
                            timeout := if waits && !rd.prevoteTimeout then
                              Some(Timeout(env.now + 5000 + 1000 * n.round, n.height, n.round, AtPrevote))
                            else rd.timeout)
  {
    hide Rule22, Rule28, Rule34, Sorted, Shaped, FirstJudgement, FirstVotes;
    var s := Look(n, i);
    var m := Rule28(cr, Rule22(cr, n, i, s, env), i, s, big, env);
    PrevotePart(cr, n, i, big, env);
    TimerParts(m, i, s, big, env);
    TimedReady(m, i, Rule34(m, i, s, big, env).rounds[i]);
  }

  /** The step after the voting rules: it follows the last vote. */
  function StepAfter(n: Node, i: nat, big: nat, env: Env): Step
    requires i < |n.rounds|
  {
    if SecondVotes(n, i, big, env) != [] then AtPrecommit
    else if FirstVotes(n, i, big, env) != [] then AtPrevote
    else n.step
  }

  /** The entry after the voting rules, apart from the node's own votes. */
  predicate EntryAfter(n: Node, m: Node, i: nat, big: nat, env: Env) {
    && i < |n.rounds| == |m.rounds|
    && var rd := n.rounds[i];
       m.rounds[i] == rd.(votes := m.rounds[i].votes, counts := m.rounds[i].counts,
         checked := SecondJudgement(n, i, big, env), timeout := Timer(n, i, big, env),
         prevoteTimeout := rd.prevoteTimeout || (big <= rd.counts.prevotes && Waiting(n, rd, big)),
         precommitTimeout := rd.precommitTimeout || big <= rd.counts.precommits)
  }

  /** After lines 36 and 44. */
  lemma SecondHalf(cr: Crypto, n: Node, i: nat, s: Snap, big: nat, env: Env)
    requires Ready(n, i) && Seen(s, n.rounds[i])
    ensures var rd, m := n.rounds[i], Rule44(cr, Rule36(cr, n, i, s, big, env), i, s, big);
      var polka := Complete(rd) && big <= s.counts.yesPrevotes;
      var j := if polka then Judgement(rd, env.verdict(36, i, rd.proposal)) else rd.checked;
      var accepts := polka && j == Pass && n.step != AtPropose;
      var locks := accepts && n.step == AtPrevote;
      var nils := !locks && n.step == AtPrevote && big <= s.counts.nilPrevotes;
      && Own(n, m, i) && Ready(m, i)
      && m.votes == n.votes + (if locks then [Vote(n.height, n.round, Precommit, rd.id, n.key)]
                               else if nils then [Vote(n.height, n.round, Precommit, NIL_ID, n.key)] else [])
      && m.step == (if locks || nils then AtPrecommit else n.step)
      && m.locked == (if locks then (Some(rd.proposal), n.round) else n.locked)
      && m.valid == (if accepts then (Some(rd.proposal), n.round) else n.valid)
      && m.rounds[i] == rd.(votes := m.rounds[i].votes, counts := m.rounds[i].counts, checked := j)
  {
    hide Rule36, Rule44, Sorted, Shaped;
    LockPart(cr, n, i, s, big, env);
    NilPart(cr, Rule36(cr, n, i, s, big, env), i, s, big);
  }

  /** Between the halves nothing that line 36 looks at has changed but the verdict and the step. */
  lemma Halfway(n: Node, h: Node, i: nat, big: nat, env: Env)
    requires i < |n.rounds| == |h.rounds| && SameData(n.rounds[i], h.rounds[i])
    requires h.step == if PrevoteDue(n, n.rounds[i], big) then AtPrevote else n.step
    requires h.rounds[i].checked == FirstJudgement(n, i, big, env)
    ensures var rd := n.rounds[i];
      var polka := Complete(h.rounds[i]) && big <= rd.counts.yesPrevotes;
      var j := if polka then Judgement(h.rounds[i], env.verdict(36, i, h.rounds[i].proposal)) else h.rounds[i].checked;
      var accepts := polka && j == Pass && h.step != AtPropose;
      && j == SecondJudgement(n, i, big, env) && (accepts <==> Accepts(n, i, big, env))
      && (h.step == AtPrevote <==> Waiting(n, rd, big))
  {
    hide FirstJudgement;
  }

  /** After lines 22 to 44. */
  lemma BothHalves(cr: Crypto, n: Node, i: nat, big: nat, env: Env)
    requires Ready(n, i)
    ensures var s, rd := Look(n, i), n.rounds[i];
      var h := Rule34(Rule28(cr, Rule22(cr, n, i, s, env), i, s, big, env), i, s, big, env);
      var m := Rule44(cr, Rule36(cr, h, i, s, big, env), i, s, big);
      var waits := big <= rd.counts.prevotes && Waiting(n, rd, big);
      && Own(n, m, i) && Ready(m, i) && m.step == StepAfter(n, i, big, env)
      && m.votes == n.votes + FirstVotes(n, i, big, env) + SecondVotes(n, i, big, env)
      && m.locked == (if Waiting(n, rd, big) && Accepts(n, i, big, env) then (Some(rd.proposal), n.round) else n.locked)
      && m.valid == (if Accepts(n, i, big, env) then (Some(rd.proposal), n.round) else n.valid)
      && m.rounds[i] == rd.(votes := m.rounds[i].votes, counts := m.rounds[i].counts,
                            checked := SecondJudgement(n, i, big, env), prevoteTimeout := rd.prevoteTimeout || waits,
                            timeout := if waits && !rd.prevoteTimeout then
                              Some(Timeout(env.now + 5000 + 1000 * n.round, n.height, n.round, AtPrevote))
                            else rd.timeout)
  {
    hide Rule22, Rule28, Rule34, Rule36, Rule44, Ready, FirstJudgement, SecondJudgement, Accepts, Judgement, Waiting;
    var s := Look(n, i);
    var h := Rule34(Rule28(cr, Rule22(cr, n, i, s, env), i, s, big, env), i, s, big, env);
    FirstHalf(cr, n, i, big, env);
    assert Seen(s, h.rounds[i]) by { LookSeen(n, i); }
    SecondHalf(cr, h, i, s, big, env);
    Halfway(n, h, i, big, env);
  }

  lemma LookSeen(n: Node, i: nat)
    requires Ready(n, i)
    ensures Seen(Look(n, i), n.rounds[i]) && Look(n, i).counts == n.rounds[i].counts
  {
  }

  /** What the rules for the current round come to, all together. */
  lemma VoteRulesExactly(cr: Crypto, n: Node, i: nat, big: nat, env: Env)
    requires Ready(n, i)
    ensures var rd, m := n.rounds[i], VoteRules(cr, n, i, Look(n, i), big, env);
      && Own(n, m, i) && Ready(m, i) && EntryAfter(n, m, i, big, env) && m.step == StepAfter(n, i, big, env)
      && m.votes == n.votes + FirstVotes(n, i, big, env) + SecondVotes(n, i, big, env)
      && m.locked == (if Waiting(n, rd, big) && Accepts(n, i, big, env) then (Some(rd.proposal), n.round) else n.locked)
      && m.valid == (if Accepts(n, i, big, env) then (Some(rd.proposal), n.round) else n.valid)
  {
    hide Rule22, Rule28, Rule34, Rule36, Rule44, Rule47, Ready, FirstVotes, SecondVotes, StepAfter, SecondJudgement;
    hide Accepts, Waiting;
    var s := Look(n, i);
    var h := Rule34(Rule28(cr, Rule22(cr, n, i, s, env), i, s, big, env), i, s, big, env);
    var l := Rule44(cr, Rule36(cr, h, i, s, big, env), i, s, big);
    LookSeen(n, i);
    BothHalves(cr, n, i, big, env);
    TimerParts(l, i, s, big, env);
    TimedReady(l, i, Rule47(l, i, s, big, env).rounds[i]);
  }

  // Deciding, catching up and timing out ---------------------------------------------------------

  /** Line 49: the height closes exactly if a quorum precommitted a complete proposal that is found valid. */
  lemma DecisionPart(cr: Crypto, n: Node, i: nat, s: Snap, big: nat, env: Env)
    requires i < |n.rounds| && n.rounds[i].height == n.height && s.decidable == Complete(n.rounds[i])
    ensures var rd, m := n.rounds[i], Rule49(cr, n, i, s, big, env);
      var asked := Complete(rd) && big <= s.counts.yesPrecommits;
      var j := if asked then Judgement(rd, env.verdict(49, i, rd.proposal)) else rd.checked;
      if asked && j == Pass then
        && m.height == n.height + 1 && m.round == 0 && m.locked == (None, -1) == m.valid && m.votes == n.votes
        && m.roster == env.nextRoster(i) && m.committed == n.committed + [rd.(checked := Pass)] && m.key == n.key
      else m == n.(rounds := n.rounds[i := rd.(checked := j)])
  {
    hide StartRound, Check;
    var rd := n.rounds[i];
    if Complete(rd) && big <= s.counts.yesPrecommits {
      var verdict := env.verdict(49, i, rd.proposal);
      CheckForm(n, i, verdict);
      var m := n.(rounds := n.rounds[i := rd.(checked := Judgement(rd, verdict))]);
      StartRoundFrame(cr, CloseHeight(m, i, env.nextRoster(i)), env.now, 0, env.offer(49, i));
    } else {
      assert n.rounds[i := rd] == n.rounds;
    }
  }

  /** Lines 57, 61 and 65 for the current round: at most one thing happens, and only if the timer is due. */
  lemma TimeoutPart(cr: Crypto, n: Node, i: nat, s: Snap, env: Env)
    requires Ready(n, i) && Timed(n.rounds[i]) && s.onRoster
    ensures var m, t := RuleTimeout(cr, n, i, s, env), n.rounds[i].timeout;
      var due := t.Some? && t.value.time <= env.now;
      var prevotes := due && t.value.step == AtPropose && n.step == AtPropose;
      var precommits := due && t.value.step == AtPrevote && n.step == AtPrevote;
      if due && t.value.step == AtPrecommit then
        m == n.(round := n.round + 1, step := m.step, rounds := m.rounds, chunks := m.chunks)
      else
        && m == n.(step := m.step, rounds := m.rounds, votes := m.votes)
        && m.votes == n.votes + (if prevotes then [Vote(n.height, n.round, Prevote, NIL_ID, n.key)]
                                 else if precommits then [Vote(n.height, n.round, Precommit, NIL_ID, n.key)] else [])
        && m.step == (if prevotes then AtPrevote else if precommits then AtPrecommit else n.step)
        && Own(n, m, i) && m.rounds[i] == n.rounds[i].(votes := m.rounds[i].votes, counts := m.rounds[i].counts)
  {
    hide CastVote, StartRound, Sorted, Shaped;
    var t := n.rounds[i].timeout;
    if t.Some? && t.value.time <= env.now {
      if t.value.step == AtPrecommit {
        StartRoundFrame(cr, n, env.now, n.round + 1, env.offer(65, i));
      } else if t.value.step == n.step {
        CastForm(cr, n, i, if n.step == AtPropose then Prevote else Precommit, NIL_ID);
      }
    }
  }

  // The whole turn -------------------------------------------------------------------------------

  /** The turn closes the height: a quorum precommitted the proposal, and it is found valid at the latest now. */
  predicate Decides(n: Node, i: nat, big: nat, env: Env)
    requires i < |n.rounds|
  {
    var rd := n.rounds[i].(checked := SecondJudgement(n, i, big, env));
    && Complete(rd) && big <= rd.counts.yesPrecommits && Judgement(rd, env.verdict(49, i, rd.proposal)) == Pass
  }

  /** The timer is due at the end of the turn, for this step. */
  predicate Due(n: Node, i: nat, big: nat, env: Env, step: Step)
    requires i < |n.rounds|
  {
    var t := Timer(n, i, big, env);
    t.Some? && t.value.time <= env.now && t.value.step == step && !Decides(n, i, big, env)
  }

  /** The nil vote of lines 57 and 61. */
  function LastVotes(n: Node, i: nat, big: nat, env: Env): seq<Vote>
    requires i < |n.rounds|
  {
    var step := StepAfter(n, i, big, env);
    if step == AtPropose && Due(n, i, big, env, AtPropose) then [Vote(n.height, n.round, Prevote, NIL_ID, n.key)]
    else if step == AtPrevote && Due(n, i, big, env, AtPrevote) then
      [Vote(n.height, n.round, Precommit, NIL_ID, n.key)]
    else []
  }

  /** After line 49, in either case. */
  lemma ThroughDecision(cr: Crypto, n: Node, i: nat, big: nat, env: Env)
    requires Ready(n, i)
    ensures var s, rd := Look(n, i), n.rounds[i];
      var m := Rule49(cr, VoteRules(cr, n, i, s, big, env), i, s, big, env);
      && m.key == n.key && m.votes == n.votes + FirstVotes(n, i, big, env) + SecondVotes(n, i, big, env)
      && if Decides(n, i, big, env) then
           && m.height == n.height + 1 && m.round == 0 && m.locked == (None, -1) == m.valid
           && m.roster == env.nextRoster(i) && |m.committed| == |n.committed| + 1 && n.committed < m.committed
           && SameData(rd, m.committed[|n.committed|])
         else
           && Own(n, m, i) && Ready(m, i) && m.step == StepAfter(n, i, big, env)
           && m.rounds[i].timeout == Timer(n, i, big, env)
           && m.rounds[i].prevoteTimeout == (rd.prevoteTimeout || (big <= rd.counts.prevotes && Waiting(n, rd, big)))
           && m.rounds[i].precommitTimeout == (rd.precommitTimeout || big <= rd.counts.precommits)
           && m.locked == (if Waiting(n, rd, big) && Accepts(n, i, big, env) then (Some(rd.proposal), n.round)
                           else n.locked)
           && m.valid == (if Accepts(n, i, big, env) then (Some(rd.proposal), n.round) else n.valid)
  {
    hide VoteRules, Rule49, Ready, FirstVotes, SecondVotes, StepAfter, SecondJudgement, Accepts, Waiting, Timer;
    var s := Look(n, i);
    var v := VoteRules(cr, n, i, s, big, env);
    LookSeen(n, i);
    VoteRulesExactly(cr, n, i, big, env);
    assert Current(v, i) by { ReadyIsCurrent(v, i); }
    DecisionPart(cr, v, i, s, big, env);
    JudgedReady(v, i, Judgement(v.rounds[i], env.verdict(49, i, v.rounds[i].proposal)));
    JudgedReady(v, i, v.rounds[i].checked);
  }

  lemma ReadyIsCurrent(n: Node, i: nat)
    requires Ready(n, i)
    ensures Current(n, i)
  {
  }

  /** A node in good order in a round of its own, asked to update with answers that fit. */
  ghost predicate InTurn(w: World, cr: Crypto, n: Node, i: nat, env: Env, start: nat) {
    && WorldOk(w, cr) && Good(w, cr, n, start) && i < |n.rounds| && n.rounds[i].height == n.height
    && InRange(n) && EnvOk(w, env, n.height) && n.height + 1 < 0x1_0000_0000_0000_0000
  }

  /** Once the height is closed the turn is over. */
  lemma ClosedIsOver(w: World, cr: Crypto, n: Node, i: nat, small: nat, env: Env, start: nat)
    requires InTurn(w, cr, n, i, env, start)
    requires var s, big := Look(n, i), Big(Total(ActiveAt(w, n.height)));
      Rule49(cr, VoteRules(cr, n, i, s, big, env), i, s, big, env).height == n.height + 1
    ensures var s, big := Look(n, i), Big(Total(ActiveAt(w, n.height)));
      Turn(cr, n, i, big, small, env) == Rule49(cr, VoteRules(cr, n, i, s, big, env), i, s, big, env)
  {
    hide Rule49, Rule55, RuleTimeout, VoteRules, Good;
    var s, big := Look(n, i), Big(Total(ActiveAt(w, n.height)));
    var v := VoteRules(cr, n, i, s, big, env);
    LookOk(w, cr, n, i, start);
    VoteRulesGood(w, cr, n, i, s, big, env, start);
    SnapKept(w, cr, n, v, i, s, big, start);
    Rule49Good(w, cr, v, i, s, big, env, start);
    DecidedTurnEnds(w, cr, Rule49(cr, v, i, s, big, env), i, s, small, env, start);
  }

  lemma TimelyEntry(w: World, cr: Crypto, n: Node, i: nat, start: nat)
    requires Staked(w) && Good(w, cr, n, start) && i < |n.rounds|
    ensures Timed(n.rounds[i])
  {
  }

  lemma TimerTimed(n: Node, i: nat, big: nat, env: Env, rd: RoundData)
    requires Current(n, i) && Timed(n.rounds[i]) && SameData(n.rounds[i], rd) && rd.timeout == Timer(n, i, big, env)
    ensures Timed(rd)
  {
    hide Waiting;
  }

  /** Line 55 has nothing to do with the current round. */
  lemma NothingToCatchUp(cr: Crypto, n: Node, i: nat, s: Snap, small: nat, env: Env)
    requires Current(n, i)
    ensures Rule55(cr, n, i, s, small, env) == n
  {
  }

  /**
   * What a turn on the current round comes to. The votes it casts are, in this order, the prevote that the proposal
   * calls for, the precommit that the prevotes call for, and the nil vote of a timer that is due. It closes the
   * height exactly if it decides, and goes on to the next round exactly if the precommit timer is due.
   */
  lemma TurnExactly(w: World, cr: Crypto, n: Node, i: nat, small: nat, env: Env, start: nat)
    requires InTurn(w, cr, n, i, env, start) && n.rounds[i].round == n.round && Seat(n).Some?
    ensures var big, rd := Big(Total(ActiveAt(w, n.height))), n.rounds[i];
      var t := Turn(cr, n, i, big, small, env);
      && t.votes == n.votes + FirstVotes(n, i, big, env) + SecondVotes(n, i, big, env) + LastVotes(n, i, big, env)
      && t.key == n.key
      && if Decides(n, i, big, env) then
           && t.height == n.height + 1 && t.round == 0 && t.locked == (None, -1) == t.valid
           && t.roster == env.nextRoster(i) && |t.committed| == |n.committed| + 1 && n.committed < t.committed
           && SameData(rd, t.committed[|n.committed|])
         else
           && t.height == n.height && t.roster == n.roster && t.committed == n.committed
           && t.round == (if Due(n, i, big, env, AtPrecommit) then n.round + 1 else n.round)
           && t.locked == (if Waiting(n, rd, big) && Accepts(n, i, big, env) then (Some(rd.proposal), n.round)
                           else n.locked)
           && t.valid == (if Accepts(n, i, big, env) then (Some(rd.proposal), n.round) else n.valid)
           && (t.round == n.round ==>
                 && i < |t.rounds| && t.rounds[i].timeout == Timer(n, i, big, env)
                 && t.rounds[i].prevoteTimeout ==
                    (rd.prevoteTimeout || (big <= rd.counts.prevotes && Waiting(n, rd, big)))
                 && t.rounds[i].precommitTimeout == (rd.precommitTimeout || big <= rd.counts.precommits))
  {
    hide VoteRules, Rule49, Rule55, RuleTimeout, Good, Ready, FirstVotes, SecondVotes, StepAfter, Accepts, Waiting;
    hide Timer, Decides, Timed, EnvOk;
    var big, s := Big(Total(ActiveAt(w, n.height))), Look(n, i);
    var m := Rule49(cr, VoteRules(cr, n, i, s, big, env), i, s, big, env);
    GoodIsReady(w, cr, n, i, start);
    ThroughDecision(cr, n, i, big, env);
    if Decides(n, i, big, env) {
      ClosedIsOver(w, cr, n, i, small, env, start);
    } else {
      LookSeen(n, i);
      ReadyIsCurrent(m, i);
      NothingToCatchUp(cr, m, i, s, small, env);
      TimelyEntry(w, cr, n, i, start);
      TimerTimed(n, i, big, env, m.rounds[i]);
      TimeoutPart(cr, m, i, s, env);
    }
  }

  // Rounds other than the current one ------------------------------------------------------------

  lemma NoVoteRules(cr: Crypto, n: Node, i: nat, big: nat, env: Env)
    requires !Current(n, i) || Seat(n).None?
    requires i < |n.rounds|
    ensures VoteRules(cr, n, i, Look(n, i), big, env) == n
  {
  }

  /** Line 55, and that the timer it sets is not due. */
  lemma CatchUpPart(w: World, cr: Crypto, n: Node, i: nat, s: Snap, small: nat, env: Env, start: nat)
    requires InTurn(w, cr, n, i, env, start) && (n.rounds[i].round != n.round || !s.onRoster)
    requires InRange(RuleTimeout(cr, Rule55(cr, n, i, s, small, env), i, s, env))
    ensures var m := RuleTimeout(cr, Rule55(cr, n, i, s, small, env), i, s, env);
      if s.onRoster && n.round < n.rounds[i].round && small <= s.counts.anys then
        m == n.(round := n.rounds[i].round, step := m.step, rounds := m.rounds, chunks := m.chunks)
      else m == n
  {
    hide StartRound, CastVote;
    var r := n.rounds[i].round;
    if s.onRoster && n.round < r && small <= s.counts.anys {
      StartRoundFrame(cr, n, env.now, r, env.offer(55, i));
      TimeoutGrows(cr, Rule55(cr, n, i, s, small, env), i, s, env);
      LaterRoundMayEnter(w, cr, n, r, start);
      StartRoundTimer(w, cr, n, env.now, r, env.offer(55, i), start);
      AtIsFound(n.rounds, i, n.height, r);
    } else {
      TimelyEntry(w, cr, n, i, start);
    }
  }

  /**
   * What a turn on another round comes to, or that of a node without a seat. It casts no vote. It closes the height
   * exactly if a quorum precommitted a complete proposal that is found valid, and otherwise enters the round
   * exactly if the round is later, the node has a seat and more than a third of the stake has voted there.
   */
  lemma OtherTurnExactly(w: World, cr: Crypto, n: Node, i: nat, env: Env, start: nat)
    requires InTurn(w, cr, n, i, env, start) && (n.rounds[i].round != n.round || Seat(n).None?)
    requires InRange(Turn(cr, n, i, Big(Total(ActiveAt(w, n.height))), Small(Total(ActiveAt(w, n.height))), env))
    ensures var total, rd := Total(Active(n.roster)), n.rounds[i];
      total >= 1 &&
      var f := (total - 1) / 3;
      var big, small := if f == 0 then total else 2 * f + 1, if f == 0 then total else f + 1;
      var t := TurnWith(cr, total, env)(n, i);
      && t.votes == n.votes && t.key == n.key
      && if && Complete(rd) && big <= rd.counts.yesPrecommits
            && Judgement(rd, env.verdict(49, i, rd.proposal)) == Pass
         then
           && t.height == n.height + 1 && t.round == 0 && t.locked == (None, -1) == t.valid
           && t.roster == env.nextRoster(i) && t.committed == n.committed + [rd.(checked := Pass)]
         else
           && t.height == n.height && t.roster == n.roster && t.committed == n.committed
           && t.locked == n.locked && t.valid == n.valid
           && t.round == if Seat(n).Some? && n.round < rd.round && small <= rd.counts.anys then rd.round else n.round
  {
    hide VoteRules, Rule49, Rule55, RuleTimeout, Good, EnvOk, Complete, Judgement;
    var total, s := Total(Active(n.roster)), Look(n, i);
    assert total == Total(ActiveAt(w, n.height)) by { SameTotal(w, cr, n, start); }
    var big, small := Big(total), Small(total);
    NoVoteRules(cr, n, i, big, env);
    assert s.decidable == Complete(n.rounds[i]) by { LookComplete(n, i); }
    DecisionPart(cr, n, i, s, big, env);
    var m := Rule49(cr, n, i, s, big, env);
    if m.height == n.height + 1 {
      ClosedIsOver(w, cr, n, i, small, env, start);
    } else {
      LookOk(w, cr, n, i, start);
      Rule49Good(w, cr, n, i, s, big, env, start);
      CatchUpPart(w, cr, m, i, s, small, env, start);
    }
  }

  lemma SameTotal(w: World, cr: Crypto, n: Node, start: nat)
    requires Staked(w) && Good(w, cr, n, start)
    ensures Total(Active(n.roster)) == Total(ActiveAt(w, n.height)) >= 1
  {
  }

  lemma LookComplete(n: Node, i: nat)
    requires i < |n.rounds|
    ensures Look(n, i).decidable == Complete(n.rounds[i])
  {
  }

  // Single votes ---------------------------------------------------------------------------------

  /** Entry `i` is that of the current round, and the node has a seat. */
  ghost predicate OnTurn(w: World, cr: Crypto, n: Node, i: nat, env: Env, start: nat) {
    InTurn(w, cr, n, i, env, start) && n.rounds[i].round == n.round && Seat(n).Some?
  }

  /** The proposal is known to be valid, or is found valid by the closure's answer at this line. */
  predicate FoundValid(rd: RoundData, i: nat, line: nat, env: Env) {
    rd.checked == Pass || (rd.checked == Indeterminate && !rd.faulty && env.verdict(line, i, rd.proposal) == Pass)
  }

  /** Line 22: a first proposal is prevoted exactly if it is valid and nothing else is locked, and nil otherwise. */
  lemma FirstProposalVote(w: World, cr: Crypto, n: Node, i: nat, small: nat, env: Env, start: nat)
    requires OnTurn(w, cr, n, i, env, start) && n.step == AtPropose
    requires var rd := n.rounds[i]; rd.validRound == -1 && (rd.faulty || (rd.sigsN > 0 && rd.sigsN == |rd.sigs|))
    ensures var rd, t := n.rounds[i], Turn(cr, n, i, Big(Total(ActiveAt(w, n.height))), small, env);
      var yes := FoundValid(rd, i, 22, env) && (n.locked.1 == -1 || n.locked.0 == Some(rd.proposal));
      && |n.votes| < |t.votes| && n.votes <= t.votes
      && t.votes[|n.votes|] == Vote(n.height, n.round, Prevote, if yes then rd.id else NIL_ID, n.key)
  {
    hide Turn, Good, SecondVotes, LastVotes, Decides;
    TurnExactly(w, cr, n, i, small, env, start);
  }

  /**
   * Line 28: a repeated proposal with a quorum of this round's prevotes is prevoted exactly if it is valid and the
   * lock is not newer than its valid round or is on it, and nil otherwise.
   */
  lemma RepeatedProposalVote(w: World, cr: Crypto, n: Node, i: nat, small: nat, env: Env, start: nat)
    requires OnTurn(w, cr, n, i, env, start) && n.step == AtPropose
    requires var rd := n.rounds[i];
      && 0 <= rd.validRound < n.round && (rd.faulty || (rd.sigsN > 0 && rd.sigsN == |rd.sigs|))
      && Big(Total(ActiveAt(w, n.height))) <= rd.counts.yesPrevotes
    ensures var rd, t := n.rounds[i], Turn(cr, n, i, Big(Total(ActiveAt(w, n.height))), small, env);
      var yes := FoundValid(rd, i, 28, env) && (n.locked.1 <= rd.validRound || n.locked.0 == Some(rd.proposal));
      && |n.votes| < |t.votes| && n.votes <= t.votes
      && t.votes[|n.votes|] == Vote(n.height, n.round, Prevote, if yes then rd.id else NIL_ID, n.key)
  {
    hide Turn, Good, SecondVotes, LastVotes, Decides;
    TurnExactly(w, cr, n, i, small, env, start);
  }

  /**
   * Lines 36 and 44 for a node that has prevoted: it precommits and locks a valid proposal that a quorum prevoted,
   * precommits nil if a quorum prevoted nil, and otherwise, its timer not being due, waits.
   */
  lemma PrecommitVote(w: World, cr: Crypto, n: Node, i: nat, small: nat, env: Env, start: nat)
    requires OnTurn(w, cr, n, i, env, start) && n.step == AtPrevote
    requires n.rounds[i].timeout.None? || n.rounds[i].timeout.value.time > env.now
    ensures var big, rd := Big(Total(ActiveAt(w, n.height))), n.rounds[i];
      var t := Turn(cr, n, i, big, small, env);
      var yes := && (rd.faulty || (rd.sigsN > 0 && rd.sigsN == |rd.sigs|)) && big <= rd.counts.yesPrevotes
                 && FoundValid(rd, i, 36, env);
      && t.votes == n.votes + (if yes then [Vote(n.height, n.round, Precommit, rd.id, n.key)]
                               else if big <= rd.counts.nilPrevotes then
                                 [Vote(n.height, n.round, Precommit, NIL_ID, n.key)]
                               else [])
      && (t.height == n.height ==>
            && t.locked == (if yes then (Some(rd.proposal), n.round) else n.locked)
            && t.valid == (if yes then (Some(rd.proposal), n.round) else n.valid))
  {
    hide Turn, Good;
    TurnExactly(w, cr, n, i, small, env, start);
  }

  /** Line 36 after the precommit: the proposal becomes the valid value, and neither vote nor lock changes. */
  lemma ValidRefreshed(w: World, cr: Crypto, n: Node, i: nat, small: nat, env: Env, start: nat)
    requires OnTurn(w, cr, n, i, env, start) && n.step == AtPrecommit
    ensures var big, rd := Big(Total(ActiveAt(w, n.height))), n.rounds[i];
      var t := Turn(cr, n, i, big, small, env);
      var yes := && (rd.faulty || (rd.sigsN > 0 && rd.sigsN == |rd.sigs|)) && big <= rd.counts.yesPrevotes
                 && FoundValid(rd, i, 36, env);
      && t.votes == n.votes
      && (t.height == n.height ==>
            t.locked == n.locked && t.valid == if yes then (Some(rd.proposal), n.round) else n.valid)
  {
    hide Turn, Good;
    TurnExactly(w, cr, n, i, small, env, start);
  }

  /**
   * A proposal marked as faulty before it was found valid gets only nil votes, is neither locked nor remembered as
   * valid, and does not close the height.
   */
  lemma FaultyIsRefused(w: World, cr: Crypto, n: Node, i: nat, small: nat, env: Env, start: nat)
    requires OnTurn(w, cr, n, i, env, start) && n.rounds[i].faulty && n.rounds[i].checked != Pass
    ensures var t := Turn(cr, n, i, Big(Total(ActiveAt(w, n.height))), small, env);
      && n.votes <= t.votes && (forall x :: |n.votes| <= x < |t.votes| ==> t.votes[x].id == NIL_ID)
      && t.height == n.height && t.committed == n.committed && t.locked == n.locked && t.valid == n.valid
  {
    hide Turn, Good;
    TurnExactly(w, cr, n, i, small, env, start);
  }

  // What is proposed -----------------------------------------------------------------------------

  lemma EntersWith(w: World, cr: Crypto, n: Node, now: nat, r: nat, offer: Option<Value>)
    requires WorldOk(w, cr) && n.roster == w.rosterAt(n.height) && (n.valid.0.None? ==> n.valid.1 == -1)
    ensures var m := StartRound(cr, n, now, r, offer);
      m.step == AtPropose && Offers(cr, n.key, n.roster, n.height, r, n.valid, offer, n.chunks, m.chunks)
  {
    hide StartRound, ProposerKey, Offers, WorldOk;
    if ProposerKey(cr, n.roster, n.height, r) == n.key {
      ProposerSeated(w, cr, n.(round := r));
    }
    StartRoundSigns(cr, n, now, r, offer, offer);
  }

  lemma DecisionOffers(w: World, cr: Crypto, n: Node, i: nat, s: Snap, big: nat, env: Env)
    requires WorldOk(w, cr) && i < |n.rounds| && n.rounds[i].height == n.height && EnvOk(w, env, n.height)
    ensures var m := Rule49(cr, n, i, s, big, env);
      if m.height == n.height then m.chunks == n.chunks
      else
        && m.step == AtPropose
        && Offers(cr, n.key, env.nextRoster(i), n.height + 1, 0, (None, -1), env.offer(49, i), n.chunks, m.chunks)
  {
    hide StartRound, Offers, WorldOk;
    var m := Check(n, i, env.verdict(49, i, Get(n, i).proposal));
    var c := CloseHeight(m, i, env.nextRoster(i));
    StartRoundFrame(cr, c, env.now, 0, env.offer(49, i));
    EntersWith(w, cr, c, env.now, 0, env.offer(49, i));
  }

  /** After line 49, still in the height, a node is in good order and has signed no chunk. */
  lemma UndecidedGood(w: World, cr: Crypto, n: Node, i: nat, env: Env, start: nat)
    requires InTurn(w, cr, n, i, env, start)
    ensures var s, big := Look(n, i), Big(Total(ActiveAt(w, n.height)));
      var m := Rule49(cr, VoteRules(cr, n, i, s, big, env), i, s, big, env);
      m.height == n.height ==>
        && InTurn(w, cr, m, i, env, start) && m.chunks == n.chunks && m.key == n.key && m.roster == n.roster
        && m.round == n.round && m.rounds[i].round == n.rounds[i].round
  {
    hide Rule49, VoteRules, Good, EnvOk;
    var s, big := Look(n, i), Big(Total(ActiveAt(w, n.height)));
    var v := VoteRules(cr, n, i, s, big, env);
    LookOk(w, cr, n, i, start);
    VoteRulesGood(w, cr, n, i, s, big, env, start);
    SnapKept(w, cr, n, v, i, s, big, start);
    Rule49Good(w, cr, v, i, s, big, env, start);
  }

  lemma OtherTurnOffers(w: World, cr: Crypto, n: Node, i: nat, s: Snap, small: nat, env: Env, start: nat)
    requires InTurn(w, cr, n, i, env, start) && (n.rounds[i].round != n.round || !s.onRoster)
    requires InRange(RuleTimeout(cr, Rule55(cr, n, i, s, small, env), i, s, env))
    ensures var t := RuleTimeout(cr, Rule55(cr, n, i, s, small, env), i, s, env);
      t.height == n.height && if t.round == n.round then t.chunks == n.chunks
      else
        && t.step == AtPropose
        && Offers(cr, n.key, n.roster, n.height, t.round, t.valid, env.offer(55, i), n.chunks, t.chunks)
  {
    hide StartRound, CastVote, Offers, Good, EnvOk;
    CatchUpPart(w, cr, n, i, s, small, env, start);
    var r := n.rounds[i].round;
    if s.onRoster && n.round < r && small <= s.counts.anys {
      CatchUpIsLast(w, cr, n, i, s, small, env, start);
      ValidFits(w, cr, n, start);
      StartRoundFrame(cr, n, env.now, r, env.offer(55, i));
      EntersWith(w, cr, n, env.now, r, env.offer(55, i));
    }
  }

  lemma CatchUpIsLast(w: World, cr: Crypto, n: Node, i: nat, s: Snap, small: nat, env: Env, start: nat)
    requires InTurn(w, cr, n, i, env, start) && InRange(RuleTimeout(cr, Rule55(cr, n, i, s, small, env), i, s, env))
    requires s.onRoster && n.round < n.rounds[i].round && small <= s.counts.anys
    ensures RuleTimeout(cr, Rule55(cr, n, i, s, small, env), i, s, env) ==
      StartRound(cr, n, env.now, n.rounds[i].round, env.offer(55, i))
  {
    hide StartRound, CastVote;
    var r := n.rounds[i].round;
    StartRoundFrame(cr, n, env.now, r, env.offer(55, i));
    TimeoutGrows(cr, Rule55(cr, n, i, s, small, env), i, s, env);
    LaterRoundMayEnter(w, cr, n, r, start);
    StartRoundTimer(w, cr, n, env.now, r, env.offer(55, i), start);
    AtIsFound(n.rounds, i, n.height, r);
  }

  lemma CurrentTurnOffers(w: World, cr: Crypto, n: Node, i: nat, s: Snap, small: nat, env: Env, start: nat)
    requires InTurn(w, cr, n, i, env, start) && n.rounds[i].round == n.round
    ensures var t := RuleTimeout(cr, Rule55(cr, n, i, s, small, env), i, s, env);
      t.height == n.height && if t.round == n.round then t.chunks == n.chunks
      else
        && t.step == AtPropose
        && Offers(cr, n.key, n.roster, n.height, t.round, t.valid, env.offer(65, i), n.chunks, t.chunks)
  {
    hide StartRound, CastVote, Offers, Good, EnvOk;
    ValidFits(w, cr, n, start);
    EntersWith(w, cr, n, env.now, n.round + 1, env.offer(65, i));
    StartRoundFrame(cr, n, env.now, n.round + 1, env.offer(65, i));
    CastKeeps(cr, n, i, Prevote);
    CastKeeps(cr, n, i, Precommit);
  }

  lemma CastKeeps(cr: Crypto, n: Node, i: nat, k: Kind)
    ensures var m := CastVote(cr, n, i, k, NIL_ID);
      m.chunks == n.chunks && m.round == n.round && m.height == n.height
  {
  }

  /**
   * What a turn signs besides votes: chunks only on entering a round, as `Offers` says. A closed height opens the next
   * one with what the closure answers at line 49, a due precommit timer the next round with what it answers at line
   * 65, and a later round that is caught up with takes its answer at line 55.
   */
  lemma TurnOffers(w: World, cr: Crypto, n: Node, i: nat, env: Env, start: nat)
    requires InTurn(w, cr, n, i, env, start)
    requires InRange(Turn(cr, n, i, Big(Total(ActiveAt(w, n.height))), Small(Total(ActiveAt(w, n.height))), env))
    ensures var total := Total(ActiveAt(w, n.height));
      var t := Turn(cr, n, i, Big(total), Small(total), env);
      if t.height != n.height then
        && t.step == AtPropose
        && Offers(cr, n.key, env.nextRoster(i), n.height + 1, 0, (None, -1), env.offer(49, i), n.chunks, t.chunks)
      else if t.round == n.round then t.chunks == n.chunks
      else
        && t.step == AtPropose
        && Offers(cr, n.key, n.roster, n.height, t.round, t.valid,
                  env.offer(if n.rounds[i].round == n.round then 65 else 55, i), n.chunks, t.chunks)
  {
    hide VoteRules, Rule49, Rule55, RuleTimeout, Good, EnvOk, Offers;
    var total, s := Total(ActiveAt(w, n.height)), Look(n, i);
    var big, small := Big(total), Small(total);
    var v := VoteRules(cr, n, i, s, big, env);
    var m := Rule49(cr, v, i, s, big, env);
    LookOk(w, cr, n, i, start);
    VoteRulesGood(w, cr, n, i, s, big, env, start);
    DecisionOffers(w, cr, v, i, s, big, env);
    if m.height == n.height {
      UndecidedGood(w, cr, n, i, env, start);
      if n.rounds[i].round == n.round {
        CurrentTurnOffers(w, cr, m, i, s, small, env, start);
      } else {
        OtherTurnOffers(w, cr, m, i, s, small, env, start);
      }
    } else {
      Rule49Height(w, cr, n, i, env, start);
      ClosedIsOver(w, cr, n, i, small, env, start);
    }
  }

  lemma Rule49Height(w: World, cr: Crypto, n: Node, i: nat, env: Env, start: nat)
    requires InTurn(w, cr, n, i, env, start)
    ensures var s, big := Look(n, i), Big(Total(ActiveAt(w, n.height)));
      var m := Rule49(cr, VoteRules(cr, n, i, s, big, env), i, s, big, env);
      m.height == n.height || m.height == n.height + 1
  {
    hide Rule49, VoteRules, Good, EnvOk;
    var s, big := Look(n, i), Big(Total(ActiveAt(w, n.height)));
    var v := VoteRules(cr, n, i, s, big, env);
    LookOk(w, cr, n, i, start);
    VoteRulesGood(w, cr, n, i, s, big, env, start);
    SnapKept(w, cr, n, v, i, s, big, start);
    Rule49Good(w, cr, v, i, s, big, env, start);
  }

  // The whole update -----------------------------------------------------------------------------

  /** The nodes between the turns of an update that visits the entries from `cut` on, one after the other. */
  ghost predicate Turns(cr: Crypto, trace: seq<Node>, cut: nat, total: nat, env: Env) {
    && total >= 1 && |trace| > 0
    && forall k :: 0 <= k < |trace| - 1 ==>
         trace[k + 1] == Turn(cr, trace[k], cut + k, Big(total), Small(total), env)
  }

  ghost predicate Trace(turn: (Node, nat) -> Node, trace: seq<Node>, from: nat) {
    |trace| > 0 && forall k :: 0 <= k < |trace| - 1 ==> trace[k + 1] == turn(trace[k], from + k)
  }

  lemma TraceMore(turn: (Node, nat) -> Node, n: Node, rest: seq<Node>, from: nat)
    requires Trace(turn, rest, from + 1) && rest[0] == turn(n, from)
    ensures Trace(turn, [n] + rest, from)
  {
    var trace := [n] + rest;
    forall k | 0 <= k < |trace| - 1
      ensures trace[k + 1] == turn(trace[k], from + k)
    {
      if k > 0 {
        assert rest[k - 1 + 1] == turn(rest[k - 1], from + 1 + (k - 1));
      }
    }
  }

  lemma {:induction false} LoopTrace(turn: (Node, nat) -> Node, n: Node, from: nat, to: nat) returns (trace: seq<Node>)
    requires from <= to
    ensures Trace(turn, trace, from) && |trace| == to - from + 1 && trace[0] == n
    ensures trace[|trace| - 1] == Loop(turn, n, from, to)
    decreases if from < to then to - from else 0
  {
    if from == to {
      trace := [n];
    } else {
      var rest := LoopTrace(turn, turn(n, from), from + 1, to);
      TraceMore(turn, n, rest, from);
      trace := [n] + rest;
    }
  }

  lemma TraceOfTurns(cr: Crypto, trace: seq<Node>, cut: nat, total: nat, env: Env)
    requires total >= 1 && Trace(TurnWith(cr, total, env), trace, cut)
    ensures Turns(cr, trace, cut, total, env)
  {
    hide Turn;
    var turn := TurnWith(cr, total, env);
    forall k | 0 <= k < |trace| - 1
      ensures trace[k + 1] == Turn(cr, trace[k], cut + k, Big(total), Small(total), env)
    {
      assert trace[k + 1] == turn(trace[k], cut + k);
    }
  }

  lemma CutIsFirst(w: World, cr: Crypto, n: Node, start: nat)
    requires Staked(w) && Good(w, cr, n, start)
    ensures var cut := FirstOfHeight(n);
      && cut < |n.rounds| && (forall i :: 0 <= i < |n.rounds| ==> (n.rounds[i].height == n.height <==> cut <= i))
  {
    var cut :| Cut(n, cut);
    FirstIsCut(n, cut);
  }

  /** An update is one turn for every entry of the current height that is there when it begins, in order. */
  lemma UpdateIsTurns(w: World, cr: Crypto, n: Node, env: Env, start: nat) returns (cut: nat, trace: seq<Node>)
    requires WorldOk(w, cr) && Good(w, cr, n, start)
    ensures cut < |n.rounds| && forall i :: 0 <= i < |n.rounds| ==> (n.rounds[i].height == n.height <==> cut <= i)
    ensures |trace| == |n.rounds| - cut + 1 && trace[0] == n
    ensures Total(Active(n.roster)) >= 1 && Turns(cr, trace, cut, Total(Active(n.roster)), env)
    ensures trace[|trace| - 1] == Update(cr, n, env)
  {
    hide Turn, Good, TurnWith, Turns, Trace, Loop, FirstOfHeight;
    SameTotal(w, cr, n, start);
    CutIsFirst(w, cr, n, start);
    var total := Total(Active(n.roster));
    cut := FirstOfHeight(n);
    trace := LoopTrace(TurnWith(cr, total, env), n, cut, |n.rounds|);
    TraceOfTurns(cr, trace, cut, total, env);
  }
}
