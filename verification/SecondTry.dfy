/** A run in which a locked value is proposed again and decided, and how much faulty stake that takes. */
module SecondTry {
  import opened Types
  import opened Roster
  import opened VoteLog
  import opened Messages
  import opened Rounds
  import opened Node
  import opened Invariant
  import opened Steps
  import opened Updates
  import opened Network
  import opened Scenario
  import opened Episodes
  import opened Repeats
  import Tightness

  // Turns ----------------------------------------------------------------------------------------

  /** A quorum has precommitted, but not one value: the node gives the round its last timer. */
  lemma TurnTally(lot: (nat, nat) -> nat, n: Node, j: nat, i: nat, v: Value, votes: seq<Slots>, c: Counts,
                  timer: Option<Timeout>, big: nat, small: nat, env: Env)
    requires Placed1(n, j, i) && n.step == AtPrecommit && n.valid == (Some(v), n.round)
    requires n.rounds[i] == Offered1(v, n.round, Pass, votes, c, timer, true)
    requires big <= c.yesPrevotes && c.nilPrevotes < big && c.yesPrecommits < big <= c.precommits
    ensures Turn(Lab(lot), n, i, big, small, env) ==
      n.(rounds := n.rounds[i := Final1(v, n.round, votes, c, env.now)])
  {
    hide VoteRules, Sorted, Position, StartRound, CastVote;
    TallyTurn(lot, n, j, i, v, votes, c, timer, big, env);
  }

  /** The last timer is due: the node enters the next round, still locked. */
  lemma TurnMoveOn(lot: (nat, nat) -> nat, n: Node, j: nat, i: nat, v: Value, votes: seq<Slots>, c: Counts, since: nat,
                   big: nat, small: nat, env: Env)
    requires Placed1(n, j, i) && n.step == AtPrecommit && n.valid == (Some(v), n.round)
    requires n.rounds[i] == Final1(v, n.round, votes, c, since) && since + 5000 + 1000 * n.round <= env.now
    requires big <= c.yesPrevotes && c.nilPrevotes < big && c.yesPrecommits < big
    ensures Turn(Lab(lot), n, i, big, small, env) == StartRound(Lab(lot), n, env.now, n.round + 1, env.offer(65, i))
  {
    hide Sorted, Position, StartRound, CastVote;
    assert n.rounds[i := n.rounds[i]] == n.rounds;
  }

  /** The round of a locked value, once left, makes its turn idle. */
  lemma TurnPast(lot: (nat, nat) -> nat, n: Node, i: nat, v: Value, votes: seq<Slots>, c: Counts, since: nat, big: nat,
                 small: nat, env: Env)
    requires i < |n.rounds| && n.height == 0 && n.rounds[i].round < n.round
    requires n.rounds[i] == Final1(v, n.rounds[i].round, votes, c, since) && c.yesPrecommits < big
    ensures Turn(Lab(lot), n, i, big, small, env) == n
  {
    hide CastVote, StartRound;
  }

  /** What the counts become when one more member prevotes and precommits the value. */
  function Joined(c: Counts, s: nat): Counts {
    Counts(c.anys + s, c.prevotes + s, c.nilPrevotes, c.yesPrevotes + s, c.precommits + s, c.yesPrecommits + s)
  }

  /** What the counts become when one more member prevotes the value. */
  function Prevoted(c: Counts, s: nat): Counts {
    c.(anys := c.anys + s, prevotes := c.prevotes + s, yesPrevotes := c.yesPrevotes + s)
  }

  /** The round of a value that is proposed again. */
  function Again(v: Value, r: nat, vr: int, checked: Status, votes: seq<Slots>, c: Counts, timer: Option<Timeout>,
                 timed: bool): RoundData {
    Offered1(v, r, checked, votes, c, timer, timed, vr)
  }

  /** Line 28: a quorum has prevoted the value that the node is locked on, and the node follows. */
  lemma RepeatPrevote(lot: (nat, nat) -> nat, n: Node, j: nat, i: nat, v: Value, votes: seq<Slots>, c: Counts,
                      timer: Option<Timeout>, vr: int, big: nat, env: Env)
    requires Placed1(n, j, i) && Short(v) && n.step == AtPropose && n.locked == (Some(v), vr) && 0 <= vr < n.round
    requires n.rounds[i] == Again(v, n.round, vr, Indeterminate, votes, c, timer, false)
    requires j < |votes| && votes[j] == NO_VOTES && env.verdict(28, i, v) == Pass && big <= c.yesPrevotes
    ensures j < ActiveLen(n.roster) && var s, id := Active(n.roster)[j].stake, IdOf(v);
      Rule28(Lab(lot), n, i, Look(n, i), big, env) ==
        n.(votes := n.votes + [Vote(0, n.round, Prevote, id, n.key)], step := AtPrevote, rounds := n.rounds[i :=
          Again(v, n.round, vr, Pass, votes[j := Slots(Yes(id), NO_VOTE)], Prevoted(c, s), timer, false)])
  {
    hide CastVote, AddVote, Sorted, LowerBound, Position;
    Names();
    var rd := Again(v, n.round, vr, Pass, votes, c, timer, false);
    var checked := n.(rounds := n.rounds[i := rd]);
    assert Check(n, i, Pass) == checked;
    assert Placed1(checked, j, i) by { CheckedPlaced(n, j, i, rd); }
    CastAt(lot, checked, j, i, Prevote, IdOf(v));
    PrevoteAdded(rd, j, IdOf(v), Active(n.roster));
    var last := AddVote(rd, Prevote, j, IdOf(v), MARK, Active(n.roster)).0;
    assert checked.rounds[i := last] == n.rounds[i := last];
  }

  /** Lines 34 and 36 in the same turn: the node locks the value once more and precommits. */
  lemma RepeatPrecommit(lot: (nat, nat) -> nat, n: Node, j: nat, i: nat, v: Value, votes: seq<Slots>, c: Counts,
                        timer: Option<Timeout>, vr: int, s: Snap, big: nat, env: Env)
    requires Placed1(n, j, i) && Short(v) && n.step == AtPrevote && s.onRoster && s.current && s.decidable
    requires n.rounds[i] == Again(v, n.round, vr, Pass, votes, c, timer, false)
    requires j < |votes| && votes[j] == Slots(Yes(IdOf(v)), NO_VOTE) && big <= s.counts.yesPrevotes <= s.counts.prevotes
    ensures j < ActiveLen(n.roster) && var t, x, id :=
      NewTimeout(env.now, 0, n.round, AtPrevote), Active(n.roster)[j].stake, IdOf(v);
      Rule36(Lab(lot), Rule34(n, i, s, big, env), i, s, big, env) ==
        n.(votes := n.votes + [Vote(0, n.round, Precommit, id, n.key)], step := AtPrecommit,
           locked := (Some(v), n.round), valid := (Some(v), n.round), rounds := n.rounds[i :=
             Again(v, n.round, vr, Pass, votes[j := Slots(Yes(id), Yes(id))],
               c.(precommits := c.precommits + x, yesPrecommits := c.yesPrecommits + x), t, true)])
  {
    hide CastVote, AddVote, Sorted, LowerBound, Position;
    Names();
    var t := NewTimeout(env.now, 0, n.round, AtPrevote);
    var rd := Again(v, n.round, vr, Pass, votes, c, t, true);
    var timed := n.(rounds := n.rounds[i := rd]);
    assert Rule34(n, i, s, big, env) == timed;
    assert Check(timed, i, env.verdict(36, i, v)) == timed by { assert timed.rounds[i := rd] == timed.rounds; }
    var locked := timed.(locked := (Some(v), n.round));
    assert Placed1(locked, j, i) by { CheckedPlaced(n, j, i, rd); }
    CastAt(lot, locked, j, i, Precommit, IdOf(v));
    PrecommitAdded(rd, j, IdOf(v), Active(n.roster));
    var last := AddVote(rd, Precommit, j, IdOf(v), MARK, Active(n.roster)).0;
    assert locked.rounds[i := last] == n.rounds[i := last];
  }

  /** A quorum has prevoted the value again: the node, locked on it, prevotes, locks and precommits in one turn. */
  lemma TurnRepeat(lot: (nat, nat) -> nat, n: Node, j: nat, i: nat, v: Value, votes: seq<Slots>, c: Counts,
                   timer: Option<Timeout>, vr: int, big: nat, small: nat, env: Env)
    requires Placed1(n, j, i) && Short(v) && n.step == AtPropose && n.locked == (Some(v), vr) && 0 <= vr < n.round
    requires n.rounds[i] == Again(v, n.round, vr, Indeterminate, votes, c, timer, false)
    requires j < |votes| && votes[j] == NO_VOTES && env.verdict(28, i, v) == Pass
    requires big <= c.yesPrevotes <= c.prevotes && c.nilPrevotes < big && c.precommits < big && c.yesPrecommits < big
    ensures j < ActiveLen(n.roster) && var t, x, id :=
      NewTimeout(env.now, 0, n.round, AtPrevote), Active(n.roster)[j].stake, IdOf(v);
      Turn(Lab(lot), n, i, big, small, env) ==
        n.(votes := n.votes + [Vote(0, n.round, Prevote, id, n.key)] + [Vote(0, n.round, Precommit, id, n.key)],
           step := AtPrecommit, locked := (Some(v), n.round), valid := (Some(v), n.round),
           rounds := n.rounds[i :=
             Again(v, n.round, vr, Pass, votes[j := Slots(Yes(id), Yes(id))], Joined(c, x), t, true)])
  {
    hide CastVote, AddVote, Sorted, Position, LowerBound, Rule22, Rule28, Rule34, Rule36, Rule44, Rule47, Rule49;
    hide Rule55, RuleTimeout;
    var cr, s, id := Lab(lot), Look(n, i), IdOf(v);
    NotFirst(cr, n, i, s, env);
    RepeatPrevote(lot, n, j, i, v, votes, c, timer, vr, big, env);
    var n28, x := Rule28(cr, n, i, s, big, env), Active(n.roster)[j].stake;
    var voted := votes[j := Slots(Yes(id), NO_VOTE)];
    assert Placed1(n28, j, i) by { CheckedPlaced(n, j, i, n28.rounds[i]); }
    RepeatPrecommit(lot, n28, j, i, v, voted, Prevoted(c, x), timer, vr, s, big, env);
    assert voted[j := Slots(Yes(id), Yes(id))] == votes[j := Slots(Yes(id), Yes(id))];
    var m := Rule36(cr, Rule34(n28, i, s, big, env), i, s, big, env);
    assert m.rounds == n.rounds[i := m.rounds[i]];
    AfterPrecommit(cr, m, i, s, big, small, env);
  }

  lemma NotFirst(cr: Crypto, n: Node, i: nat, s: Snap, env: Env)
    requires i < |n.rounds| && n.rounds[i].validRound >= 0
    ensures Rule22(cr, n, i, s, env) == n
  {
  }

  // Episodes -------------------------------------------------------------------------------------

  lemma NilPrecommitAdded(rd: RoundData, j: nat, id: ValueId, ms: seq<Member>)
    requires j < |rd.votes| <= |ms| && rd.votes[j] == Slots(Yes(id), NO_VOTE)
    ensures AddVote(rd, Precommit, j, NIL_ID, MARK, ms).0 == rd.(votes := rd.votes[j := Slots(Yes(id), Yes(NIL_ID))],
      counts := rd.counts.(precommits := rd.counts.precommits + ms[j].stake))
  {
    Names();
  }

  /** The votes of the first round: both prevoted the value, but the other member precommitted nil. */
  function Torn(c: Stage, j: nat, q: nat, id: ValueId): seq<Slots>
    requires j < c.Members() && q < c.Members()
  {
    Seen(c, j, q, id)[j := Slots(Yes(id), Yes(id))][q := Slots(Yes(id), Yes(NIL_ID))]
  }

  function TornCounts(c: Stage, j: nat, q: nat): Counts
    requires j < c.Members() && q < c.Members()
  {
    var x, y := Stake(c, j), Stake(c, q);
    Counts(x + y, x + y, 0, x + y, x + y, x)
  }

  /** The first round as it is left behind. */
  function Past(c: Stage, j: nat, q: nat, v: Value): RoundData
    requires j < c.Members() && q < c.Members()
  {
    Final1(v, 0, Torn(c, j, q, IdOf(v)), TornCounts(c, j, q), 0)
  }

  /** The stakes of the run: the faulty member is a quorum by itself, and the node is not. */
  predicate Lopsided(c: Stage, k: PubKey, j: nat, q: nat) {
    && c.Ok() && j < c.Members() && q < c.Members() && j != q && Position(Active(c.roster), k) == Some(j)
    && Stake(c, j) < Big(c.Sum()) <= Stake(c, q)
  }

  /** The first round with all its votes, before its last timer. */
  function Tearing(c: Stage, j: nat, q: nat, v: Value): RoundData
    requires j < c.Members() && q < c.Members()
  {
    Offered1(v, 0, Pass, Torn(c, j, q, IdOf(v)), TornCounts(c, j, q), NewTimeout(0, 0, 0, AtPrevote), true)
  }

  lemma NilTears(c: Stage, j: nat, q: nat, v: Value)
    requires j < c.Members() && q < c.Members() && j != q && Short(v)
    ensures var rd := Locked1(c, j, 0, v, Seen(c, j, q, IdOf(v)), Stake(c, j) + Stake(c, q), 0);
      && rd.height == rd.round == 0 && Shaped(rd, c.Members())
      && AddVote(rd, Precommit, q, NIL_ID, MARK, Active(c.roster)).0 == Tearing(c, j, q, v)
  {
    hide AddVote;
    OneChunk(v, 0);
    VotedAt(c, j, q, IdOf(v));
    NilPrecommitAdded(Locked1(c, j, 0, v, Seen(c, j, q, IdOf(v)), Stake(c, j) + Stake(c, q), 0), q, IdOf(v),
      Active(c.roster));
  }

  /** The node has locked the value, and the other member's nil precommit arrives. */
  lemma HearsNil(c: Stage, s: System, k: PubKey, j: nat, q: nat, v: Value) returns (t: System)
    requires Lopsided(c, k, j, q) && Reachable(c.W(), c.Cr(), s) && k in s.starts && Short(v)
    requires Vote(0, 0, Precommit, NIL_ID, c.roster[q].key) in s.votes
    requires Stands(s, k, Midway(c, k, [], Locked1(c, j, 0, v, Seen(c, j, q, IdOf(v)), Stake(c, j) + Stake(c, q), 0),
      AtPrecommit, (Some(v), 0)))
    ensures Reachable(c.W(), c.Cr(), t) && Moves(s, t, k) && t.votes == s.votes && t.chunks == s.chunks
    ensures Stands(t, k, Midway(c, k, [], Tearing(c, j, q, v), AtPrecommit, (Some(v), 0)))
  {
    hide Reachable, AddVote, Position, Locked1, Tearing, Shaped, Moves;
    var rd := Locked1(c, j, 0, v, Seen(c, j, q, IdOf(v)), Stake(c, j) + Stake(c, q), 0);
    var b := Midway(c, k, [], rd, AtPrecommit, (Some(v), 0));
    NilTears(c, j, q, v);
    t := HearsVote(c, s, k, b, 0, q, Vote(0, 0, Precommit, NIL_ID, c.roster[q].key));
    assert b.rounds[0 := Tearing(c, j, q, v)] == [] + [Tearing(c, j, q, v)];
  }

  lemma Tallies(c: Stage, s: System, k: PubKey, j: nat, q: nat, v: Value) returns (t: System)
    requires Lopsided(c, k, j, q) && Reachable(c.W(), c.Cr(), s) && k in s.starts && Short(v)
    requires Stands(s, k, Midway(c, k, [], Tearing(c, j, q, v), AtPrecommit, (Some(v), 0)))
    ensures Reachable(c.W(), c.Cr(), t) && Moves(s, t, k) && t.votes == s.votes && t.chunks == s.chunks
    ensures Stands(t, k, Midway(c, k, [], Past(c, j, q, v), AtPrecommit, (Some(v), 0)))
  {
    hide Reachable, Update, RangeKept, Turn, Position;
    var timer, rd := NewTimeout(0, 0, 0, AtPrevote), Tearing(c, j, q, v);
    var b, env := Midway(c, k, [], rd, AtPrecommit, (Some(v), 0)), EnvAt(0, None, c.roster);
    var m := Turn(c.Cr(), Told(b, s), 0, Big(c.Sum()), Small(c.Sum()), env);
    OneChunk(v, 0);
    MidwayPlaced(c, k, j, [], rd, AtPrecommit, (Some(v), 0), s);
    TurnTally(c.lot, Told(b, s), j, 0, v, rd.votes, rd.counts, timer, Big(c.Sum()), Small(c.Sum()), env);
    assert b.rounds[0 := Past(c, j, q, v)] == [] + [Past(c, j, q, v)];
    UpdateLast(c, Told(b, s), [], rd, env, m);
    t := Ticks(c, s, k, b, m, env);
  }

  /** The second round once the node has proposed the value again. */
  function Renewed(c: Stage, v: Value): RoundData {
    Again(v, 1, 0, Indeterminate, NoVotes(c.Members()), ZERO, NewTimeout(5000, 0, 1, AtPropose), false)
  }

  lemma MoveOnTurn(c: Stage, s: System, k: PubKey, j: nat, q: nat, v: Value, env: Env)
    requires Lopsided(c, k, j, q) && Short(v) && ProposerKey(c.Cr(), c.roster, 0, 1) == k
    requires env.now == 5000 && env.offer(65, 0) == None
    ensures var n := Told(Midway(c, k, [], Past(c, j, q, v), AtPrecommit, (Some(v), 0)), s);
      Turn(c.Cr(), n, 0, Big(c.Sum()), Small(c.Sum()), env) ==
        Told(Midway(c, k, [Past(c, j, q, v)], Renewed(c, v), AtPropose, (Some(v), 0)), s).(
          chunks := s.chunks + {Chunk1(k, v, 1, 0)})
  {
    hide Turn, Position, ProposerKey, StartRound, Torn;
    var rd := Past(c, j, q, v);
    var n := Told(Midway(c, k, [], rd, AtPrecommit, (Some(v), 0)), s);
    assert Shaped(rd, c.Members()) by { PastShaped(c, j, q, v); }
    MidwayPlaced(c, k, j, [], rd, AtPrecommit, (Some(v), 0), s);
    TurnMoveOn(c.lot, n, j, 0, v, rd.votes, rd.counts, 0, Big(c.Sum()), Small(c.Sum()), env);
    StartPropose(c.lot, n, j, 5000, 1, v, 0);
    assert n.rounds == [rd];
  }

  lemma PastShaped(c: Stage, j: nat, q: nat, v: Value)
    requires j < c.Members() && q < c.Members() && Short(v)
    ensures Shaped(Past(c, j, q, v), c.Members())
  {
    OneChunk(v, 0);
  }

  /** The node enters the second round and proposes the value that it is locked on. */
  lemma ProposesAgain(c: Stage, s: System, k: PubKey, j: nat, q: nat, v: Value) returns (t: System)
    requires Lopsided(c, k, j, q) && Reachable(c.W(), c.Cr(), s) && k in s.starts && Short(v)
    requires ProposerKey(c.Cr(), c.roster, 0, 1) == k
      && Stands(s, k, Midway(c, k, [], Past(c, j, q, v), AtPrecommit, (Some(v), 0)))
    ensures Reachable(c.W(), c.Cr(), t) && Moves(s, t, k) && t.votes == s.votes
      && t.chunks == s.chunks + {Chunk1(k, v, 1, 0)}
    ensures Stands(t, k, Midway(c, k, [Past(c, j, q, v)], Renewed(c, v), AtPropose, (Some(v), 0)))
  {
    hide Reachable, Update, RangeKept, Turn, Position, ProposerKey, Torn, Renewed;
    var rd := Past(c, j, q, v);
    var b, env := Midway(c, k, [], rd, AtPrecommit, (Some(v), 0)), EnvAt(5000, None, c.roster);
    var n := Told(b, s);
    var m := Turn(c.Cr(), n, 0, Big(c.Sum()), Small(c.Sum()), env);
    MoveOnTurn(c, s, k, j, q, v, env);
    UpdateLast(c, n, [], rd, env, m);
    t := Ticks(c, s, k, b, m, env);
  }

  /** An update in the second round acts on that round only. */
  lemma UpdateSecond(c: Stage, n: Node, j: nat, q: nat, v: Value, rd: RoundData, env: Env, m: Node)
    requires c.Ok() && j < c.Members() && q < c.Members() && Stake(c, j) < Big(c.Sum())
    requires n.roster == c.roster && n.height == 0 && n.round == 1 && n.rounds == [Past(c, j, q, v)] + [rd]
    requires rd.height == 0 && rd.round == 1 && m == Turn(c.Cr(), n, 1, Big(c.Sum()), Small(c.Sum()), env) && InRange(m)
    ensures Update(c.Cr(), n, env) == m && RangeKept(TurnWith(c.Cr(), c.Sum(), env), n, FirstOfHeight(n), |n.rounds|)
  {
    hide Turn, Update, RangeKept;
    TurnPast(c.lot, n, 0, v, Torn(c, j, q, IdOf(v)), TornCounts(c, j, q), 0, Big(c.Sum()), Small(c.Sum()), env);
    UpdateTwo(c.Cr(), n, env, c.Sum(), m);
  }

  lemma SecondPlaced(c: Stage, k: PubKey, j: nat, q: nat, v: Value, rd: RoundData, step: Step,
                     lock: (Option<Value>, int), s: System)
    requires j < c.Members() && q < c.Members() && Position(Active(c.roster), k) == Some(j)
    requires rd.height == 0 && rd.round == 1 && Shaped(rd, c.Members())
    ensures Placed1(Told(Midway(c, k, [Past(c, j, q, v)], rd, step, lock), s), j, 1)
  {
    hide Position;
  }

  /** The other member's vote for the value in the second round arrives. */
  lemma HearsAgain(c: Stage, s: System, k: PubKey, j: nat, q: nat, v: Value, rd: RoundData, step: Step,
                   lock: (Option<Value>, int), kind: Kind) returns (t: System)
    requires Lopsided(c, k, j, q) && Reachable(c.W(), c.Cr(), s) && k in s.starts
    requires rd.height == 0 && rd.round == 1 && Shaped(rd, c.Members())
    requires Vote(0, 1, kind, IdOf(v), c.roster[q].key) in s.votes
    requires Stands(s, k, Midway(c, k, [Past(c, j, q, v)], rd, step, lock))
    ensures Reachable(c.W(), c.Cr(), t) && Moves(s, t, k) && t.votes == s.votes && t.chunks == s.chunks
    ensures Stands(t, k, Midway(c, k, [Past(c, j, q, v)],
      AddVote(rd, kind, q, IdOf(v), MARK, Active(c.roster)).0, step, lock))
  {
    hide Reachable, AddVote, Position, Past;
    var pre, b := [Past(c, j, q, v)], Midway(c, k, [Past(c, j, q, v)], rd, step, lock);
    assert Sorted(b.rounds) by { SecondPlaced(c, k, j, q, v, rd, step, lock, s); }
    t := HearsVote(c, s, k, b, 1, q, Vote(0, 1, kind, IdOf(v), c.roster[q].key));
    var rd' := AddVote(rd, kind, q, IdOf(v), MARK, Active(c.roster)).0;
    assert b.rounds[1 := rd'] == pre + [rd'];
  }

  /** The second round after the node has voted in it. */
  function Relocked(c: Stage, j: nat, q: nat, v: Value, votes: seq<Slots>, committed: nat): RoundData
    requires j < c.Members() && q < c.Members()
  {
    Again(v, 1, 0, Pass, votes, Behind(Stake(c, j) + Stake(c, q), committed), NewTimeout(5000, 0, 1, AtPrevote), true)
  }

  /** The second round with the other member's prevote in it. */
  function Urged(c: Stage, q: nat, v: Value): RoundData
    requires q < c.Members()
  {
    Renewed(c, v).(votes := Voted(c, q, IdOf(v)), counts := Behind(Stake(c, q), 0))
  }

  lemma RepeatTurn(c: Stage, s: System, k: PubKey, j: nat, q: nat, v: Value, env: Env)
    requires Lopsided(c, k, j, q) && Short(v) && env.now == 5000 && env.verdict(28, 1, v) == Pass
    ensures var n := Told(Midway(c, k, [Past(c, j, q, v)], Urged(c, q, v), AtPropose, (Some(v), 0)), s);
      var m := Midway(c, k, [Past(c, j, q, v)], Relocked(c, j, q, v,
        Voted(c, q, IdOf(v))[j := Slots(Yes(IdOf(v)), Yes(IdOf(v)))], Stake(c, j)), AtPrecommit, (Some(v), 1));
      Turn(c.Cr(), n, 1, Big(c.Sum()), Small(c.Sum()), env) ==
        Told(m, s).(votes := s.votes + [Vote(0, 1, Prevote, IdOf(v), k)] + [Vote(0, 1, Precommit, IdOf(v), k)])
  {
    hide Turn, Position, Past, Urged, Again, Voted, Shaped;
    var id, rd, pre := IdOf(v), Urged(c, q, v), [Past(c, j, q, v)];
    var b, timer := Midway(c, k, pre, rd, AtPropose, (Some(v), 0)), NewTimeout(5000, 0, 1, AtPropose);
    UrgedIs(c, q, v);
    SecondPlaced(c, k, j, q, v, rd, AtPropose, (Some(v), 0), s);
    VotedAt(c, q, j, id);
    TurnRepeat(c.lot, Told(b, s), j, 1, v, Voted(c, q, id), Behind(Stake(c, q), 0), timer, 0, Big(c.Sum()),
      Small(c.Sum()), env);
    var rd' := Relocked(c, j, q, v, Voted(c, q, id)[j := Slots(Yes(id), Yes(id))], Stake(c, j));
    assert b.rounds[1 := rd'] == pre + [rd'];
  }

  lemma UrgedIs(c: Stage, q: nat, v: Value)
    requires q < c.Members() && Short(v)
    ensures var rd := Urged(c, q, v);
      && rd.height == 0 && rd.round == 1 && Shaped(rd, c.Members())
      && rd == Again(v, 1, 0, Indeterminate, Voted(c, q, IdOf(v)), Behind(Stake(c, q), 0),
        NewTimeout(5000, 0, 1, AtPropose), false)
  {
    OneChunk(v, 0);
  }

  /** With the other member's prevote there, the node prevotes the value again, locks it again and precommits. */
  lemma VotesAgain(c: Stage, s: System, k: PubKey, j: nat, q: nat, v: Value) returns (t: System)
    requires Lopsided(c, k, j, q) && Reachable(c.W(), c.Cr(), s) && k in s.starts && Short(v)
    requires Stands(s, k, Midway(c, k, [Past(c, j, q, v)], Urged(c, q, v), AtPropose, (Some(v), 0)))
    ensures Reachable(c.W(), c.Cr(), t) && Moves(s, t, k) && t.chunks == s.chunks && s.votes <= t.votes
    ensures Stands(t, k, Midway(c, k, [Past(c, j, q, v)], Relocked(c, j, q, v,
      Voted(c, q, IdOf(v))[j := Slots(Yes(IdOf(v)), Yes(IdOf(v)))], Stake(c, j)), AtPrecommit, (Some(v), 1)))
  {
    hide Reachable, Update, RangeKept, Turn, Position, Past, Relocked, Voted;
    var pre, env := [Past(c, j, q, v)], EnvAt(5000, None, c.roster);
    var b := Midway(c, k, pre, Urged(c, q, v), AtPropose, (Some(v), 0));
    var n := Told(b, s);
    var m := Turn(c.Cr(), n, 1, Big(c.Sum()), Small(c.Sum()), env);
    RepeatTurn(c, s, k, j, q, v, env);
    UpdateSecond(c, n, j, q, v, Urged(c, q, v), env, m);
    t := Ticks(c, s, k, b, m, env);
  }

  lemma DecidesAgain(c: Stage, s: System, k: PubKey, j: nat, q: nat, v: Value, votes: seq<Slots>) returns (t: System)
    requires Lopsided(c, k, j, q) && Reachable(c.W(), c.Cr(), s) && k in s.starts && s.starts[k] == 0 && Short(v)
    requires |votes| == c.Members()
    requires Stands(s, k, Midway(c, k, [Past(c, j, q, v)],
      Relocked(c, j, q, v, votes, Stake(c, j) + Stake(c, q)), AtPrecommit, (Some(v), 1)))
    ensures Reachable(c.W(), c.Cr(), t) && t.chunks == s.chunks && t.votes == s.votes
    ensures Decided(t, k, 0) && var rd := Decision(t, k, 0); rd.proposal == v && rd.round == 1 && rd.id == IdOf(v)
  {
    hide Reachable, Update, RangeKept, Turn, Position;
    var rd, pre := Relocked(c, j, q, v, votes, Stake(c, j) + Stake(c, q)), [Past(c, j, q, v)];
    var b, env := Midway(c, k, pre, rd, AtPrecommit, (Some(v), 1)), EnvAt(5000, None, c.roster);
    var n := Told(b, s);
    var m := Turn(c.Cr(), n, 1, Big(c.Sum()), Small(c.Sum()), env);
    OneChunk(v, 0);
    SecondPlaced(c, k, j, q, v, rd, AtPrecommit, (Some(v), 1), s);
    TurnDecide(c.lot, n, j, 1, v, votes, rd.counts, rd.timeout, Big(c.Sum()), Small(c.Sum()), env, 0);
    UpdateSecond(c, n, j, q, v, rd, env, m);
    t := Ticks(c, s, k, b, m, env);
  }

  // The run --------------------------------------------------------------------------------------

  /** What the faulty member signs: it prevotes the value, withholds its precommit, and then votes for the value. */
  function Fickle(k: PubKey, id: ValueId): Log {
    [Vote(0, 0, Prevote, id, k), Vote(0, 0, Precommit, NIL_ID, k), Vote(0, 1, Prevote, id, k),
      Vote(0, 1, Precommit, id, k)]
  }

  lemma FickleSigns(c: Stage, k: PubKey, id: ValueId) returns (s: System)
    requires k in c.bad && SeparatesVotes(k, CHUNK)
    ensures Reachable(c.W(), c.Cr(), s) && s == EMPTY.(votes := Fickle(k, id))
  {
    hide Reachable, SignedOk, SeparatesVotes;
    EmptyReachable(c);
    assert EMPTY.votes + Fickle(k, id) == Fickle(k, id) && EMPTY.chunks + {} == {};
    SeparateSigned(Fickle(k, id), {});
    ReachSign(c.W(), c.Cr(), EMPTY, Fickle(k, id), {});
    s := EMPTY.(votes := Fickle(k, id));
  }

  ghost predicate Backs(s: System, k: PubKey, id: ValueId) {
    Fickle(k, id) <= s.votes
  }

  lemma BackedVotes(s: System, k: PubKey, id: ValueId)
    requires Backs(s, k, id)
    ensures Vote(0, 0, Prevote, id, k) in s.votes && Vote(0, 0, Precommit, NIL_ID, k) in s.votes
    ensures Vote(0, 1, Prevote, id, k) in s.votes && Vote(0, 1, Precommit, id, k) in s.votes
  {
    var f := Fickle(k, id);
    assert s.votes[0] == f[0] && s.votes[1] == f[1] && s.votes[2] == f[2] && s.votes[3] == f[3];
  }

  /** The first round: the node locks the value and the round ends without a decision. */
  lemma LocksInVain(c: Stage, s: System, k: PubKey, j: nat, q: nat, v: Value) returns (t: System)
    requires Lopsided(c, k, j, q) && Reachable(c.W(), c.Cr(), s) && Short(v) && Backs(s, c.roster[q].key, IdOf(v))
    requires k !in s.nodes && k !in s.starts && k !in c.W().faulty && ProposerKey(c.Cr(), c.roster, 0, 0) == k
    ensures Reachable(c.W(), c.Cr(), t) && k in t.starts && t.starts[k] == 0 && Backs(t, c.roster[q].key, IdOf(v))
    ensures Vote(0, 0, Precommit, IdOf(v), k) in t.votes
    ensures Stands(t, k, Midway(c, k, [], Past(c, j, q, v), AtPrecommit, (Some(v), 0)))
  {
    hide Reachable, Position, ProposerKey, Stands, Midway, Offered1, Locked1, NoVotes, Moves, Past, Tearing;
    var id, x, y := IdOf(v), Stake(c, j), Stake(c, q);
    BackedVotes(s, c.roster[q].key, id);
    var s1 := JoinsProposing(c, s, k, j, v);
    MovesKey(s, s1, k);
    OfferingIsMidway(c, k, v);
    var s2 := Prevotes(c, s1, k, j, [], v, StartTimer(), 0);
    MovesKey(s1, s2, k);
    VotedAt(c, j, q, id);
    var s3 := HearsPrevote(c, s2, k, q, v, Voted(c, j, id), x, StartTimer());
    MovesKey(s2, s3, k);
    var s4 := Precommits(c, s3, k, j, [], v, Seen(c, j, q, id), x + y, StartTimer(), 0);
    MovesKey(s3, s4, k);
    assert s4.votes[|s3.votes|] == Vote(0, 0, Precommit, id, k);
    var s5 := HearsNil(c, s4, k, j, q, v);
    MovesKey(s4, s5, k);
    t := Tallies(c, s5, k, j, q, v);
    MovesKey(s5, t, k);
  }

  lemma UrgedByPrevote(c: Stage, q: nat, v: Value)
    requires q < c.Members() && Short(v)
    ensures var rd := Renewed(c, v);
      && rd.height == 0 && rd.round == 1 && Shaped(rd, c.Members())
      && AddVote(rd, Prevote, q, IdOf(v), MARK, Active(c.roster)).0 == Urged(c, q, v)
  {
    hide AddVote;
    OneChunk(v, 0);
    Names();
    PrevoteAdded(Renewed(c, v), q, IdOf(v), Active(c.roster));
  }

  /** The votes of the second round: the node's, and the other member's prevote. */
  function Rejoined(c: Stage, j: nat, q: nat, id: ValueId): seq<Slots>
    requires j < c.Members() && q < c.Members()
  {
    Voted(c, q, id)[j := Slots(Yes(id), Yes(id))]
  }

  lemma SealedByPrecommit(c: Stage, j: nat, q: nat, v: Value)
    requires j < c.Members() && q < c.Members() && j != q && Short(v)
    ensures var rd, x := Relocked(c, j, q, v, Rejoined(c, j, q, IdOf(v)), Stake(c, j)), Stake(c, j);
      && rd.height == 0 && rd.round == 1 && Shaped(rd, c.Members())
      && AddVote(rd, Precommit, q, IdOf(v), MARK, Active(c.roster)).0 ==
         Relocked(c, j, q, v, Rejoined(c, j, q, IdOf(v))[q := Slots(Yes(IdOf(v)), Yes(IdOf(v)))], x + Stake(c, q))
  {
    hide AddVote;
    OneChunk(v, 0);
    Names();
    PrecommitAdded(Relocked(c, j, q, v, Rejoined(c, j, q, IdOf(v)), Stake(c, j)), q, IdOf(v), Active(c.roster));
  }

  /** The second round: the value is proposed again, prevoted, locked and decided. */
  lemma DecidesTheRepeat(c: Stage, s: System, k: PubKey, j: nat, q: nat, v: Value) returns (t: System)
    requires Lopsided(c, k, j, q) && Reachable(c.W(), c.Cr(), s) && k in s.starts && s.starts[k] == 0 && Short(v)
    requires Backs(s, c.roster[q].key, IdOf(v)) && ProposerKey(c.Cr(), c.roster, 0, 1) == k
    requires Stands(s, k, Midway(c, k, [], Past(c, j, q, v), AtPrecommit, (Some(v), 0)))
    ensures Reachable(c.W(), c.Cr(), t) && s.votes <= t.votes && Chunk1(k, v, 1, 0) in t.chunks
    ensures Decided(t, k, 0) && var rd := Decision(t, k, 0); rd.proposal == v && rd.round == 1 && rd.id == IdOf(v)
  {
    hide Reachable, Position, ProposerKey, Stands, Midway, Moves, Past, Relocked, Renewed, Urged, AddVote, Shaped;
    hide Voted, Decided;
    var id, x, y := IdOf(v), Stake(c, j), Stake(c, q);
    BackedVotes(s, c.roster[q].key, id);
    var s1 := ProposesAgain(c, s, k, j, q, v);
    MovesKey(s, s1, k);
    UrgedByPrevote(c, q, v);
    var s2 := HearsAgain(c, s1, k, j, q, v, Renewed(c, v), AtPropose, (Some(v), 0), Prevote);
    MovesKey(s1, s2, k);
    var s3 := VotesAgain(c, s2, k, j, q, v);
    MovesKey(s2, s3, k);
    SealedByPrecommit(c, j, q, v);
    var s4 := HearsAgain(c, s3, k, j, q, v, Relocked(c, j, q, v, Rejoined(c, j, q, id), x), AtPrecommit, (Some(v), 1),
      Precommit);
    MovesKey(s3, s4, k);
    assert |Rejoined(c, j, q, id)| == c.Members() by { VotedAt(c, q, j, id); }
    t := DecidesAgain(c, s4, k, j, q, v, Rejoined(c, j, q, id)[q := Slots(Yes(id), Yes(id))]);
  }

  // How much faulty stake it takes ---------------------------------------------------------------

  /** A correct proposer proposed a value again that a node had locked before, and the node decided it in that round. */
  ghost predicate DecidedAgain(w: World, cr: Crypto, s: System, k: PubKey, h: nat, r: nat) {
    && ProposedAgain(w, cr, s.chunks, h, r) && Decided(s, k, h)
    && var rd := Decision(s, k, h);
       rd.round == r && exists r0: nat :: r0 < r && Vote(h, r0, Precommit, rd.id, k) in s.votes
  }

  /** Some run with faulty stake `b` out of `n` decides a value that is proposed again. */
  ghost predicate CanDecideAgain(n: nat, b: nat) {
    exists w, cr, s, k, h, r ::
      WorldOk(w, cr) && Tightness.Holds(w, n, b) && Reachable(w, cr, s) && DecidedAgain(w, cr, s, k, h, r)
  }

  /** Without a faulty quorum, and without correct stake, no repeated proposal is decided. */
  lemma NotDecidedAgain(n: nat, b: nat)
    requires n >= 1 && (b < Big(n) || b >= n)
    ensures !CanDecideAgain(n, b)
  {
    hide Reachable, WorldOk, Decided, ProposedAgain;
    forall w, cr, s, k, h, r |
      WorldOk(w, cr) && Tightness.Holds(w, n, b) && Reachable(w, cr, s) && DecidedAgain(w, cr, s, k, h, r)
      ensures false
    {
      CorrectProposerHolds(w, cr, s.chunks, h, r);
      var states, events := Tightness.RunTo(w, cr, s);
      RepeatIsNeverPrevoted(w, cr, states, events, |states| - 1, h, r);
    }
  }

  /** A correct proposer holds stake, which the faulty members then lack. */
  lemma CorrectProposerHolds(w: World, cr: Crypto, chunks: set<SignedChunk>, h: nat, r: nat)
    requires WorldOk(w, cr) && ProposedAgain(w, cr, chunks, h, r)
    ensures StakeOf(ActiveAt(w, h), FaultyAt(w, h)) < Total(ActiveAt(w, h))
  {
    var key, ms := ProposerKey(cr, w.rosterAt(h), h, r), ActiveAt(w, h);
    ProposerIsActive(w.rosterAt(h), cr.lot(h, r));
    var p := Proposer(w.rosterAt(h), cr.lot(h, r)).value;
    assert ms[p].key == key && ms[p].stake > 0;
    LacksStake(ms, FaultyAt(w, h), p);
  }

  lemma {:induction false} LacksStake(ms: seq<Member>, keys: set<PubKey>, p: nat)
    requires p < |ms| && ms[p].key !in keys && ms[p].stake > 0
    ensures StakeOf(ms, keys) < Total(ms)
  {
    var n := |ms| - 1;
    if p < n {
      LacksStake(ms[..n], keys, p);
    } else {
      StakeMonotone(ms[..n], keys, keys);
    }
  }

  /** Member 2 is faulty with stake `b`, member 1 has one and proposes, and member 3 has the rest. */
  ghost function Scene(n: nat, b: nat): Stage
    requires b < n
  {
    Stage(Tightness.Trio(1, b, n - 1 - b), iset{KeyOf(2)}, (h, r) => 0)
  }

  lemma SceneRoster(n: nat, b: nat)
    requires n >= 1 && Big(n) <= b < n
    ensures var c := Scene(n, b);
      && c.Ok() && c.Members() == 3 && Active(c.roster) == c.roster && c.Sum() == n && Stake(c, 0) == 1
      && Stake(c, 1) == b && c.roster[0].key == KeyOf(1) && c.roster[1].key == KeyOf(2)
      && Position(c.roster, KeyOf(1)) == Some(0) && Proposer(c.roster, 0) == Some(0)
  {
    hide Position, Proposer, KeyOf, Total, PrefixSums;
    var roster := Tightness.Trio(1, b, n - 1 - b);
    Tightness.TrioSums(1, b, n - 1 - b);
    Tightness.TrioSeats(1, b, n - 1 - b);
    ProposerResidues(roster, 0, 0);
    assert roster[..0] == [];
    TotalOfNone();
  }

  lemma TotalOfNone()
    ensures Total([]) == 0
  {
  }

  lemma SceneOk(n: nat, b: nat)
    requires n >= 1 && Big(n) <= b < n
    ensures var c := Scene(n, b);
      && Lopsided(c, KeyOf(1), 0, 1) && c.roster[1].key == KeyOf(2) && KeyOf(2) in c.bad && KeyOf(1) !in c.W().faulty
      && ProposerKey(c.Cr(), c.roster, 0, 0) == KeyOf(1) == ProposerKey(c.Cr(), c.roster, 0, 1)
  {
    SceneRoster(n, b);
    hide Position, Proposer, SeparatesVotes, PrefixSums, Total, Active, ActiveLen, KeyOf, Tightness.Trio;
    Names();
    KeysSeparate(1);
  }

  lemma SceneWorld(n: nat, b: nat)
    requires n >= 1 && b < n
    ensures var c := Scene(n, b); WorldOk(c.W(), c.Cr()) && Tightness.Holds(c.W(), n, b)
  {
    hide WorldOk, Tightness.Holds;
    var c := Scene(n, b);
    Tightness.TrioSums(1, b, n - 1 - b);
    Tightness.TrioStakes(1, b, n - 1 - b, c.bad);
    TownOk(c.roster, c.bad, c.lot);
  }

  /** The run, for every stake of the faulty member that is a quorum and leaves some to a correct one. */
  lemma RunsAgain(n: nat, b: nat)
    requires n >= 1 && Big(n) <= b < n
    ensures CanDecideAgain(n, b)
  {
    hide Reachable, Decided, SeparatesVotes, Stands, Midway, Past, WorldOk, Tightness.Holds, Scene, Lopsided;
    hide ProposerKey, ProposedAgain;
    var c, k, v := Scene(n, b), KeyOf(1), VALUE_ONE;
    SceneOk(n, b);
    SceneWorld(n, b);
    KeysSeparate(2);
    var s := FickleSigns(c, KeyOf(2), ID_ONE);
    var t := LocksInVain(c, s, k, 0, 1, v);
    var u := DecidesTheRepeat(c, t, k, 0, 1, v);
    RepeatedChunk(c, u.chunks, k, v);
    assert DecidedAgain(c.W(), c.Cr(), u, k, 0, 1);
  }

  lemma RepeatedChunk(c: Stage, chunks: set<SignedChunk>, k: PubKey, v: Value)
    requires Chunk1(k, v, 1, 0) in chunks && k !in c.W().faulty && ProposerKey(c.Cr(), c.roster, 0, 1) == k
    ensures ProposedAgain(c.W(), c.Cr(), chunks, 0, 1)
  {
    hide ProposerKey;
  }

  /** A value that a correct proposer proposes again can be decided in that round exactly if the faulty members make a
   * quorum of their own and leave stake to somebody else.
   */
  lemma DecidedAgainExactly(n: nat, b: nat)
    requires 1 <= n && b <= n
    ensures CanDecideAgain(n, b) <==> Big(n) <= b < n
  {
    hide CanDecideAgain;
    if Big(n) <= b < n {
      RunsAgain(n, b);
    } else {
      NotDecidedAgain(n, b);
    }
  }
}
