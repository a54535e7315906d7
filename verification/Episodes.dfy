/** Episodes of a run: what one event does to a system in which one node's state is known. */
module Episodes {
  import opened Types
  import opened Roster
  import opened VoteLog
  import opened Messages
  import opened Rounds
  import opened Node
  import opened Invariant
  import opened Steps
  import opened Updates
  import opened Network
  import opened Scenario

  /** The roster, the faulty members and the order of proposers that a run is about. */
  datatype Stage = Stage(roster: seq<Member>, bad: iset<PubKey>, lot: (nat, nat) -> nat) {
    ghost function W(): World { Town(roster, bad) }
    function Cr(): Crypto { Lab(lot) }
    function Members(): nat { ActiveLen(roster) }
    function Sum(): nat { Total(Active(roster)) }

    predicate Ok() {
      PrefixSums(roster) && Total(Active(roster)) >= 1
    }
  }

  /** Node `k` stands as `b` does, apart from what has been signed since. */
  predicate Stands(s: System, k: PubKey, b: Node) {
    k in s.nodes && s.nodes[k].(votes := [], chunks := {}) == b
  }

  function Told(b: Node, s: System): Node {
    b.(votes := s.votes, chunks := s.chunks)
  }

  /** Only node `k` has moved. */
  predicate Moves(s: System, t: System, k: PubKey) {
    && t.nodes.Keys == s.nodes.Keys + {k} && (forall x :: x in s.nodes && x != k ==> t.nodes[x] == s.nodes[x])
    && t.starts.Keys == s.starts.Keys + {k} && (forall x :: x in s.starts ==> t.starts[x] == s.starts[x])
  }

  /** Steps of one node make a longer one. */
  lemma MovesOn(s: System, t: System, u: System, k: PubKey)
    requires Moves(s, t, k) && Moves(t, u, k)
    ensures Moves(s, u, k) && k in t.starts && k in u.starts && u.starts[k] == t.starts[k]
  {
  }

  lemma MovesKey(s: System, t: System, k: PubKey)
    requires Moves(s, t, k)
    ensures k in t.starts && k in t.nodes && (k in s.starts ==> t.starts[k] == s.starts[k])
  {
  }

  lemma MovesOnly(s: System, t: System, k: PubKey, x: PubKey)
    requires Moves(s, t, k) && x != k && x !in s.nodes && x !in s.starts
    ensures x !in t.nodes && x !in t.starts
  {
  }

  lemma MovesNot(s: System, k: PubKey)
    requires k in s.nodes && k in s.starts
    ensures Moves(s, s, k)
  {
  }

  lemma StandsStill(s: System, t: System, k: PubKey, x: PubKey, b: Node)
    requires Moves(s, t, k) && x != k && Stands(s, x, b) && x in s.starts
    ensures Stands(t, x, b) && x in t.starts && t.starts[x] == s.starts[x]
  {
  }

  lemma StillDecided(s: System, t: System, k: PubKey, x: PubKey)
    requires Moves(s, t, k) && x != k && Decided(s, x, 0)
    ensures Decided(t, x, 0) && Decision(t, x, 0) == Decision(s, x, 0)
  {
  }

  lemma EmptyReachable(c: Stage)
    ensures Reachable(c.W(), c.Cr(), EMPTY)
  {
    assert Run(c.W(), c.Cr(), [EMPTY], []);
  }

  lemma Replaced(s: System, k: PubKey, b: Node, m: Node)
    requires Stands(s, k, b) && k in s.starts && m.key == k
    ensures Stands(Replace(s, m), k, m.(votes := [], chunks := {})) && Moves(s, Replace(s, m), k)
  {
  }

  /** An update whose outcome is known. */
  lemma Ticks(c: Stage, s: System, k: PubKey, b: Node, m: Node, env: Env) returns (t: System)
    requires c.Ok() && Reachable(c.W(), c.Cr(), s) && Stands(s, k, b) && k in s.starts
    requires b.key == k == m.key && b.height == 0 && b.roster == c.roster && m == Update(c.Cr(), Told(b, s), env)
    requires RangeKept(TurnWith(c.Cr(), c.Sum(), env), Told(b, s), FirstOfHeight(Told(b, s)), |b.rounds|)
    requires (forall l, i :: env.offer(l, i).Some? ==> |env.offer(l, i).value| < SIZE_LIMIT)
      && forall i :: env.nextRoster(i) == c.roster
    ensures Reachable(c.W(), c.Cr(), t) && Stands(t, k, m.(votes := [], chunks := {})) && Moves(s, t, k)
    ensures t.votes == m.votes && t.chunks == m.chunks
  {
    hide Update, RangeKept, Reachable;
    var e := Tick(k, env);
    assert View(s, k) == Told(b, s);
    assert EnvOk(c.W(), env, 0);
    ReachStep(c.W(), c.Cr(), s, e);
    Replaced(s, k, b, m);
    t := Replace(s, m);
  }

  // Joining --------------------------------------------------------------------------------------

  function Born(c: Stage, k: PubKey): Node {
    Newborn(k, c.roster, [], [], {})
  }

  function StartTimer(): Option<Timeout> {
    NewTimeout(0, 0, 0, AtPropose)
  }

  /** A node that has joined and waits for a proposal. */
  function Idle(c: Stage, k: PubKey): Node {
    Born(c, k).(rounds := [Bare(0, NoVotes(c.Members()), ZERO, StartTimer(), false, false)])
  }

  /** A node that has a proposal and has not voted. */
  function Offering1(c: Stage, k: PubKey, v: Value): Node {
    Born(c, k).(rounds := [Offered1(v, 0, Indeterminate, NoVotes(c.Members()), ZERO, StartTimer(), false)])
  }

  lemma Joins(c: Stage, s: System, k: PubKey) returns (t: System)
    requires c.Ok() && Reachable(c.W(), c.Cr(), s) && k !in s.nodes && k !in s.starts && k !in c.W().faulty
    ensures Reachable(c.W(), c.Cr(), t) && Stands(t, k, Idle(c, k)) && Moves(s, t, k) && t.starts[k] == 0
    ensures t.votes == s.votes && t.chunks == s.chunks
  {
    hide StartRound, Reachable;
    var e, n := Boot(k, c.roster, [], 0, None), Newborn(k, c.roster, [], s.votes, s.chunks);
    StartIdle(c.Cr(), n, 0, 0);
    ReachStep(c.W(), c.Cr(), s, e);
    t := Apply(c.W(), c.Cr(), s, e);
    assert n.rounds + [Idle(c, k).rounds[0]] == Idle(c, k).rounds;
  }

  lemma JoinsProposing(c: Stage, s: System, k: PubKey, j: nat, v: Value) returns (t: System)
    requires c.Ok() && Reachable(c.W(), c.Cr(), s) && k !in s.nodes && k !in s.starts && k !in c.W().faulty
    requires Position(Active(c.roster), k) == Some(j) && ProposerKey(c.Cr(), c.roster, 0, 0) == k && Short(v)
    ensures Reachable(c.W(), c.Cr(), t) && Stands(t, k, Offering1(c, k, v)) && Moves(s, t, k) && t.starts[k] == 0
    ensures t.votes == s.votes && t.chunks == s.chunks + {Chunk1(k, v, 0)}
  {
    hide StartRound, Reachable, ProposerKey, Position;
    var e, n := Boot(k, c.roster, [], 0, Some(v)), Newborn(k, c.roster, [], s.votes, s.chunks);
    StartPropose(c.lot, n, j, 0, 0, v);
    ReachStep(c.W(), c.Cr(), s, e);
    t := Apply(c.W(), c.Cr(), s, e);
    assert n.rounds + [Offering1(c, k, v).rounds[0]] == Offering1(c, k, v).rounds;
  }

  // Hearing --------------------------------------------------------------------------------------

  /** The proposer's chunk arrives at a waiting node. */
  lemma HearsChunk(c: Stage, s: System, k: PubKey, q: nat, v: Value) returns (t: System)
    requires c.Ok() && Reachable(c.W(), c.Cr(), s) && Stands(s, k, Idle(c, k)) && k in s.starts && Short(v)
    requires q < c.Members() && ProposerAt(c.Cr(), c.roster, 0, 0) == Some(q)
      && Chunk1(c.roster[q].key, v, 0) in s.chunks
    ensures Reachable(c.W(), c.Cr(), t) && Stands(t, k, Offering1(c, k, v)) && Moves(s, t, k)
    ensures t.votes == s.votes && t.chunks == s.chunks
  {
    hide Reachable, ProposerAt, AddChunk, ChunkBytes, ParseHeader;
    var n, ch := Told(Idle(c, k), s), Chunk1(c.roster[q].key, v, 0);
    var p := ChunkPacket(ch);
    var e := Receive(k, p, q, MARK);
    assert View(s, k) == n;
    OneChunk(v, 0);
    FirstChunk(v, 0, c.roster[q].key == k, Active(c.roster), StartTimer());
    assert n.rounds[0] == EmptyRound(0, 0, c.Members()).(timeout := StartTimer());
    assert HeaderFor(p, 1) == ch.header;
    IncorporateAt(c.Cr(), n, p, q, 0);
    var m := Incorporate(c.Cr(), n, p, q, MARK).0;
    assert n.rounds[0 := Offering1(c, k, v).rounds[0]] == Offering1(c, k, v).rounds;
    assert Allowed(c.W(), c.Cr(), s, e);
    ReachStep(c.W(), c.Cr(), s, e);
    Replaced(s, k, Idle(c, k), m);
    t := Replace(s, m);
  }

  /** A member's vote for the current round arrives. */
  lemma HearsVote(c: Stage, s: System, k: PubKey, b: Node, i: nat, x: nat, v: Vote) returns (t: System)
    requires c.Ok() && Reachable(c.W(), c.Cr(), s) && Stands(s, k, b) && k in s.starts && b.key == k
      && b.roster == c.roster && b.height == 0
    requires Sorted(b.rounds) && i < |b.rounds| && b.rounds[i].height == 0 == v.height
      && b.rounds[i].round == v.round < PRECOMMIT_FLAG
    requires Shaped(b.rounds[i], c.Members()) && x < c.Members() && v.key == c.roster[x].key && v in s.votes
    ensures Reachable(c.W(), c.Cr(), t) && Moves(s, t, k) && t.votes == s.votes && t.chunks == s.chunks
    ensures Stands(t, k, b.(rounds := b.rounds[i := AddVote(b.rounds[i], v.kind, x, v.id, MARK, Active(c.roster)).0]))
  {
    hide Reachable, AddVote, VoteBytes, Sorted;
    var n := Told(b, s);
    var p := VotePacket(v);
    var e := Receive(k, p, x, MARK);
    assert View(s, k) == n;
    IncorporateAt(c.Cr(), n, p, x, i);
    var m := Incorporate(c.Cr(), n, p, x, MARK).0;
    assert v == Vote(p.height, p.round, v.kind, v.id, n.roster[x].key);
    assert Allowed(c.W(), c.Cr(), s, e);
    ReachStep(c.W(), c.Cr(), s, e);
    Replaced(s, k, b, m);
    t := Replace(s, m);
  }

  // Voting ---------------------------------------------------------------------------------------

  /** The rounds that a node has left behind: none, or one in which nothing was proposed. */
  predicate LeftBehind(pre: seq<RoundData>) {
    || pre == []
    || (|pre| == 1 && pre[0].timeout.Some? && pre[0].timeout.value.round == 0
        && pre[0] == Bare(0, pre[0].votes, pre[0].counts, pre[0].timeout, true, true))
  }

  /** A node in the round after `pre`, with `rd` as its data and `lock` as its lock and valid value. */
  function Midway(c: Stage, k: PubKey, pre: seq<RoundData>, rd: RoundData, step: Step,
                  lock: (Option<Value>, int)): Node {
    Born(c, k).(round := |pre|, step := step, valid := lock, locked := lock, rounds := pre + [rd])
  }

  lemma MidwayPlaced(c: Stage, k: PubKey, j: nat, pre: seq<RoundData>, rd: RoundData, step: Step,
                     lock: (Option<Value>, int), s: System)
    requires LeftBehind(pre) && rd.height == 0 && rd.round == |pre| && Shaped(rd, c.Members())
      && Position(Active(c.roster), k) == Some(j)
    ensures Placed1(Told(Midway(c, k, pre, rd, step, lock), s), j, |pre|)
  {
    hide Position;
  }

  /** An update acts on the current round only. */
  lemma UpdateLast(c: Stage, n: Node, pre: seq<RoundData>, rd: RoundData, env: Env, m: Node)
    requires c.Ok() && n.roster == c.roster && n.height == 0 && n.round == |pre| && n.rounds == pre + [rd]
      && LeftBehind(pre)
    requires rd.height == 0 && rd.round == |pre| && m == Turn(c.Cr(), n, |pre|, Big(c.Sum()), Small(c.Sum()), env)
      && InRange(m)
    ensures Update(c.Cr(), n, env) == m && RangeKept(TurnWith(c.Cr(), c.Sum(), env), n, FirstOfHeight(n), |n.rounds|)
  {
    hide Turn, Update, RangeKept;
    if pre == [] {
      UpdateOne(c.Cr(), n, env, c.Sum(), m);
    } else {
      TurnIdle(c.Cr(), n, 0, pre[0].votes, pre[0].counts, pre[0].timeout.value, Big(c.Sum()), Small(c.Sum()), env);
      UpdateTwo(c.Cr(), n, env, c.Sum(), m);
    }
  }

  function Voted(c: Stage, j: nat, id: ValueId): seq<Slots>
    requires j < c.Members()
  {
    NoVotes(c.Members())[j := Slots(Yes(id), NO_VOTE)]
  }

  function Stake(c: Stage, j: nat): nat
    requires j < c.Members()
  {
    c.roster[j].stake
  }

  /** The stake behind a value, counted in a round where nobody votes nil. */
  function Behind(prevoted: nat, precommitted: nat): Counts {
    Counts(prevoted, prevoted, 0, prevoted, precommitted, precommitted)
  }

  lemma SmallRounds(pre: seq<RoundData>)
    requires LeftBehind(pre)
    ensures |pre| <= 1
  {
  }

  lemma PrevoteTurn(c: Stage, s: System, k: PubKey, j: nat, pre: seq<RoundData>, v: Value, timer: Option<Timeout>,
                    env: Env)
    requires c.Ok() && LeftBehind(pre) && Short(v) && Later(timer, env.now) && Position(Active(c.roster), k) == Some(j)
      && env.verdict(22, |pre|, v) == Pass
    ensures var n := Told(Midway(c, k, pre, Offered1(v, |pre|, Indeterminate, NoVotes(c.Members()), ZERO, timer,
      false), AtPropose, (None, -1)), s);
      var m := Midway(c, k, pre, Offered1(v, |pre|, Pass, Voted(c, j, IdOf(v)), Behind(Stake(c, j), 0), timer, false),
        AtPrevote, (None, -1));
      Turn(c.Cr(), n, |pre|, Big(c.Sum()), Small(c.Sum()), env) ==
        Told(m, s).(votes := s.votes + [Vote(0, |pre|, Prevote, IdOf(v), k)])
  {
    hide Turn, AddVote, Position, LeftBehind;
    var rd := Offered1(v, |pre|, Indeterminate, NoVotes(c.Members()), ZERO, timer, false);
    var n := Told(Midway(c, k, pre, rd, AtPropose, (None, -1)), s);
    MidwayPlaced(c, k, j, pre, rd, AtPropose, (None, -1), s);
    TurnPrevote(c.lot, n, j, |pre|, v, NoVotes(c.Members()), timer, Big(c.Sum()), Small(c.Sum()), env);
    PrevoteAdded(Offered1(v, |pre|, Pass, NoVotes(c.Members()), ZERO, timer, false), j, IdOf(v), Active(c.roster));
    Names();
    var rd' := Offered1(v, |pre|, Pass, Voted(c, j, IdOf(v)), Behind(Stake(c, j), 0), timer, false);
    assert (pre + [rd])[|pre| := rd'] == pre + [rd'];
  }

  lemma Prevotes(c: Stage, s: System, k: PubKey, j: nat, pre: seq<RoundData>, v: Value, timer: Option<Timeout>,
                 now: nat) returns (t: System)
    requires c.Ok() && Reachable(c.W(), c.Cr(), s) && LeftBehind(pre) && Short(v) && Later(timer, now) && k in s.starts
    requires Position(Active(c.roster), k) == Some(j)
    requires Stands(s, k, Midway(c, k, pre, Offered1(v, |pre|, Indeterminate, NoVotes(c.Members()), ZERO, timer,
      false), AtPropose, (None, -1)))
    ensures Reachable(c.W(), c.Cr(), t) && Moves(s, t, k) && t.chunks == s.chunks
    ensures t.votes == s.votes + [Vote(0, |pre|, Prevote, IdOf(v), k)]
    ensures Stands(t, k, Midway(c, k, pre, Offered1(v, |pre|, Pass, Voted(c, j, IdOf(v)), Behind(Stake(c, j), 0),
      timer, false), AtPrevote, (None, -1)))
  {
    hide Reachable, Update, RangeKept, Turn, Position, LeftBehind;
    var rd := Offered1(v, |pre|, Indeterminate, NoVotes(c.Members()), ZERO, timer, false);
    var b, env := Midway(c, k, pre, rd, AtPropose, (None, -1)), EnvAt(now, None, c.roster);
    var m := Turn(c.Cr(), Told(b, s), |pre|, Big(c.Sum()), Small(c.Sum()), env);
    PrevoteTurn(c, s, k, j, pre, v, timer, env);
    SmallRounds(pre);
    UpdateLast(c, Told(b, s), pre, rd, env, m);
    t := Ticks(c, s, k, b, m, env);
  }

  lemma PrecommitTurn(c: Stage, s: System, k: PubKey, j: nat, pre: seq<RoundData>, v: Value, votes: seq<Slots>,
                      prevoted: nat, timer: Option<Timeout>, env: Env)
    requires c.Ok() && LeftBehind(pre) && Short(v) && Position(Active(c.roster), k) == Some(j)
    requires |votes| == c.Members() && votes[j] == Slots(Yes(IdOf(v)), NO_VOTE) && Big(c.Sum()) <= prevoted
    ensures var n := Told(Midway(c, k, pre, Offered1(v, |pre|, Pass, votes, Behind(prevoted, 0), timer, false),
      AtPrevote, (None, -1)), s);
      var m := Midway(c, k, pre, Locked1(c, j, |pre|, v, votes, prevoted, env.now), AtPrecommit, (Some(v), |pre|));
      Turn(c.Cr(), n, |pre|, Big(c.Sum()), Small(c.Sum()), env) ==
        Told(m, s).(votes := s.votes + [Vote(0, |pre|, Precommit, IdOf(v), k)])
  {
    hide Turn, AddVote, Position, LeftBehind;
    var rd := Offered1(v, |pre|, Pass, votes, Behind(prevoted, 0), timer, false);
    var n, t := Told(Midway(c, k, pre, rd, AtPrevote, (None, -1)), s), NewTimeout(env.now, 0, |pre|, AtPrevote);
    MidwayPlaced(c, k, j, pre, rd, AtPrevote, (None, -1), s);
    TurnPrecommit(c.lot, n, j, |pre|, v, votes, Behind(prevoted, 0), timer, Big(c.Sum()), Small(c.Sum()), env);
    PrecommitAdded(Offered1(v, |pre|, Pass, votes, Behind(prevoted, 0), t, true), j, IdOf(v), Active(c.roster));
    Names();
    var rd' := Locked1(c, j, |pre|, v, votes, prevoted, env.now);
    assert (pre + [rd])[|pre| := rd'] == pre + [rd'];
  }

  /** The round after a precommit at time `now`. */
  function Locked1(c: Stage, j: nat, r: nat, v: Value, votes: seq<Slots>, prevoted: nat, now: nat): RoundData
    requires j < c.Members() == |votes|
  {
    Offered1(v, r, Pass, votes[j := Slots(Yes(IdOf(v)), Yes(IdOf(v)))], Behind(prevoted, Stake(c, j)),
      NewTimeout(now, 0, r, AtPrevote), true)
  }

  lemma Precommits(c: Stage, s: System, k: PubKey, j: nat, pre: seq<RoundData>, v: Value, votes: seq<Slots>,
                   prevoted: nat, timer: Option<Timeout>, now: nat)
    returns (t: System)
    requires c.Ok() && Reachable(c.W(), c.Cr(), s) && LeftBehind(pre) && Short(v) && k in s.starts
      && Position(Active(c.roster), k) == Some(j)
    requires |votes| == c.Members() && votes[j] == Slots(Yes(IdOf(v)), NO_VOTE) && Big(c.Sum()) <= prevoted
    requires Stands(s, k, Midway(c, k, pre, Offered1(v, |pre|, Pass, votes, Behind(prevoted, 0), timer, false),
      AtPrevote, (None, -1)))
    ensures Reachable(c.W(), c.Cr(), t) && Moves(s, t, k) && t.chunks == s.chunks
    ensures t.votes == s.votes + [Vote(0, |pre|, Precommit, IdOf(v), k)]
    ensures Stands(t, k, Midway(c, k, pre, Locked1(c, j, |pre|, v, votes, prevoted, now), AtPrecommit,
      (Some(v), |pre|)))
  {
    hide Reachable, Update, RangeKept, Turn, Position, LeftBehind;
    var rd := Offered1(v, |pre|, Pass, votes, Behind(prevoted, 0), timer, false);
    var b, env := Midway(c, k, pre, rd, AtPrevote, (None, -1)), EnvAt(now, None, c.roster);
    var m := Turn(c.Cr(), Told(b, s), |pre|, Big(c.Sum()), Small(c.Sum()), env);
    PrecommitTurn(c, s, k, j, pre, v, votes, prevoted, timer, env);
    SmallRounds(pre);
    UpdateLast(c, Told(b, s), pre, rd, env, m);
    t := Ticks(c, s, k, b, m, env);
  }

  lemma Decides(c: Stage, s: System, k: PubKey, j: nat, pre: seq<RoundData>, v: Value, votes: seq<Slots>,
                prevoted: nat, precommitted: nat, timer: Option<Timeout>, now: nat)
    returns (t: System)
    requires c.Ok() && Reachable(c.W(), c.Cr(), s) && LeftBehind(pre) && Short(v) && k in s.starts && s.starts[k] == 0
      && Position(Active(c.roster), k) == Some(j)
    requires |votes| == c.Members() && Big(c.Sum()) <= prevoted && Big(c.Sum()) <= precommitted
    requires Stands(s, k, Midway(c, k, pre, Offered1(v, |pre|, Pass, votes, Behind(prevoted, precommitted), timer,
      true), AtPrecommit, (Some(v), |pre|)))
    ensures Reachable(c.W(), c.Cr(), t) && Moves(s, t, k) && t.chunks == s.chunks && t.votes == s.votes
    ensures Decided(t, k, 0) && Decision(t, k, 0).proposal == v
  {
    hide Reachable, Update, RangeKept, Turn, Position, LeftBehind;
    var rd := Offered1(v, |pre|, Pass, votes, Behind(prevoted, precommitted), timer, true);
    var b, env, cr := Midway(c, k, pre, rd, AtPrecommit, (Some(v), |pre|)), EnvAt(now, None, c.roster), c.Cr();
    var n, total := Told(b, s), c.Sum();
    OneChunk(v, 0);
    MidwayPlaced(c, k, j, pre, rd, AtPrecommit, (Some(v), |pre|), s);
    assert forall x :: 0 <= x < |n.rounds| ==> n.rounds[x].height == 0 by { BehindIsLow(pre); }
    TurnDecide(c.lot, n, j, |pre|, v, votes, Behind(prevoted, precommitted), timer, Big(total), Small(total), env);
    var m := Turn(cr, n, |pre|, Big(total), Small(total), env);
    SmallRounds(pre);
    UpdateLast(c, n, pre, rd, env, m);
    t := Ticks(c, s, k, b, m, env);
  }

  lemma BehindIsLow(pre: seq<RoundData>)
    requires LeftBehind(pre)
    ensures forall x :: 0 <= x < |pre| ==> pre[x].height == 0
  {
  }

  // Hearing votes in the first round --------------------------------------------------------------

  lemma HearsPrevote(c: Stage, s: System, k: PubKey, q: nat, v: Value, votes: seq<Slots>, prevoted: nat,
                     timer: Option<Timeout>) returns (t: System)
    requires c.Ok() && Reachable(c.W(), c.Cr(), s) && k in s.starts && Short(v) && q < c.Members() == |votes|
      && votes[q] == NO_VOTES
    requires Vote(0, 0, Prevote, IdOf(v), c.roster[q].key) in s.votes
    requires Stands(s, k, Midway(c, k, [], Offered1(v, 0, Pass, votes, Behind(prevoted, 0), timer, false), AtPrevote,
      (None, -1)))
    ensures Reachable(c.W(), c.Cr(), t) && Moves(s, t, k) && t.votes == s.votes && t.chunks == s.chunks
    ensures Stands(t, k, Midway(c, k, [],
      Offered1(v, 0, Pass, votes[q := Slots(Yes(IdOf(v)), NO_VOTE)], Behind(prevoted + Stake(c, q), 0), timer, false),
        AtPrevote, (None, -1)))
  {
    hide Reachable, AddVote;
    var rd := Offered1(v, 0, Pass, votes, Behind(prevoted, 0), timer, false);
    var b := Midway(c, k, [], rd, AtPrevote, (None, -1));
    t := HearsVote(c, s, k, b, 0, q, Vote(0, 0, Prevote, IdOf(v), c.roster[q].key));
    Names();
    PrevoteAdded(rd, q, IdOf(v), Active(c.roster));
    var rd' := Offered1(v, 0, Pass, votes[q := Slots(Yes(IdOf(v)), NO_VOTE)], Behind(prevoted + Stake(c, q), 0), timer,
      false);
    assert b.rounds[0 := rd'] == [] + [rd'];
  }

  lemma HearsPrecommit(c: Stage, s: System, k: PubKey, q: nat, v: Value, votes: seq<Slots>, prevoted: nat,
                       committed: nat, timer: Option<Timeout>)
    returns (t: System)
    requires c.Ok() && Reachable(c.W(), c.Cr(), s) && k in s.starts && Short(v) && q < c.Members() == |votes|
    requires votes[q] == Slots(Yes(IdOf(v)), NO_VOTE) && Vote(0, 0, Precommit, IdOf(v), c.roster[q].key) in s.votes
    requires Stands(s, k, Midway(c, k, [], Offered1(v, 0, Pass, votes, Behind(prevoted, committed), timer, true),
      AtPrecommit, (Some(v), 0)))
    ensures Reachable(c.W(), c.Cr(), t) && Moves(s, t, k) && t.votes == s.votes && t.chunks == s.chunks
    ensures Stands(t, k, Midway(c, k, [],
      Offered1(v, 0, Pass, votes[q := Slots(Yes(IdOf(v)), Yes(IdOf(v)))], Behind(prevoted, committed + Stake(c, q)),
        timer, true), AtPrecommit, (Some(v), 0)))
  {
    hide Reachable, AddVote;
    var rd := Offered1(v, 0, Pass, votes, Behind(prevoted, committed), timer, true);
    var b := Midway(c, k, [], rd, AtPrecommit, (Some(v), 0));
    t := HearsVote(c, s, k, b, 0, q, Vote(0, 0, Precommit, IdOf(v), c.roster[q].key));
    Names();
    PrecommitAdded(rd, q, IdOf(v), Active(c.roster));
    var rd' := Offered1(v, 0, Pass, votes[q := Slots(Yes(IdOf(v)), Yes(IdOf(v)))],
      Behind(prevoted, committed + Stake(c, q)), timer, true);
    assert b.rounds[0 := rd'] == [] + [rd'];
  }

  lemma OfferingIsMidway(c: Stage, k: PubKey, v: Value)
    ensures Offering1(c, k, v) ==
      Midway(c, k, [], Offered1(v, 0, Indeterminate, NoVotes(c.Members()), ZERO, StartTimer(), false), AtPropose,
      (None, -1))
  {
    var rd := Offered1(v, 0, Indeterminate, NoVotes(c.Members()), ZERO, StartTimer(), false);
    assert [rd] == [] + [rd];
  }

  /** The votes of a member that has cast and heard one prevote. */
  function Seen(c: Stage, j: nat, q: nat, id: ValueId): seq<Slots>
    requires j < c.Members() && q < c.Members()
  {
    Voted(c, j, id)[q := Slots(Yes(id), NO_VOTE)]
  }

  lemma VotedAt(c: Stage, j: nat, q: nat, id: ValueId)
    requires j < c.Members() && q < c.Members() && q != j
    ensures |Voted(c, j, id)| == c.Members() && Voted(c, j, id)[q] == NO_VOTES
      && Voted(c, j, id)[j] == Slots(Yes(id), NO_VOTE)
  {
  }

  /** A node joins, hears the proposer's value and its prevote, and prevotes the value itself. */
  lemma FollowsProposer(c: Stage, s: System, k: PubKey, j: nat, q: nat, v: Value) returns (t: System)
    requires c.Ok() && Reachable(c.W(), c.Cr(), s) && k !in s.nodes && k !in s.starts && k !in c.W().faulty && Short(v)
    requires q < c.Members() && q != j && Position(Active(c.roster), k) == Some(j)
      && ProposerAt(c.Cr(), c.roster, 0, 0) == Some(q)
    requires Chunk1(c.roster[q].key, v, 0) in s.chunks && Vote(0, 0, Prevote, IdOf(v), c.roster[q].key) in s.votes
    ensures Reachable(c.W(), c.Cr(), t) && Moves(s, t, k) && k in t.starts && t.starts[k] == 0
    ensures t.votes == s.votes + [Vote(0, 0, Prevote, IdOf(v), k)] && t.chunks == s.chunks
    ensures Stands(t, k, Midway(c, k, [], Offered1(v, 0, Pass, Seen(c, j, q, IdOf(v)),
      Behind(Stake(c, j) + Stake(c, q), 0), StartTimer(), false), AtPrevote, (None, -1)))
  {
    hide Reachable, Position, ProposerAt, Stands, Midway, Offered1, Idle, Offering1, NoVotes, Moves;
    var s1 := Joins(c, s, k);
    assert k in s1.starts && s1.starts[k] == 0 by { MovesKey(s, s1, k); }
    var s2 := HearsChunk(c, s1, k, q, v);
    MovesOn(s, s1, s2, k);
    OfferingIsMidway(c, k, v);
    var s3 := Prevotes(c, s2, k, j, [], v, StartTimer(), 0);
    MovesOn(s, s2, s3, k);
    VotedAt(c, j, q, IdOf(v));
    t := HearsPrevote(c, s3, k, q, v, Voted(c, j, IdOf(v)), Stake(c, j), StartTimer());
    MovesOn(s, s3, t, k);
  }

  /** A node that has precommitted hears the other member's precommit and decides. */
  lemma Finishes(c: Stage, s: System, k: PubKey, j: nat, q: nat, v: Value) returns (t: System)
    requires c.Ok() && Reachable(c.W(), c.Cr(), s) && k in s.starts && s.starts[k] == 0 && Short(v)
      && Position(Active(c.roster), k) == Some(j)
    requires q < c.Members() && q != j && Big(c.Sum()) <= Stake(c, j) + Stake(c, q)
      && Vote(0, 0, Precommit, IdOf(v), c.roster[q].key) in s.votes
    requires Stands(s, k, Midway(c, k, [], Locked1(c, j, 0, v, Seen(c, j, q, IdOf(v)), Stake(c, j) + Stake(c, q), 0),
      AtPrecommit, (Some(v), 0)))
    ensures Reachable(c.W(), c.Cr(), t) && Moves(s, t, k) && t.votes == s.votes && t.chunks == s.chunks
    ensures Decided(t, k, 0) && Decision(t, k, 0).proposal == v
  {
    hide Reachable, Position, Stands, Midway, Offered1, NoVotes, Moves, Decided;
    var id, timer, prevoted := IdOf(v), NewTimeout(0, 0, 0, AtPrevote), Stake(c, j) + Stake(c, q);
    VotedAt(c, j, q, id);
    var votes := Seen(c, j, q, id)[j := Slots(Yes(id), Yes(id))];
    var s1 := HearsPrecommit(c, s, k, q, v, votes, prevoted, Stake(c, j), timer);
    assert k in s1.starts && s1.starts[k] == 0 by { MovesKey(s, s1, k); }
    t := Decides(c, s1, k, j, [], v, votes[q := Slots(Yes(id), Yes(id))], prevoted, prevoted, timer, 0);
    MovesOn(s, s1, t, k);
  }

  // A round in vain -------------------------------------------------------------------------------

  /** What the round of a member that votes nil alone looks like at the end. */
  function InVain(c: Stage, j: nat): RoundData
    requires j < c.Members()
  {
    var x := Stake(c, j);
    Bare(0, NoVotes(c.Members())[j := Slots(Yes(NIL_ID), Yes(NIL_ID))], Counts(x, x, x, 0, x, 0),
      NewTimeout(5000, 0, 0, AtPrecommit), true, true)
  }

  lemma PrevotesNil(c: Stage, s: System, k: PubKey, j: nat) returns (t: System)
    requires c.Ok() && Reachable(c.W(), c.Cr(), s) && k in s.starts && Position(Active(c.roster), k) == Some(j)
      && Stands(s, k, Idle(c, k))
    ensures Reachable(c.W(), c.Cr(), t) && Moves(s, t, k) && t.chunks == s.chunks
      && t.votes == s.votes + [Vote(0, 0, Prevote, NIL_ID, k)]
    ensures var x := Stake(c, j);
      Stands(t, k, Midway(c, k, [], Bare(0, Voted(c, j, NIL_ID), Counts(x, x, x, 0, 0, 0), StartTimer(), false, false),
        AtPrevote, (None, -1)))
  {
    hide Reachable, Update, RangeKept, Turn, Position, AddVote;
    var rd, x := Bare(0, NoVotes(c.Members()), ZERO, StartTimer(), false, false), Stake(c, j);
    var b, env := Midway(c, k, [], rd, AtPropose, (None, -1)), EnvAt(5000, None, c.roster);
    assert Idle(c, k) == b by { assert [rd] == [] + [rd]; }
    var m := Turn(c.Cr(), Told(b, s), 0, Big(c.Sum()), Small(c.Sum()), env);
    MidwayPlaced(c, k, j, [], rd, AtPropose, (None, -1), s);
    TurnNilPrevote(c.lot, Told(b, s), j, 0, rd.votes, rd.timeout.value, Big(c.Sum()), Small(c.Sum()), env);
    PrevoteAdded(rd, j, NIL_ID, Active(c.roster));
    var rd' := Bare(0, Voted(c, j, NIL_ID), Counts(x, x, x, 0, 0, 0), StartTimer(), false, false);
    assert b.rounds[0 := rd'] == [] + [rd'];
    UpdateLast(c, Told(b, s), [], rd, env, m);
    t := Ticks(c, s, k, b, m, env);
  }

  lemma PrecommitsNil(c: Stage, s: System, k: PubKey, j: nat) returns (t: System)
    requires c.Ok() && Reachable(c.W(), c.Cr(), s) && k in s.starts && Position(Active(c.roster), k) == Some(j)
      && Big(c.Sum()) <= Stake(c, j)
    requires var x := Stake(c, j);
      Stands(s, k, Midway(c, k, [], Bare(0, Voted(c, j, NIL_ID), Counts(x, x, x, 0, 0, 0), StartTimer(), false, false),
        AtPrevote, (None, -1)))
    ensures Reachable(c.W(), c.Cr(), t) && Moves(s, t, k) && t.chunks == s.chunks
      && t.votes == s.votes + [Vote(0, 0, Precommit, NIL_ID, k)]
    ensures Stands(t, k, Midway(c, k, [], InVain(c, j).(timeout := NewTimeout(5000, 0, 0, AtPrevote),
      precommitTimeout := false), AtPrecommit, (None, -1)))
  {
    hide Reachable, Update, RangeKept, Turn, Position, AddVote;
    var x := Stake(c, j);
    var rd := Bare(0, Voted(c, j, NIL_ID), Counts(x, x, x, 0, 0, 0), StartTimer(), false, false);
    var b, env := Midway(c, k, [], rd, AtPrevote, (None, -1)), EnvAt(5000, None, c.roster);
    var m := Turn(c.Cr(), Told(b, s), 0, Big(c.Sum()), Small(c.Sum()), env);
    MidwayPlaced(c, k, j, [], rd, AtPrevote, (None, -1), s);
    TurnNilPrecommit(c.lot, Told(b, s), j, 0, rd.votes, rd.counts, rd.timeout, Big(c.Sum()), Small(c.Sum()), env);
    PrecommitAdded(Bare(0, rd.votes, rd.counts, NewTimeout(5000, 0, 0, AtPrevote), true, false), j, NIL_ID,
      Active(c.roster));
    var rd' := InVain(c, j).(timeout := NewTimeout(5000, 0, 0, AtPrevote), precommitTimeout := false);
    assert rd.votes[j := Slots(Yes(NIL_ID), Yes(NIL_ID))] == rd'.votes;
    assert b.rounds[0 := rd'] == [] + [rd'];
    UpdateLast(c, Told(b, s), [], rd, env, m);
    t := Ticks(c, s, k, b, m, env);
  }

  lemma CallsLastOrders(c: Stage, s: System, k: PubKey, j: nat) returns (t: System)
    requires c.Ok() && Reachable(c.W(), c.Cr(), s) && k in s.starts && Position(Active(c.roster), k) == Some(j)
      && Big(c.Sum()) <= Stake(c, j)
    requires Stands(s, k, Midway(c, k, [], InVain(c, j).(timeout := NewTimeout(5000, 0, 0, AtPrevote),
      precommitTimeout := false), AtPrecommit, (None, -1)))
    ensures Reachable(c.W(), c.Cr(), t) && Moves(s, t, k) && t.chunks == s.chunks && t.votes == s.votes
    ensures Stands(t, k, Midway(c, k, [], InVain(c, j), AtPrecommit, (None, -1)))
  {
    hide Reachable, Update, RangeKept, Turn, Position;
    var rd := InVain(c, j).(timeout := NewTimeout(5000, 0, 0, AtPrevote), precommitTimeout := false);
    var b, env := Midway(c, k, [], rd, AtPrecommit, (None, -1)), EnvAt(5000, None, c.roster);
    var m := Turn(c.Cr(), Told(b, s), 0, Big(c.Sum()), Small(c.Sum()), env);
    MidwayPlaced(c, k, j, [], rd, AtPrecommit, (None, -1), s);
    TurnLastOrders(c.Cr(), Told(b, s), j, 0, rd.votes, rd.counts, rd.timeout, Big(c.Sum()), Small(c.Sum()), env);
    assert b.rounds[0 := InVain(c, j)] == [] + [InVain(c, j)];
    UpdateLast(c, Told(b, s), [], rd, env, m);
    t := Ticks(c, s, k, b, m, env);
  }

  /** The node leaves the first round behind and proposes in the second. */
  lemma TriesAgain(c: Stage, s: System, k: PubKey, j: nat, v: Value) returns (t: System)
    requires c.Ok() && Reachable(c.W(), c.Cr(), s) && k in s.starts && Position(Active(c.roster), k) == Some(j)
      && Short(v)
    requires ProposerKey(c.Cr(), c.roster, 0, 1) == k
      && Stands(s, k, Midway(c, k, [], InVain(c, j), AtPrecommit, (None, -1)))
    ensures Reachable(c.W(), c.Cr(), t) && Moves(s, t, k) && t.votes == s.votes
      && t.chunks == s.chunks + {Chunk1(k, v, 1)}
    ensures LeftBehind([InVain(c, j)])
    ensures Stands(t, k, Midway(c, k, [InVain(c, j)],
      Offered1(v, 1, Indeterminate, NoVotes(c.Members()), ZERO, NewTimeout(10000, 0, 1, AtPropose), false), AtPropose,
        (None, -1)))
  {
    hide Reachable, Update, RangeKept, Turn, Position, ProposerKey, StartRound;
    var rd := InVain(c, j);
    var b, env := Midway(c, k, [], rd, AtPrecommit, (None, -1)), EnvAt(10000, Some(v), c.roster);
    var m := Turn(c.Cr(), Told(b, s), 0, Big(c.Sum()), Small(c.Sum()), env);
    MidwayPlaced(c, k, j, [], rd, AtPrecommit, (None, -1), s);
    TurnNextRound(c.Cr(), Told(b, s), j, 0, rd.votes, rd.counts, rd.timeout.value, Big(c.Sum()), Small(c.Sum()), env);
    StartPropose(c.lot, Told(b, s), j, 10000, 1, v);
    assert b.rounds == [rd];
    UpdateLast(c, Told(b, s), [], rd, env, m);
    t := Ticks(c, s, k, b, m, env);
  }
}
