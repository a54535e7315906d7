/**
 * Agreement as a theorem about vote logs.
 *
 * A log lists every vote that was ever signed, oldest first. `CastOk` is what one vote of a
 * correct member owes to the votes signed before it: it is what lines 22, 28 and 36 of the
 * protocol check. Faulty members may sign anything at any time.
 */
module VoteLog {
  import opened Types
  import opened Roster

  datatype Kind = Prevote | Precommit

  datatype Vote = Vote(height: nat, round: nat, kind: Kind, id: ValueId, key: PubKey)

  type Log = seq<Vote>

  /** One roster per height, and the keys whose holders may deviate from the code. */
  datatype World = World(rosterAt: nat -> seq<Member>, faulty: iset<PubKey>)

  ghost function ActiveAt(w: World, h: nat): seq<Member> {
    Active(w.rosterAt(h))
  }

  ghost function FaultyAt(w: World, h: nat): set<PubKey> {
    set m | m in ActiveAt(w, h) && m.key in w.faulty :: m.key
  }

  /** Every height has some active stake, so that its thresholds are defined. */
  ghost predicate Staked(w: World) {
    forall h: nat :: Total(ActiveAt(w, h)) >= 1
  }

  /** The fault assumption: at every height the faulty stake is below the quorum overlap. */
  ghost predicate FaultsBounded(w: World) {
    && Staked(w)
    && forall h: nat ::
         StakeOf(ActiveAt(w, h), FaultyAt(w, h)) < 2 * Big(Total(ActiveAt(w, h))) - Total(ActiveAt(w, h))
  }

  ghost function Voters(w: World, log: Log, h: nat, r: nat, k: Kind, id: ValueId): set<PubKey> {
    set m | m in ActiveAt(w, h) && Vote(h, r, k, id, m.key) in log :: m.key
  }

  ghost predicate Quorum(w: World, log: Log, h: nat, r: nat, k: Kind, id: ValueId)
    requires Staked(w)
  {
    StakeOf(ActiveAt(w, h), Voters(w, log, h, r, k, id)) >= Big(Total(ActiveAt(w, h)))
  }

  predicate IsLock(v: Vote, key: PubKey, h: nat) {
    v.key == key && v.height == h && v.kind == Precommit && v.id != NIL_ID
  }

  /** The most recent non-nil precommit of `key` at height `h`. */
  function LockOf(log: Log, key: PubKey, h: nat): Option<Vote> {
    if log == [] then None
    else if IsLock(log[|log| - 1], key, h) then Some(log[|log| - 1])
    else LockOf(log[..|log| - 1], key, h)
  }

  predicate NotAfter(u: Vote, v: Vote) {
    u.height < v.height || (u.height == v.height && u.round <= v.round)
  }

  /** What a correct member guarantees when it signs `v` after the votes in `past`. */
  ghost predicate CastOk(w: World, past: Log, v: Vote)
    requires Staked(w)
  {
    && (forall u :: u in past && u.key == v.key ==> NotAfter(u, v))
    && (forall u :: u in past && u.key == v.key && u.height == v.height && u.round == v.round ==>
                      u.kind == Prevote && v.kind == Precommit)
    && (v.kind == Precommit && v.id != NIL_ID ==> Quorum(w, past, v.height, v.round, Prevote, v.id))
    && (v.kind == Prevote && v.id != NIL_ID ==>
          || LockOf(past, v.key, v.height) == None
          || LockOf(past, v.key, v.height).value.id == v.id
          || Quorum(w, past, v.height, v.round, Prevote, v.id))
  }

  ghost predicate LogOk(w: World, log: Log)
    requires Staked(w)
  {
    forall k :: 0 <= k < |log| && log[k].key !in w.faulty ==> CastOk(w, log[..k], log[k])
  }

  lemma LogOkAppend(w: World, log: Log, v: Vote)
    requires Staked(w) && LogOk(w, log)
    requires v.key !in w.faulty ==> CastOk(w, log, v)
    ensures LogOk(w, log + [v])
  {
    var ext := log + [v];
    forall k | 0 <= k < |ext| && ext[k].key !in w.faulty
      ensures CastOk(w, ext[..k], ext[k])
    {
      if k < |log| {
        assert ext[..k] == log[..k];
      } else {
        assert ext[..k] == log;
      }
    }
  }

  lemma QuorumGrows(w: World, past: Log, log: Log, h: nat, r: nat, k: Kind, id: ValueId)
    requires Staked(w) && past <= log
    requires Quorum(w, past, h, r, k, id)
    ensures Quorum(w, log, h, r, k, id)
  {
    StakeMonotone(ActiveAt(w, h), Voters(w, past, h, r, k, id), Voters(w, log, h, r, k, id));
  }

  /** Two quorums of one height share a correct signer of both votes. */
  lemma SharedSigner(w: World, l1: Log, l2: Log, h: nat, r1: nat, k1: Kind, id1: ValueId, r2: nat, k2: Kind,
                     id2: ValueId)
    returns (key: PubKey)
    requires FaultsBounded(w)
    requires Quorum(w, l1, h, r1, k1, id1) && Quorum(w, l2, h, r2, k2, id2)
    ensures key !in w.faulty
    ensures Vote(h, r1, k1, id1, key) in l1 && Vote(h, r2, k2, id2, key) in l2
  {
    var ms := ActiveAt(w, h);
    var a, b := Voters(w, l1, h, r1, k1, id1), Voters(w, l2, h, r2, k2, id2);
    QuorumsShareCorrect(ms, a, b, FaultyAt(w, h));
    key :| key in a && key in b && key !in FaultyAt(w, h);
  }

  /** A correct member signs at most one vote of each kind per height and round. */
  lemma NoDoubleVote(w: World, log: Log, u: Vote, v: Vote)
    requires Staked(w) && LogOk(w, log)
    requires u in log && v in log && u.key == v.key && u.key !in w.faulty
    requires u.height == v.height && u.round == v.round && u.kind == v.kind
    ensures u == v
  {
    var i :| 0 <= i < |log| && log[i] == u;
    var j :| 0 <= j < |log| && log[j] == v;
    if i < j {
      assert u in log[..j];
    }
  }

  /** A non-nil precommit of a correct member rests on a prevote quorum for the same value. */
  lemma PrecommitHasQuorum(w: World, log: Log, v: Vote)
    requires Staked(w) && LogOk(w, log)
    requires v in log && v.key !in w.faulty && v.kind == Precommit && v.id != NIL_ID
    ensures Quorum(w, log, v.height, v.round, Prevote, v.id)
  {
    var k :| 0 <= k < |log| && log[k] == v;
    QuorumGrows(w, log[..k], log, v.height, v.round, Prevote, v.id);
  }

  lemma PrecommitQuorumHasPrevotes(w: World, log: Log, h: nat, r: nat, id: ValueId)
    requires FaultsBounded(w) && LogOk(w, log) && id != NIL_ID
    requires Quorum(w, log, h, r, Precommit, id)
    ensures Quorum(w, log, h, r, Prevote, id)
  {
    var key := SharedSigner(w, log, log, h, r, Precommit, id, r, Precommit, id);
    PrecommitHasQuorum(w, log, Vote(h, r, Precommit, id, key));
  }

  /** Two prevote quorums of one round name one value. */
  lemma OnePrevoteValue(w: World, log: Log, h: nat, r: nat, id1: ValueId, id2: ValueId)
    requires FaultsBounded(w) && LogOk(w, log)
    requires Quorum(w, log, h, r, Prevote, id1) && Quorum(w, log, h, r, Prevote, id2)
    ensures id1 == id2
  {
    var key := SharedSigner(w, log, log, h, r, Prevote, id1, r, Prevote, id2);
    NoDoubleVote(w, log, Vote(h, r, Prevote, id1, key), Vote(h, r, Prevote, id2, key));
  }

  /** The lock is a logged non-nil precommit, and no logged non-nil precommit has a later round. */
  lemma {:induction false} LockIsLatest(w: World, log: Log, n: nat, key: PubKey, h: nat, u: Vote)
    requires Staked(w) && LogOk(w, log) && key !in w.faulty && n <= |log|
    requires u in log[..n] && IsLock(u, key, h)
    ensures LockOf(log[..n], key, h).Some?
    ensures var l := LockOf(log[..n], key, h).value; l in log[..n] && IsLock(l, key, h) && u.round <= l.round
    decreases n
  {
    assert log[..n][..n - 1] == log[..n - 1];
    if IsLock(log[n - 1], key, h) {
      if u != log[n - 1] {
        assert u in log[..n - 1];
      }
    } else {
      LockIsLatest(w, log, n - 1, key, h, u);
    }
  }

  /**
   * In a log where every round before `r2` that gathers a prevote quorum from `r1` on names `id1`,
   * no correct signer of the precommit quorum for `id1` in `r1` ever prevotes `id2` in `r2`:
   * the first one to do so would already have needed a quorum for `id2` that contains another.
   */
  lemma {:induction false} NoDefector(w: World, log: Log, h: nat, r1: nat, id1: ValueId, r2: nat, id2: ValueId, n: nat,
                                      key: PubKey)
    requires FaultsBounded(w) && LogOk(w, log)
    requires id1 != NIL_ID && id2 != NIL_ID && id1 != id2 && r1 < r2 && n <= |log|
    requires Quorum(w, log, h, r1, Precommit, id1)
    requires forall r: nat, id :: r1 <= r < r2 && id != NIL_ID && Quorum(w, log, h, r, Prevote, id) ==> id == id1
    requires key !in w.faulty && Vote(h, r1, Precommit, id1, key) in log
    ensures Vote(h, r2, Prevote, id2, key) !in log[..n]
    decreases n
  {
    if n > 0 {
      assert log[..n] == log[..n - 1] + [log[n - 1]];
      NoDefector(w, log, h, r1, id1, r2, id2, n - 1, key);
      var v, past := log[n - 1], log[..n - 1];
      if v == Vote(h, r2, Prevote, id2, key) {
        LockedBefore(w, log, h, r1, id1, r2, n - 1, key);
        assert CastOk(w, past, v);
        var q := SharedSigner(w, log, past, h, r1, Precommit, id1, r2, Prevote, id2);
        NoDefector(w, log, h, r1, id1, r2, id2, n - 1, q);
      }
    }
  }

  /** A correct member that precommitted `id1` in `r1` is still locked on it when it votes in `r2`. */
  lemma LockedBefore(w: World, log: Log, h: nat, r1: nat, id1: ValueId, r2: nat, n: nat, key: PubKey)
    requires Staked(w) && LogOk(w, log) && id1 != NIL_ID && r1 < r2 && n < |log|
    requires forall r: nat, id :: r1 <= r < r2 && id != NIL_ID && Quorum(w, log, h, r, Prevote, id) ==> id == id1
    requires key !in w.faulty && Vote(h, r1, Precommit, id1, key) in log
    requires log[n].key == key && log[n].height == h && log[n].round == r2 && log[n].kind == Prevote
    ensures LockOf(log[..n], key, h).Some? && LockOf(log[..n], key, h).value.id == id1
  {
    var u := Vote(h, r1, Precommit, id1, key);
    var j :| 0 <= j < |log| && log[j] == u;
    assert j <= n;
    assert u in log[..n];
    LockIsLatest(w, log, n, key, h, u);
    var l := LockOf(log[..n], key, h).value;
    assert CastOk(w, log[..n], log[n]);
    assert r1 <= l.round < r2;
    PrecommitHasQuorum(w, log, l);
  }

  /**
   * Lock preservation: once a quorum of some round precommitted `id1`, no later round
   * of the height gathers a prevote quorum for another value.
   */
  lemma {:induction false} LockPreservation(w: World, log: Log, h: nat, r1: nat, id1: ValueId, r2: nat, id2: ValueId)
    requires FaultsBounded(w) && LogOk(w, log)
    requires id1 != NIL_ID && id2 != NIL_ID && r1 <= r2
    requires Quorum(w, log, h, r1, Precommit, id1)
    requires Quorum(w, log, h, r2, Prevote, id2)
    ensures id1 == id2
    decreases r2
  {
    if r1 == r2 {
      PrecommitQuorumHasPrevotes(w, log, h, r1, id1);
      OnePrevoteValue(w, log, h, r1, id1, id2);
    } else if id1 != id2 {
      forall r: nat, id | r1 <= r < r2 && id != NIL_ID && Quorum(w, log, h, r, Prevote, id)
        ensures id == id1
      {
        LockPreservation(w, log, h, r1, id1, r, id);
      }
      var q := SharedSigner(w, log, log, h, r1, Precommit, id1, r2, Prevote, id2);
      assert log[..|log|] == log;
      NoDefector(w, log, h, r1, id1, r2, id2, |log|, q);
      assert false;
    }
  }

  /** Agreement: two precommit quorums of one height name one value, whatever their rounds. */
  lemma LogAgreement(w: World, log: Log, h: nat, r1: nat, id1: ValueId, r2: nat, id2: ValueId)
    requires FaultsBounded(w) && LogOk(w, log)
    requires id1 != NIL_ID && id2 != NIL_ID
    requires Quorum(w, log, h, r1, Precommit, id1)
    requires Quorum(w, log, h, r2, Precommit, id2)
    ensures id1 == id2
  {
    PrecommitQuorumHasPrevotes(w, log, h, r1, id1);
    PrecommitQuorumHasPrevotes(w, log, h, r2, id2);
    if r1 <= r2 {
      LockPreservation(w, log, h, r1, id1, r2, id2);
    } else {
      LockPreservation(w, log, h, r2, id2, r1, id1);
    }
  }
}
