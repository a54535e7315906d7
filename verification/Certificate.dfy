/** The fat pointer pushed with every decision, as a proof of the decision for anyone who knows the roster. */
module Certificate {
  import opened Types
  import opened Bytes
  import opened Roster
  import opened VoteLog
  import opened Messages
  import opened Rounds
  import opened Node
  import opened Invariant
  import opened Signatures
  import opened Network
  import Authorship

  datatype Endorsement = Endorsement(key: PubKey, sig: Sig)

  /** `FatPointerToBftBlock`: the signed bytes less the signer's key, and who signed them. */
  datatype FatPointer = FatPointer(tail: seq<byte>, endorsements: seq<Endorsement>)

  predicate Endorses(s: Slots, id: ValueId) {
    s.precommit.id == id && s.precommit.sig != NIL_SIG
  }

  function Endorsements(votes: seq<Slots>, roster: seq<Member>, id: ValueId): seq<Endorsement>
    requires |votes| <= |roster|
  {
    if votes == [] then []
    else
      var j := |votes| - 1;
      Endorsements(votes[..j], roster, id)
        + if Endorses(votes[j], id) then [Endorsement(roster[j].key, votes[j].precommit.sig)] else []
  }

  /** `round_data_to_fat_pointer`. */
  function FatPointerOf(rd: RoundData, roster: seq<Member>): FatPointer
    requires |rd.votes| <= |roster|
  {
    FatPointer(rd.id.bytes + Le(rd.height, 8) + Le(rd.round + PRECOMMIT_FLAG, 4), Endorsements(rd.votes, roster, rd.id))
  }

  // What a fat pointer proves --------------------------------------------------------------------

  predicate Increasing(seats: seq<nat>) {
    forall x, y :: 0 <= x < y < |seats| ==> seats[x] < seats[y]
  }

  ghost function SeatStake(seats: seq<nat>, ms: seq<Member>): nat
    requires forall x :: 0 <= x < |seats| ==> seats[x] < |ms|
  {
    if seats == [] then 0 else SeatStake(seats[..|seats| - 1], ms) + ms[seats[|seats| - 1]].stake
  }

  /** The endorsements come from these members of the roster, one each, and every signature verifies. */
  ghost predicate SignedBy(cr: Crypto, ms: seq<Member>, f: FatPointer, seats: seq<nat>) {
    && Increasing(seats) && |seats| == |f.endorsements|
    && forall x :: 0 <= x < |seats| ==>
         && seats[x] < |ms| && f.endorsements[x].key == ms[seats[x]].key
         && cr.verify(ms[seats[x]].key, ms[seats[x]].key.bytes + f.tail, f.endorsements[x].sig)
  }

  /** The check a third party can make: `big` stake of the active roster precommitted `id` at this height and round. */
  ghost predicate Certifies(cr: Crypto, roster: seq<Member>, f: FatPointer, h: nat, r: nat, id: ValueId) {
    && h < 0x1_0000_0000_0000_0000 && r < PRECOMMIT_FLAG && id != NIL_ID && Total(Active(roster)) >= 1
    && f.tail == id.bytes + Le(h, 8) + Le(r + PRECOMMIT_FLAG, 4)
    && exists seats ::
      SignedBy(cr, Active(roster), f, seats) && SeatStake(seats, Active(roster)) >= Big(Total(Active(roster)))
  }

  // Whatever a node pushes certifies its decision ------------------------------------------------

  /** The members whose precommit is listed, in roster order. */
  ghost function Seats(votes: seq<Slots>, id: ValueId): (seats: seq<nat>)
    ensures Increasing(seats) && forall x :: 0 <= x < |seats| ==> seats[x] < |votes| && Endorses(votes[seats[x]], id)
  {
    if votes == [] then []
    else Seats(votes[..|votes| - 1], id) + if Endorses(votes[|votes| - 1], id) then [|votes| - 1] else []
  }

  lemma {:induction false} ListsItsSeats(votes: seq<Slots>, roster: seq<Member>, id: ValueId)
    requires |votes| <= |roster|
    ensures var e, seats := Endorsements(votes, roster, id), Seats(votes, id);
      && |e| == |seats|
      && forall x :: 0 <= x < |seats| ==> e[x] == Endorsement(roster[seats[x]].key, votes[seats[x]].precommit.sig)
  {
    if votes != [] {
      ListsItsSeats(votes[..|votes| - 1], roster, id);
    }
  }

  /** If every yes precommit names `id`, the listed seats hold exactly the counted stake. */
  lemma {:induction false} SeatsHoldCount(votes: seq<Slots>, ms: seq<Member>, id: ValueId)
    requires |votes| <= |ms| && id != NIL_ID
    requires forall j :: 0 <= j < |votes| && votes[j].precommit.id != NIL_ID ==> votes[j].precommit.id == id
    ensures SeatStake(Seats(votes, id), ms) == SumCounts(votes, ms).yesPrecommits
  {
    if votes != [] {
      var j := |votes| - 1;
      SeatsHoldCount(votes[..j], ms, id);
      assert Endorses(votes[j], id) <==> votes[j].precommit.Yes();
      assert SumCounts(votes, ms).yesPrecommits
          == SumCounts(votes[..j], ms).yesPrecommits + If(votes[j].precommit.Yes(), ms[j].stake);
      var seats := Seats(votes[..j], id);
      if Endorses(votes[j], id) {
        assert (seats + [j])[..|seats|] == seats;
      } else {
        assert seats + [] == seats;
      }
    }
  }

  lemma PushedIsSigned(cr: Crypto, rd: RoundData, roster: seq<Member>)
    requires SlotsVerify(cr, rd, roster)
    ensures SignedBy(cr, Active(roster), FatPointerOf(rd, roster), Seats(rd.votes, rd.id))
  {
    var f, seats := FatPointerOf(rd, roster), Seats(rd.votes, rd.id);
    ListsItsSeats(rd.votes, roster, rd.id);
    forall x | 0 <= x < |seats|
      ensures cr.verify(roster[seats[x]].key, roster[seats[x]].key.bytes + f.tail, f.endorsements[x].sig)
    {
      assert rd.votes[seats[x]].Get(Precommit).Cast();
    }
  }

  /** When line 49 fires, what it pushes certifies its height, round and value. */
  lemma PushedCertifies(w: World, cr: Crypto, n: Node, i: nat, start: nat)
    requires WorldOk(w, cr) && Good(w, cr, n, start) && Signed(cr, n) && i < |n.rounds|
    requires n.height < 0x1_0000_0000_0000_0000 && Total(Active(n.roster)) >= 1
    requires var rd := n.rounds[i];
      rd.height == n.height && rd.checked == Pass && Big(Total(Active(n.roster))) <= rd.counts.yesPrecommits
    ensures |n.rounds[i].votes| <= |n.roster|
    ensures Certifies(cr, n.roster, FatPointerOf(n.rounds[i], n.roster), n.height, n.rounds[i].round, n.rounds[i].id)
  {
    hide LogOk, SignedOk, LockOk, CommittedOk;
    var rd := n.rounds[i];
    assert RoundOk(cr, rd, n.roster);
    PushedIsSigned(cr, rd, n.roster);
    forall j | 0 <= j < |rd.votes| && rd.votes[j].precommit.id != NIL_ID
      ensures rd.votes[j].precommit.id == rd.id
    {
      assert rd.votes[j].Get(Precommit).id != NIL_ID;
    }
    SeatsHoldCount(rd.votes, Active(n.roster), rd.id);
    CountedRoundIsLow(cr, n, rd);
  }

  /** Votes exist only for rounds below the flag, so a round with counted stake is below it. */
  lemma CountedRoundIsLow(cr: Crypto, n: Node, rd: RoundData)
    requires SignedOk(n.votes, n.chunks) && RoundOk(cr, rd, n.roster) && RoundSigned(cr, rd, n)
      && rd.counts.yesPrecommits > 0
    ensures rd.round < PRECOMMIT_FLAG
  {
    var j := SomeYes(rd.votes, Active(n.roster));
    assert rd.votes[j].Get(Precommit).Cast();
    assert Vote(rd.height, rd.round, Precommit, rd.votes[j].precommit.id, Active(n.roster)[j].key) in n.votes;
  }

  lemma {:induction false} SomeYes(votes: seq<Slots>, ms: seq<Member>) returns (j: nat)
    requires |votes| <= |ms| && SumCounts(votes, ms).yesPrecommits > 0
    ensures j < |votes| && votes[j].precommit.Yes()
  {
    j := |votes| - 1;
    if !votes[j].precommit.Yes() {
      j := SomeYes(votes[..j], ms);
    }
  }

  // Whatever certifies is final ------------------------------------------------------------------

  /** Distinct seats whose members' keys lie in `keys` hold no more stake than `keys`. */
  lemma {:induction false} SeatStakeBound(seats: seq<nat>, ms: seq<Member>, keys: set<PubKey>)
    requires Increasing(seats) && forall x :: 0 <= x < |seats| ==> seats[x] < |ms| && ms[seats[x]].key in keys
    ensures SeatStake(seats, ms) <= StakeOf(ms, keys)
    decreases |ms|
  {
    if ms != [] && seats != [] {
      var last, m := |seats| - 1, |ms| - 1;
      if seats[last] == m {
        SeatStakeBound(seats[..last], ms[..m], keys);
        SeatPrefix(seats[..last], ms, m);
      } else {
        SeatStakeBound(seats, ms[..m], keys);
        SeatPrefix(seats, ms, m);
      }
    }
  }

  lemma {:induction false} SeatPrefix(seats: seq<nat>, ms: seq<Member>, m: nat)
    requires m <= |ms| && forall x :: 0 <= x < |seats| ==> seats[x] < m
    ensures SeatStake(seats, ms[..m]) == SeatStake(seats, ms)
  {
    if seats != [] {
      SeatPrefix(seats[..|seats| - 1], ms, m);
    }
  }

  /** The listed signatures were made by the holders of the listed keys. */
  ghost predicate Unforgeable(cr: Crypto, s: System, f: FatPointer) {
    forall e :: e in f.endorsements && cr.verify(e.key, e.key.bytes + f.tail, e.sig) ==>
      Authentic(s.votes, s.chunks, e.key, e.key.bytes + f.tail)
  }

  lemma CertificateIsQuorum(w: World, cr: Crypto, s: System, f: FatPointer, h: nat, r: nat, id: ValueId)
    requires Staked(w) && SignedOk(s.votes, s.chunks) && Unforgeable(cr, s, f)
      && Certifies(cr, w.rosterAt(h), f, h, r, id)
    ensures Quorum(w, s.votes, h, r, Precommit, id) && id != NIL_ID
  {
    var ms, keys := ActiveAt(w, h), Voters(w, s.votes, h, r, Precommit, id);
    var seats :| SignedBy(cr, ms, f, seats) && SeatStake(seats, ms) >= Big(Total(ms));
    forall x | 0 <= x < |seats|
      ensures ms[seats[x]].key in keys
    {
      var e := f.endorsements[x];
      var v := Vote(h, r, Precommit, id, e.key);
      assert e in f.endorsements && VoteBytes(v) == e.key.bytes + f.tail;
      AuthenticVote(s.votes, s.chunks, v);
      assert ms[seats[x]] in ms;
    }
    SeatStakeBound(seats, ms, keys);
  }

  /** Over every run, any two genuine certificates for one height name the same value, whoever assembled them. */
  lemma CertificatesAgree(w: World, cr: Crypto, states: seq<System>, events: seq<Event>, i: nat, h: nat,
                          f: FatPointer, r1: nat, id1: ValueId, g: FatPointer, r2: nat, id2: ValueId)
    requires WorldOk(w, cr) && FaultsBounded(w) && Run(w, cr, states, events) && i < |states|
    requires Unforgeable(cr, states[i], f) && Certifies(cr, w.rosterAt(h), f, h, r1, id1)
    requires Unforgeable(cr, states[i], g) && Certifies(cr, w.rosterAt(h), g, h, r2, id2)
    ensures id1 == id2
  {
    hide Run, LogOk, Quorum, Certifies, Unforgeable, Good;
    RunInv(w, cr, states, events, i);
    CertificateIsQuorum(w, cr, states[i], f, h, r1, id1);
    CertificateIsQuorum(w, cr, states[i], g, h, r2, id2);
    LogAgreement(w, states[i].votes, h, r1, id1, r2, id2);
  }

  /** And it is the value that every correct node decides for that height. */
  lemma CertificateIsDecision(w: World, cr: Crypto, states: seq<System>, events: seq<Event>, i: nat, k: PubKey, h: nat,
                              f: FatPointer, r: nat, id: ValueId)
    requires WorldOk(w, cr) && FaultsBounded(w) && Run(w, cr, states, events) && i < |states|
    requires Unforgeable(cr, states[i], f) && Certifies(cr, w.rosterAt(h), f, h, r, id) && Decided(states[i], k, h)
    ensures id == cr.idOf(Decision(states[i], k, h).proposal)
  {
    hide Run, LogOk, Quorum, Certifies, Unforgeable, Good;
    RunInv(w, cr, states, events, i);
    CertificateIsQuorum(w, cr, states[i], f, h, r, id);
    DecisionHasQuorum(w, cr, states[i], k, h);
    var rd := Decision(states[i], k, h);
    LogAgreement(w, states[i].votes, h, r, id, rd.round, rd.id);
  }

  // Over runs, every node stores verified votes only ---------------------------------------------

  ghost predicate AllSigned(cr: Crypto, s: System) {
    forall k :: k in s.nodes ==> Signed(cr, s.nodes[k]) && s.nodes[k].key == k
  }

  lemma SignedFrame(cr: Crypto, n: Node, m: Node)
    requires Signed(cr, n) && m.rounds == n.rounds && m.height == n.height && m.roster == n.roster
    ensures Signed(cr, m)
  {
  }

  lemma StepSigned(w: World, cr: Crypto, s: System, e: Event)
    requires AllSigned(cr, s) && Allowed(w, cr, s, e)
    ensures AllSigned(cr, Apply(w, cr, s, e))
  {
    hide Signed, StartRound, Incorporate, Update;
    match e
    case Boot(k, roster, ingest, now, offer) =>
      var n := Newborn(k, roster, ingest, s.votes, s.chunks);
      NewbornSigned(cr, n);
      StartRoundSigned(cr, n, now, 0, offer);
      Authorship.StartRoundMine(cr, n, now, 0, offer);
    case Receive(k, p, j, sig) =>
      SignedFrame(cr, s.nodes[k], View(s, k));
      IncorporateSigned(cr, View(s, k), p, j, sig);
      IncorporateKey(cr, View(s, k), p, j, sig);
    case Tick(k, env) =>
      SignedFrame(cr, s.nodes[k], View(s, k));
      UpdateSigned(cr, View(s, k), env);
      Authorship.UpdateMine(cr, View(s, k), env);
    case Sign(_, _) =>
  }

  lemma NewbornSigned(cr: Crypto, n: Node)
    requires n.rounds == []
    ensures Signed(cr, n)
  {
  }

  lemma IncorporateKey(cr: Crypto, n: Node, p: Packet, j: nat, sig: Sig)
    ensures Incorporate(cr, n, p, j, sig).0.key == n.key
  {
    hide IncorporateInto, WithRound, LowerBound;
  }

  lemma {:induction false} RunSigned(w: World, cr: Crypto, states: seq<System>, events: seq<Event>, i: nat)
    requires Run(w, cr, states, events) && i < |states|
    ensures AllSigned(cr, states[i])
  {
    hide Apply, Allowed, AllSigned;
    if i == 0 {
      assert AllSigned(cr, EMPTY) by { NobodyYet(cr); }
    } else {
      RunSigned(w, cr, states, events, i - 1);
      StepSigned(w, cr, states[i - 1], events[i - 1]);
    }
  }

  lemma NobodyYet(cr: Crypto)
    ensures AllSigned(cr, EMPTY)
  {
  }
}
