# Verified model of the crosslink monolith's consensus, worker pool and layout caches

A Dafny model of four parts of the repository, with proofs about every input, every run or every
reachable state:

1. **The Tendermint node** of `tenderlink`. `Node` says what each operation does to a node's state
   as functions on values. `TMState` is the same node as an object with fields updated in place; its
   methods are proved to do what the functions say and never to index out of bounds. `Invariant`,
   `Steps`, `Heights` and `Updates` prove what every rule of `bft_update` keeps, and `Proposing` and
   `Conduct` what entering a round and one turn of the update come to: the votes cast, the chunks
   signed, the lock, the timers, the height and the round, told from the state before. `Network` puts any
   number of such nodes together with arbitrary faulty members, lossy, repeating and reordering
   delivery, and proves agreement over whole runs. `Certificate` and `Decisions` prove that every
   decision of every run carries a fat pointer that anyone can check, and that no two such pointers
   disagree. `Tightness` proves that the fault bound of the agreement theorem is exact, by runs that
   decide a height twice. `Repeats` and `SecondTry` prove when a value that is proposed again can be
   decided. `Inhabited` has a run of two nodes that meets all assumptions and decides; `Scenario` and
   `Episodes` evaluate the single events that such runs are put together from.
2. **The messages around it**: signed byte strings and packet headers (`Bytes`, `Messages`), the
   receiving loop's handling of chunks (`Reception`), reassembly of proposals from chunks
   (`Reassembly`), incremental stake counts (`Rounds`, `RoundUpdates`), two-ended packing of votes
   (`VotePacking`) and request ranges (`GapRanges`).
3. **The fork/join worker pool** of `zebra-gui` (`WorkerPool`, `PoolProgress`): a state machine with one
   step per atomic access, for any number of workers, frames and jobs.
4. **Clay's caches and space distribution** (`TextMeasure`, `TextCache`, `ElementIndex`,
   `WordBudget`, `Distribution`, over the index chains of `Chains`).

`dafny verify dfyconfig.toml` checks the whole project.

## Assumptions

- Signatures cannot be forged, the all-zero signature never verifies, and a correct member's
  signature on given bytes is unique. The value hash never yields the nil id. It is not assumed to be
  free of collisions: the agreement theorem says that two decisions are equal or collide.
- All correct nodes use one roster per height, with prefix-sum cumulative stakes and at least one
  unit of active stake. A correct node does not restart: the flush for an amnesiac proposer is
  modelled and kept in the single-node count invariant, and proved never to fire in the network.
- Rounds stay below 2^31, heights and proposal sizes within their integer widths. A precommit of a
  later round overflows the source's round word; a prevote does not, and the source accepts it. Its
  signed bytes are those of a precommit 2^31 rounds earlier (`Messages.OnlyLowPrevotesAreUnambiguous`),
  so a precommit can be replayed as such a prevote. The network delivers everything that the receiving
  loop hands on except those prevotes and chunks without bytes (`Network.WellFormedExactly`).
- A signed chunk can be 76 bytes long, like a signed vote. The two can coincide only for a key that
  itself spells a chunk header; correct keys are assumed not to (`Messages.ChunkIsNoVote`).
- The clock, the proposal, validation and push closures and the hashes are arbitrary functions.
- Overflow checks are on, as `tenderlink/Cargo.toml` sets them for its development profile. Without
  them the subtraction behind a chunk that starts beyond its proposal's end and the addition of a vote
  packet's two counts wrap, and those parts of the panic conditions of `Reception.CrashesExactly` and
  `VotePacking.VotesPanic` do not apply.
- The worker pool runs under sequential consistency, and its 32-bit counters do not wrap.
- Clay's sizes are real numbers.

## What the proofs say about the code

- Quorums overlap in `2*big - n` stake. That exceeds the fault bound only if `n % 3 == 1` or
  `n <= 3`; at a total stake of 6 two quorums need not overlap at all. Agreement is proved for a
  faulty stake below `2*big - n`, and `Tightness.AgreementExactly` shows that this is exact: for every
  total stake and every faulty stake from there on, some run ends with two correct nodes that have
  decided a height differently. At a total stake of 6 nobody needs to be faulty for that, so the
  agreement theorem promises nothing there.
- The line-28 rule reads the prevotes of the current round where the paper reads those of the valid
  round. Agreement does not depend on the difference, but a value that is proposed again does: unless the
  faulty members make a quorum of their own, in a round where a correct proposer proposes a value again
  every correct prevote is nil and nobody decides (`Repeats.RepeatIsNeverPrevoted`). This is exact: for
  every total stake and every faulty part of it, some run decides a value in a round in which a correct
  proposer proposed it again if and only if the faulty stake is a quorum and leaves stake to somebody else
  (`SecondTry.DecidedAgainExactly`).
- The pruning of `rounds_data` after a decision removes nothing, because the height has already moved on.
- A chunk header survives the wire exactly if its valid round is at least -1 and not 2^32 - 1.
- `PacketVotes::read_from` panics exactly on the inputs that `VotePacking.VotesPanic` describes, and the
  receiving loop panics on a chunk message exactly as `Reception.CrashesExactly` says: on a chunk that
  starts beyond the proposal's end, and on one that starts at the end of it if the proposer signed it.
- A precommit replayed as a prevote 2^31 rounds later passes the signature check and is stored as a vote
  that its member never cast (`Network.ReplayIsStored`). A vote whose bytes its member signed is one it
  cast if and only if its round is below 2^31 (`Network.GoodBelowTheFlag`).
- An element id holds the first declaration of the last frame that declares it, as long as every
  declaration finds the id's entry judged right by its generation. Within a cycle of the 32-bit counter
  that is so exactly if the counter has not wrapped since the entry was marked. Of two declarations in
  one frame the first therefore stands exactly if the counter does not wrap next and no entry from before
  the last wrap is in the way; `ElementIndex.StaleAfterTheWrap` has a history that ends with such an entry.
- The step by which Clay resizes the outermost children is left over from earlier sizes if the outermost
  one comes last. It can then overshoot the second size, exactly if an equal share of the remainder
  does, too (`Distribution.OvertakesExactly`, `Distribution.StaleStep`). The result is level all
  the same: `Distribution.Rounds` ends with a common level that no child has moved beyond and that every
  child away from its bound reaches within a tolerance.
- The text cache checks for a full array of words by equality, once per character, while a line break
  can add two words and the last word is not checked at all. With two slots or more unused, a text
  oversteps the array if and only if it has more words than there is room for and a line break that ends
  a word comes when exactly two slots are left (`WordBudget.OverstepsExactly`).
  `TextCache.TextCache.MeasureTextCached` says of every call whether it oversteps, from the state before it.
- A text that the cache gives up keeps its item without being entered, and leaves exactly one slot for
  words unused. From then on, whatever is asked for and however many words are free, every text but the
  empty one that is not cached is given up or finds no item; none is cached again, and every text given
  up costs an item for good (`TextCache.TextCache.Layouts`).
- The text cache's buckets are selected modulo a 32nd of the word capacity from an array sized by the
  element capacity; every selection is in bounds if and only if the one does not exceed the other.
- No interleaving of the worker pool deadlocks: in every reachable state some thread can move, and some
  continuation lets main return from its job (`PoolProgress.MainCanReturn`).

## Model

| member | source | states |
|---|---|---|
| `Bytes.WriteBytes` | tenderlink/src/helpers.rs:14 | The slice's bytes replace those at the offset, everything else in the buffer stays, and the count of bytes is returned. |
| `Bytes.WriteLe` | tenderlink/src/helpers.rs:4-12 | The digits of an unsigned integer to base 256 replace the bytes at the offset, the least significant first, and nothing else changes. |
| `Bytes.Cursor.ReadBytes` | tenderlink/src/helpers.rs:27-29 | Yields the next bytes and advances past them, or yields nothing and does not move if too few are left. |
| `Bytes.Cursor.ReadLe` | tenderlink/src/helpers.rs:17-26 | If enough bytes are left, yields the sum of the next ones, byte k weighing 256^k, and advances past them; otherwise yields nothing and does not move. |
| `Bytes.TakeLeWritten` | tenderlink/src/helpers.rs:4-25 | Reading an integer undoes writing it and leaves what follows, for every value that fits. |
| `Bytes.UnLeRoundTrip` | tenderlink/src/helpers.rs:17-25 | Every byte string is the encoding of the integer it decodes to. |
| `Bytes.LeDigit` | tenderlink/src/helpers.rs:4-12 | Byte k of a written integer is its digit of weight 256^k. |
| `Bytes.UnLeWeighed` | tenderlink/src/helpers.rs:17-25 | A byte string is read as the sum of its bytes, byte k weighing 256^k, and each byte is that digit of what is read. |
| `Roster.QuorumsShareCorrect` | tenderlink/src/lib.rs:849-858 | Two sets that each hold `big` stake share a member outside any set with less than the overlap. |
| `Roster.OverlapExceedsFaultBound` | tenderlink/src/lib.rs:849-858 | The overlap `2*big - n` exceeds the fault bound exactly if `n % 3 == 1` or `n <= 3`, and is 0 at `n == 6`. |
| `Roster.Thresholds` | tenderlink/src/lib.rs:849-858 | The fault bound is the largest number below a third of the stake; the small threshold is the least stake that makes a third, and the big one twice the bound and one more, or both are the whole stake up to three. |
| `Roster.ProposerIsActive` | tenderlink/src/lib.rs:502-528 | With active stake there is always a proposer, and it is an active member with stake; without, there is none. |
| `Roster.ProposerResidues` | tenderlink/src/lib.rs:522-527 | A member proposes exactly for the residues between its predecessors' stake and its own. |
| `Roster.ProposerIsWeighted` | tenderlink/src/lib.rs:522-527 | Each active member is chosen by exactly as many residues below the total as it has stake. |
| `VoteLog.NoDoubleVote` | tenderlink/src/lib.rs:886-971 | In a log where correct members vote by the rules, none has two votes of one kind in one round. |
| `VoteLog.LockPreservation` | tenderlink/src/lib.rs:886-959 | After a precommit quorum for a value, no later round of the height has a prevote quorum for another. |
| `VoteLog.LogAgreement` | tenderlink/src/lib.rs:985-1003 | Two precommit quorums of one height, in whatever rounds, name the same value. |
| `Messages.MakeVoteSignDatas` | tenderlink/src/lib.rs:1142-1150 | The two buffers are the signed bytes of the nil vote and of the vote for the value. |
| `Messages.SignedVoteLayout` | tenderlink/src/lib.rs:1142-1150 | Of the 76 signed bytes the first 32 are the key and the next 32 the value; eight digits of the height and four of the round follow, the round with its top bit set for a precommit. |
| `Messages.VoteBytesInjective` | tenderlink/src/lib.rs:1142-1150 | Below round 2^31 the signed bytes determine key, height, round, kind and value. |
| `Messages.OnlyLowPrevotesAreUnambiguous` | tenderlink/src/lib.rs:1146 | Without that bound, the signed bytes determine the vote if and only if it is a prevote below round 2^31. |
| `Messages.EverySignedStringIsAVote` | tenderlink/src/lib.rs:1142-1150 | Any 76 bytes that begin with a key are that key's signed bytes of some vote below round 2^31. |
| `Messages.SerializeHeader` | tenderlink/src/lib.rs:2136-2149 | The 56 header bytes are written at the offset and nothing else changes; it panics, with nothing written, exactly if the valid round is 2^32 or more. |
| `Messages.ChunkLayout` | tenderlink/src/lib.rs:2136-2149 | A chunk's bytes are the digits of chunk number, size, round and valid round, four each, with all ones for no valid round, eight of the height, the 32 bytes of the id, and the data. |
| `Messages.ReadHeader` | tenderlink/src/lib.rs:2151-2160 | Parses the header in front of the cursor, and fails exactly if fewer than 56 bytes are left. |
| `Messages.HeaderRoundTrip` | tenderlink/src/lib.rs:2136-2160 | Parsing a written header gives it back if and only if its valid round is at least -1 and not 2^32 - 1. |
| `Messages.ParsedHeaderBytes` | tenderlink/src/lib.rs:2136-2160 | Whatever parses as a header is the encoding of that header. |
| `Messages.ChunkIsNoVote` | tenderlink/src/lib.rs:1142-1150 | A signed chunk is never a signed vote of a key that does not spell a chunk header. |
| `Rounds.CountsAreStake` | tenderlink/src/lib.rs:320-338 | Each count is the stake of the members with that kind of vote; a member with two votes counts once in `anys`. |
| `Rounds.SlotGrows` | tenderlink/src/lib.rs:782-786 | The subtraction of counts never underflows when a slot is filled or left as it was. |
| `Rounds.AddVoteExactly` | tenderlink/src/lib.rs:754-811 | A vote is stored if and only if it is nil, or no chunk is held, or it names the proposal, and its member has no other vote of its kind; then that slot alone changes, and the status is indeterminate exactly for a value no chunk of which is held. Anything else fails and changes nothing. |
| `Rounds.AddVoteCounted` | tenderlink/src/lib.rs:754-786 | After a vote the incremental counts equal the counts summed afresh over all members. |
| `Rounds.AdoptCounted` | tenderlink/src/lib.rs:697-721 | So they do after the votes for other values have been purged. |
| `Rounds.FlushCounted` | tenderlink/src/lib.rs:230-245 | And after an amnesiac flush. |
| `Rounds.AddChunkCounted` | tenderlink/src/lib.rs:650-748 | And after any proposal chunk on any of its paths. |
| `Rounds.AddVoteHomogeneous` | tenderlink/src/lib.rs:754-786 | Once a chunk is held, every stored non-nil vote names the proposal, whatever vote arrives. |
| `Rounds.AddChunkHomogeneous` | tenderlink/src/lib.rs:650-748 | The same whatever chunk arrives, as long as it does not flush the round. |
| `RoundUpdates.Purge` | tenderlink/src/lib.rs:702-712 | Exactly the votes for another non-nil value are emptied, and the flag says whether there were any. |
| `RoundUpdates.Recount` | tenderlink/src/lib.rs:713-720 | The counts are the sum over all members. |
| `RoundUpdates.StoreBytes` | tenderlink/src/lib.rs:692-696 | The chunk's bytes land at its offset, its signature in its slot, the counter goes up by one, and nothing else changes. |
| `RoundUpdates.FlushForAmnesiac` | tenderlink/src/lib.rs:230-245 | Everything but height, round and timers starts over for the new proposal. |
| `RoundUpdates.KeepChunk` | tenderlink/src/lib.rs:688-747 | A new chunk is written, a repeated one ignored, a conflicting one flushes or faults, as `Rounds.StoreChunk` says. |
| `RoundUpdates.TakeChunk` | tenderlink/src/lib.rs:650-747 | The whole chunk branch, as `Rounds.AddChunk` says. |
| `RoundUpdates.TakeVote` | tenderlink/src/lib.rs:754-811 | The whole vote branch with its three outcomes, as `Rounds.AddVote` says. |
| `Reassembly.AddChunkAssembled` | tenderlink/src/lib.rs:650-748 | The number of chunk signatures held always equals the count kept beside them. |
| `Reassembly.ReceiveHeld` | tenderlink/src/lib.rs:680-731 | After any arrivals of an honest proposal's chunks and of votes, exactly the chunks that arrived are held. |
| `Reassembly.Reassembles` | tenderlink/src/lib.rs:680-731 | In any order and with any repetition, the round is full exactly if every chunk of a value that is not empty has arrived, and then holds exactly the proposed value; an empty one is never full. |
| `Reassembly.FaultyExactly` | tenderlink/src/lib.rs:663-747 | Unless a node flushes its own proposal: a chunk of another proposal fails and changes nothing; a second signature for a chunk held fails and marks the proposal faulty, and so does a chunk that completes a proposal which does not hash to its id; every other chunk passes and marks nothing. |
| `Reassembly.FaultyNeverPasses` | tenderlink/src/lib.rs:250-260 | A proposal marked as faulty before it was found valid is never found valid. |
| `Reassembly.FirstChunkPurges` | tenderlink/src/lib.rs:680-721 | The first chunk fixes id, size and valid round, is the only chunk held, and empties exactly the votes for another value. |
| `Reassembly.OwnConflictStartsOver` | tenderlink/src/lib.rs:654-737 | A node's own chunk that contradicts what it holds empties every vote and keeps only the timers; the chunk is then the only one held if its header differs, and not held if only its signature does. |
| `Node.NothingPruned` | tenderlink/src/lib.rs:998-1000 | Pruning entries at or above a height that all entries are below removes nothing. |
| `Invariant.WithRoundSorted` | tenderlink/src/lib.rs:530-549 | Search and insertion keep the store strictly sorted by height and round, with the current height's rounds as its suffix, and find the entry where the search ended. |
| `Invariant.NeverFlushes` | tenderlink/src/lib.rs:654-660 | A correct node never receives a chunk that makes it flush its own proposal. |
| `Invariant.IncorporateOk` | tenderlink/src/lib.rs:579-811 | Any genuinely signed message keeps the store sorted, sized to the roster, counted, homogeneous and backed by signed votes and chunks. |
| `Steps.Rule22Good` | tenderlink/src/lib.rs:882-904 | Line 22 keeps the node's invariant, and the vote it casts is one the rules allow. |
| `Steps.Rule28Good` | tenderlink/src/lib.rs:906-926 | Line 28 does, although it reads the current round's prevotes; which vote it casts `Conduct.RepeatedProposalVote` says. |
| `Steps.Rule34Good` | tenderlink/src/lib.rs:928-940 | Line 34 keeps the invariant and changes nothing outside the store: it casts and locks nothing. |
| `Steps.Rule36Good` | tenderlink/src/lib.rs:942-959 | Line 36 locks and precommits only a value with a prevote quorum, and keeps lock round <= valid round <= round. |
| `Steps.Rule44Good` | tenderlink/src/lib.rs:961-971 | Line 44 keeps the invariant. |
| `Steps.Rule47Good` | tenderlink/src/lib.rs:973-983 | Line 47 does the same. |
| `Heights.CountIsQuorum` | tenderlink/src/lib.rs:866-867 | A yes count of `big` in a round that holds a chunk is a quorum of signed votes for that round's value. |
| `Heights.StartRoundGood` | tenderlink/src/lib.rs:542-573 | Entering a round that lies ahead keeps the invariant, with one proposal per round; what is proposed `Proposing.StartRoundSigns` says. |
| `Proposing.StartRoundSigns` | tenderlink/src/lib.rs:542-573 | On entering a round its proposer signs exactly the chunks of its valid value, 1212 bytes each, with that value's round, whatever it is offered; without a valid value exactly those of the offered one, with valid round -1. Nobody else signs anything, and nothing but round, step and store changes besides. |
| `Proposing.StartRoundOpens` | tenderlink/src/lib.rs:542-573 | The round has an entry with a timer of five seconds and one per round. The proposer's entry holds its whole proposal, unless that has no bytes; everybody else's is what it was, and no other entry changes. |
| `Updates.Rule49Good` | tenderlink/src/lib.rs:985-1004 | Line 49 either changes nothing but the cached verdict of its entry, or closes the height with a value that a precommit quorum signed and starts the next height, with nothing locked, valid or cast. |
| `Updates.Rule55Good` | tenderlink/src/lib.rs:1006-1015 | Line 55 keeps the invariant and moves only to a later round. |
| `Updates.TimeoutRuleGood` | tenderlink/src/lib.rs:1017-1038 | The timeouts keep the invariant and cast at most one vote: a nil vote of the current round that had not been cast. |
| `Updates.ClosedTurnIsIdle` | tenderlink/src/lib.rs:864-1038 | A turn for an entry of a height that was closed earlier in the loop changes nothing. |
| `Updates.UpdateGood` | tenderlink/src/lib.rs:842-1038 | One call keeps the invariant, moves height, round and step only forward, closes at most one height, and grows lock and valid rounds only within a height. |
| `Conduct.TurnExactly` | tenderlink/src/lib.rs:864-1038 | What a turn on the current round comes to, from the state before: the votes cast, in order, are the prevote of lines 22 and 28, the precommit of lines 36 and 44 and the nil vote of a timer that is due; the height closes, and the chain grows by the entry, exactly if a quorum precommitted a complete proposal that is found valid; the next round is entered exactly if the precommit timer is due; lock, valid value, timer and flags are given in full. |
| `Conduct.OtherTurnExactly` | tenderlink/src/lib.rs:985-1015 | A turn on another round, or without a seat, casts nothing; it closes the height exactly under the same condition, and otherwise enters the round exactly if it is later, the node has a seat and `f + 1` stake, or all of it up to three, has voted there. |
| `Conduct.UpdateIsTurns` | tenderlink/src/lib.rs:859-1056 | An update is one turn for every entry of the current height that is there when it begins, in order, with the thresholds of the roster at that time. |
| `Conduct.TurnOffers` | tenderlink/src/lib.rs:552-568 | A turn signs chunks only on entering a round: for the next height, the next round or the round caught up with, as `Proposing.StartRoundSigns` says, with the closure's answer at that place. |
| `Conduct.FirstProposalVote` | tenderlink/src/lib.rs:882-904 | The first vote of a turn on a complete first proposal is the prevote of that round: for the proposal if and only if it is found valid and nothing is locked or it is, and otherwise nil. |
| `Conduct.RepeatedProposalVote` | tenderlink/src/lib.rs:906-926 | With a quorum of the round's prevotes, the first vote of a turn on a complete repeated proposal is the prevote of that round: for the proposal if and only if it is found valid and the lock is not newer than its valid round or is on it, and otherwise nil. |
| `Conduct.PrecommitVote` | tenderlink/src/lib.rs:942-971 | A node that has prevoted precommits and locks a complete proposal that a quorum prevoted and that is found valid; otherwise it precommits nil if a quorum prevoted nil, and otherwise, its timer not being due, casts nothing. |
| `Conduct.ValidRefreshed` | tenderlink/src/lib.rs:942-959 | After its precommit, a node takes a complete proposal that a quorum prevoted and that is found valid for its valid value, and neither votes nor changes its lock. |
| `Conduct.FaultyIsRefused` | tenderlink/src/lib.rs:250-260 | A proposal marked as faulty before it was found valid gets only nil votes in a turn, is neither locked nor taken for valid, and does not close the height. |
| `TMState.TMState.constructor` | tenderlink/src/lib.rs:410-436 | A new node stands at the height of the ingested chain with nothing locked, and its structure is valid. |
| `TMState.TMState.InsertRound` | tenderlink/src/lib.rs:530-540 | Inserts an empty entry where the search ended and keeps the store sorted. |
| `TMState.TMState.RoundIndex` | tenderlink/src/lib.rs:617-620 | Finds or inserts the entry of a round and leaves entries of closed heights where they are. |
| `TMState.TMState.CheckAndIncorporate` | tenderlink/src/lib.rs:579-811 | For any packet: it panics exactly on a verified chunk that is not there and does not contradict the proposal held; otherwise the new state and the status are those of `Node.Incorporate`, on every rejecting path too, and the structure stays valid. |
| `TMState.TMState.ReceiveChunk` | tenderlink/src/lib.rs:1881-1901 | For any chunk message: it panics exactly if `Reception.Crashes`, and otherwise hands the chunk on or drops it as `Reception.ChunkArrival` says. |
| `Reception.HandedExactly` | tenderlink/src/lib.rs:1881-1899 | What is handed on is the header and exactly the bytes of its chunk, for the round's proposer; the chunk exists unless it starts at the proposal's end. |
| `Reception.CrashesExactly` | tenderlink/src/lib.rs:1881-1899 | A chunk message causes a panic if and only if its chunk starts beyond the proposal's end, or at the end in a message of the right size that the proposer signed for this height and that does not contradict another member's proposal. |
| `Reception.IncorporateExactly` | tenderlink/src/lib.rs:579-811 | A message of another height, of nobody among the first hundred members or without that member's signature fails and changes nothing. Any other that does not make the node panic gives its round an entry and changes that entry alone, as `Rounds.AddVoteExactly` and `Reassembly.FaultyExactly` say, or fails if it is neither vote nor chunk. |
| `TMState.TMState.BroadcastVote` | tenderlink/src/lib.rs:483-499 | Signs one vote, stores it as if received, and returns the step to move to, or the current one off the roster. |
| `TMState.TMState.BroadcastChunk` | tenderlink/src/lib.rs:461-477 | Signs one chunk of the proposal and stores it as if received. |
| `TMState.TMState.BroadcastProposal` | tenderlink/src/lib.rs:452-481 | Signs and stores every chunk in turn. |
| `TMState.EncodeChunk` | tenderlink/src/lib.rs:461-466 | The buffer holds the header followed by exactly the chunk's bytes. |
| `TMState.TMState.ProposerKeyNow` | tenderlink/src/lib.rs:502-528 | Yields the proposer's key of the current round without indexing outside the roster. |
| `TMState.TMState.SetTimer` | tenderlink/src/lib.rs:359-371 | The entry gets a timer for the current height, round and given step, 5 seconds and one more per round from now. |
| `TMState.TMState.StartRoundAt` | tenderlink/src/lib.rs:542-573 | The new state is that of `Node.StartRound`, which `Proposing.StartRoundSigns` and `Proposing.StartRoundOpens` are about. |
| `TMState.TMState.ProposalIsValid` | tenderlink/src/lib.rs:250-260 | Consults the verdict once and caches it; a faulty proposal fails without being consulted. |
| `TMState.TMState.Line22` | tenderlink/src/lib.rs:882-904 | Does to the fields, in place and in bounds, what `Node.Rule22` says, the rule that `Steps.Rule22Good` is about. |
| `TMState.TMState.Line28` | tenderlink/src/lib.rs:906-926 | Does to the fields, in place and in bounds, what `Node.Rule28` says, the rule whose vote `Conduct.RepeatedProposalVote` gives. |
| `TMState.TMState.Line34` | tenderlink/src/lib.rs:928-940 | Does to the fields, in place and in bounds, what `Node.Rule34` says, the rule that `Steps.Rule34Good` is about. |
| `TMState.TMState.Line36` | tenderlink/src/lib.rs:942-959 | Does to the fields, in place and in bounds, what `Node.Rule36` says, the rule that `Steps.Rule36Good` is about. |
| `TMState.TMState.Line44` | tenderlink/src/lib.rs:961-971 | Does to the fields, in place and in bounds, what `Node.Rule44` says, the rule that `Steps.Rule44Good` is about. |
| `TMState.TMState.Line47` | tenderlink/src/lib.rs:973-983 | Does to the fields, in place and in bounds, what `Node.Rule47` says, the rule that `Steps.Rule47Good` is about. |
| `TMState.TMState.Close` | tenderlink/src/lib.rs:996-1002 | The height is closed, and the pruning removes nothing. |
| `TMState.TMState.Line49` | tenderlink/src/lib.rs:985-1004 | Does to the fields, in place and in bounds, what `Node.Rule49` says, the rule that `Updates.Rule49Good` is about, and the loop's index still points into the store. |
| `TMState.TMState.Line55` | tenderlink/src/lib.rs:1006-1015 | Does to the fields, in place and in bounds, what `Node.Rule55` says, the rule that `Updates.Rule55Good` is about. |
| `TMState.TMState.Timeouts` | tenderlink/src/lib.rs:1017-1038 | Does to the fields what `Node.RuleTimeout` says, the rule that `Updates.TimeoutRuleGood` is about. |
| `TMState.TMState.OneTurn` | tenderlink/src/lib.rs:864-1038 | One turn of the loop, on the snapshot taken at its top, in bounds despite insertions. |
| `TMState.TMState.ActiveStake` | tenderlink/src/lib.rs:844-848 | The sum of the active members' stakes. |
| `TMState.TMState.BftUpdate` | tenderlink/src/lib.rs:842-1038 | The new state is that of `Node.Update`, over every round known at the start. |
| `Authorship.UpdateMine` | tenderlink/src/lib.rs:439-500 | Whatever an update signs, it signs with the node's own key and after everything signed before. |
| `Network.BootKeeps` | tenderlink/src/lib.rs:1367-1380 | A node joining with any ingested chain keeps the network's invariant. |
| `Network.ReceivedIsGood` | tenderlink/src/lib.rs:1880-1916 | What the receiving loop hands on, once its signature checks, was signed by that member for that very height, round and value, for votes below round 2^31 and chunks with bytes. |
| `Network.WellFormedExactly` | tenderlink/src/lib.rs:1880-1916 | The packets whose delivery is modelled are exactly those that the receiving loop hands on, but for votes of round 2^31 or later and chunks without bytes. |
| `Network.ArrivalIsHanded` | tenderlink/src/lib.rs:1881-1899 | Every chunk message leads to nothing or to a packet that is handed on, and one with bytes makes nobody panic. |
| `Network.GoodBelowTheFlag` | tenderlink/src/lib.rs:1904-1914 | A vote packet whose bytes its member signed is one that the member cast if and only if its round is below 2^31. |
| `Network.ReplayIsStored` | tenderlink/src/lib.rs:1904-1914 | A cast precommit, replayed as a prevote 2^31 rounds later in a round not yet known, is handed on, passes the check and is stored as a prevote never cast, which breaks the invariant. |
| `Network.ReceiveKeeps` | tenderlink/src/lib.rs:1880-1916 | Delivering any of the modelled packets, genuine or not, at any time, keeps the invariant. |
| `Network.TickKeeps` | tenderlink/src/lib.rs:1516 | An update of any node keeps the invariant of all of them. |
| `Network.SignKeeps` | tenderlink/src/lib.rs:599-610 | Whatever the faulty members sign, the invariant of the correct nodes stands. |
| `Network.RunInv` | tenderlink/src/lib.rs:842-1038 | Every state of every run satisfies the invariant. |
| `Network.RunExtends` | tenderlink/src/lib.rs:998-999 | Nothing decided is ever taken back: each node's chain only grows. |
| `Network.NeverGoesBack` | tenderlink/src/lib.rs:542-1038 | In every run, between any two states, a node's height, round and step never decrease lexicographically. |
| `Network.EveryNodeIsOrderly` | tenderlink/src/lib.rs:530-1038 | In every run, every node's store is strictly sorted, holds the current height's round 0 and current round, has the current height as its suffix with vote arrays of the roster's size, exact counts and homogeneous votes; and -1 <= lock round <= valid round <= round, with equal values at equal rounds. |
| `Network.Agreement` | tenderlink/src/lib.rs:842-1015 | In every run with faulty stake below the overlap, whatever correct nodes decide for a height, in whatever rounds and at whatever times, has the same id, and is the same value unless two values collide. |
| `Tightness.AgreementExactly` | tenderlink/src/lib.rs:849-858 | For every total stake and every faulty part of it, some run has two correct nodes decide a height differently if and only if the faulty stake is at least the overlap. |
| `Tightness.ProposerSplits` | tenderlink/src/lib.rs:842-1004 | A faulty proposer that makes a quorum with either of two correct members leads them to decide two values in one round. |
| `Tightness.QuorumsSplit` | tenderlink/src/lib.rs:842-1038 | At a total stake of 6, with nobody faulty, one member decides its proposal alone and another, timing out, its own in the next round. |
| `Repeats.RepeatIsNeverPrevoted` | tenderlink/src/lib.rs:906-926 | In every run, in a round in which a correct proposer has proposed a value again, every correct prevote is nil, no value gets a quorum of prevotes or precommits and nobody decides, unless the faulty members alone make a quorum. |
| `Repeats.BoundedIsNoQuorum` | tenderlink/src/lib.rs:849-858 | Faulty stake below the overlap of quorums is no quorum, so that result holds wherever agreement is proved. |
| `Repeats.RunGrounded` | tenderlink/src/lib.rs:886-926 | In every run, every prevote of a correct member for a value rests on a first proposal of it by the round's proposer or on a quorum of prevotes cast before. |
| `SecondTry.DecidedAgainExactly` | tenderlink/src/lib.rs:906-959 | For every total stake and every faulty part of it, some run has a node decide a value that it had locked in an earlier round, in a round in which a correct proposer proposed it again, if and only if the faulty stake is at least `big` and less than all. |
| `SecondTry.RunsAgain` | tenderlink/src/lib.rs:842-1038 | The run: a node locks its proposal in round 0, times out, proposes it again in round 1, prevotes it by line 28 with a quorum of prevotes there, locks it again and decides it. |
| `Inhabited.SomeRunDecides` | tenderlink/src/lib.rs:842-1003 | A world with ids that tell values apart meets all the assumptions, and a run in it ends with two correct nodes, neither a quorum alone, that have decided the value one of them proposed. |
| `Network.NeverVotesTwice` | tenderlink/src/lib.rs:886-971 | In every run a correct member signs at most one prevote and one precommit per height and round. |
| `Network.LockIsFinal` | tenderlink/src/lib.rs:886-959 | In every run, once a value has a precommit quorum no other gets a prevote quorum in that or a later round of the height. |
| `Network.DecisionHasQuorum` | tenderlink/src/lib.rs:985-999 | Every decision of a reachable state hashes to an id that a precommit quorum signed. |
| `Signatures.IncorporateSigned` | tenderlink/src/lib.rs:599-610 | Every signature stored beside a vote verifies for exactly that vote of that member. |
| `Signatures.UpdateSigned` | tenderlink/src/lib.rs:842-1038 | A whole update keeps that. |
| `Certificate.ListsItsSeats` | tenderlink/src/lib.rs:142-157 | The fat pointer lists, in roster order and once each, exactly the members whose stored precommit is for the proposal. |
| `Certificate.SeatsHoldCount` | tenderlink/src/lib.rs:142-157 | Where every non-nil precommit names the proposal, the listed members hold exactly the counted stake. |
| `Certificate.PushedCertifies` | tenderlink/src/lib.rs:132-158 | Whenever line 49's guard holds, the fat pointer lists distinct active members with at least `big` stake whose signatures verify on their own key followed by its 44 bytes. |
| `Certificate.CertificateIsQuorum` | tenderlink/src/lib.rs:132-158 | A fat pointer that passes that check stands for a precommit quorum, whoever assembled it. |
| `Certificate.CertificatesAgree` | tenderlink/src/lib.rs:132-158 | In every run, any two fat pointers for one height that pass the check name the same value. |
| `Certificate.CertificateIsDecision` | tenderlink/src/lib.rs:132-158 | And it is the value every correct node decides there. |
| `Decisions.VoteRulesGrown` | tenderlink/src/lib.rs:866-983 | The counts that line 49 reads from the snapshot still hold when it acts. |
| `Decisions.EveryDecisionIsProven` | tenderlink/src/lib.rs:989-999 | In every run, every height that a correct node has closed is closed with a round whose fat pointer passes the check. |
| `VotePacking.CloseGap` | tenderlink/src/lib.rs:1709-1711 | However wide the gap, the yes votes end up directly behind the no votes, each once. |
| `VotePacking.Packer.Take` | tenderlink/src/lib.rs:1654-1702 | One stored vote is packed, dropped or skipped, and a full packet is sent, with nothing lost or doubled. |
| `VotePacking.Packer.Finish` | tenderlink/src/lib.rs:1704-1728 | After the last packet, the packets sent carry exactly the deliverable votes. |
| `VotePacking.PackVotes` | tenderlink/src/lib.rs:1628-1729 | For any stored votes, the packets are well formed, all but the last hold eighteen votes, and together they carry exactly the nil votes and those for the round's one value. |
| `VotePacking.TargetIsFirst` | tenderlink/src/lib.rs:1660-1667 | That value is the proposal's if it is known, and otherwise the first that anybody voted for. |
| `VotePacking.KeptOnce` | tenderlink/src/lib.rs:1654-1667 | A stored vote is among the deliverable ones once if it is nil or for that value, and otherwise not at all. |
| `VotePacking.WriteVotes` | tenderlink/src/lib.rs:2083-2096 | The buffer holds the header and the filled slots only. |
| `VotePacking.PacketLayout` | tenderlink/src/lib.rs:2083-2096 | A packet's bytes are the two counts, four digits of the round, eight of the height and the value's 32 bytes, and then for each vote two digits of the member and the 64 bytes of the signature. |
| `VotePacking.ReadVotes` | tenderlink/src/lib.rs:2098-2112 | The result is that of `ParseVotes`: short, a panic, or the packet. |
| `VotePacking.VotesRoundTrip` | tenderlink/src/lib.rs:2083-2112 | A written packet parses back to itself with the unsent slots blank, whatever follows it. |
| `VotePacking.VotesPanic` | tenderlink/src/lib.rs:2098-2112 | Parsing panics if and only if the counts overflow a byte, or exceed 18 with the nineteenth entry begun. |
| `VotePacking.DeliveredExactlyOnce` | tenderlink/src/lib.rs:1654-1729 | Packed, sent and parsed, every deliverable vote arrives exactly once with its member, signature and value, and nothing else arrives. |
| `VotePacking.SignedBytes` | tenderlink/src/lib.rs:1908-1914 | The receiver checks each vote against exactly the bytes that its member signed: the first `no` as nil votes, the next `yes` as votes for the packet's value. |
| `GapRanges.GenMostlyEmptyRanges` | tenderlink/src/lib.rs:1152-1179 | Every missing slot is covered; each range begins and ends on a missing slot, skips no two filled in a row, and is at least two slots from the next. |
| `GapRanges.CoverIsBridged` | tenderlink/src/lib.rs:1157-1172 | A slot is asked for if and only if it is missing or is the single filled one between two missing. |
| `GapRanges.OnlyOneAnswer` | tenderlink/src/lib.rs:1152-1179 | No other list of ranges meets that description. |
| `WorkerPool.WorkerHandshake` | zebra-gui/src/lib.rs:91-128 | Any step of any worker keeps the counters, phases, exclusion and copies of the handshake. |
| `WorkerPool.MainHandshake` | zebra-gui/src/lib.rs:145-181 | Any step of main does, in the wake-up sequence as in a parallel loop. |
| `WorkerPool.WorkerInv` | zebra-gui/src/lib.rs:111-124 | Any step of any worker keeps the account of ids handed out, held, called and completed. |
| `WorkerPool.MainInv` | zebra-gui/src/lib.rs:163-179 | Any step of main does, and its return finds every id called and none held. |
| `WorkerPool.SiteIsClear` | zebra-gui/src/lib.rs:145-161 | In every interleaving no worker is between its successful re-check and its leaving while main writes the job's fields, or between the barrier and the wake-up gate. |
| `WorkerPool.RunsThePostedJob` | zebra-gui/src/lib.rs:108-118 | In every interleaving a worker runs a unit of the posted job only, which no other thread holds and nobody has run. |
| `WorkerPool.TakesTheNextUnit` | zebra-gui/src/lib.rs:111-124 | In every interleaving a worker that looks for work takes the next unit if one is left, which nobody has run or holds; with none left it leaves, to the barrier exactly if the job is the last. |
| `WorkerPool.IdleIsNotLast` | zebra-gui/src/lib.rs:1711 | In every interleaving, from the closing of the gate after the barrier to the next job, no job is marked as the last. |
| `WorkerPool.ExactlyOnce` | zebra-gui/src/lib.rs:113-179 | In every interleaving, of every job that has returned each id below its count was called exactly once and no other id was, and nobody is still working. |
| `WorkerPool.NeverStuck` | zebra-gui/src/lib.rs:91-181 | In every state of every interleaving some thread can move on: nobody waits for what only waiting threads could bring about. |
| `PoolProgress.MainCanReturn` | zebra-gui/src/lib.rs:91-181 | From every state of every interleaving some continuation lets main return from its job, or from its next one with any arguments. |
| `WorkerPool.SiteNeverUnderflows` | zebra-gui/src/lib.rs:102-123 | Whoever is about to leave the site finds its count above zero. |
| `WorkerPool.RowHasOneUnit` | zebra-gui/src/lib.rs:2148-2158 | Every row belongs to exactly one unit of the blit, for any row and unit counts. |
| `WorkerPool.BlitIsComplete` | zebra-gui/src/lib.rs:2136-2158 | In every interleaving a blit that has returned has copied every row of the window exactly once. |
| `TextMeasure.WordsTile` | clay-rs/clay.h:1636-1679 | Read in order, the measured words give back exactly the text, with empty words for line breaks, and no word crosses a line break. |
| `TextMeasure.WidthIsWidestLine` | clay-rs/clay.h:1645-1684 | With a measurer that gives no negative width, the measured width is that of the widest line; how wide each word is `TextMeasure.FreshMeasures` says. |
| `TextMeasure.FreshMeasures` | clay-rs/clay.h:1645-1684 | Every word is a stretch between breaks, with the space behind it, and as wide as the stretch and the space are measured; a line break has no width. Least width and height are the largest that are measured of all stretches, or zero, and the newline mark is set exactly if the text has a newline. |
| `TextCache.TextCache.constructor` | clay-rs/clay.h:4064-4067 | Empty chains, one for every bucket that a hash can select, and the reserved item satisfy the cache's invariant. |
| `TextCache.BucketsExactly` | clay-rs/clay.h:1570-1572 | Every hash selects a bucket within the array, which has as many as there may be elements, if and only if a 32nd of the word capacity does not exceed that number. |
| `TextCache.TextCache.FreeWords` | clay-rs/clay.h:1582-1587 | Exactly the entry's words are appended to the free list, in order, each once, and the list fits. |
| `TextCache.TextCache.Evict` | clay-rs/clay.h:1580-1598 | The stale entry leaves its chain and frees its item and exactly its words; the rest of the chain and all other entries stand. |
| `TextCache.TextCache.Find` | clay-rs/clay.h:1571-1603 | Finds the entry with the id and refreshes it, or reports the end of a chain that has none, exactly as the chain before the call says; it frees exactly the stale entries on its way, and entries used in the last two frames survive. |
| `TextCache.TextCache.NewItem` | clay-rs/clay.h:1605-1626 | Takes a free item or a new one, or fails exactly if there is neither. |
| `TextCache.TextCache.AddMeasuredWord` | clay-rs/clay.h:1541-1553 | Appends one word to the pending list from the free list or the array, changes no other list, and fails exactly if both are exhausted. |
| `TextCache.TextCache.OneChar` | clay-rs/clay.h:1647-1671 | One turn of the measuring loop does to the locals, the item and its words what `TextMeasure.TakeChar` says, the step of the measurement that `TextMeasure.FreshMeasures` is about. |
| `TextCache.TextCache.MeasureWords` | clay-rs/clay.h:1628-1684 | The item and its words hold exactly a fresh measurement, which `TextMeasure.FreshMeasures` describes; it gives up or oversteps the array exactly if the room for words says so. |
| `TextCache.TextCache.LinkItem` | clay-rs/clay.h:1682-1690 | The measured entry goes to the end of its chain and every other entry keeps its measurement. |
| `TextCache.TextCache.Fill` | clay-rs/clay.h:1628-1691 | A new item becomes an entry equal to a fresh measurement, is abandoned, or oversteps the array of words, exactly as the room for words says; every other entry stands. |
| `TextCache.TextCache.Enter` | clay-rs/clay.h:1605-1691 | A text that is not cached gets an entry if and only if there is an item and room for its words; a text that is given up costs one item and leaves one slot for words unused, and otherwise no item is lost. |
| `WordBudget.CheckIsSteppedOver` | clay-rs/clay.h:1636-1646 | A word and its line break take the last two slots past the check; then a further text oversteps the array. |
| `WordBudget.SpendAllExactly` | clay-rs/clay.h:1636-1679 | Measuring a text is given up if and only if some character is reached with exactly one slot unused, and otherwise oversteps the array if and only if the text has more words than there is room for. |
| `WordBudget.OverstepsExactly` | clay-rs/clay.h:1636-1679 | With two slots or more unused, it oversteps if and only if the text has more words than there is room for and a line break that ends a word comes when exactly two slots are left. |
| `WordBudget.WordsAreCounted` | clay-rs/clay.h:1647-1679 | The words counted from spaces and line breaks are as many as a measurement yields, for the whole text and for every beginning of it. |
| `WordBudget.LastSlotGivesUp` | clay-rs/clay.h:1636-1646 | With one slot unused a text is given up if and only if it is not empty, however many slots are free. |
| `WordBudget.OneWordClogs` | clay-rs/clay.h:1672-1679 | With two slots unused and none free, a single word leaves one. |
| `WordBudget.FullOversteps` | clay-rs/clay.h:1636-1679 | With the array full and nothing free, a text oversteps it if and only if it is not empty. |
| `WordBudget.RoomSuffices` | clay-rs/clay.h:1636-1679 | With room for two words per character and one to spare, every text is measured. |
| `TextCache.TextCache.MeasureTextCached` | clay-rs/clay.h:1555-1692 | Keeps the invariant and every recently used entry; unless another cached text has the same hash, the entry returned equals a fresh measurement. From the state before the call it says when the call returns an entry, when it lacks an item or gives up for want of words, when it oversteps the array of words, and when it selects a bucket outside the array; slots for words are never given back, and only a text given up costs an item. |
| `TextCache.TextCache.CloggedGivesUp` | clay-rs/clay.h:1636-1646 | With one slot for words unused, every text that is not empty is given up if it is entered. |
| `TextCache.TextCache.Layouts` | clay-rs/clay.h:1555-1692 | Over any sequence of frames and texts that state is permanent, no text but the empty one is cached again, a call returns an entry only for the hash of a text cached before or of the empty one, and the items lost grow by exactly the texts given up and never come back. |
| `TextCache.TextCache.EntryTiles` | clay-rs/clay.h:1636-1682 | The words of every cached entry give back the text it was measured for. |
| `TextCache.TextCache.EntryMeasures` | clay-rs/clay.h:1645-1684 | The words of every cached entry are as wide as the measurer says of their stretches and spaces; its least width and height are the largest of all stretches of its text, and its newline mark is right. |
| `TextCache.StaleExactly` | clay-rs/clay.h:1580 | An entry last used k frames ago is dropped if and only if k is more than two, also across the wrap of the counter. |
| `TextCache.AheadExactly` | clay-rs/clay.h:1573-1603 | A walk finds an id exactly if some entry of the chain has it, and drops exactly the entries in front of it that are more than two frames old, with all their words. |
| `TextCache.TextCache.Separate` | clay-rs/clay.h:1573-1603 | Chains are without repetition and disjoint, no item or word is free twice or both free and in use, and the free lists fit their arrays. |
| `ElementIndex.ElementIndex.Walk` | clay-rs/clay.h:1706-1731 | Following a chain finds the id's entry if and only if the id is in the map. |
| `ElementIndex.ElementIndex.Add` | clay-rs/clay.h:1698-1741 | One slot before the array is full nothing changes. Otherwise, unless the id has an entry whose mark is newer than the frame, it holds that element and that alias, no hover function and the mark of the next frame; every other entry stays. |
| `ElementIndex.ElementIndex.Get` | clay-rs/clay.h:1743-1755 | Yields the id's entry, or the default exactly if the id is not in the map. |
| `ElementIndex.FindsWhatWasDeclared` | clay-rs/clay.h:1698-1755 | After any history of frames and adds below capacity, exactly the ids ever added are found. |
| `ElementIndex.SecondAddIsIgnored` | clay-rs/clay.h:1711-1728 | Of two adds in one frame the first is held if and only if no entry from before the last wrap of the counter is in its way and the counter does not wrap next. |
| `ElementIndex.NextDeclaration` | clay-rs/clay.h:1711-1728 | After one more declaration the id holds the first one of the last frame that declares it if and only if its entry was judged right, or nothing differs. |
| `ElementIndex.JudgedExactly` | clay-rs/clay.h:1703-1711 | Within a cycle of the counter an entry is judged right if and only if the counter has not wrapped since its mark. |
| `ElementIndex.HoldsTheLatestFrame` | clay-rs/clay.h:1698-1741 | After any history below capacity in which entries are judged right, a declared id holds the element and the alias of the first declaration of the last frame that declares it, no hover function and the mark of the frame after that. |
| `ElementIndex.HoldsUntilTheWrap` | clay-rs/clay.h:1698-1741 | So it does after any history of fewer than 2^32 - 1 frames. |
| `ElementIndex.StaleAfterTheWrap` | clay-rs/clay.h:1711-1728 | Just past the wrap a history ends with an id that holds the declaration of an earlier frame. |
| `Distribution.SwapbackParts` | clay-rs/clay.h:993-1001 | Removal by swapping keeps what is in front, drops exactly the removed element, and leaves exactly the others still to be visited. |
| `Distribution.Scan` | clay-rs/clay.h:2317-2333 | Finds a size that some child has and that no child exceeds by epsilon, and a step of at least epsilon; best size, second size and step are those of `Distribution.ScanOf`. |
| `Distribution.ScanStep` | clay-rs/clay.h:2322-2332 | The step is the distance to the second size if some child behind the best one is away from it, and is otherwise left over from before the best one. |
| `Distribution.StepIsDistance` | clay-rs/clay.h:2322-2332 | It equals that distance if and only if such a child exists or what is left over happens to equal it. |
| `Distribution.OvertakesExactly` | clay-rs/clay.h:2322-2335 | A round takes the best child past the second size if and only if the step is left over and longer than the distance, and an equal share of the remainder, to which the step is capped, is longer than the distance, too. |
| `Distribution.StaleStep` | clay-rs/clay.h:2362-2376 | Growing 5, 10 and 1 by 15 or more, the step is 5 where the distance is 4, and 1 becomes 6. |
| `Distribution.SecondIsNext` | clay-rs/clay.h:2322-2332 | The second size is a child's or the starting value, and no child away from the best one falls short of it by epsilon. |
| `Distribution.Pass` | clay-rs/clay.h:2337-2349 | Every child is visited exactly once despite removal by swapping; exactly those that reach their bound leave; total plus remainder is unchanged. |
| `Distribution.Rounds` | clay-rs/clay.h:2316-2394 | Terminates, conserves, never overshoots, keeps every child within its bound, and ends with at most epsilon left or every child at its bound; and with a common level that no child has moved beyond and that every child away from its bound reaches up to `(2n + 1)` epsilon. |
| `Distribution.KeepGrowing` | clay-rs/clay.h:2353-2359 | Exactly the growing children stay in the buffer. |
| `Distribution.SizeChildren` | clay-rs/clay.h:2304-2394 | Compresses, grows or leaves alone, with all of the above; children stay between their minimum and maximum, and others do not change. |

## Left out

- Liveness of consensus beyond `Repeats`, and fairness of delivery: updates are events that may come late.
- Restarted proposers in the network, and tracking several of one's own proposals: marked incomplete in the source.
- The status exchange, catch-up with old heights, connections, Noise transport and sockets.
- The choice of which rounds are sent to a peer, and the skipping of a vote kind whose counted stake is zero: packing is modelled once a kind is sent.
- Signed integers of the byte codec: only the unsigned ones are used in the packets modelled.
- Network.ReceiveKeeps: does not cover votes of round 2^31 or later and chunks without bytes, because the former break the invariant (`Network.ReplayIsStored`) and the latter are never signed by a correct member and can make the node panic (`Reception.CrashesExactly`); the network has no crashes.
- Wrap-around of the 64-bit stake sums and of the worker pool's 32-bit counters.
- Weak-memory effects of the relaxed atomics in the worker pool.
- `FatPointerToBftBlock` beyond what `round_data_to_fat_pointer` fills in, and its users.
- The aspect ratio, percentage and off-axis sizing of containers, and everything of Clay behind the cached measurement.
- The debug data and hover user data of element entries, and the warnings that Clay reports.
- TextCache.TextCache.MeasureTextCached: promises nothing about the cache once the words overran their array, because the source then links an index outside it.
- Fairness of the worker pool's scheduling: that main returns is proved as the existence of a continuation, not for every fair schedule.
