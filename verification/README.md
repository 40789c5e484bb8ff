# A verified model of the BFT engine

The repository is a Byzantine fault tolerant replication engine. Validators go through rounds of four steps
(pre-prepare, prepare, commit, reply) to agree on one block per height; a signer keeps what it has signed on disk;
blocks travel as parts with Merkle proofs over framed, encrypted connections; a mempool feeds the proposer; and after
a crash a handshake brings the consensus state and the application back together.

This project models those parts in Dafny and proves what they are for. The model follows the program's own shape:
functions and lemmas where the program computes values, classes and loops where it updates state in place. Where an
object has both, the methods of the class are proved equal to functions on values, and the properties are proved of
those functions.

| file | what it models |
|---|---|
| `Types`, `Power`, `Quorums` | block identifiers, votes, ideal signatures; voting power and quorum overlap |
| `VoteSet`, `VoteTally`, `VoteSetObject` | counting the votes of one height, round and type |
| `HeightVotes`, `HeightVoteObject`, `VoteAnswer` | the vote sets of all rounds of a height, and what votes and claims are answered |
| `RoundState`, `Invariant`, `Progress`, `ConsensusObject`, `Ticker` | one node: steps, messages, timeouts, locks |
| `Agreement`, `System` | all nodes together, with faulty validators that sign anything |
| `Resilience` | exactly which faulty validators the network survives |
| `Certificate` | commit certificates made, verified and turned back into vote sets |
| `Signer` | the double-sign guard |
| `Replay`, `Restart`, `Claim` | restarts of consensus nodes from their logs |
| `Recovery` | write order, crashes and the handshake |
| `ValidatorUpdates`, `ValidatorIndex` | validator changes and the sparse index of validator lists |
| `Merkle`, `MerkleProof`, `MerkleTrails`, `PartSet` | hash trees, audit paths, block parts |
| `CList`, `CListObject`, `Mempool` | the concurrent list and the mempool's recheck |
| `Wire`, `Codec`, `Fields`, `TrustCodec`, `CodecBuffers` | varints and the generated message codecs |
| `Channels`, `SecretConn` | packets of several channels on one connection; sealed frames |
| `Median` | the weighted median block time |

## Reading the model

- Voting power is `real`; the nominal total is 10. A block becomes the majority of a vote set at 23/3
  (`types/vote.go:499`), "two thirds of anything" and certificates need more than 20/3 (`types/vote.go:619`,
  `types/validator_set.go:357`). The two thresholds are kept apart.
- A signature is a fact (key, sign-bytes, signature); verification accepts exactly the facts that exist. Correct nodes
  add a fact when their signer answers; faulty validators may add any fact under their own keys at any time.
- A panic is a state in which the node handles nothing more (consensus), a `None` or an error value (elsewhere), or,
  where it is proved dead, an `assert false`.
- Agreement is on block hashes, because locks compare hashes only. With the power of a height not renormalised after
  validator updates, the bound on faulty power is `2 * 23/3 - total`, which is 16/3 for a total of 10.

## What turned out not to hold

- The comment on `VoteSet` promises that every canonical vote also stands in the tally of its block. It does not when a
  conflicting vote for the majority replaces the canonical one and no peer claimed that block
  (`VoteTally.CanonicalTrackedIff`, `VoteTally.CanonicalVoteUntracked`).
- A certificate made from a majority for nil does not verify (`Certificates.MakeReplyVerifies`).
- `signVote` of the consensus state does not take over the timestamp its signer settled on, so a vote asked for again
  after a restart can go out with a signature over another timestamp (`Signers.ConsensusVoteMatchesSignature`,
  `Signers.ResentVoteMismatch`).
- Replaying the log does not always restore a node: peers' claims and the arrival of transactions are handled without being
  logged, and a lock that needed a claim is lost (`Claims.LockForgotten`). It does exactly when everything handled is
  logged (`Claims.ReplayRestoresIff`), and then agreement survives restarts (`Restarts.AgreeDespiteRestarts`).
- A chain whose initial height is above 1 cannot recover from a crash while its first block is applied, and from nothing
  else (`Recovery.StoreAheadIff`, `Recovery.Replica.ReplayBlocks`). Replaying a block on the mock application loses the
  stored answer to BeginBlock (`Recovery.Replica.ReplayLast`).
- `AddPart` compares neither index nor total of a proof with the slot, so a slot can be filled with another part
  (`PartSets.MisplacedPart`); it holds its own part exactly when both match (`PartSets.OwnPartIff`,
  `PartSets.CompleteIff`). The number of parts is computed in 32-bit arithmetic; parts concatenate to the data exactly
  when the sum does not wrap (`PartSets.PartsConcatenate`).
- `BlockStoreState` round-trips exactly when its unrecognized bytes are well-formed fields of other numbers
  (`Codec.StoreRoundTrip`).
- With two or more channels an empty message is lost when its channel is looked at and another one sends, on a fresh connection already
  (`Channels.EmptyMessageLost`); with one channel, or without empty messages, nothing is (`Channels.AllArriveIff`).
- A transaction that was driven out of the cache can be listed twice, and committing it then removes only the later copy
  (`Mempools.ListedTwice`, `Mempools.CommittedButListed`). `Mempools.Mempool.CheckTx` says exactly when a duplicate
  arises, `Mempools.Mempool.Update` what an update removes in any case.
- `Update` pushes a delivered transaction into the cache so that it is not taken again, but `removeTx` takes it out if it
  was listed (`Mempools.Mempool.DropCommitted`).
- The comment on `updateState` says that an update with power 0 deletes a validator. Nothing deletes one
  (`ValidatorUpdates.UpdatedAddresses`, `ValidatorUpdates.ZeroPowerStays`).
- The comment on `MedianTime` promises a time between honest ones, which a faulty validator cannot move at will. Weights
  are address bytes: voting power does not matter (`Medians.PowerDoesNotMatter`, `Medians.LittlePowerSetsTime`). In
  terms of those weights the promise holds exactly below one half (`Medians.NeverTooEarlyIff`,
  `Medians.NeverTooLateIff`).

## Model

| member | source | states |
|---|---|---|
| `VoteSets.NewVoteSetValid` | types/vote.go:303-321 | a new vote set satisfies the invariant |
| `VoteSets.AddVerifiedKeeps` | types/vote.go:448-521 | whatever is voted, bit arrays mark exactly the votes held, every sum is the power of its distinct voters, the majority is a block that reached the quorum and its tracked votes are canonical; the duplicate panic is dead; a conflict is reported exactly when another vote stood there |
| `VoteSets.AddVoteKeeps` | types/vote.go:378-433 | `addVote` on any vote keeps the invariant, reaches neither panic, never replaces a majority and never loses a voter |
| `VoteSets.AddVoteSigned` | types/vote.go:408-419 | only votes with a signature that was made are ever recorded, canonically or in a tally |
| `VoteSets.SetPeerMaj23Keeps` | types/vote.go:525-554 | a peer's claim keeps the invariant and changes neither the majority nor the sum |
| `VoteSets.MajorityIsTwoThirdsAny` | types/vote.go:613-620 | a majority always has two thirds of anything |
| `VoteAnswers.AddedIff` | types/vote.go:378-521 | a vote is added if and only if it is genuine, new, and its validator's first or for a block some peer has claimed; it then counts for its block, a first vote canonically |
| `VoteAnswers.ConflictIff` | types/vote.go:408-433 | a conflict is reported if and only if a genuine new vote meets an earlier one of its validator, and with that one; a vote for the majority replaces it |
| `VoteAnswers.RefusedFor` | types/vote.go:378-419 | every other vote changes nothing, and is answered with the first reason that applies |
| `VoteAnswers.ClaimRecorded` | types/vote.go:525-554 | a peer's first claim marks exactly that block, whether or not it has votes; a second one changes nothing and must agree |
| `VoteAnswers.ClaimedVotesCount` | types/vote.go:476-491 | after a claim every genuine new vote for the block is added and tracked, also of a validator that voted for another block |
| `VoteAnswers.TwoThirdsAnyIff` | types/vote.go:613-629 | two thirds of anything, and all, by the power of the distinct validators that voted |
| `VoteTally.MajorityIsTally` | types/vote.go:448-521 | over every sequence of votes and claims without equivocation, the majority is B if and only if the distinct voters for B weigh at least 23/3 |
| `VoteTally.OrderIndependent` | types/vote.go:631-641 | the same votes in any order, with any repeats and claims, give the same majority |
| `VoteTally.CanonicalTrackedIff` | types/vote.go:460-480 | adding a vote keeps every canonical vote in its block's tally if and only if it is not a conflicting vote for the majority that no peer claimed |
| `VoteTally.CanonicalVoteUntracked` | types/vote.go:460-480 | three votes after which a canonical vote is in no tally |
| `VoteSetObjects.VoteSetObject.constructor` | types/vote.go:303-321 | for a height other than 0, which the source refuses with a panic, the new object is the empty vote set |
| `VoteSetObjects.VoteSetObject.FindVote` | types/vote.go:436-444 | finds the canonical or the tracked vote of that validator for exactly that block |
| `VoteSetObjects.VoteSetObject.Add` | types/vote.go:378-433 | every error in its order; the object keeps the invariant and only grows, and the panic on a vote neither added nor conflicting is dead |
| `VoteSetObjects.VoteSetObject.AddVerifiedVote` | types/vote.go:448-521 | a vote is added unless it conflicts and no peer claimed its block; the conflict returned is the vote that stood there |
| `VoteSetObjects.VoteSetObject.RecordVote` | types/vote.go:453-474 | the canonical vote, the bit and the overall sum after the first half |
| `VoteSetObjects.VoteSetObject.CountVote` | types/vote.go:497-518 | the block's tally and, when it first crosses the quorum, the majority |
| `VoteSetObjects.VoteSetObject.CopyVotes` | types/vote.go:511-515 | the loop overlays exactly the winner's votes |
| `VoteSetObjects.VoteSetObject.ClaimMaj23` | types/vote.go:525-554 | one claim per peer, which marks its block also before it has votes; a second one must agree; the majority stays |
| `VoteSetObjects.VoteSetObject.TwoThirdsMajority` | types/vote.go:631-641 | the answer is a block whose distinct tracked voters weigh a quorum; no answer means no tracked block has one |
| `VoteSetObjects.VoteSetObject.MakeReply` | types/vote.go:789-812 | the loop builds the specified certificate, or stops where the source panics |
| `HeightVoteSets.SetRoundKeeps` | consensus/height_vote_set.go:75-105 | callers that never lower the round never panic, lose nothing and have every round up to it tracked |
| `HeightVoteSets.SetRoundAdds` | consensus/height_vote_set.go:75-105 | exactly the missing rounds are added, empty; all others stay as they were |
| `HeightVoteSets.AddVoteKeeps` | consensus/height_vote_set.go:109-131 | any vote from any peer keeps every vote set valid, drops no round and charges a new round to its peer |
| `HeightVoteSets.SetPeerMaj23Keeps` | consensus/height_vote_set.go:180-191 | a claim keeps every vote set valid |
| `HeightVoteSets.TrackedRoundsBounded` | consensus/height_vote_set.go:109-131 | at most `round + 2` rounds plus two per peer are ever tracked |
| `VoteAnswers.RoundVoteAdded` | consensus/height_vote_set.go:109-131 | a vote for an untracked round is turned away if and only if its peer has opened two rounds; otherwise that round is opened at its expense, and no other round is touched |
| `VoteAnswers.SetAnswers` | consensus/height_vote_set.go:109-131 | otherwise the answer is that of the set of its round and type, which alone changes |
| `VoteAnswers.RoundClaimRecorded` | consensus/height_vote_set.go:180-191 | a claim reaches exactly the set of its round and type, and nothing if the round is untracked |
| `HeightVoteObjects.HeightVoteSet.Reset` | consensus/height_vote_set.go:44-55 | a new height tracks round 0 alone |
| `HeightVoteObjects.HeightVoteSet.TrackRound` | consensus/height_vote_set.go:95-105 | two empty vote sets for the round |
| `HeightVoteObjects.HeightVoteSet.SetRound` | consensus/height_vote_set.go:75-89 | the loop creates exactly the missing rounds, in place |
| `HeightVoteObjects.HeightVoteSet.AddVote` | consensus/height_vote_set.go:109-131 | an untracked round is opened only at the peer's expense; the bound on tracked rounds holds after every call |
| `HeightVoteObjects.HeightVoteSet.POLInfo` | consensus/height_vote_set.go:149-160 | the greatest round up to the current one with a prepare majority, and that majority; -1 exactly when there is none |
| `HeightVoteObjects.HeightVoteSet.SetPeerMaj23` | consensus/height_vote_set.go:180-191 | claims on untracked rounds are dropped, others recorded |
| `Certificates.VerifyReply` | types/validator_set.go:319-362 | accepts if and only if sizes, height and block agree, every present signature verifies and those for the block weigh more than 20/3; otherwise names the first thing that is wrong |
| `Certificates.CertifiesIff` | types/validator_set.go:319-362 | what is accepted, in terms of signatures that were made: every entry that is not absent is its validator's signature of a commit for the block or for nil, and those for the block weigh more than 20/3 |
| `Certificates.ReplyToVoteSet` | types/reply.go:43-55 | fails exactly when some entry cannot be added; otherwise yields the set those votes build |
| `Certificates.MakeReplyVerifies` | types/vote.go:789-812 | the certificate of a commit majority verifies against the same validators if and only if the majority is a real block |
| `Certificates.MakeReplyIff` | types/vote.go:64-85 | a certificate can be made if and only if there is a commit majority and every vote is for nil or for a complete block identifier; each entry is exactly the vote's, or absent |
| `Certificates.ReplyRoundTrip` | types/reply.go:43-82 | turning the certificate back adds every entry without error, finds the same majority, and holds the original votes minus those for other blocks |
| `Invariants.PrepareRespectsLock` | consensus/consensus_state.go:912-935 | what a node prepares in a state is the block it voted to commit, unless it has recorded a prepare majority for something else in a later round; `Network.LocksAreKept` says it of whole runs |
| `Invariants.EnterPrepareKeeps` | consensus/consensus_state.go:887-906 | entering prepare keeps the node's invariant and signs at most once, for the round entered |
| `Invariants.EnterPrePrepareKeeps` | consensus/consensus_state.go:755-801 | entering pre-prepare keeps the invariant |
| `Invariants.EnterNewRoundKeeps` | consensus/consensus_state.go:693-735 | a new round keeps the invariant and is reached |
| `Invariants.EnterPrepareWaitKeeps` | consensus/consensus_state.go:938-954 | waiting for prepares keeps the invariant |
| `Invariants.PolRoundGreatest` | consensus/height_vote_set.go:149-160 | the specification's search returns the greatest round with a majority |
| `Invariants.PolPanicUnreachable` | consensus/consensus_state.go:970-975 | the POL round panic of `enterCommit` is unreachable |
| `Invariants.EnterCommitKeeps` | consensus/consensus_state.go:956-1049 | locking, relocking and unlocking keep locks backed by majorities; a commit is signed only for a block with a quorum of prepares |
| `Invariants.EnterCommitWaitKeeps` | consensus/consensus_state.go:1052-1072 | with two thirds of commits the wait never panics |
| `Invariants.UpdateToStateKeeps` | consensus/consensus_state.go:407-489 | moving to the next height keeps the invariant |
| `Invariants.TryFinalizeKeeps` | consensus/consensus_state.go:1121-1221 | only a block with a quorum of commits is appended |
| `Invariants.FinalizeKeeps` | consensus/consensus_state.go:1145-1221 | whatever the state, a block is appended only with a quorum of commits that can be made into its certificate, and the invariant holds at the next height |
| `Invariants.EnterReplyKeeps` | consensus/consensus_state.go:1075-1116 | entering reply keeps the invariant |
| `Invariants.AddBlockPartKeeps` | consensus/consensus_state.go:1260-1338 | completing a block keeps the invariant, whatever bytes arrived |
| `Invariants.OnPolkaKeeps` | consensus/consensus_state.go:1420-1455 | unlocking on a later majority and noting the valid block keep the invariant |
| `Invariants.OnPrepareKeeps` | consensus/consensus_state.go:1413-1477 | the reaction to a prepare keeps the invariant |
| `Invariants.OnCommitKeeps` | consensus/consensus_state.go:1479-1507 | the reaction to a commit keeps the invariant |
| `Invariants.AddVoteKeeps` | consensus/consensus_state.go:1367-1514 | any vote from anyone keeps the invariant |
| `Invariants.HandleTimeoutKeeps` | consensus/consensus_state.go:618-664 | any scheduled timeout, however late, keeps the invariant |
| `Invariants.HandleTxsKeeps` | consensus/consensus_state.go:670-690 | new transactions keep the invariant |
| `Invariants.DeliveredRound` | consensus/consensus_state.go:618-621 | a timeout for the current height is for a round at most the current one |
| `Invariants.HandleKeeps` | consensus/consensus_state.go:519-664 | every event keeps the invariant, position never goes back, and everything emitted was allowed |
| `Invariants.FreshInv` | consensus/consensus_state.go:407-489 | a node at the start of a height satisfies the invariant |
| `Progress.EventAchieves` | consensus/consensus_state.go:519-664 | what every event achieves on a running node: the step it leads to, the lock, valid block and proposal it leaves, the votes and proposals it asks for, the clocks it starts |
| `Progress.TimeoutMovesOn` | consensus/consensus_state.go:618-664 | no timeout is lost: the node is past the step it was set for, has asked for the vote that goes with it, and after a commit wait is in the next round |
| `Progress.TimeoutHandled` | consensus/consensus_state.go:618-664 | each timeout that is not behind the node takes it into the step that was waited for; others change nothing |
| `Progress.ProposalMade` | consensus/consensus_state.go:808-847 | a primary proposes its valid block again with the round that made it valid, and a new block only without one; exactly one proposal, or none if there is no block or signature |
| `Progress.PrePrepareEntered` | consensus/consensus_state.go:755-801 | the clock starts, the primary proposes, and the node goes on to prepare exactly when the proposal is complete |
| `Progress.PrepareAsked` | consensus/consensus_state.go:887-935 | exactly one prepare is asked for by a validator: for the lock, else for a valid proposal block, else nil |
| `Progress.RoundEntered` | consensus/consensus_state.go:693-735 | a later round is entered with votes for it and the next, without an old proposal and with lock and valid block kept; it waits only as configured |
| `Progress.PrepareWaitEntered` | consensus/consensus_state.go:938-954 | one clock per round |
| `Progress.CommitAsked` | consensus/consensus_state.go:956-1049 | exactly one commit is asked for: for the majority's block if it is locked or here, which is then locked; otherwise nil, with the lock released or kept and an unknown winner fetched; it stops exactly on an invalid winner |
| `Progress.CommitWaitEntered` | consensus/consensus_state.go:1052-1072 | with two thirds of commits one clock per round starts |
| `Progress.HeightFinished` | consensus/consensus_state.go:407-489 | the next height keeps nothing but the commits that finished this one, and its clock starts |
| `Progress.AppendTried` | consensus/consensus_state.go:1121-1221 | the winner is appended if it is here, valid and certifiable, and the node moves to the next height if the application takes it; awaited if it is not here; otherwise the node stops |
| `Progress.ReplyEntered` | consensus/consensus_state.go:1075-1116 | the winner is looked for in the lock, then in the proposal, and its parts are collected otherwise |
| `Progress.ProposalTaken` | consensus/consensus_state.go:1226-1258 | a proposal is taken if and only if it is the first, for the present height and round, well formed and signed |
| `Progress.MajorityNoted` | consensus/consensus_state.go:1420-1455 | exactly when a prepare majority releases the lock, sets the valid block, or drops a wrong proposal |
| `Progress.PartReceived` | consensus/consensus_state.go:1260-1338 | a completed block becomes the proposal block and the valid one if it has the majority; it leads into prepare, commit or the append |
| `Progress.PrepareCounted` | consensus/consensus_state.go:1413-1477 | where an added prepare leads: to a later round with two thirds, to commit, to the wait, or to prepare for a proposal whose POL round it completes |
| `Progress.CommitCounted` | consensus/consensus_state.go:1479-1507 | where an added commit leads: through the skipped steps to the append, or to the wait for the next round |
| `Progress.VoteHandled` | consensus/consensus_state.go:1367-1514 | this height's votes go to their round, late commits to the last height's, all others nowhere |
| `Progress.TransactionsHandled` | consensus/consensus_state.go:670-690 | new transactions make a waiting node propose, or set its clock before round 0 |
| `Progress.LaterRoundJoined` | consensus/consensus_state.go:1457-1507 | two thirds of a later round, prepares or commits, take the node there |
| `Progress.WinnerAppended` | consensus/consensus_state.go:1479-1507 | a commit majority for a locked, valid block appends it and ends the height |
| `ConsensusObjects.ConsensusState.constructor` | consensus/consensus_state.go:127-169 | the new node stands at the start of its height with round 0 scheduled |
| `ConsensusObjects.ConsensusState.SignAdd` | consensus/consensus_state.go:1517-1590 | asks the signer exactly when the node is a validator; the vote is then its own, at its own index, for its present height and round, and carries the signature of exactly its sign-bytes |
| `ConsensusObjects.ConsensusState.DoPrepare` | consensus/consensus_state.go:912-935 | a locked node asks for a vote for its locked block and nothing else; an unlocked one only for a block that is here and valid, or for nil |
| `ConsensusObjects.ConsensusState.EnterPrepare` | consensus/consensus_state.go:887-906 | from every state the invariant allows and for a round not ahead, keeps the invariant, never goes back and emits only what is allowed: at most one prepare, for the round entered, respecting every earlier commit |
| `ConsensusObjects.ConsensusState.Decide` | consensus/consensus_state.go:808-847 | at most one proposal is added: the valid block with its round, else a new block with none; if it names a POL round, a quorum signed prepares for its block in that round |
| `ConsensusObjects.ConsensusState.PrePrepareComplete` | consensus/consensus_state.go:851-862 | a complete proposal that names a POL round is backed by a quorum of signed prepares in that round |
| `ConsensusObjects.ConsensusState.EnterPrePrepare` | consensus/consensus_state.go:755-801 | from every state the invariant allows and for a round not ahead, keeps the invariant, never goes back and emits only what is allowed |
| `ConsensusObjects.ConsensusState.EnterNewRound` | consensus/consensus_state.go:693-735 | from every state the invariant allows and for any height and round, keeps the invariant, never goes back and emits only what is allowed |
| `ConsensusObjects.ConsensusState.EnterPrepareWait` | consensus/consensus_state.go:938-954 | for a round not ahead, keeps the invariant, never goes back and emits only what is allowed: no vote, and a timeout only for a round reached |
| `ConsensusObjects.ConsensusState.ChooseCommit` | consensus/consensus_state.go:970-1049 | relocking, locking and unlocking keep the lock backed by a majority and every earlier commit guarded; nothing is signed and position stays |
| `ConsensusObjects.ConsensusState.EnterCommit` | consensus/consensus_state.go:956-1049 | for a round not ahead, keeps the invariant, never goes back and emits only what is allowed: at most one commit, and for a block only with a quorum of prepares; a node that panics signs nothing |
| `ConsensusObjects.ConsensusState.EnterCommitWait` | consensus/consensus_state.go:1052-1072 | with two thirds of commits, keeps the invariant, never goes back and emits only what is allowed |
| `ConsensusObjects.ConsensusState.UpdateToState` | consensus/consensus_state.go:407-489 | with a commit majority, the next height starts with the invariant intact: no lock, valid block or vote of the finished height is left |
| `ConsensusObjects.ConsensusState.FinalizeAppend` | consensus/consensus_state.go:1145-1221 | whatever the state, a block is appended only with a quorum of commits, and a panic, that of making the certificate included, appends nothing; keeps the invariant, never goes back and emits only what is allowed |
| `ConsensusObjects.ConsensusState.TryFinalizeAppend` | consensus/consensus_state.go:1121-1142 | at the height asked for, the same |
| `ConsensusObjects.ConsensusState.EnterReply` | consensus/consensus_state.go:1075-1116 | from every state the invariant allows, for any round, the same |
| `ConsensusObjects.ConsensusState.ReceivePrePrepare` | consensus/consensus_state.go:1226-1258 | a proposal is taken at most once, only for the present height and round, with a POL round before it and a good signature; keeps the invariant, never goes back and emits only what is allowed |
| `ConsensusObjects.ConsensusState.ReceiveBlockPart` | consensus/consensus_state.go:1260-1338 | whatever was decoded, keeps the invariant, never goes back and emits only what is allowed |
| `ConsensusObjects.ConsensusState.NotePolka` | consensus/consensus_state.go:1420-1455 | when told of a majority that is recorded, releasing the lock and noting the valid block keep the lock rules and emit nothing |
| `ConsensusObjects.ConsensusState.AfterPrepare` | consensus/consensus_state.go:1413-1477 | whichever step a prepare leads to, keeps the invariant, never goes back and emits only what is allowed |
| `ConsensusObjects.ConsensusState.AfterCommit` | consensus/consensus_state.go:1479-1507 | whichever steps a commit leads through, keeps the invariant, never goes back and emits only what is allowed |
| `ConsensusObjects.ConsensusState.ReceiveVote` | consensus/consensus_state.go:1367-1514 | any vote from any peer keeps the invariant, never goes back and emits only what is allowed |
| `ConsensusObjects.ConsensusState.ReceiveTimeout` | consensus/consensus_state.go:618-664 | any timeout the node scheduled, however late, keeps the invariant, never goes back and emits only what is allowed, and takes the node into the step that was waited for; after a commit wait into the next round |
| `ConsensusObjects.ConsensusState.TxsAvailable` | consensus/consensus_state.go:670-690 | new transactions: keeps the invariant, never goes back and emits only what is allowed |
| `ConsensusObjects.ConsensusState.Receive` | consensus/consensus_state.go:519-664 | one turn of the running node keeps the invariant, never goes back in (height, round, step), emits only what is allowed, and achieves what the event is for |
| `Tickers.TimeoutRoutine` | consensus/ticker.go:81-120 | the timer loop delivers exactly the timeouts that were the greatest ticked for when the timer ran out, each once and in increasing order |
| `Tickers.DueExactly` | consensus/ticker.go:81-120 | a timeout is due if and only if the timer ran out while it was the greatest ticked for |
| `Tickers.DeliveriesAdvance` | consensus/ticker.go:92-109 | every delivered timeout was scheduled, and deliveries are strictly increasing in (height, round, step) |
| `Quorums.PolkaHasQuorum` | types/vote.go:497-518 | a recorded prepare majority means that a quorum of signatures exists |
| `Power.QuorumsShareCorrect` | types/vote.go:497-518 | two quorums share a validator outside any set lighter than their overlap |
| `Agreement.NoRivalMajority` | consensus/consensus_state.go:956-1049 | once a quorum committed to a block, no later round ever gathers a quorum of prepares for another, if every two quorums share a correct validator |
| `Agreement.CommitQuorumsAgree` | consensus/consensus_state.go:1145-1165 | two blocks with commit quorums at one height are the same, whatever the rounds |
| `Agreement.ToleratedMeets` | types/vote.go:497-518 | while faulty power is below `2 * 23/3 - total`, every two quorums share a correct validator |
| `Network.RunKeeps` | consensus/consensus_state.go:519-664 | every reachable state of the whole system satisfies the invariant of every correct node |
| `Network.AgreeWhenQuorumsMeet` | consensus/consensus_state.go:1145-1221 | agreement: in every run no two correct nodes append different blocks at one height, whatever the rounds, if every two quorums share a correct validator |
| `Network.NodesAgree` | consensus/consensus_state.go:1145-1221 | the same while faulty power is below the overlap of two quorums, 16/3 of 10 |
| `Resilience.AgreementIff` | consensus/consensus_state.go:912-1221 | the exact condition: with at least two correct validators, no run lets correct nodes append different blocks at a height if and only if every two quorums of that height share a correct validator |
| `Resilience.Disagreement` | consensus/consensus_state.go:912-1221 | for any two quorums with no correct validator in common and any two complete block identifiers, a run from the start of the height in which a correct member of each appends its block |
| `Resilience.ThresholdIsTight` | types/vote.go:497-518 | with powers 7/3, 7/3 and 16/3 a single faulty validator of exactly the bound leads the two correct ones to append different blocks |
| `Resilience.OneSide` | consensus/consensus_state.go:1260-1507 | a quorum whose correct members have not voted takes any of them from proposal to append: messages alone, every rule followed |
| `Resilience.OnePrepare` | consensus/consensus_state.go:1413-1477 | a node with a proposal goes on collecting prepares below the quorum, and locks, notes the valid block and signs its commit at the quorum |
| `Resilience.OneCommit` | consensus/consensus_state.go:1479-1507 | a locked node waits below the quorum of commits and appends its block at the quorum |
| `Network.SignsInOrder` | consensus/consensus_state.go:1517-1545 | in every run a node asks its signer at most once per height, round and type, never goes back, and every request is for the round its step was entered for |
| `Network.LocksAreKept` | consensus/consensus_state.go:912-935 | in every run a node that asked to sign a commit for a block asks to sign a prepare for something else only once it has itself recorded a prepare majority for another block in a later round |
| `Network.RivalQuorumSigned` | consensus/consensus_state.go:912-935 | seen from the signatures: before such a prepare is signed, a quorum had signed prepares for another block in a later round |
| `Network.TimeNeverGoesBack` | consensus/consensus_state.go:357-360 | in every run position never goes back and nothing signed or appended is taken back |
| `Network.LocksBackedByMajorities` | consensus/consensus_state.go:987-1042 | in every run the locked (valid) block is what the prepares of the locked (valid) round have a majority for, and pending timeouts are for rounds reached |
| `Signers.FilePV.constructor` | types/priv_validator.go:196-214 | a new signer has signed nothing |
| `Signers.FilePV.Reload` | types/priv_validator.go:228-264 | a restart restores exactly the saved state |
| `Signers.FilePV.SaveSigned` | types/priv_validator.go:458-467 | memory and file hold the position and pair just signed |
| `Signers.FilePV.SignVote` | types/priv_validator.go:361-409 | a vote after the saved position is signed as it is; on success its sign-bytes and signature are the persisted pair and only timestamp and signature changed; on error nothing changed; the panics are dead |
| `Signers.FilePV.SignProposal` | types/priv_validator.go:414-455 | the same for proposals: one after the saved position is signed |
| `Signers.SignAnswers` | types/priv_validator.go:134-166 | for any vote or proposal: signed and saved after the saved position, refused as a regression if and only if before it, and at it answered with the saved signature if and only if only the timestamp differs |
| `Signers.StepSafe` | types/priv_validator.go:134-166 | any request, with a crash before or after the save, keeps the guard |
| `Signers.NoDoubleSigning` | types/priv_validator.go:361-467 | over every sequence of requests, crashes and restarts, released positions never go back, and two releases for one height, round and step are the same message and signature |
| `Signers.ReleasesAreGenuine` | types/priv_validator.go:361-467 | every released signature is the key's signature of exactly the released sign-bytes |
| `Signers.ConsensusVoteMatchesSignature` | consensus/consensus_state.go:1517-1545 | the vote sent carries the signed bytes if and only if its position is new or its timestamp is the saved one |
| `Signers.ResentVoteMismatch` | consensus/consensus_state.go:1540-1544 | a vote asked for again one tick later goes out with a signature over the old time |
| `Replays.HandleTwin` | consensus/replay.go:38-88 | whatever clock and signer answer, handling an event leads to the same state and the same requests to sign: locks, votes and position do not depend on them |
| `Replays.AfterTwin` | consensus/replay.go:91-158 | so does handling a whole log again |
| `Restarts.RestartRestores` | consensus/replay.go:91-158 | a restart from what is left of a log, everything flushed included, takes a node back to a state it was in since it last signed, proposed or appended |
| `Restarts.RestartsKeep` | consensus/consensus_state.go:519-664 | every state of every run with restarts satisfies the invariant of every correct node |
| `Restarts.AgreeDespiteRestarts` | consensus/replay.go:91-158 | agreement when correct nodes stop at any time, lose their memory and an unflushed part of their log, and replay the rest |
| `Restarts.GuardNeverRefuses` | types/priv_validator.go:361-409 | in every run with restarts, every vote a correct node asks for is at a new position for its signer, and is signed |
| `Restarts.ReplaySignsNothingNew` | types/priv_validator.go:134-166 | a vote asked for again during a replay, at whatever time, leaves the signer as it was, and yields nothing but the signature saved last, and that only for the last vote |
| `Claims.LockForgotten` | consensus/reactor.go:238-246 | a lock that rests on a peer's claim is lost by a restart: the claim is not logged, the majority is not found again, and the signed commit is not remembered |
| `Claims.ReplayRestoresIff` | consensus/consensus_state.go:538-566 | replaying the log restores every node from every history if and only if everything handled is logged |
| `Recovery.NothingUncovered` | consensus/replay.go:306-382 | the uncovered-case panic is dead for all heights |
| `Recovery.ChooseIff` | consensus/replay.go:306-382 | the decision for any heights: each error and each repair, if and only if |
| `Recovery.StoreAheadIff` | consensus/replay.go:306-382 | on every coherent disk the store is refused as too far ahead if and only if the chain starts above height 1, a block is stored and no block is in the saved state; each repair is chosen exactly for its crash point |
| `Recovery.SaveBlockKeeps` | consensus/consensus_state.go:1175-1185 | saving a block leaves a coherent disk |
| `Recovery.SaveResponsesKeeps` | state/execution.go:142-145 | so does saving the responses |
| `Recovery.CommitAppKeeps` | state/execution.go:166-170 | so does the application's commit |
| `Recovery.SaveStateKeeps` | state/execution.go:172-177 | so does saving the state |
| `Recovery.Replica.ApplyBlock` | state/execution.go:128-185 | cut off anywhere it leaves a coherent disk; it succeeds exactly when the validator updates are accepted, and then saves the state made of the block, the application's hash and those updates, which is that of the uninterrupted run |
| `Recovery.Replica.FinalizeAppend` | consensus/consensus_state.go:1175-1211 | the same for saving and applying the next block |
| `Recovery.Replica.RollBack` | consensus/replay.go:238-256 | an application restored to any earlier height leaves a coherent disk |
| `Recovery.Replica.ReplayNext` | state/execution.go:496-518 | the next missing block runs once; its header carries the hash the application is at, so the check never fails |
| `Recovery.Replica.CatchUp` | consensus/replay.go:401-416 | the loop runs each missing block once, in order, up to the saved state |
| `Recovery.Replica.InitApplication` | consensus/replay.go:258-303 | InitChain, for the first time or again after a crash: the application's validators and hash replace the genesis document's where it gave any, the results are empty, and the state saved is the start of the chain |
| `Recovery.Replica.ReplayMissing` | consensus/replay.go:384-428 | ends in sync, or fails exactly when the last block cannot be applied |
| `Recovery.Replica.ReplayLast` | consensus/replay.go:431-447 | the last block ends in sync on the real application or on the mock; the mock leaves the application alone and replaces the stored answer to BeginBlock by an empty one |
| `Recovery.Replica.Repair` | consensus/replay.go:306-382 | for every initial height: ends in sync, panics exactly when the first block of a chain above height 1 is unfinished or the genesis hash is wrong, and fails exactly when the last block cannot be applied |
| `Recovery.Replica.ReplayBlocks` | consensus/replay.go:238-382 | for every initial height and every coherent disk, the handshake ends where the uninterrupted run would be, each missing block executed once and in order; panics and failures happen exactly in the stated cases; interrupted anywhere, the disk is coherent again |
| `ValidatorUpdates.ProcessChanges` | types/validator_set.go:158-184 | succeeds if and only if no address is repeated or empty and no power negative; the result is the strictly sorted permutation |
| `ValidatorUpdates.LessIff` | types/validator_set.go:224-241 | addresses are ordered byte by byte |
| `ValidatorUpdates.ApplyUpdates` | types/validator_set.go:186-222 | the merge of two shrinking slices is strictly sorted and is the address-keyed override |
| `ValidatorUpdates.UpdateWithChangeSet` | types/validator_set.go:224-245 | fails exactly on unacceptable changes, else overrides by address |
| `ValidatorUpdates.MergeOverrides` | types/validator_set.go:186-222 | membership in the merge is membership in the override, both ways |
| `ValidatorUpdates.StrictUnique` | types/validator_set.go:224-241 | a strictly sorted list is determined by its members, so the override determines the result |
| `ValidatorUpdates.UpdatedAddresses` | types/validator_set.go:224-245 | after an update an address is listed if and only if it was listed or is in the changes: nothing removes a validator |
| `ValidatorUpdates.ZeroPowerStays` | state/execution.go:408-419 | an update to power 0 is accepted and leaves its validator in the list |
| `ValidatorUpdates.NewValidatorSet` | types/validator_set.go:24-36 | the genesis validators, each as given but with an equal share of a total power of exactly 10, sorted and distinct; refused exactly if unacceptable |
| `ValidatorIndex.GenesisState` | state/state.go:282-318 | the genesis state represents the start of the chain |
| `ValidatorIndex.UpdateState` | state/execution.go:403-448 | the next state represents the same chain one block later, last, present and next validators alike; the changes of block H take effect at H + 2; it fails exactly when they are refused |
| `ValidatorIndex.UnchangedSince` | state/store.go:224-272 | between the last change and a height the list does not change |
| `ValidatorIndex.StoredHeightServes` | state/store.go:269-272 | the height looked up instead stores a list, and it is the one in force at the height asked for |
| `ValidatorIndex.LatestStored` | state/store.go:269-272 | and it is the latest height that does, so earlier ones can be pruned |
| `ValidatorIndex.StateStore.SaveValidatorsInfo` | state/store.go:298-326 | the list is stored at changes and checkpoints only; refused exactly when the last change lies ahead |
| `ValidatorIndex.StateStore.Save` | state/store.go:132-161 | consecutive saves from genesis never fail and extend the index by one height |
| `ValidatorIndex.StateStore.LoadValidators` | state/store.go:224-272 | at every saved height exactly the list in force there |
| `Merkle.SplitPointLargest` | crypto/merkle/tree.go:93-104 | the split point is a power of two below n and at least n/2 |
| `Merkle.SplitPointUnique` | crypto/merkle/tree.go:93-104 | no other number is |
| `Merkle.SmallTrees` | crypto/merkle/tree.go:7-19 | the hashes of none to three items, written out |
| `Merkle.LevelKeepsTree` | crypto/merkle/tree.go:71-87 | combining neighbours once does not change the root |
| `Merkle.Combine` | crypto/merkle/tree.go:75-87 | the read and write positions produce exactly the next level in place |
| `Merkle.HashFromByteSlicesIterative` | crypto/merkle/tree.go:60-90 | the in-place hash equals the recursive hash of section 2.1 of RFC 6962 for every list of items and every hash function |
| `MerkleProofs.AuntsLeadToRoot` | crypto/merkle/proof.go:144-174 | following an item's audit path gives the root |
| `MerkleProofs.AuntsBounded` | crypto/merkle/proof.go:91-110 | at most d aunts for at most 2^d items, each of hash size |
| `MerkleProofs.GeneratedProofVerifies` | crypto/merkle/proof.go:28-61 | every generated proof verifies its item and is well formed for up to 2^100 items |
| `MerkleProofs.VerifyingProofIsSound` | crypto/merkle/proof.go:45-61 | a well-formed proof that verifies, whatever index and total it claims, proves the item its path lands on with that item's audit path, or two colliding inputs can be read off it; with the tree's total it lands on its index |
| `MerkleTrails.FlattenAunts` | crypto/merkle/proof.go:189-204 | the walk up the parents collects the siblings in order |
| `MerkleTrails.Join` | crypto/merkle/proof.go:214-226 | hanging two trees below a new root extends every path by the other tree's hash |
| `MerkleTrails.Trails` | crypto/merkle/proof.go:208-228 | the linked trails carry the leaf hashes, the audit paths and the root |
| `MerkleTrails.ProofsFromByteSlices` | crypto/merkle/proof.go:28-41 | the proofs are the audit paths, and the root is the tree's hash |
| `PartSets.PartsConcatenate` | types/part_set.go:167-182 | the parts concatenate to the data if and only if the data is empty or its length plus the part size minus one fits 32 bits |
| `PartSets.SplitData` | types/part_set.go:167-196 | the parts are the chunks with their proofs, and the hash is their root |
| `PartSets.AddKeeps` | types/part_set.go:269-297 | any part keeps bits, count and byte size consistent, and every part held is proved |
| `PartSets.CompleteWhenFilled` | types/part_set.go:306-308 | complete if and only if every slot is filled |
| `PartSets.AnyOrderReassembles` | types/part_set.go:269-297 | the original parts in any order, with repeats, complete the set exactly when all have arrived, and it then holds exactly the data |
| `PartSets.AcceptedPart` | types/part_set.go:285-288 | an accepted part holds the item its proof lands on, whatever slot, index and total it claims, or exposes a collision; so it holds its slot's bytes exactly when those two items are equal |
| `PartSets.OwnPartIff` | types/part_set.go:269-297 | an accepted part is the original of its slot if and only if its proof names that slot and the set's total, or it exposes a collision |
| `PartSets.MisplacedPart` | types/part_set.go:269-297 | any item with its own proof is accepted in any slot, so the condition of `OwnPartIff` is not checked |
| `PartSets.CompleteIff` | types/part_set.go:269-308 | whoever sent the parts, a complete set holds the originals if and only if every part in it names its slot and the total |
| `PartSets.StrangersReassemble` | types/part_set.go:269-352 | if every acceptable part names its slot and the total, a complete set reads back as the data, or one of the parts exposes a collision |
| `PartSets.PartSet.FromHeader` | types/part_set.go:199-208 | an empty set for the header |
| `PartSets.PartSet.AddPart` | types/part_set.go:269-297 | a part is added if and only if its slot exists, is empty and its proof verifies; each error exactly in its case; the other slots and the invariant are kept |
| `PartSets.PartSetReader.constructor` | types/part_set.go:323-329 | everything is still to be read |
| `PartSets.PartSetReader.Read` | types/part_set.go:332-352 | the next bytes across part boundaries; end of file exactly when fewer were left |
| `PartSets.PartSetReader.ReadAll` | consensus/consensus_state.go:1284-1287 | reading to the end yields all that was left |
| `CLists.PushKeeps` | libs/clist/clist.go:302-337 | appending keeps the list in order and closes no channel twice |
| `CLists.Neighbours` | libs/clist/clist.go:340-360 | the neighbours of a live element point back at it, and the head and tail panics of `Remove` are dead |
| `CLists.RemoveKeeps` | libs/clist/clist.go:340-382 | removal keeps the order, removes exactly that element, and keeps "a wait channel is closed exactly when there is a successor or the element is removed" |
| `CLists.DetachKeeps` | libs/clist/clist.go:127-135 | detaching a removed element from its predecessor disturbs nothing |
| `CLists.DetachNextKeeps` | libs/clist/clist.go:116-124 | neither does detaching it from its successor |
| `CLists.ReadersSeeTheRest` | libs/clist/clist.go:91-96 | from any element, live or removed, a reader moves forward only, meets every later live element in order, and stops at the last live one or at a removed one |
| `CLists.ReaderBetweenWriters` | libs/clist/clist.go:91-382 | over every interleaving of a reader with pushes, removals and detaching on either side: the reader only moves forward, misses no element that is still live, and at a live end has met every later live element |
| `CListObjects.CList.SetNext` | libs/clist/clist.go:140-158 | the link and its channel, never closing a closed one |
| `CListObjects.CList.SetPrev` | libs/clist/clist.go:163-181 | the same backwards |
| `CListObjects.CList.SetRemoved` | libs/clist/clist.go:184-199 | waiters on a missing neighbour are woken |
| `CListObjects.CList.PushBack` | libs/clist/clist.go:302-337 | below the maximum length, where the source panics, the element becomes the tail, linked both ways, and waiters are woken |
| `CListObjects.CList.RemoveElement` | libs/clist/clist.go:340-382 | exactly that element leaves; the three panics are dead |
| `CListObjects.CList.DetachPrev` | libs/clist/clist.go:127-135 | only the removed element's back link goes |
| `CListObjects.CList.DetachNext` | libs/clist/clist.go:116-124 | only the removed element's forward link goes |
| `CListObjects.CList.Follow` | libs/clist/clist.go:91-96 | within one state the walk terminates and meets exactly the trail |
| `Mempools.Mempool.AddTx` | mempool/clist_mempool.go:345-349 | counter, map and list stay in step within both limits |
| `Mempools.Mempool.RemoveTx` | mempool/clist_mempool.go:354-360 | exactly that element goes, its bytes are given back and the cache forgets it |
| `Mempools.Mempool.CheckTx` | mempool/clist_mempool.go:228-422 | the answer, the cache and the list, exactly; limits and byte counter hold after every call; the map stops listing every transaction exactly when one is added that it lists already, which a cache that still holds all listed ones rules out; and when the cache stops holding them |
| `Mempools.CacheRefreshed` | mempool/clist_mempool.go:659-690 | a transaction seen again becomes the most recently used one; the others keep their order and none is driven out |
| `Mempools.Mempool.ResCbRecheck` | mempool/clist_mempool.go:428-466 | one answer: the element under the cursor stays or goes, and the cursor moves to its successor or to nil at the end |
| `Mempools.Mempool.RecheckTxs` | mempool/clist_mempool.go:581-602 | loop and cursor stay in step although elements are removed under them; the cursor ends nil and the list is the order-preserving filter of the accepted transactions |
| `Mempools.Mempool.DropCommitted` | mempool/clist_mempool.go:552-563 | the mapped element of a committed transaction goes; afterwards the cache holds the transaction only if it was delivered and not listed |
| `Mempools.Mempool.RemoveCommitted` | mempool/clist_mempool.go:552-563 | for every mempool: exactly the elements go that are the mapped ones of a committed transaction |
| `Mempools.Mempool.Update` | mempool/clist_mempool.go:537-577 | for every mempool: exactly the elements stay that are not the mapped ones of a committed transaction and are still accepted; if the map lists every transaction, exactly the uncommitted ones |
| `Mempools.ListedTwice` | mempool/clist_mempool.go:228-422 | with a cache of one entry, three calls list a transaction twice |
| `Mempools.CommittedButListed` | mempool/clist_mempool.go:537-577 | committing it then removes the second copy only; the first stays listed |
| `Wire.SovIsLength` | proto/crtrust/crtrust.pb.go:303-305 | the bit-count formula is the length of the varint |
| `Wire.EncodeVarint` | proto/crtrust/crtrust.pb.go:252-262 | the bytes land just below the offset and nothing else changes |
| `Wire.DecodeVarint` | proto/crtrust/crtrust.pb.go:315-329 | the reading loop, with its overflow and end-of-input errors |
| `Wire.VarintRoundTrip` | proto/crtrust/crtrust.pb.go:252-262 | the reader inverts the writer on every 64-bit value, wherever it stands |
| `Codec.StoreRoundTrip` | proto/store/store_types.pb.go:113-261 | decoding an encoded store state gives it back if and only if its unrecognized bytes are well-formed unknown fields |
| `Codec.DecodedIsUnknown` | proto/store/store_types.pb.go:235-255 | what decoding keeps as unrecognized always is, so every decoded state round-trips |
| `Codec.StoreFieldRefused` | proto/store/store_types.pb.go:195-235 | a known field in another wire type is refused, and an end of group without a start |
| `CodecBuffers.SizeStore` | proto/store/store_types.pb.go:146-162 | exactly the number of bytes written |
| `CodecBuffers.MarshalStoreToSizedBuffer` | proto/store/store_types.pb.go:113-133 | the encoding fills the end of the buffer and nothing below it changes |
| `CodecBuffers.MarshalStore` | proto/store/store_types.pb.go:98-106 | the buffer is exactly the encoding |
| `CodecBuffers.Skip` | proto/store/store_types.pb.go:262-339 | the skipping loop with its depth counter and errors |
| `Fields.SkipsField` | proto/store/store_types.pb.go:262-339 | a field of any wire type, groups nested to any depth, is skipped to exactly its end wherever it stands |
| `Fields.SkipInverts` | proto/store/store_types.pb.go:235-255 | so an unknown field is found to end where its encoding ends |
| `CodecBuffers.UnmarshalStore` | proto/store/store_types.pb.go:170-261 | the decoding loop, on every input, with its errors |
| `TrustCodec.TrustRoundTrip` | proto/crtrust/crtrust.pb.go:179-616 | every notice and every local evaluation comes back, negative heights and empty keys included, in whatever order the map was walked |
| `TrustCodec.FieldRefused` | proto/crtrust/crtrust.pb.go:338-400 | a known field in another wire type is refused, and an end of group without a start |
| `CodecBuffers.SizeTrust` | proto/crtrust/crtrust.pb.go:263-301 | exactly the number of bytes written |
| `CodecBuffers.PutEntry` | proto/crtrust/crtrust.pb.go:232-247 | one map entry written backwards, its length last |
| `CodecBuffers.MarshalTrustToSizedBuffer` | proto/crtrust/crtrust.pb.go:179-250 | the encoding fills the end of the buffer and nothing below it changes |
| `CodecBuffers.MarshalTrust` | proto/crtrust/crtrust.pb.go:164-207 | the buffer is exactly the encoding |
| `CodecBuffers.UnmarshalEntry` | proto/crtrust/crtrust.pb.go:473-543 | the loop over one map entry, on every input |
| `CodecBuffers.UnmarshalTrust` | proto/crtrust/crtrust.pb.go:309-616 | the decoding loops of both messages, on every input, with their errors |
| `Channels.Channel.TrySendBytes` | gossip/connection.go:733-742 | a message is queued exactly if there is room; the queue never overflows and its size counter moves with it |
| `Channels.Channel.UpdateStats` | gossip/connection.go:811-814 | the counter becomes four fifths of itself, rounded down |
| `Channels.Channel.IsSendPending` | gossip/connection.go:756-764 | an idle channel takes the next message off its queue |
| `Channels.Channel.NextPacketMsg` | gossip/connection.go:767-780 | the next packet, marked as last exactly when nothing is left |
| `Channels.Channel.RecvPacketMsg` | gossip/connection.go:793-808 | bytes are collected, a message is handed over at its last packet, and exactly what exceeds the capacity is an error |
| `Channels.SendPacketMsg` | gossip/connection.go:487-519 | every channel is looked at; one packet goes out exactly if some channel has something, from the first with the least recently sent per priority, and its bytes are added to that channel's counter |
| `Channels.PrecedesIff` | gossip/connection.go:498-503 | one channel goes before another if and only if it has sent less per priority, or the same and stands first |
| `Channels.MessagesArriveInOrder` | gossip/connection.go:487-808 | however channels are interleaved, a channel's messages within capacity arrive complete and in order, the capacity error never strikes, and once nothing is pending all have arrived: if it is the only channel, or if none of its messages is empty |
| `Channels.EmptyMessageLost` | gossip/connection.go:487-519 | on every fresh connection with two channels, a run that loses an empty message: both are looked at, the first one sends, the other's is gone |
| `Channels.AllArriveIff` | gossip/connection.go:487-808 | all messages of all runs arrive if and only if there is one channel or empty messages are not sent |
| `SecretConns.SecretPipe.SendFrame` | gossip/secret_connection.go:190-224 | one frame under a nonce never used before; refused exactly when the counter is exhausted |
| `SecretConns.SecretPipe.Write` | gossip/secret_connection.go:185-229 | the data joins the byte stream, cut into as few frames as hold it |
| `SecretConns.SecretPipe.OpenFrame` | gossip/secret_connection.go:246-268 | the oldest frame opens under the reader's nonce and yields the oldest chunk; both errors are dead |
| `SecretConns.SecretPipe.Read` | gossip/secret_connection.go:232-276 | the next bytes of the stream, as many as fit of what is buffered or of the next frame; it waits only when nothing is there; both ends agree on every nonce, so opening never fails |
| `Medians.WeightedMedian` | libs/time/time.go:31-58 | the earliest time at which the weight so far reaches half of the total; the zero time exactly when there is none |
| `Medians.MedianUnique` | libs/time/time.go:31-58 | there is at most one such time |
| `Medians.MedianOrderIndependent` | libs/time/time.go:34-46 | the same entries in any order have the same median |
| `Medians.MedianBetweenHonest` | state/state.go:243-245 | while faulty weight is below half of the total rounded down, the median lies between honest times |
| `Medians.NeverTooEarlyIff` | state/state.go:243-245 | faulty entries can never pull the time before every honest one if and only if they weigh less than half of the total, rounded down, or there are none |
| `Medians.NeverTooLateIff` | state/state.go:243-245 | they can never push it after every honest one if and only if the honest ones weigh at least that half |
| `Medians.PowerDoesNotMatter` | state/state.go:246-263 | the times and weights are the same whatever the voting powers |
| `Medians.LittlePowerSetsTime` | state/state.go:246-263 | of two validators with any powers and addresses, the faulty one sets the time alone, before the honest one, if and only if its first address byte is at least the other's less one |
| `Medians.MedianTime` | state/state.go:246-263 | the median of the present signatures' times, weighted by the first byte of the address |
| `Medians.SignatureCounts` | state/state.go:250-260 | a signature counts if and only if it is not absent and its validator is listed, with its time and the first byte of its address |

## Left out

- Restarts.AgreeDespiteRestarts: a node restarts only while everything it has handled at its height was logged; a finished
  height is taken as loaded, with its last commits, not rebuilt from the stored certificate. The encoding of the log, corrupted
  logs and the search for the end-height marker (`consensus/wal.go`) are not modelled.
- Liveness, timer durations and the interleaving of the ticker's delivery goroutines; a node may receive any timeout it
  scheduled, in any order.
- float64 rounding of voting power and of decaying counters, float32 rounding of channel ratios: powers and ratios are `real`.
- Cryptography: signatures, the hash function and sealed frames are ideal or abstract; key exchange is not modelled.
  `BlockID.Key()` and the canonical encodings of votes and proposals are taken as injective.
- The primary is chosen by the environment of the model; `iterateToGetPrimary`, validator types and the `Primary` field are
  not modelled.
- Pointers between objects: the consensus object holds its vote sets by value, and the height vote set holds the vote sets
  of its rounds by value, so aliasing of a vote set by several holders, and mutexes, are not captured. List elements are
  held in a table and referred to by their place in it.
- The content of blocks, part bytes and block decoding inside the consensus model, `ValidateBlock`, `CreateProposalBlock`
  and the application are answers of the environment. Applications are deterministic and persist only at Commit; the
  validators of the next height are the same for all nodes.
- Saving the block inside `finalizeAppend` is modelled in `Recovery`, not in the consensus model; storing its certificate
  and the end-height marker is not modelled, nor are the height checks of `updateToState` against the stored state.
- Write errors of databases, files and sockets; the JSON form of the signer's files; `LoadFilePVEmptyState` and `Reset`.
- Recovery.Replica.ReplayBlocks: the validator information sent with BeginBlock is part of the block here.
- ValidatorIndex.StateStore.LoadValidators: the validator list only; the `Primary` that the source recomputes is left out.
- CListObjects.CList.Follow: a walk within one state; walks between writers are covered by `CLists.ReaderBetweenWriters`.
- Mempools.Mempool.CheckTx: the local client, whose answer arrives within the call; `Flush`, the reap functions, senders and
  transaction notifications are not modelled.
- Resilience.AgreementIff: for heights whose validators have distinct, non-empty addresses, with at least two correct ones
  among them.
- Channels.Channel.RecvPacketMsg: the source hands out the buffer it goes on to reuse; messages are values
  here, so a handler that keeps the slice is not covered.
- Trust computation (`crtrust`), gossip of the consensus reactor, fast sync, RPC, events, configuration, logging and the
  Byzantine test switches.
