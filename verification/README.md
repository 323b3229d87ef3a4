# Verified model of a goloop node

A Dafny model of the parts of goloop, the node of the ICON network, on which its safety rests, with proofs:

- **Consensus** (`Votes`, `Quorum`, `Rotation`, `VoteSet`, `Node`, `NodeSafety`, `Agreement`, `Logs`, `LockLog`,
  `Disk`, `Engine`, `Handlers`, `Turns`, `Rereading`, `Relock`). `Node` is the
  protocol of one validator as a machine of events, with its write-ahead logs and their replay. `NodeSafety`
  proves what every run of it keeps, crashes included: a node never votes twice in a step, and never loses the
  proof of its lock. `Agreement` composes honest nodes with arbitrary faulty ones and arbitrary delivery and proves
  lock persistence and agreement, restarts included as long as they keep a lock and its round. `Logs` says what a
  restart reads back from the three logs, `LockLog` and `Disk` which restarts keep a lock, from what is on disk. `Engine` is the engine itself, a class with the handlers of
  `consensus.go` and their nested calls; each handler is proved to be a run of the events of `Node`, so the theorems
  apply to it. `Handlers` turns that around and says which events the handlers make, and `Relock` is a run of that
  kind, built in `Turns` and `Rereading`, that goes wrong after a restart.
- **Certificates** (`VoteList`, `Certificate`, `Timestamp`, `Int64`): compressed vote lists, commit vote lists, the median
  timestamp.
- **Reliable streams** (`Stream`, `StreamNet`, `StreamLoss`): one endpoint in place, two endpoints over lossy FIFO
  channels, and when an item is lost.
- **Block candidates** (`CandidateTree`) and **shared executions** (`Transition`): reference counting in place.
- **Send queues** (`Queue`): ring buffers and the priority and weighted schedulers.
- **BTP sections** (`Merkle`, `Btp`): Merkle roots and proofs in place, building sections from maps walked in any
  order, storing and reloading them.

Code that changes state in the source is a class or a method with loops here, proved against a function on values;
the theorems are about those functions and about all runs built from them. Check the project with
`dafny verify dfyconfig.toml`.

## What turned out false

Five properties one would expect do not hold of the code. Each is shown failing, and each has its exact condition; for
the first one, exact is which restarts keep a lock, and that all of them do is sufficient for agreement.

- Restarts can break agreement although no log loses anything (`Relock.RelockForgotten`): a lock that moves to a later
  round is not written to the lock log, so a restart goes back to the round that was. `Disks.KeepsLockIff` says which
  restarts keep a lock, and `Disks.AgreementOnDisk` covers all runs with such restarts.
- A stream can lose an item for good (`StreamNet.ItemCanBeLost`), even over channels that lose nothing
  (`StreamLoss.LostWithoutLoss`): a bare acknowledgement carries the sequence number of the last item sent and is
  accepted in its place. `StreamNet.LosslessIff` says exactly when none is lost, and `StreamLoss.CarefulIsLossless`
  gives a rule for senders.
- A compressed vote list does not always give its votes back: prototype indices are 16-bit
  (`VoteLists.TooManyBases`; `VoteLists.PackRoundTrip` has the exact bound).
- Finalizing cuts the other branches before it asks the service manager; if that fails, the candidate tree is
  left without its root (the contract of `CandidateTree.Manager.Finalize` has the exact condition, both ways).
- A reloaded network section can differ from the one that was built: lists of message hashes of different length
  can share a Merkle root, under which they are stored, and the first sequence number loses its top bits when
  shifted (`Btp.SharedRootBuilt`, `Btp.StoredFormsAgreeIff`, `Btp.AllKeptIff`).

## Model

| member | source | states |
|---|---|---|
| `Votes.IndexOf` | consensus/consensus.go:506-509 | the validator index of an address: found exactly if the address is in the list, and then at the first place it occurs |
| `Quorum.QuorumsOverlap` | consensus/voteset.go:76-78 | two sets of more than two thirds of n indices share more than a third of them |
| `Quorum.HonestOverlap` | consensus/voteset.go:76-78 | two such sets share an index that is not faulty, if fewer than a third are |
| `VoteSets.WinnerUnique` | consensus/voteset.go:92-111 | at most one decision can have more than two thirds of a vote set |
| `VoteSets.WinnerIs` | consensus/voteset.go:92-111 | the +2/3 query answers a decision exactly when more than 2n/3 votes are for it |
| `VoteSets.WinnerStable` | consensus/voteset.go:34-41 | once a decision has +2/3, an accepted add, a conflicting re-vote included, keeps it the winner |
| `VoteSets.WinnerStableAll` | consensus/voteset.go:32-73 | the same for every sequence of adds |
| `VoteSets.AddedOnce` | consensus/voteset.go:32-41 | a vote is refused when it comes again, whatever came of it the first time |
| `VoteSets.DroppedAgrees` | consensus/voteset.go:42-53 | taking a replaced vote out of its counter keeps every counter equal to a recount |
| `VoteSets.RaisedAgrees` | consensus/voteset.go:56-72 | counting a new vote keeps every counter equal to a recount |
| `VoteSets.MaxDecides` | consensus/voteset.go:92-111 | the cached largest counter alone decides whether any decision has +2/3 |
| `VoteSets.VoteSet.constructor` | consensus/voteset.go:209-216 | an empty vote set: no votes, no counters |
| `VoteSets.VoteSet.Add` | consensus/voteset.go:32-73 | accepts a vote unless it repeats the one held or the one held is for a decision with more than 2n/3 votes, changes no other place, and keeps counters, count, mask and cached maximum in agreement with the votes held |
| `VoteSets.VoteSet.CheckAndAdd` | consensus/voteset.go:197-203 | a late vote is added exactly if it is of the committed round, for the decision that has +2/3, and the rules for re-votes accept it, so a vote held for another decision is replaced; else nothing changes |
| `VoteSets.VoteSet.OverTwoThirdsDecision` | consensus/voteset.go:92-111 | computes the winner of the votes held, and its part set |
| `VoteSets.VoteSet.HasOverTwoThirds` | consensus/voteset.go:76-78 | whether more than two thirds have voted at all |
| `NodeSafety.AddKeepsPolka` | consensus/voteset.go:223-236 | a vote added to the book leaves every +2/3 in it as it was |
| `NodeSafety.LockStep` | consensus/consensus.go:837-889 | every event keeps: a round is locked exactly if a block is, and its +2/3 prevotes are still in the book, pruning of old rounds included |
| `NodeSafety.VoteStep` | consensus/consensus.go:1251-1308 | every event keeps: own votes have strictly increasing (height, round, step), none beyond the current one |
| `NodeSafety.ProposalStep` | consensus/consensus.go:1113-1179 | every event keeps: own proposals have strictly increasing (height, round) |
| `NodeSafety.LogStep` | consensus/consensus.go:1287-1308 | every event keeps: whatever was sent has a synced record in the round log, and no logged vote list is empty |
| `NodeSafety.InvStep` | consensus/consensus.go:277-294 | every enabled event keeps all of this |
| `NodeSafety.InvRun` | consensus/consensus.go:277-294 | so does every run, crashes and replays included |
| `NodeSafety.RoundLogReaches` | consensus/consensus.go:1352-1464 | replaying the round log ends at or after the round and step of each of its records for that height |
| `NodeSafety.ReplayAdvances` | consensus/consensus.go:1466-1668 | the lock and commit logs never take the replayed round and step back |
| `NodeSafety.ReplayReachesVote` | consensus/consensus.go:1352-1464 | a restart resumes at or after every vote that is in the round log, whatever is left of the other logs |
| `NodeSafety.ReplayReachesProposal` | consensus/consensus.go:1352-1464 | the same for own proposals |
| `NodeSafety.ReplayLockHolds` | consensus/consensus.go:1466-1578 | a lock rebuilt from the logs comes with +2/3 prevotes for its block in its round |
| `NodeSafety.NonEquivocation` | consensus/consensus.go:1251-1308 | in every run, crashes and replays included, a node casts at most one prevote and one precommit per height and round |
| `NodeSafety.OneProposalPerRound` | consensus/consensus.go:1113-1179 | and at most one proposal |
| `NodeSafety.ProofOfLockKept` | consensus/consensus.go:1143-1148 | in every reachable state lockedRound >= 0 iff a block is locked, and then the book still holds +2/3 prevotes for it in that round |
| `Agreement.PolkaIsReal` | consensus/consensus.go:545-575 | +2/3 in an honest node's book means that enough honest validators really voted so, the faulty ones added |
| `Agreement.LockHeldStep` | consensus/consensus.go:545-575 | every way to lose or change a lock, but for a restart that loses it, leaves +2/3 prevotes of a later round behind |
| `Agreement.CastKeepsLog` | consensus/consensus.go:727-806 | a vote cast by an honest node contradicts no earlier precommit of its own that was not overruled |
| `Agreement.SystemStep` | consensus/consensus.go:545-597 | every action of an honest node, any authentic message delivered at any time and restarts that keep a lock and its round included, keeps the invariant of the whole system |
| `Agreement.SystemRun` | consensus/consensus.go:545-597 | so does every run of the system |
| `Agreement.NoPolkaAgainst` | consensus/consensus.go:837-889 | no prefix of the votes cast has +2/3 prevotes against a block that ever gets +2/3 precommits in an earlier round |
| `Agreement.LockPersistence` | consensus/consensus.go:837-889 | once +2/3 precommits for a block can exist, no later round of the height ever has +2/3 prevotes for anything else, nil included |
| `Agreement.OneCommittable` | consensus/consensus.go:905-935 | two blocks that can both have +2/3 precommits at a height, in whatever rounds, are the same |
| `Agreement.AgreementHolds` | consensus/consensus.go:981-1017 | with fewer than n/3 faulty validators, any message order, and restarts of any node at any time that keep its lock and the round of it, no two honest nodes ever enter commit for different part sets at a height |
| `Agreement.NodesRun` | consensus/consensus.go:478-531 | each node of such a run goes through a legal run of its own, so all that holds of one node holds there |
| `Agreement.RestartBookOk` | consensus/consensus.go:1352-1668 | a book rebuilt from logs holds only votes that exist, each at the place of its signer |
| `Rotation.EachProposesOnce` | consensus/consensus.go:1310-1316 | in as many rounds in a row as there are validators, each of them proposes in exactly one |
| `Rotation.NextProposes` | consensus/consensus.go:1310-1316 | the next round, as the next height, belongs to the next validator in the list |
| `Logs.RefilledForD` | consensus/voteset.go:32-73 | adding the votes of a list to whatever is held gives every voter of its +2/3 decision its vote again, by the rules for re-votes, or else another decision has +2/3 |
| `Logs.ListSurvives` | consensus/consensus.go:1352-1668 | a vote list with +2/3 for a decision that is on any of the three logs, the commit log included, is read back: the restarted node has +2/3 for it in that round again, unless it has +2/3 for something else there, and resumes at or after that round and step |
| `Logs.RestartPlace` | consensus/consensus.go:1352-1668 | a restart resumes at the round and step of one of the records of its logs, or at the very beginning |
| `Logs.CommitReadsAll` | consensus/consensus.go:1625-1650 | a vote list of the commit log whose first vote is of this height is read in full: every vote of a validator in it is held, or another one the rules for re-votes keep |
| `Logs.OthersIgnored` | consensus/consensus.go:1426-1440 | a list of votes of other heights changes nothing, on any log |
| `LockLogs.ListOpens` | consensus/consensus.go:1501-1530 | reading back the prevotes of a lock opens its part set in its round, unless the prevotes then held have +2/3 for something else |
| `LockLogs.PartsFill` | consensus/consensus.go:1545-1566 | reading back the block parts fills it, and the last one locks |
| `LockLogs.LockNeedsParts` | consensus/consensus.go:1545-1566 | a lock is rebuilt only from a log that has every part of its block |
| `LockLogs.LockSurvives` | consensus/consensus.go:1466-1578 | a lock that was written survives a crash: if its records are the last of the lock log, and the prevotes read back of its round have +2/3 for nothing else, a restart locks the same block in the same round, whatever the commit log holds |
| `Disks.LogGrowsBy` | consensus/consensus.go:851-875 | the lock log as a list of locks grows by exactly what entering the precommit step writes |
| `Disks.RestartLocks` | consensus/consensus.go:1466-1578 | in every state that runs keep to, with fewer than n/3 faulty, a restart locks exactly the last lock on disk, in the round it was written in, if it is of the height resumed, and nothing else; no prevotes on record can prevent it |
| `Disks.WorldRun` | consensus/consensus.go:837-889 | in every run, whatever restarts do, the lock log of a locked node ends with the records of a lock on its block that rests on +2/3 prevotes |
| `Disks.KeepsLockIff` | consensus/consensus.go:851-854 | in every run, a restart keeps a lock and its round exactly if the lock has not moved since it was written |
| `Disks.AgreementOnDisk` | consensus/consensus.go:981-1017 | with fewer than n/3 faulty validators, any message order, and restarts at any time from the logs as they were written, no two honest nodes ever commit different blocks, as long as no node restarts whose lock has moved since it was written |
| `Handlers.PlaysRuns` | consensus/consensus.go:478-597 | a run in which each node goes on as its handlers prescribe, and otherwise acts on messages, timers and callbacks only, is one of these runs |
| `Relock.RelockForgotten` | consensus/consensus.go:851-854 | such a run of four validators, one faulty, in which two honest nodes commit different blocks although every log is read back in full: a lock moved to a later round is not written, and the restart goes back to the round that was |
| `Engines.Engine.constructor` | consensus/consensus.go:147-182 | a fresh node at a height, with any answers of the environment to come |
| `Engines.Engine.NeverVotesTwice` | consensus/consensus.go:1251-1308 | whatever the handlers did, the votes of a node differ in height, round or type |
| `Engines.Engine.CanProveLock` | consensus/consensus.go:1143-1148 | a locked node has the +2/3 prevotes it locked on |
| `Engines.Engine.PolkaIsEnough` | consensus/voteset.go:85-111 | +2/3 for one decision implies +2/3 votes |
| `Engines.Engine.Sign` | consensus/consensus.go:1251-1286 | a vote is signed exactly if this node is a validator and signing does not fail: for the slot asked for, dated at least the minimum commit timeout after its block |
| `Engines.Engine.PrecommitsDated` | consensus/consensus.go:1181-1197 | whatever the handlers did and however often the process restarted, every precommit of a node for a block is dated so |
| `Engines.Engine.TraceDated` | consensus/consensus.go:1181-1197 | so its events are those of a run in which precommits are dated so |
| `Engines.Engine.Post` | consensus/consensus.go:1287-1308 | a vote is logged and the log synced before it counts as sent |
| `Engines.Engine.AddVote` | consensus/consensus.go:506-517 | a vote of a validator of this height enters the book exactly if its vote set accepts it |
| `Engines.Engine.ResetForNewRound` | consensus/consensus.go:237-248 | a higher round forgets the proposal, and of the votes exactly those of rounds before the last one, but for the locked one |
| `Engines.Engine.ChoosePrevote` | consensus/consensus.go:727-806 | the lock is prevoted; without one, a validated block; a block not yet validated is imported exactly if its proposer is the right one, and then the import is of the current block; else nil |
| `Engines.Engine.BeginPrevote` | consensus/consensus.go:727-806 | entering prevote casts at most the vote that is allowed |
| `Engines.Engine.UpdateLock` | consensus/consensus.go:837-889 | the lock after +2/3 prevotes, each of the five cases of the code written out; a new lock is written to the lock log, its prevotes and all its parts, and a lock that only moves to this round is not |
| `Engines.Engine.BeginPrecommit` | consensus/consensus.go:837-889 | entering precommit locks and votes as +2/3 prevotes demand, and writes the lock log accordingly |
| `Engines.Engine.BeginCommit` | consensus/consensus.go:981-1017 | commit is entered with +2/3 precommits for the block, and the precommits held in that round are written to the commit log |
| `Engines.Engine.BeginHeight` | consensus/consensus.go:184-228 | a new height starts unlocked, in round 0, with no votes |
| `Engines.Engine.BeginPropose` | consensus/consensus.go:627-706 | exactly the proposer of the round proposes: a locked one its lock, with the round it was locked in, another one a block to come |
| `Engines.Engine.ReceiveVoteMessage` | consensus/consensus.go:478-531 | a vote is counted exactly if it is of this height, from a validator, with right proof parts, and accepted by its vote set; a precommit that completes +2/3 for a block before commit decides it, in whatever round; all that follows is a run of the events of the node: the nested handlers terminate and make no forbidden step |
| `Engines.Engine.HandlePrevoteMessage` | consensus/consensus.go:545-575 | +2/3 prevotes unlock exactly if they are newer than the lock and for something else; of a later round they lead into it, of this round to prevote wait and, for one decision, to precommit; of an earlier round they start the prevote that waited for them, and nothing else |
| `Engines.Engine.HandlePrecommitMessage` | consensus/consensus.go:577-597 | before commit, +2/3 precommits for a block decide it, those of an earlier round included; those for nil end the round; any others of this or a later round lead to precommit wait, and of an earlier round to nothing |
| `Engines.Engine.AddCertificate` | consensus/consensus.go:2131-2140 | adds the votes of a certificate one by one, up to the first that is not of a validator |
| `Engines.Engine.EnterPrevote` | consensus/consensus.go:727-806 | as an operation of the whole node: a block that must be imported is imported unless that fails, else a validator that can sign votes, and its first vote of the round is counted at once; then the steps that follow from votes already there |
| `Engines.Engine.EnterPrevoteWait` | consensus/consensus.go:808-835 | the same for prevote wait |
| `Engines.Engine.EnterPrecommit` | consensus/consensus.go:837-903 | the same for precommit: a validator that can sign votes and counts its vote; +2/3 precommits already there are acted on |
| `Engines.Engine.EnterPrecommitWait` | consensus/consensus.go:905-935 | the same for precommit wait |
| `Engines.Engine.EnterCommit` | consensus/consensus.go:981-1017 | the same for commit: the block decided has +2/3 precommits in the node's own book; one that is complete is finalized, or imported first if it was not validated |
| `Engines.Engine.EnterNewHeight` | consensus/consensus.go:1070-1096 | the same for a new height, which waits or goes on to wait for transactions |
| `Engines.Engine.EnterTransactionWait` | consensus/consensus.go:1040-1068 | the same for waiting for transactions, which goes on to propose unless there is something to wait for |
| `Engines.Engine.EnterPropose` | consensus/consensus.go:627-706 | the same for propose: what is proposed, and by whom; another node with a complete proposal prevotes at once |
| `Engines.Engine.EnterNewRound` | consensus/consensus.go:1019-1038 | the same for a new round, which goes on to propose unless it waits |
| `Engines.Engine.CommitAndEnterNewHeight` | consensus/consensus.go:937-979 | a committed block that was validated is finalized and leads to the next height, or ends the process if that fails; another one is imported first |
| `Engines.Engine.OnTimeout` | consensus/consensus.go:639-647 | a timer leads from each step to the next one, from precommit wait to the next round, and does nothing in the steps that have none |
| `Engines.Engine.ReceiveProposalMessage` | consensus/consensus.go:380-417 | a proposal is taken exactly if it is the first one of the proposer of this round and commit is not entered, else nothing changes; prevote is entered exactly if the node waits for the proposal and all its parts and the prevotes it refers to are there |
| `Engines.Engine.ReceiveBlockPart` | consensus/consensus.go:454-476 | a block part is taken exactly if the current part set misses it; the last one starts the prevote exactly if the node waits for it and the prevotes the proposal refers to are there, and in commit the finalization |
| `Engines.Engine.OnImported` | consensus/consensus.go:744-785 | the import callback acts exactly in the round it was started in and before commit; a validator that can sign then prevotes, up to prevote wait, for the block that import was started with, which is still the current one, or nil if it failed, and counts its vote |
| `Engines.Engine.OnProposed` | consensus/consensus.go:668-695 | the propose callback acts exactly in the round and step it was started in: it proposes the new block exactly if there is one and it can be signed, then prevote is entered |
| `Engines.Engine.OnCommitImported` | consensus/consensus.go:944-967 | the import callback of a commit leads to the next height exactly if the import and the finalization succeed, else ends the process, and does nothing if late |
| `Engines.Engine.ReceiveBlock` | consensus/consensus.go:2094-2170 | a fast-synced block is decided exactly if it is still needed, all its votes are of validators, and with them the node's own book has +2/3 precommits for it |
| `Engines.Engine.ApplyRoundWAL` | consensus/consensus.go:1352-1464 | the loop over the round log computes the replay that the theorems on restarts are about |
| `Engines.Engine.ApplyLockWAL` | consensus/consensus.go:1466-1578 | the same for the lock log |
| `Engines.Engine.ApplyCommitWAL` | consensus/consensus.go:1580-1668 | the loop over the commit log computes the replay that `Logs.ListSurvives` is about: what it holds is read back |
| `Engines.Engine.Restart` | consensus/consensus.go:1781-1879 | a restart from at least the synced records is a restart event: nothing sent is forgotten, and the logs go on from what was read |
| `Engines.Engine.Resume` | consensus/consensus.go:1861-1877 | after a replay the node goes on with the move prescribed for its round, step and votes, and stays where none is: a step that may already have voted is not entered again, nor is commit |
| `VoteLists.PackPrototypes` | consensus/votelist.go:35-53 | prototypes are the different vote bases, each once |
| `VoteLists.GetAt` | consensus/votelist.go:59-67 | the i-th vote is rebuilt exactly if the index of its prototype fits into 16 bits |
| `VoteLists.PackRoundTrip` | consensus/votelist.go:35-67 | all votes are rebuilt if and only if there are at most 32768 different vote bases |
| `VoteLists.TooManyBases` | consensus/votelist.go:35-67 | of 32769 votes that differ in their rounds the last is not rebuilt |
| `VoteLists.VoteList.AddVote` | consensus/votelist.go:35-53 | the list in place is the packed form of the votes added |
| `Certificates.VerifyBlock` | consensus/commitvotelist.go:41-79 | accepts exactly the certificates with different signers among the validators, all of whose signatures are on this block, and more than two thirds of them; the voted flags are exactly those of the signers; the genesis and missing-validators cases |
| `Certificates.ForkNeedsDoubleSigners` | consensus/commitvotelist.go:41-79 | two accepted certificates for different blocks at one height and round: more than n/3 validators signed both |
| `Certificates.NewCommitVoteList` | consensus/commitvotelist.go:263-309 | for any votes: an error if they decide differently, or if proof contexts are given and one they vote on is unknown; a missing proof part ends in a panic; else a certificate of exactly these votes, with proofs exactly if proof contexts are given |
| `Certificates.WinnerIsCertified` | consensus/voteset.go:113-129 | the certificate of a vote set with +2/3 precommits for a block is accepted, with voted flags exactly its voters |
| `Certificates.CommitVoteListForOverTwoThirds` | consensus/voteset.go:113-129 | none without +2/3; with +2/3 an error exactly if a proof context is missing, else an accepted certificate whose signers are exactly the winner's voters; the empty vote set gives the empty certificate |
| `Certificates.ToVoteList` | consensus/commitvotelist.go:189-259 | turns a certificate back into votes, one per item |
| `Certificates.KnownTrace` | consensus/commitvotelist.go:205-239 | the section hashes it votes for are those of the network types with a proof context, each once and in order |
| `Certificates.ProofHasOnly` | consensus/commitvotelist.go:291-307 | a proof holds the shares of those who voted, and of nobody else |
| `Certificates.SharesFrom` | consensus/commitvotelist.go:227-234 | the proof parts given back to a validator are its shares in the proofs that have one, in order |
| `Certificates.CertificateRoundTrip` | consensus/commitvotelist.go:189-259 | these are the votes it was made from |
| `Certificates.CertificateRestoresWinner` | consensus/consensus.go:1727-1740 | the whole trip: +2/3 precommits, their certificate, the votes rebuilt from it, added to a fresh vote set: +2/3 for the same decision from the same voters |
| `Timestamps.SortedPermutes` | consensus/commitvotelist.go:86-102 | sorting keeps the multiset of timestamps and orders it |
| `Timestamps.MedianIs` | consensus/commitvotelist.go:86-102 | the middle of the sorted list is the median by rank, for lists of any length and any timestamps |
| `Timestamps.Timestamp` | consensus/commitvotelist.go:86-102 | the median by rank in the unsorted list: for odd lengths a timestamp with at most half of the others below and at most half above; for even ones half the 64-bit sum, toward zero, of the two middle ones; 0 for none |
| `Timestamps.MedianBounded` | consensus/commitvotelist.go:86-102 | if fewer than half lie below lo and fewer than half above hi, the median is between them |
| `Timestamps.OutliersAreFaulty` | consensus/commitvotelist.go:86-102 | timestamps outside the honest range belong to different faulty validators |
| `Timestamps.TimestampBounded` | consensus/commitvotelist.go:86-102 | with fewer than n/3 faulty, the median of an accepted certificate lies between the least and the greatest honest timestamp |
| `Timestamps.NextBlockOfRunPasses` | block/blockv2.go:353-363 | in every run of the system whose nodes date their precommits as the engine does, the block after one that is certified by votes of the run, dated by its certificate, passes the timestamp check |
| `Streams.Stream.Send` | network/stream.go:255-282 | refused exactly if the window is full or the first post fails; else the item is kept with the next number and a deadline, and posted at once unless a timeout is on |
| `Streams.Stream.Receive` | network/stream.go:198-253 | receiving does: acceptance of the next number, which arms the ack timer, the answer to others, the ack, retransmission of what is due; a post that gets out cancels the ack timer |
| `Streams.Stream.ReceiveAck` | network/stream.go:222-252 | moves exactly for an ack number within the window, around the circle; drops the acknowledged prefix, retransmits what is late, arms the timer anew |
| `Streams.Stream.RepostDue` | network/stream.go:234-245 | the loop posts exactly the items that are late, or all of them after a timeout, each once, in order, under its own number; exactly these get a new deadline |
| `Streams.AckMoves` | network/stream.go:222-252 | what an ack number does, without reference to the code: within the window it drops the items up to it, ends the timeout, retransmits exactly the late ones of the rest and renews exactly their deadlines; else nothing changes |
| `Streams.Stream.ReceiveSeq` | network/stream.go:198-220 | a message is accepted exactly if its number is the next one, which arms the ack timer; another one with a payload is answered by an ack, a bare ack by nothing |
| `Streams.Stream.UpdateRepostTimer` | network/stream.go:284-312 | the timer is armed for the oldest unacknowledged item and captures its number and payload |
| `Streams.Stream.OnRepostTimer` | network/stream.go:284-312 | the timer retransmits what it captured |
| `Streams.Stream.OnAckTimer` | network/stream.go:180-212 | an ack timer that is armed posts an ack; if that fails it stays set and fires no more |
| `StreamNet.FullWindow` | network/stream.go:255-282 | a send is refused for lack of room exactly if 65535 items are unacknowledged |
| `StreamNet.PopKeeps` | network/stream.go:198-221 | the oldest message in a channel passes for the next one only if it is the next one, across 16-bit wraps |
| `StreamNet.AckedKeeps` | network/stream.go:222-253 | an acknowledgement unwraps to the position it stands for |
| `StreamNet.RunKeeps` | network/stream.go:198-312 | every interleaving of sends, deliveries, losses and timers on both sides keeps the invariant |
| `StreamNet.DeliveryInOrder` | network/stream.go:78-109 | in every run each user gets a subsequence of what the other one sent, in order, nothing twice |
| `StreamNet.WindowExact` | network/stream.go:222-312 | in every run the unacknowledged list is exactly the items after peerAck, and every payload in flight has its item's number and payload |
| `StreamNet.LosslessIff` | network/stream.go:198-221 | the user has got every item taken so far if and only if no bare acknowledgement ever arrived carrying the number that was due |
| `StreamNet.ItemCanBeLost` | network/stream.go:191-221 | a run in which an item is lost for good: the channel drops it, and the acknowledgement of an item of the peer carries its number |
| `StreamLoss.CarefulIsLossless` | network/stream.go:255-282 | over channels that lose nothing, and if neither side sends while its timer has run out unanswered, no item is lost |
| `StreamLoss.LostWithoutLoss` | network/stream.go:198-312 | the second condition is needed: a run in which every post gets out and arrives, and an item is lost for good |
| `CandidateTree.TreeIsAncestors` | block/manager.go:225-293 | a tree with these counts is exactly the finalized block and the ancestors, down to it, of the blocks held |
| `CandidateTree.HandleBelow` | block/manager.go:225-244 | below every node but the root there is a live handle |
| `CandidateTree.Manager.ValidIsTree` | block/manager.go:204-293 | the map is that tree and each nRef is handles + children + 1 if finalized |
| `CandidateTree.Manager.constructor` | block/manager.go:856-871 | a manager with one finalized block |
| `CandidateTree.Manager.RemoveSubtree` | block/manager.go:246-257 | removes exactly the nodes below a node, and it, and disposes of the transitions of each; the recursion terminates |
| `CandidateTree.Manager.UnrefNode` | block/manager.go:225-244 | dropping a reference removes the node, and then its ancestors, exactly while they are unreferenced; the mutual recursion with RemoveNode terminates |
| `CandidateTree.Manager.RemoveNode` | block/manager.go:259-273 | takes an unreferenced node out of the map and unreferences its parent |
| `CandidateTree.Manager.RemoveNodeExcept` | block/manager.go:275-293 | cuts off the siblings' branches of a child of the root |
| `CandidateTree.Manager.AddNode` | block/manager.go:204-212 | hangs a new leaf below its parent |
| `CandidateTree.Manager.Complete` | block/manager.go:378-396 | an import or propose completion adds its block if new and hands out one handle; the tree stays exact |
| `CandidateTree.Manager.NewCandidate` | block/manager.go:214-223 | one more handle, one more reference |
| `CandidateTree.Manager.Dup` | block/manager.go:1410-1423 | one more handle; the tree is unchanged and exact |
| `CandidateTree.Manager.Dispose` | block/manager.go:1425-1434 | one handle fewer; the tree stays exact, so only what nobody refers to any more leaves it, and whatever leaves has its transitions disposed of |
| `CandidateTree.Manager.Finalize` | block/manager.go:976-1058 | keeps exactly the branch of the new root; the tree is exact afterwards unless the block was a child of the root and the service manager failed, and then it is not; succeeds exactly if nothing fails, later stores included, which are reported when the root has moved |
| `Transitions.SummaryIsAll` | block/transition.go:56-72 | with at most one validation report, the two remembered results are the whole history |
| `Transitions.ViewIsLog` | block/transition.go:56-72 | whenever a waiter joined, it has been told exactly what was reported |
| `Transitions.TransitionImpl.Execute` | block/transition.go:150-172 | a transition being executed, with its first waiter |
| `Transitions.TransitionImpl.Initial` | block/transition.go:375-395 | an executed transition with one handle |
| `Transitions.TransitionImpl.Transparent` | block/transition.go:119-148 | if validation was reported at most once, every waiter has seen exactly the reports of the transition, in order, once, and is called for the next one iff there may be one |
| `Transitions.TransitionImpl.NewTransition` | block/transition.go:56-72 | a late handle is told at once what is known; everyone else is unaffected |
| `Transitions.TransitionImpl.OnValidate` | block/transition.go:119-134 | a validation reaches every waiter once and ends the run if it failed; without waiters it is ignored |
| `Transitions.TransitionImpl.OnExecute` | block/transition.go:136-148 | an execution reaches every waiter once and ends the run |
| `Transitions.TransitionImpl.Cancel` | block/transition.go:74-91 | takes exactly this waiter out; the canceler runs exactly if it was the last one |
| `Transitions.TransitionImpl.Dispose` | block/transition.go:297-305 | a disposed handle is never called again; a running transition is canceled exactly if it was the last handle; a second dispose does nothing |
| `Queues.Ring.Push` | network/queue.go:59-70 | appends unless full, in a ring allocated on first use |
| `Queues.Ring.Pop` | network/queue.go:72-81 | takes the oldest |
| `Queues.Turn` | network/queue.go:224-268 | the class served next has something to send; by priority, no class before it has; by weight, no class from the one whose turn it is up to it has |
| `Queues.PopPaysDebt` | network/queue.go:251-268 | a Pop that goes to another class brings the turn closer to class j |
| `Queues.NoStarvation` | network/queue.go:251-276 | a class with something to send is passed over by at most as many Pops as the other classes' weights add up to, whatever is pushed and however weights change below given limits |
| `Queues.QuietKept` | network/queue.go:251-276 | only the class whose turn it is has a used-up share, and after every Pop it is below its weight |
| `Queues.WeightedShare` | network/queue.go:251-268 | while all classes have something to send, in as many Pops as all weights together each class is served exactly as often as its weight |
| `Queues.SetWeightShare` | network/queue.go:251-276 | the same from any reachable state for a run that begins with a new weight: it counts at once, or, if the class in turn has already used it up, from the next Pop on; the other shares are as before |
| `Queues.Conserved` | network/queue.go:163-205 | over every run each class has accepted exactly what was taken from it followed by what it still holds: nothing lost, invented or reordered |
| `Queues.MultiQueue.constructor` | network/queue.go:237-292 | all classes empty, with weight 1 |
| `Queues.MultiQueue.Push` | network/queue.go:163-176 | one step of that specification: appends exactly if the class exists and has room; the total length is the sum of the rings; as long as something waits, a wake-up is on its way |
| `Queues.MultiQueue.Pop` | network/queue.go:189-205 | one step of it, and nothing only if all classes are empty |
| `Queues.MultiQueue.FetchByPriority` | network/queue.go:224-231 | serves the first class that is not empty |
| `Queues.MultiQueue.FetchByWeight` | network/queue.go:251-268 | serves the class whose turn it is and moves the turn |
| `Queues.MultiQueue.SetWeight` | network/queue.go:270-276 | changes exactly this weight, if it is at least one and the class exists, else reports an error |
| `Queues.SingleQueue.Push` | network/queue.go:101-110 | no wake-up is lost although only the first item of an empty queue wakes a reader |
| `Queues.SingleQueue.Pop` | network/queue.go:112-121 | and a reader that leaves something behind wakes the next one |
| `Merkle.AboveApart` | btp/ntm/module.go:89-102 | with a collision-free hash, rows of one length with the same row above are equal: pairing, and moving an odd last node up, loses nothing |
| `Merkle.RootSplits` | btp/ntm/module.go:89-102 | the root is the hash of two roots: that of the largest power of two of leaves below the length, and that of the rest |
| `Merkle.ProofSplits` | btp/ntm/module.go:118-155 | a proof, without its gaps, is that of the half the leaf is in followed by the root of the other half, marked with its side |
| `Merkle.ProofLength` | btp/ntm/module.go:118-155 | a proof has one node or gap for each level of the tree |
| `Merkle.ProofVerifies` | btp/ntm/module.go:118-169 | for every hash function, list and place, climbing the proof from the leaf gives the root |
| `Merkle.RootBinds` | btp/ntm/module.go:104-116 | with a collision-free hash, lists of one length with one root are equal |
| `Merkle.RootsOfTwoLengths` | btp/ntm/module.go:104-116 | lists of different length can have one root |
| `Merkle.ProofBinds` | btp/ntm/module.go:118-169 | with a collision-free hash nothing but the true leaf with the true proof verifies at its place |
| `Merkle.Halve` | btp/ntm/module.go:89-102 | one pass of the loop, in place, computes the row above |
| `Merkle.RootInPlace` | btp/ntm/module.go:89-102 | the loop in place computes the root the BTP documents define |
| `Merkle.ComputeRoot` | btp/ntm/module.go:104-116 | the root of a list, absent for an empty one |
| `Merkle.HalveNoting` | btp/ntm/module.go:118-155 | the same pass also notes the node beside a place and where it moves to |
| `Merkle.ProofInPlace` | btp/ntm/module.go:118-155 | the loop in place computes the proof |
| `Merkle.ComputeProof` | btp/ntm/module.go:157-169 | the proof of a list, empty for an empty one |
| `Btp.CatRow` | btp/digest.go:233-253 | hashes put one after the other are read back one by one |
| `Btp.NewNetworkSection` | btp/sectionbybuilder.go:344-387 | the loop over the messages computes the section specified: its own network, flag, previous hash and messages, hashed with their number and root |
| `Btp.SectionSays` | btp/sectionbybuilder.go:397-415 | a section has as many messages as were sent and the root of their hashes; its first sequence number is right exactly while it fits in 63 bits |
| `Btp.SectionBinds` | btp/sectionbybuilder.go:344-387 | with hashes that do not collide, sections with one hash are of one network, with one previous section, flag and root, sequence numbers equal in 63 bits, and the very same messages |
| `Btp.HistoryBinds` | service/state/btp.go:757-766 | as each section takes the hash of the one before, the hash of the last one commits to the whole history of the network: how many sections, and all messages of each |
| `Btp.LowerBound` | btp/builder.go:121-123 | bisection finds the first place whose key is not below an id |
| `Btp.SortedInsert` | btp/builder.go:118-130 | inserting adds exactly one element, and keeps a strictly sorted list so if its key is new |
| `Btp.Search` | btp/builder.go:166-174 | finds the element with an id, exactly if there is one |
| `Btp.SortedSame` | btp/builder.go:118-164 | a strictly sorted list is decided by what is in it |
| `Btp.TypeSectionBinds` | btp/sectionbybuilder.go:147-182 | with collision-free hashes, the hash of a type section commits to its proof context and, among sections of equally many networks, to all their hashes |
| `Btp.Collect` | btp/builder.go:75-91 | in whatever order the map is walked: fails exactly if a network or its type is unknown, else gathers by type exactly the sections of the updated networks |
| `Btp.Assemble` | btp/builder.go:92-105 | the same for the map of types |
| `Btp.Build` | btp/builder.go:74-106 | succeeds exactly if all networks, types and contexts resolve, and gives one section per type and per network, strictly sorted by id |
| `Btp.BuildUnique` | btp/builder.go:74-106 | what is built is decided by the state and the messages: all iteration orders give the same sections |
| `Btp.BuiltShows` | btp/sectionbybuilder.go:389-427 | every updated network, asked for by its id, shows the number of its messages, the root of their hashes, its flag, first number, previous hash and the hash over these; a network that was not updated has no section |
| `Btp.BuiltTypeShows` | btp/sectionbybuilder.go:147-182 | a type has a section exactly if one of its networks was updated, and shows its context, the hashes of all of them with their root, and the hash over context and root |
| `Btp.SectionBuilder.SendMessage` | btp/builder.go:54-61 | messages of a network are kept in the order sent |
| `Btp.SectionBuilder.EnsureSection` | btp/builder.go:63-68 | a network without messages gets a section too |
| `Btp.Database.FlushMessages` | btp/sectionbybuilder.go:429-452 | stores the list of hashes under its root and each message under its hash |
| `Btp.Database.Flush` | btp/sectionbybuilder.go:113-132 | does so for all sections, in order |
| `Btp.AllKeptIff` | btp/sectionbybuilder.go:113-132 | the same for any number of blocks stored one after the other: every list of every block is found if and only if no two lists of any of them share a root |
| `Btp.MessagesKept` | btp/digest.go:300-321 | after storing, every message is read back under its hash, if the hash has no collisions |
| `Btp.SharedRoot` | btp/sectionbybuilder.go:344-369 | two networks, one with two messages and one with the message made of their hashes, share a root for every hash function |
| `Btp.TypeFormsAgree` | btp/sectionfromdigest.go:72-143 | the two forms of a type section agree, for every type, present or not: hash, root, context, and the hashes proofs are made from |
| `Btp.StoredFormsAgreeIff` | btp/sectionfromdigest.go:32-43 | after storing any number of blocks, every section of all of them is reloaded as built (hash, update number, first number, change flag, previous hash, count, root) if and only if lists that share a root are equally long and first numbers fit in 63 bits |
| `Btp.SharedRootBuilt` | btp/sectionbybuilder.go:113-132 | a build of two networks of one type, for every kind of hash, that meets all of this but the first condition, and so is not reloaded as built |
| `Btp.ReloadedSection.NetworkTypeSectionFor` | btp/sectionfromdigest.go:72-101 | the cache only ever holds what a fresh computation would give |

## Left out

- AgreementHolds: what restarts read back is taken to be votes that exist, and the lists of the commit log to be of one
  height each, as they were written; for the lock log, `Disks.DiskAuthentic` proves it.
- AgreementOnDisk: a block has at least one part.
- RelockForgotten: fast sync decides nothing there, and a proposal with a proof of lock of an older round starts nothing.
- NextBlockOfRunPasses: honest clocks are taken to lie within 62 bits, as in `TimestampBounded`.
- TimestampBounded: honest timestamps are taken to lie within 62 bits, so that the sum of two of them fits in 64.
- MessagesKept: for a collision-free hash, as are the theorems that a root, a proof or a hash binds what it was made of;
  the other theorems about sections hold for every hash function.
- Complete: the parent must still be in the map when an import or proposal completes, as the code assumes
  (block/manager.go:390, block/manager.go:563).
- Dispose: in the candidate tree, giving back one handle twice is left to the caller; a handle is counted by its block.
- ReceiveBlock: the prefetch queue of fast sync is left out; its items are further deliveries.
- OnAckTimer: the timer of the delayed acknowledgement may fire at any time once it is armed, so its delay is not modelled.
- Engine: what the environment says while a handler runs (failures, clocks, cached parts, whether there is something to
  wait for) is a sequence of answers given at the start, which may be any; that an answer cannot depend on the state leaves
  no behaviour out, as the sequence is arbitrary.
- Engine: a panic of the code ends the process, so only what was true before it is claimed.
- Engine: vote sets are their specification values and block parts are values, so sharing of part sets between
  the current, locked and committed block is not modelled; `VoteSets.VoteSet` is proved against the same values.
- Signatures are ideal: a signature names its signer and the ballot signed. As in consensus/message.go:263-272 the
  votes for network type sections are not covered by it.
- Rounds and heights are unbounded; the code uses 32 and 64 bits.
- Validator lists are a fixed map from height to list; how they are computed is left out.
- The write-ahead logs are lists of records of which at least the synced ones survive; files, framing, repair and
  failing writes are left out.
- Round limits and patch transactions, double-sign reports, the syncer, custom timestampers and the votes of the
  previous height that the engine keeps collecting are left out: they do not vote.
- Application data packed into part set identifiers is a number, and proof parts are an abstract share per validator.
- Streams: forced sequence numbers and peers that leave and rejoin are left out.
- Candidate tree: the transitions of a node are one flag, and removing a node that is already gone is skipped, which
  changes nothing in the code either.
- Transitions: looking up a child transition, patching and syncing are left out, as are links between transitions.
- Queues: closing a queue is left out; `Available` would only add easy members.
- BTP: the encoding of digests and of what goes into hashes is a parameter, and so are proof contexts; proof
  verification, block headers and bit filters are left out.
- The network below streams and queues, the virtual machine and transaction execution, the service manager, and the
  database are left out.
