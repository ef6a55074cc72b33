# Consensus, framing, mempool and escrow: a verified model

This project models the parts of the Ego repository that are hardest to get right and proves,
in Dafny 4.11, what they are for. Verify everything with `dafny verify dfyconfig.toml`.

**Tendermint** (`crates/ego-consensus-core/src/tendermint.rs`). The node is modelled twice. As a
value (`TendermintState`): its fields, the functions that read them and the effect of every
piece of code that changes them. As a class (`TendermintEngine`) with the code's fields, loops
and in-place updates, each method proved to do what the value says; where the code scans a hash
map and takes the first hit, the value leaves the choice open. On top of the value stands a
committee (`TendermintNetwork`): any number of members, observers beside them, a set of faulty
members that send anything, a network that delays, loses, repeats and reorders, and correct
nodes that crash at any time and restart from what they last wrote. They write whenever a call
made them vote (`ego-desktop/src-tauri/src/tm_live.rs:582-634`), not otherwise, so a restart may
lose rounds, locks without a vote and everything heard. Agreement, lock safety, one vote per
round and kind, timers and proposals are proved on every run (`TendermintSafety`,
`TendermintRounds`), what decisions and rounds rest on (`TendermintEvidence`), and when one good
round decides (`TendermintLiveness`). Two promises hold only up to a limit, and the limit is
proved:

- The step, vote and timer guarantees hold below round `u32::MAX`; that round is entered again
  by its own timeout, but no timer of a round is ever armed twice
  (`TendermintRounds.TimersRunOnce`). `TendermintLastRound` is a run, from the start and without
  faults, that times out through every round and leaves the node there for good.
- That the correct nodes' messages arrive is not enough for a good round to decide:
  `TendermintStranded` is a run with four members, one faulty, in which the faulty one sends its
  precommit to a single member, that one decides without precommitting, and the other two are
  left undecided. Exactly when all decide is proved (`TendermintLiveness.OneGoodRound`): when
  every participant holds a precommit quorum for the block; and, once every correct precommit
  has arrived, when the correct precommits of some round and the faulty ones each participant
  was sent make a quorum. That is so if what faulty members told a member that decided is passed
  on, the gossip property the algorithm assumes (arXiv 1807.04938, section 2), and always if
  there are no faulty members (`TendermintLiveness.FaultlessRoundDecides`).

**Weighted quorums and leaders** (`crates/ego-consensus-core/src/bft.rs`, `fork_choice.rs`).
`Leadership` proves proportional leadership, `BftQuorum` quorum overlap and what `verify`
accepts, `BftRounds` one block per (height, round). Four findings. Without weights `is_quorum`
counts any distinct voter, member or not, so the count of members decides exactly when nobody
else votes (`BftQuorum.MembersDecideIff`). Weights that add up to more than 64 bits hold can let
two quorums miss each other; they meet exactly when the committee cannot be split into two
quorums (`BftQuorum.QuorumsMeetIff`). And finalising an old block makes the engine forget its
vote (`BftRounds.OldBlockForgetsVote`): finalising a block keeps one block per (height, round)
exactly when no vote has been cast above the block's height (`BftRounds.FinalizingIsSafeIff`),
whether or not the block is from below the node's own height. View changes are counted by the
sender a message names, which its signature does not cover: a quorum of names is a quorum of
keys if no key asks under two names (`BftRounds.BackedByKeys`), and the signature check alone
sees to that only in a committee of one or if it accepts nothing (`BftRounds.KeysAlwaysBackIff`).

**Frame codec** (`ego-desktop/sideband-bridge.py`). `Framing` has the reader as a class with its
buffer, and one left-to-right scan as its specification. CRC-32 is any function.

**Mempool** (`bins/ego-node/src/mempool.rs`). `Mempool` has the sharded heaps with lazy deletion,
the nonce index and the counter, proved to be one map. A hash is taken to determine its
transaction, and the assignment of hashes to shards is any function into the 64 shards.

**Escrow program** (`contracts/p2p-solana/src/lib.rs`). `EscrowCodec` is the stored layout,
`EscrowLedger` the accounts, `EscrowProgram` the instructions as functions on the ledger,
`EscrowEngine` the same in place with rollback, `EscrowSafety` what holds on every run.

Time, randomness, signatures, hashes and program-derived addresses are parameters. Votes and
proposals that claim to come from a correct member were sent by it.

## Model

| member | source | states |
|---|---|---|
| TendermintEngine.Tendermint.constructor | crates/ego-consensus-core/src/tendermint.rs:124-148 | a new node is at round 0, step Propose, knows nothing, and is an observer if its index is not a member's |
| TendermintEngine.Tendermint.Carry | crates/ego-consensus-core/src/tendermint.rs:150-154 | a carried value is taken only before the node starts |
| TendermintEngine.Tendermint.Restore | crates/ego-consensus-core/src/tendermint.rs:160-175 | replays the saved votes into the vote books and takes over the saved fields, or does nothing for another height or a started node |
| TendermintEngine.Tendermint.Save | crates/ego-consensus-core/src/tendermint.rs:177-189 | the saved form holds exactly the persistent fields, its votes strictly sorted by round and kind |
| TendermintEngine.Tendermint.ValueWithQuorum | crates/ego-consensus-core/src/tendermint.rs:388-398 | finds a value with a quorum of distinct voters if and only if there is one |
| TendermintEngine.Tendermint.FindDecision | crates/ego-consensus-core/src/tendermint.rs:400-409 | finds an acceptable value with a precommit quorum, passing only over rounds that have none or whose quorum may be for an unacceptable one |
| TendermintEngine.Tendermint.FindSkipTarget | crates/ego-consensus-core/src/tendermint.rs:411-421 | sorting the others' rounds and taking the k-th gives the largest round enough others have reached |
| TendermintEngine.Tendermint.Book | crates/ego-consensus-core/src/tendermint.rs:92-97 | records a ballot unless it is a repeat or the voter has four already |
| TendermintEngine.Tendermint.ArmTimer | crates/ego-consensus-core/src/tendermint.rs:423-428 | arms a timer once per round |
| TendermintEngine.Tendermint.EnterRound | crates/ego-consensus-core/src/tendermint.rs:430-441 | enters a round, proposes if it is this node's turn and it has not prevoted there, and arms the propose timer |
| TendermintEngine.Tendermint.CastVote | crates/ego-consensus-core/src/tendermint.rs:443-452 | casts, books and emits a vote once per round and kind |
| TendermintEngine.Tendermint.Pass | crates/ego-consensus-core/src/tendermint.rs:455-517 | one pass of the loop: decide, skip, judge the proposal or weigh the votes, for whatever quorum values the scans find |
| TendermintEngine.Tendermint.TakePolka | crates/ego-consensus-core/src/tendermint.rs:497-504 | a polka locks and precommits at step Prevote, and always becomes the valid value |
| TendermintEngine.Tendermint.Progress | crates/ego-consensus-core/src/tendermint.rs:454-518 | the loop ends, and returns what a legal sequence of passes gives |
| TendermintEngine.EffortDrops | crates/ego-consensus-core/src/tendermint.rs:454-518 | every pass that loops lowers a measure of at most seven, from every state |
| TendermintEngine.SkipTargetIsKthHighest | crates/ego-consensus-core/src/tendermint.rs:411-421 | the k-th largest of the others' rounds is the largest round that k of them have reached |
| TendermintEngine.Tendermint.Start | crates/ego-consensus-core/src/tendermint.rs:252-267 | starting once: enter the round, or resume waiting where the restored node was |
| TendermintEngine.Tendermint.OnProposal | crates/ego-consensus-core/src/tendermint.rs:269-287 | keeps the first well-formed proposal of a round in the window, from its proposer |
| TendermintEngine.Tendermint.OnValue | crates/ego-consensus-core/src/tendermint.rs:289-294 | the first judgement of a value stays |
| TendermintEngine.Tendermint.OnVote | crates/ego-consensus-core/src/tendermint.rs:296-313 | notes the sender's round and records a vote in the window, of other members only |
| TendermintEngine.Tendermint.Note | crates/ego-consensus-core/src/tendermint.rs:357-362 | keeps the highest round seen of a sender |
| TendermintEngine.Tendermint.Tick | crates/ego-consensus-core/src/tendermint.rs:315-355 | due timers, sorted by deadline and round, fire one by one with progress after each, until a decision |
| TendermintState.RecordKeepsBookOk | crates/ego-consensus-core/src/tendermint.rs:92-97 | a voter has at most four ballots per round, never one twice |
| TendermintState.RecordAddsOne | crates/ego-consensus-core/src/tendermint.rs:92-97 | recording adds at most the ballot given |
| TendermintState.Furthest | crates/ego-consensus-core/src/tendermint.rs:411-421 | the round returned is reached by enough others and no later one is |
| TendermintInvariants.IterationKeeps | crates/ego-consensus-core/src/tendermint.rs:454-518 | a pass keeps: own book rows equal the votes sent, the step matches the votes of the round, locked round <= valid round <= round |
| TendermintInvariants.CallKeepsTimers | crates/ego-consensus-core/src/tendermint.rs:252-355 | every public call keeps the node's order and loses no timer: propose, prevote and precommit timers are pending whenever they are needed |
| TendermintInvariants.CallRests | crates/ego-consensus-core/src/tendermint.rs:252-355 | after every public call nothing is left for the loop to do |
| TendermintInvariants.RestoreThenSave | crates/ego-consensus-core/src/tendermint.rs:160-189 | restoring and saving again is the identity, exactly for vote lists sorted without repetition |
| TendermintInvariants.RestoredGood | crates/ego-consensus-core/src/tendermint.rs:160-175 | a node restored from a saved state has that state's round, step, lock, valid value and votes, and is in order |
| TendermintNetwork.LockInduction | crates/ego-consensus-core/src/tendermint.rs:472-507 | once a quorum could have precommitted v in round r, no other value can have a prevote quorum in round r or later |
| TendermintSafety.CallKept | crates/ego-consensus-core/src/tendermint.rs:252-518 | whatever a correct node is told, its call keeps every guarantee about its state, its votes, its proposals and its decisions |
| TendermintSafety.RebornSound | crates/ego-consensus-core/src/tendermint.rs:160-175 | a node restarted from disk is as sound as the one that wrote |
| TendermintSafety.RunOk | crates/ego-consensus-core/src/tendermint.rs:123-519 | all invariants hold in every reachable state of the committee |
| TendermintSafety.Agreement | crates/ego-consensus-core/src/tendermint.rs:400-409 | with fewer than a third faulty, all decisions of correct nodes on a run are for one value, across rounds and restarts |
| TendermintSafety.LocksHold | crates/ego-consensus-core/src/tendermint.rs:472-507 | lock induction on every run |
| TendermintSafety.VoteOnce | crates/ego-consensus-core/src/tendermint.rs:443-452 | on every run, with any number of faults and restarts, a correct node signs at most one vote per round and kind |
| TendermintSafety.NodesInOrder | crates/ego-consensus-core/src/tendermint.rs:443-518 | on every run every correct node is in order and has lost no timer |
| TendermintSafety.ProposalsAcceptable | crates/ego-consensus-core/src/tendermint.rs:280-280 | on every run every proposal of a correct node passes the receiver's check, and its proof-of-lock round is backed |
| TendermintRounds.SkipTargetIsLargest | crates/ego-consensus-core/src/tendermint.rs:411-421 | the skip target is exactly the largest later round that enough others have been seen at or beyond |
| TendermintRounds.SkipIsHonest | crates/ego-consensus-core/src/tendermint.rs:86-88 | with fewer than a third faulty, a round skipped to has been reached by a correct node |
| TendermintRounds.RoundsAdvanceByOne | crates/ego-consensus-core/src/tendermint.rs:345-349 | the furthest round of any correct node only advances by one, by the precommit timeout of a node that is there |
| TendermintRounds.TimersRunOnce | crates/ego-consensus-core/src/tendermint.rs:252-428 | no public call arms a timer of a round again, so one that has fired stays gone, also where its round is entered again |
| TendermintLastRound.EveryRoundFollows | crates/ego-consensus-core/src/tendermint.rs:315-355 | a committee of one that hears no proposal gets to every round of the counter |
| TendermintLastRound.LastRoundStops | crates/ego-consensus-core/src/tendermint.rs:345-349 | a run from the start, without faults, whose end has the node in round `u32::MAX` at step Propose, undecided, its votes sent, without any timer, and no later tick moves it |
| TendermintEvidence.RoundsAreEarned | crates/ego-consensus-core/src/tendermint.rs:345-349 | on every run with fewer than a third faulty, no correct node, restarts included, was ever past a round in which no correct member precommitted |
| TendermintEvidence.DecisionsAreHeld | crates/ego-consensus-core/src/tendermint.rs:400-409 | on every run whoever has decided still holds the precommit quorum it decided on |
| TendermintLiveness.CallCalm | crates/ego-consensus-core/src/tendermint.rs:252-518 | in a good round without timeouts a correct member votes for nothing but the offered block |
| TendermintLiveness.OldQuorumIsGoal | crates/ego-consensus-core/src/tendermint.rs:472-487 | a block that could have been decided earlier is the one offered, if every lock allows the offer |
| TendermintLiveness.NobodyFurther | crates/ego-consensus-core/src/tendermint.rs:345-349 | when all correct members are at the start of a round, none of them was ever past it, even before a restart |
| TendermintLiveness.DecidesIff | crates/ego-consensus-core/src/tendermint.rs:400-409 | at the end of a good round a participant that knows the block has decided it exactly when it holds a precommit quorum for it, of whatever round |
| TendermintLiveness.RoundSettles | crates/ego-consensus-core/src/tendermint.rs:454-518 | when the round's messages have arrived, nobody has decided anything else, and all have decided exactly when all hold a precommit quorum; with every correct precommit arrived, exactly when correct and faulty precommits sent to each make one |
| TendermintLiveness.OneGoodRound | crates/ego-consensus-core/src/tendermint.rs:430-518 | from a good start on any run, after any continuation without crashes or timeouts that delivers the round's correct messages, the same; and all decide if what faulty members told one that decided is passed on |
| TendermintLiveness.FaultlessRoundDecides | crates/ego-consensus-core/src/tendermint.rs:430-518 | without faulty members a good round whose correct messages arrive decides |
| TendermintStranded.GoodRoundNeedsGossip | crates/ego-consensus-core/src/tendermint.rs:400-518 | a run that meets every hypothesis, with every correct message arrived, and leaves two correct members undecided |
| Leadership.TotalWeight | crates/ego-consensus-core/src/bft.rs:474-474 | the saturating fold is the sum, capped at 64 bits |
| Leadership.ProposerAt | crates/ego-consensus-core/src/bft.rs:465-486 | a non-empty committee has a leader, who holds the turn's remainder in the prefix sums; the trailing fallback is never reached |
| Leadership.ElectsOne | crates/ego-consensus-core/src/bft.rs:465-486 | every turn elects one position |
| Leadership.SomeoneLeads | crates/ego-consensus-core/src/bft.rs:465-486 | every turn of a non-empty committee elects somebody |
| Leadership.Proportional | crates/ego-consensus-core/src/bft.rs:465-486 | any window of total-weight consecutive turns elects each position exactly as often as it weighs |
| Leadership.NoWeightNoLead | crates/ego-consensus-core/src/bft.rs:478-484 | weight zero never leads while anyone has weight |
| Leadership.UnitWeightsRotate | crates/ego-consensus-core/src/bft.rs:465-486 | with unit weights the schedule is plain rotation |
| BftQuorum.SetWeights | crates/ego-consensus-core/src/bft.rs:412-415 | weights are kept exactly when they fit the committee, and dropped otherwise |
| BftQuorum.WeightOf | crates/ego-consensus-core/src/bft.rs:417-427 | a member weighs what its first position weighs, an outsider nothing, and anybody one without weights |
| BftQuorum.IsQuorum | crates/ego-consensus-core/src/bft.rs:441-456 | accepts a list exactly when the set of its voters is worth more than two thirds, duplicates not counted |
| BftQuorum.QuorumsOverlap | crates/ego-consensus-core/src/bft.rs:441-456 | two accepted lists share members worth more than a third of the total; with weights past 64 bits, less what the saturated total misses |
| BftQuorum.QuorumsMeetIff | crates/ego-consensus-core/src/bft.rs:429-456 | for any weights, saturating or not, two quorums always share weight exactly when the committee cannot be split into two quorums |
| BftQuorum.WhatSplits | crates/ego-consensus-core/src/bft.rs:429-456 | weights up to a third past 64 bits cannot be split, twice the largest weight can |
| BftQuorum.UnitQuorum | crates/ego-consensus-core/src/bft.rs:441-456 | with unit weights, accepted exactly when quorum-size distinct members vote |
| BftQuorum.UnweightedQuorum | crates/ego-consensus-core/src/bft.rs:417-421 | without weights, accepted exactly when quorum-size distinct voters vote, members or not |
| BftQuorum.MembersDecideIff | crates/ego-consensus-core/src/bft.rs:417-456 | without weights, the count of members decides on every list from an electorate exactly when the electorate is the committee |
| BftQuorum.OutsiderTips | crates/ego-consensus-core/src/bft.rs:417-456 | an outsider completes a quorum that is one member short |
| BftQuorum.Verify | crates/ego-consensus-core/src/bft.rs:271-289 | accepts exactly the certificates whose votes rebind, are sound, distinct, from members and enough; fails only on a signature check all before which is in order |
| BftQuorum.CertificatesOverlap | crates/ego-consensus-core/src/bft.rs:271-289 | two accepted certificates share more than a third of the committee as signers, each of whom validly signed both |
| BftRounds.BftEngine.ReceiveProposal | crates/ego-consensus-core/src/bft.rs:527-581 | votes at most as specified, and only for the leader the schedule elects; a later round is entered before the other checks |
| BftRounds.BftEngine.AddViewChange | crates/ego-consensus-core/src/fork_choice.rs:221-270 | counts each sender once per (height, round) and answers with the newest certificate at quorum |
| BftRounds.BftEngine.ReceiveViewChange | crates/ego-consensus-core/src/bft.rs:673-701 | moves to the round asked for at quorum, at the current height and forward only |
| BftRounds.BftEngine.FinalizeBlock | crates/ego-consensus-core/src/bft.rs:617-649 | refuses a mismatched or small certificate, otherwise locks it and starts the next height |
| BftRounds.BftEngine.AddCert | crates/ego-consensus-core/src/fork_choice.rs:104-118 | keeps the newest certificate by epoch and round |
| BftRounds.BftEngine.UpdateLock | crates/ego-consensus-core/src/fork_choice.rs:120-134 | the lock moves to newer certificates only |
| BftRounds.NewestQc | crates/ego-consensus-core/src/fork_choice.rs:250-254 | the certificate found is one that was sent, none sent is newer, and every later one is older; none is found exactly when none was sent |
| BftRounds.NewestIsUnique | crates/ego-consensus-core/src/fork_choice.rs:250-254 | that determines the certificate |
| BftRounds.FinalizeForwardIff | crates/ego-consensus-core/src/bft.rs:617-649 | finalising raises the height exactly when the block is not from below it |
| BftRounds.OnlyForward | crates/ego-consensus-core/src/bft.rs:527-701 | on every run, as long as finalisation is timely, (height, round) only moves forward |
| BftRounds.OneBlockPerRound | crates/ego-consensus-core/src/bft.rs:561-580 | all votes at one (height, round) name one block, on every run that finalises no block it has voted above |
| BftRounds.TimelyIsCareful | crates/ego-consensus-core/src/bft.rs:617-649 | runs that finalise in time are among those |
| BftRounds.FinalizingIsSafeIff | crates/ego-consensus-core/src/bft.rs:561-649 | whatever a run has done, finalising one more block keeps one block per (height, round) in every timely continuation exactly when no vote was cast at the height this leads to or above |
| BftRounds.VotesTwice | crates/ego-consensus-core/src/bft.rs:561-649 | otherwise a timely continuation, under any weights, votes for a second block where the first vote was |
| BftRounds.VotesAreChecked | crates/ego-consensus-core/src/bft.rs:527-581 | every vote of a run is for a signed, recent proposal of the leader elected for its height and round, received at that height, not from an earlier round and not against the lock |
| BftRounds.OldBlockForgetsVote | crates/ego-consensus-core/src/bft.rs:617-649 | in every committee and for every block, a run that finalises it, votes above it, finalises it again and votes for another block at the same (height, round) |
| BftRounds.ViewChangeIsBacked | crates/ego-consensus-core/src/bft.rs:673-701 | on every run each view-change move is backed by quorum-size distinct senders, as the messages name them, asking for that round at that height |
| BftRounds.BackedByKeys | crates/ego-consensus-core/src/fork_choice.rs:221-270 | a move is backed by quorum-size distinct keys if no key asked for it under two names |
| BftRounds.KeysAlwaysBackIff | crates/ego-consensus-core/src/fork_choice.rs:45-61 | on every run moves are backed by quorum-size distinct keys exactly if the committee has at most one member or no ask for a round past the first passes the signature check, which does not cover the sender |
| BftRounds.LockOnlyRises | crates/ego-consensus-core/src/fork_choice.rs:104-134 | high and locked certificates only move to newer ones |
| Framing.FindSync | ego-desktop/sideband-bridge.py:94-94 | the first sync word, if there is one |
| Framing.FrameReader.Feed | ego-desktop/sideband-bridge.py:84-90 | appends, and drops the oldest bytes past the cap, counting them |
| Framing.FrameReader.Hunt | ego-desktop/sideband-bridge.py:94-103 | drops what the scan would pass, up to the next sync word or a possible part of one |
| Framing.FrameReader.Judge | ego-desktop/sideband-bridge.py:104-124 | takes a whole valid frame, skips one byte, or waits |
| Framing.FrameReader.Frames | ego-desktop/sideband-bridge.py:92-124 | yields, keeps and drops exactly what one left-to-right scan of the buffer does |
| Framing.Pump | ego-desktop/sideband-bridge.py:304-309 | the receive loop gives what the session of its chunks gives |
| Framing.ScanResumes | ego-desktop/sideband-bridge.py:92-124 | scanning a stream in two pieces is scanning it at once |
| Framing.StreamingEqualsBatch | ego-desktop/sideband-bridge.py:84-124 | for any chunks that keep the buffer under its cap, the reader's payloads, rest and dropped count are those of one scan of the stream |
| Framing.SmallChunksFit | ego-desktop/sideband-bridge.py:84-90 | chunks of up to three maximal frames never hit the cap |
| Framing.EncodeFrame | ego-desktop/sideband-bridge.py:65-69 | fails exactly for an empty payload or one over 4096 bytes |
| Framing.EncodedIsRead | ego-desktop/sideband-bridge.py:65-124 | what is encoded is read back, and the scan goes on behind it |
| Framing.FrameIsWhole | ego-desktop/sideband-bridge.py:65-69 | an encoded frame at the front is recognised whatever follows |
| Framing.RoundTrip | ego-desktop/sideband-bridge.py:65-124 | encoded payloads, cut into any chunks, come out in order with nothing dropped or left |
| Framing.BytesConserved | ego-desktop/sideband-bridge.py:84-124 | bytes fed = bytes of yielded frames + dropped + buffered, also past the cap |
| Framing.HitsArePlaced | ego-desktop/sideband-bridge.py:92-124 | what is yielded stands in the stream as a valid frame, in order, without overlap |
| Framing.NeverPassesFrame | ego-desktop/sideband-bridge.py:92-124 | the start of a valid frame is passed only by yielding it or an earlier valid frame that covers it |
| Framing.Resynchronises | ego-desktop/sideband-bridge.py:84-124 | after any garbage, a frame followed by one maximal frame's worth of bytes has been yielded or was covered |
| Mempool.PopBest | bins/ego-node/src/mempool.rs:64-72 | skips stale entries and returns the live transaction that ranks highest, if any is live |
| Mempool.ShardedMempool.Insert | bins/ego-node/src/mempool.rs:116-149 | refuses expired, conflicting, surplus and duplicate transactions in that order, else adds to the map |
| Mempool.ShardedMempool.Contains | bins/ego-node/src/mempool.rs:151-153 | membership in the map |
| Mempool.ShardedMempool.Remove | bins/ego-node/src/mempool.rs:181-189 | deletes from the map, whatever stays in the heap |
| Mempool.ShardedMempool.TakeBest | bins/ego-node/src/mempool.rs:169-174 | the best live transaction of a shard leaves map, index and counter |
| Mempool.ShardedMempool.DrainN | bins/ego-node/src/mempool.rs:156-178 | takes each shard's share, distinct live transactions, shards in order, best fee first and older first on ties, leaving nothing better behind in a shard drawn from |
| Mempool.DrainTakes | bins/ego-node/src/mempool.rs:156-178 | a drain of a non-empty pool takes something unless nothing is asked for |
| Mempool.InsAndOutsBalance | bins/ego-node/src/mempool.rs:51-189 | over every run a transaction came out as often as it went in, less one while live |
| Mempool.RunKeepsPool | bins/ego-node/src/mempool.rs:116-189 | over every run at most 50,000 live transactions, one per sender and nonce |
| EscrowCodec.PackInto | contracts/p2p-solana/src/lib.rs:98-115 | writes the packed form over the account's data |
| EscrowCodec.UnpackOfPack | contracts/p2p-solana/src/lib.rs:98-139 | whatever is packed unpacks to itself |
| EscrowCodec.PackOfUnpackIff | contracts/p2p-solana/src/lib.rs:98-139 | what unpacks packs back to the same bytes exactly when flag and padding are canonical |
| EscrowEngine.Accounts.MoveLamports | contracts/p2p-solana/src/lib.rs:633-642 | moves lamports with both sides checked |
| EscrowEngine.Accounts.CreatePda | contracts/p2p-solana/src/lib.rs:237-266 | tops an account up at the payer's expense |
| EscrowEngine.Accounts.OpenEscrow | contracts/p2p-solana/src/lib.rs:333-445 | opens an escrow or fails with the code's error |
| EscrowEngine.Accounts.FreezeEscrow | contracts/p2p-solana/src/lib.rs:496-513 | freezes for the buyer, the arbiter or the buyer's signature, once |
| EscrowEngine.Accounts.SettleEscrow | contracts/p2p-solana/src/lib.rs:524-631 | settles for whoever may, to the accounts that must be paid |
| EscrowEngine.Accounts.Execute | contracts/p2p-solana/src/lib.rs:189-229 | an instruction does to the accounts what the step of a run does to the ledger; a failing one leaves everything as it was |
| EscrowLedger.MovedConserves | contracts/p2p-solana/src/lib.rs:633-642 | a move conserves lamports |
| EscrowLedger.CoveredMoveSucceeds | contracts/p2p-solana/src/lib.rs:633-642 | a covered move cannot fail while all lamports fit in 64 bits |
| EscrowSafety.NativePayout | contracts/p2p-solana/src/lib.rs:549-571 | a lamport payout cannot fail and pays the deposit less the fee, the fee and the rest to the last lamport |
| EscrowSafety.TokenPayoutArrives | contracts/p2p-solana/src/lib.rs:573-624 | a token payout cannot fail, empties and closes the vault, and its lamports go to the seller |
| EscrowSafety.OpenKeepsOk | contracts/p2p-solana/src/lib.rs:333-445 | a new escrow is covered by its deposit and no other loses its cover |
| EscrowSafety.OpeningTerms | contracts/p2p-solana/src/lib.rs:333-445 | the terms stored are those given, within the promised bounds on parties, fee and fallback, and the deposit comes from the seller to the last lamport or token |
| EscrowSafety.WhoFreezes | contracts/p2p-solana/src/lib.rs:496-513 | only the buyer, in person or by signature, or the arbiter freezes, and nothing else changes |
| EscrowSafety.SettleKeepsOk | contracts/p2p-solana/src/lib.rs:524-631 | settling one escrow leaves every other covered |
| EscrowSafety.WhoSettles | contracts/p2p-solana/src/lib.rs:530-548 | frozen or early, the seller is refunded only by the buyer or the arbiter; the buyer is paid only by the seller or the arbiter |
| EscrowSafety.RefundAfterFreeze | contracts/p2p-solana/src/lib.rs:496-548 | on every run, once frozen an escrow stays frozen on its terms, and is refunded only by the buyer or the arbiter |
| EscrowSafety.RunConserves | contracts/p2p-solana/src/lib.rs:189-642 | on every run lamports and every mint's tokens are conserved and every open escrow is covered |
| EscrowSafety.PayoutsNeverFail | contracts/p2p-solana/src/lib.rs:524-631 | on every run whoever may settle an open escrow can, given the right accounts |
| EscrowSafety.StepKeepsTerms | contracts/p2p-solana/src/lib.rs:496-631 | only opening and settling change which escrows are open, and an open one keeps its terms |
| EscrowSafety.SettledOncePerOpening | contracts/p2p-solana/src/lib.rs:333-631 | on every run an escrow was settled as often as opened, less one while open |

## Left out

- OneGoodRound: stated below round `u32::MAX`; what has arrived means what is in the vote book, which keeps four ballots per voter and round.
- ViewChangeIsBacked: counts senders by the address a message names, as the code does; that a sender is a member is not checked there.
- NodesInOrder: the step, vote and timer parts hold below round `u32::MAX`, where the code's saturating addition re-enters the same round.
- RoundTrip: the generator is taken to be drained after each feed, as the receive loop does; frames taken while more is fed are not modelled.
- OneBlockPerRound: reseeding the engine to another height is not a step of the run.
- Proportional: stated for turns that do not wrap around 64 bits.
- RunConserves: assumes that derived addresses do not sign and that an escrow's parties differ from its own addresses.
- Agreement across rounds for the weighted engine: its lock moves only on finalisation.
- Vote collection of the weighted engine (`receive_vote`), block tree, fork resolution and the check that a block extends the locked one: its answer is a parameter.
- The node host around Tendermint: message formats, committee changes, attempts and giving up.
- Cryptography: signatures, hashes, CRC-32, Merkle roots and key derivation are parameters.
- Locks and atomics of the mempool: every public method is one step.
- The shard hash of the mempool: its comment says FNV-1a, but the code multiplies before it xors and uses another prime; nothing proved depends on it.
- Instruction and sysvar parsing, rent rules and the token program's internals: only their checks and balance effects.
- The decoded form of an escrow stands for its bytes in the ledger, by the round trip of the layout.
- Serial port, spool directories, networking, storage, RPC, the user interfaces and the other contracts: plumbing around the parts above.
