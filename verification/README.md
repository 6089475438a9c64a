# Finality gadget on HotStuff: a verified model

This project models the protocols of the repository in Dafny and proves their safety, from the single
handlers up to one end-to-end theorem. Five layers build on each other.

**A. The 2-chain HotStuff core.** `Committee.dfy`, `Messages.dfy` and `Aggregator.dfy` hold stake,
certificates, their verification and the makers that assemble them; `AggregatorCorrectness.dfy` shows what
the makers promise and `AggregatorRuns.dfy` what the aggregator promises over any sequence of messages. `HotStuffSafety.dfy` is the safety argument about what honest nodes have signed: one
certified block per round, timeout certificates that report enough, and the commit lock. `HotStuffNode.dfy`
says what one node does with each event, `HotStuffCore.dfy` is the object whose methods do it step by step,
and `HotStuffInvariant.dfy` shows what every handler keeps. `HotStuffProtocol.dfy` puts honest nodes and an
adversary together into runs; agreement is its main result. `HotStuffHousekeeping.dfy` adds that nodes sign
only leaders' blocks, keep nothing stale and miss no commit. `HotStuffBehaviour.dfy` says in full what every
event does, `HotStuffProgress.dfy` that good proposals are processed and quorums take nodes to the next round,
and `HotStuffProposals.dfy` that honest proposals verify. `Mempool.dfy` and `MempoolCore.dfy` are the queue
of payloads, as a value and as an object.

**B. Ledger delivery.** `LedgerDelivery.dfy` is the incremental walk from commits to one ledger, refined
to "the payload of the chain up to the highest commit"; `LedgerAgreement.dfy` applies it to the runs of A.

**C. The checkpoint gadget.** `CheckpointExtractor.dfy` counts votes from the ledger, with
`CheckpointCounting.dfy` for what it decides in terms of the ledger; `CheckpointProposer.dfy` signs votes in three
phases, with `CheckpointTurns.dfy` for what each branch does, and `CheckpointGadget.dfy` runs all members together:
decided checkpoints form a chain.

**D. The longest chain.** `LcBlocks.dfy` is the block tree with its height cache, its index of tips and the
fork choice; `LcBlockTreeManager.dfy` derives proposals and the two ledgers LOGacc and LOGava.

**E. Composition.** `EndToEnd.dfy` runs A to D jointly: all honest nodes extract the same checkpoints, and
these form a chain. `WholeSystem.dfy` carries this over to nodes with store and synchronizers.

**Inside one node.** `Store.dfy` is the store with its waiting readers. `Synchronizers.dfy` says what the two
synchronizers know about suspended blocks, and `SynchronizerTasks.dfy` are the objects, whose waiters ask the
store and resume when it has answered. `NodeAssembly.dfy` and `AssemblyRuns.dfy` put the core, the store and
both synchronizers together: every run of such nodes is a run of layer A, so what layer A says about
`LoopBack` events is proved there and not assumed. `LoopBacks.dfy` accounts for every suspended block, with
`LoopBackExamples.dfy` for what a clean-up can do, and `OpenRequests.dfy` for every open request. `NodeObject.dfy` is the node as objects, and each of its
turns is proved to be a move of `NodeAssembly.dfy`.

## How to read the model

- Where the program updates an object in place, a class does the same, and each method is proved to
  compute a function of the old state. What the program promises is then proved about these functions.
- A digest is the tuple that the program hashes, so it cannot collide. `Zero` is the default digest. A
  block's digest covers author, round, payload and the digest of its parent, not the round that its
  certificate states and not its timeout certificate; that the stated round is right is proved
  (`CertificateNamesItsRound`). No block hashes to the default digest, and the digests of blocks, votes
  and timeouts are kept apart.
- A signature is the pair of signer and statement. The adversary composes messages freely, but an honest
  node's signature in them is on something that this node has signed before (`Genuine`). A node's signed
  acts are its `log`, which is also what it sends.
- The genesis block is a default value that the program never stores. Chains of digests end in `Zero`, which
  is where the genesis block stands (`Position`).
- Runs allow any interleaving, loss, repetition and delay of messages, and timers that fire at any time.
  The leader of a round is any fixed function. A node's own vote comes back to it as a later event, and
  its own proposal waits among its suspended blocks; the program makes nested calls there, which are
  the runs in which these events come next. Time-outs are handled nested, as in the program.
- In layer A, `LoopBack` events carry blocks that this node suspended, and come when the block's payload is
  stored, perhaps repeatedly or never. `AssembledRun` proves this of nodes whose synchronizers and store do
  the looping back.

## Assumptions

- The stake outside the honest nodes is at most (N - 1) / 3, and 0 < N < 2^31, so that twice the total fits
  in `u32`. The threshold is modelled with its wrap-around; `ThresholdIsTotalMinusFaulty` shows that the
  bound on N is exactly the condition under which the threshold is N - f.
- For the gadget, fewer than a third of the members are Byzantine. The extractor counts members, not stake.
- Decisions reach a node's tree manager before the node votes in a later iteration, and the checkpoint is in
  the node's tree when it votes. Events of the extractor arrive in their order.
- Store operations are atomic and do not fail. A payload's transactions are a function of its digest.
- Digests of longest-chain blocks have some total order, which breaks ties; nothing else about it is used.

## Model

| member | source | states |
|---|---|---|
| Committees.Committee.QuorumThreshold | consensus/src/config.rs:68-73 | The summing loop in `u32` arithmetic yields the threshold of the total stake, wrap-around included |
| Committees.ThresholdIsTotalMinusFaulty | consensus/src/config.rs:68-73 | The threshold 2N/3 + 1 is N - f for f = (N - 1) / 3 if and only if N < 2^31, where `u32` does not overflow |
| Committees.StakeOfUnionAndIntersection | consensus/src/config.rs:64-66 | Stakes of two sets add up to the stakes of their union and intersection |
| Committees.QuorumsShareHonest | consensus/src/config.rs:64-73 | Any two author sets that reach the threshold share more than f stake, and with it an honest authority with voting rights |
| Committees.LeftoverBelowQuorum | consensus/src/aggregator.rs:86-86 | Once a quorum was counted, the authorities that are left cannot form another one, so resetting the weight to 0 is enough |
| Messages.VerifyAuthorities | consensus/src/messages.rs:182-191 | The verifying loop succeeds exactly if all names are different and have stake, with the sum of their stakes; otherwise it reports the first offending name with the right error |
| Messages.VerifyQC | consensus/src/messages.rs:181-199 | A quorum certificate is accepted exactly if different authorities with a quorum of stake signed its hash and round; which check fails decides the error |
| Messages.VerifyTC | consensus/src/messages.rs:296-321 | A timeout certificate is accepted exactly if different authorities with a quorum of stake each signed its round with their own reported round |
| Messages.VerifyBlock | consensus/src/messages.rs:55-76 | A block is accepted exactly if its author has stake and signed its digest, its certificate is valid or the genesis one, and its timeout certificate is valid if there is one |
| Messages.QuorumIsNotEmpty | consensus/src/core.rs:121-121 | A verified timeout certificate has votes, so taking the largest reported round cannot fail |
| Messages.ZeroIsCommonAncestor | mynode/src/mynode.rs:232-236 | Every chain goes back to the genesis block |
| Aggregators.QCMaker.Append | consensus/src/aggregator.rs:74-94 | Appending a vote changes the maker's fields, and returns a certificate, nothing or an error, as the specification function says |
| Aggregators.TCMaker.Append | consensus/src/aggregator.rs:113-139 | The same for time-outs |
| Aggregators.Aggregator.AddVote | consensus/src/aggregator.rs:28-39 | A vote goes to the maker for its hash and round, which is created on demand; all other makers stay as they are |
| Aggregators.Aggregator.AddTimeout | consensus/src/aggregator.rs:41-50 | A time-out goes to the maker for its round; all other makers stay as they are |
| Aggregators.Aggregator.Cleanup | consensus/src/aggregator.rs:52-55 | Exactly the makers of rounds from the given one on are kept, in their state |
| AggregatorCorrectness.CountOneMore | consensus/src/aggregator.rs:83-93 | The weight reaches the threshold only when the collected names have a quorum, also after it was reset |
| AggregatorCorrectness.AppendKeepsMaker | consensus/src/aggregator.rs:74-94 | A verified vote keeps a maker in order, and a certificate that comes out passes verification and names the vote's block |
| AggregatorCorrectness.AppendTimeoutKeepsMaker | consensus/src/aggregator.rs:113-139 | The same for time-outs and timeout certificates |
| AggregatorCorrectness.AddVoteKeepsAggregator | consensus/src/aggregator.rs:28-39 | All makers stay in order, and certificates that come out are valid |
| AggregatorCorrectness.AddTimeoutKeepsAggregator | consensus/src/aggregator.rs:41-50 | All makers stay in order, and timeout certificates that come out are valid |
| AggregatorCorrectness.OneCertificateAtQuorum | consensus/src/aggregator.rs:74-94 | Fed with verified votes in any order and with repetitions, a maker makes exactly one certificate if the authors hold a quorum and none otherwise, and the certificate is valid |
| AggregatorCorrectness.OneTimeoutCertificateAtQuorum | consensus/src/aggregator.rs:113-139 | The same for time-outs and timeout certificates |
| AggregatorRuns.AggregatorCertifiesAtQuorum | consensus/src/aggregator.rs:28-55 | The aggregator as a whole, fed with any sequence of verified votes and time-outs and clean-ups of rounds not above a block's: it has made exactly one certificate for the block if the authors of the votes on it hold a quorum and none otherwise, and it is valid |
| AggregatorRuns.AggregatorCertifiesTimeoutsAtQuorum | consensus/src/aggregator.rs:41-55 | The same for the time-outs of a round |
| AggregatorRuns.RepeatedVoteIsRefused | consensus/src/aggregator.rs:77-81 | In such a sequence, a vote is refused exactly if its author voted on the block before |
| AggregatorRuns.RepeatedTimeoutIsRefused | consensus/src/aggregator.rs:120-124 | The same for time-outs |
| AggregatorRuns.CleaningForgetsExactly | consensus/src/aggregator.rs:52-55 | After a clean-up exactly the makers of rounds below the given one are gone, and all others are as they were |
| HotStuffSafety.CertificateNamesItsRound | consensus/src/messages.rs:79-90 | Although digests do not cover it, the round that a valid certificate states is the round of the block it names, and not 0 |
| HotStuffSafety.ParentCertificate | consensus/src/core.rs:115-132 | A certified block's parent is the genesis block or certified itself, in a smaller round |
| HotStuffSafety.CertifiedChainIncreases | consensus/src/core.rs:115-132 | Rounds strictly increase along the whole chain below a certified block |
| HotStuffSafety.OneBlockPerRound | consensus/src/core.rs:111-132 | Two valid certificates of one round name the same block |
| HotStuffSafety.TimeoutCertificateCovers | consensus/src/core.rs:142-165 | The largest round that a timeout certificate of round t reports is at least the parent's round of every block certified up to round t |
| HotStuffSafety.JustifiedAboveLock | consensus/src/core.rs:117-126 | A block for which an honest node may vote above a completed two-chain carries a certificate not below the locked block, through the certificate rule or the timeout rule |
| HotStuffSafety.LockedRound | consensus/src/core.rs:322-322 | A certificate for the locked round names the locked block, also when that is the genesis block |
| HotStuffSafety.CommitLock | consensus/src/core.rs:115-132 | Once a two-chain with consecutive rounds is certified, every block certified from its head's round on descends from the locked block |
| HotStuffSafety.TwoChainsAgree | consensus/src/core.rs:320-337 | The blocks that two completed two-chains commit stand on one chain |
| Mempools.GetPayloadKeepsMempool | mempool/src/core.rs:184-202 | What a proposal takes from the mempool is stored, and nothing stored is lost |
| HotStuffNode.AdvanceRound | consensus/src/core.rs:231-242 | The node enters exactly the round after the given one, or stays if it is beyond it, and nothing that matters goes back |
| HotStuffNode.ProcessQC | consensus/src/core.rs:295-298 | Round and highest certificate end at or beyond the certificate |
| HotStuffNode.ProcessBlock | consensus/src/core.rs:301-368 | Round, last voted round, highest certificate, store, signatures and commits never go back |
| HotStuffInvariant.NodeInvStays | consensus/src/core.rs:433-482 | A node's invariant is not disturbed by what other nodes sign |
| HotStuffInvariant.AdvanceRoundKeepsInv | consensus/src/core.rs:231-242 | Advancing keeps the node's invariant |
| HotStuffInvariant.ProcessQCKeepsInv | consensus/src/core.rs:295-298 | Processing a valid certificate keeps the invariant, above all that the highest certificate is below the round |
| HotStuffInvariant.RoundIsFresh | consensus/src/core.rs:182-187 | A node that assembles a certificate has not yet proposed in the round that it enters |
| HotStuffInvariant.GenerateProposalKeepsInv | consensus/src/core.rs:246-293 | Proposing in a fresh round keeps the invariant, and the proposal is one that the node itself can process |
| HotStuffInvariant.HandleVoteKeepsInv | consensus/src/core.rs:168-190 | Any genuine vote keeps the invariant |
| HotStuffInvariant.HandleTimeoutKeepsInv | consensus/src/core.rs:192-228 | Any genuine time-out keeps the invariant |
| HotStuffInvariant.LocalTimeoutRoundKeepsInv | consensus/src/core.rs:142-165 | A local time-out keeps the discipline of the node's signatures and the invariant |
| HotStuffInvariant.VoteForKeepsInv | consensus/src/core.rs:115-132 | Voting keeps the discipline: a vote has a larger round than all earlier votes and time-outs |
| HotStuffInvariant.AncestorsAreStored | consensus/src/synchronizer.rs:147-161 | If the parent is found then so is the grandparent: the lookup that is expected to succeed does |
| HotStuffInvariant.StoreAndCommitKeepsInv | consensus/src/core.rs:317-340 | Storing a block keeps the store closed under parents and payloads, and a commit comes with its two-chain |
| HotStuffInvariant.ProcessBlockKeepsInv | consensus/src/core.rs:301-368 | Processing a checked or resumed block keeps the invariant |
| HotStuffInvariant.HandleProposalKeepsInv | consensus/src/core.rs:370-403 | Any genuine proposal keeps the invariant |
| HotStuffInvariant.BootKeepsInv | consensus/src/core.rs:433-441 | A node starts in the invariant, also if it leads the first round and proposes at once |
| HotStuffCore.Core.CheckSafetyRules | consensus/src/core.rs:117-126 | The two safety rules with the flags and the maximum of the program mean: a larger round than any before, and the parent's certificate is of the previous round or reaches every round that the timeout certificate of the previous round reports |
| HotStuffCore.Core.MakeVote | consensus/src/core.rs:115-132 | A vote is made exactly if the safety rules allow it; it is well signed and on the block; the last voted round moves on |
| HotStuffCore.Core.UpdateHighQc | consensus/src/core.rs:136-140 | The whole new state |
| HotStuffCore.Core.LocalTimeoutRound | consensus/src/core.rs:142-165 | The whole new state: the node stops voting in its round, signs the time-out and handles it itself |
| HotStuffCore.Core.HandleVote | consensus/src/core.rs:168-190 | The whole new state, with stale and ill-formed votes ignored |
| HotStuffCore.Core.HandleTimeout | consensus/src/core.rs:192-228 | The whole new state, with stale and ill-formed time-outs ignored |
| HotStuffCore.Core.AdvanceRound | consensus/src/core.rs:231-242 | The whole new state: the round after the given one, unless the node is beyond it, with the aggregator cleaned up |
| HotStuffCore.Core.ProcessQC | consensus/src/core.rs:295-298 | The whole new state |
| HotStuffCore.Core.GenerateProposal | consensus/src/core.rs:246-293 | The whole new state: what is signed, and what is taken from the mempool |
| HotStuffCore.Core.GetParentBlock | consensus/src/synchronizer.rs:131-145 | The genesis block for the genesis certificate, else the block stored under the parent's digest, if any |
| HotStuffCore.Core.GetAncestors | consensus/src/synchronizer.rs:147-161 | Both ancestors are returned exactly if the parent is found |
| HotStuffCore.Core.ProcessBlock | consensus/src/core.rs:301-368 | The whole new state: suspended without a parent, else stored, committed, cleaned up and voted on |
| HotStuffCore.Core.StoreAndCommit | consensus/src/core.rs:317-340 | The whole new state, with the invariant that parents of stored blocks are stored |
| HotStuffCore.Core.HandleProposal | consensus/src/core.rs:370-403 | The whole new state, for rejected, suspended and processed proposals |
| HotStuffCore.Core.React | consensus/src/core.rs:445-481 | One turn of the main loop moves the object exactly as the step relation of the protocol says |
| HotStuffCore.Core.Boot | consensus/src/core.rs:433-441 | From the initial state, the object enters the state in which runs of the protocol start |
| HotStuffInvariant.AnswerIsGenuine | consensus/src/core.rs:405-423 | A block sent on request was verified, is stored under its digest, and is a genuine message |
| HotStuffSafety.SkippingIsSafe | consensus/src/core.rs:119-123 | Comparing with the largest reported round is comparing with all of them |
| HotStuffBehaviour.ProposalOutcome | consensus/src/core.rs:370-403 | All that a proposal does: ignored if it is not from the leader or does not verify; otherwise the node enters exactly the round that the certificates lead to, and the block waits for exactly what is missing, waits for its parent, or is stored, committed and voted on exactly if the rules allow it |
| HotStuffBehaviour.LoopBackOutcome | consensus/src/core.rs:301-368 | All that a block does that comes back: it is stored, committed and voted on exactly if the rules allow it, or waits for its parent |
| HotStuffBehaviour.VoteOutcome | consensus/src/core.rs:168-190 | All that a vote does: stale and ill-formed ones nothing; a completed certificate takes the node to the next round, becomes its highest one if it is higher, and makes a leader propose on it |
| HotStuffBehaviour.TimeoutOutcome | consensus/src/core.rs:192-228 | All that a time-out does: a completed timeout certificate takes the node to the next round, and is carried by what a leader proposes |
| HotStuffBehaviour.TimerOutcome | consensus/src/core.rs:142-165 | All that the timer does: the node does not vote in its round any more, signs a time-out with its highest certificate's round, and collects it |
| HotStuffBehaviour.PayloadArrivalOutcome | mempool/src/core.rs:92-167 | An accepted payload is stored and queued last; one that is refused changes nothing |
| HotStuffBehaviour.BootOutcome | consensus/src/core.rs:433-441 | The leader of round 1, unless it boycotts, starts by proposing on the genesis certificate |
| HotStuffBehaviour.CertificatesLead | consensus/src/core.rs:386-392 | The certificates of a block lead to exactly the largest of the old round and the rounds after theirs, and what is collected for earlier rounds is forgotten |
| HotStuffBehaviour.RuleByLargestRound | consensus/src/core.rs:117-123 | For a verified block the second safety rule is what the program computes with the largest reported round |
| HotStuffProgress.GoodProposalIsProcessed | consensus/src/core.rs:370-403 | In every run, a verified proposal of the leader whose payload and parent are stored is stored, committed and voted on when it arrives; its grandparent is always found |
| HotStuffProgress.LoopedBackIsProcessed | consensus/src/core.rs:301-368 | The same for blocks that come back |
| HotStuffProgress.QuorumOfVotesAdvances | consensus/src/core.rs:168-190 | A node that has heard verified votes of a quorum on one block has left the block's round, whatever else it heard in between and in whatever order |
| HotStuffProgress.QuorumOfTimeoutsAdvances | consensus/src/core.rs:142-228 | The same for time-outs of a quorum, the node's own included |
| HotStuffProposals.HonestProposalsVerify | consensus/src/core.rs:246-293 | In every run, whatever an honest node with stake has proposed is for a round that it leads and passes the verification of every node |
| HotStuffProtocol.RunOnlyAdvances | consensus/src/core.rs:111-140 | Over whole runs, no node's rounds, certificates, store, signatures or commits go back |
| HotStuffProtocol.RunKeepsInv | consensus/src/core.rs:433-482 | Every reachable state satisfies the invariant of all honest nodes |
| HotStuffProtocol.SafetyModule | consensus/src/core.rs:111-140 | In every reachable state: the highest certificate is below the round, the last voted round is not above it, signatures are disciplined, and every vote is justified; a vote cast in a step is for the round then reached, above the highest certificate before and after the step |
| HotStuffProtocol.CommitIsTwoChain | consensus/src/core.rs:320-337 | What is sent through the commit channel is the lower block of a certified two-chain |
| HotStuffProtocol.Agreement | consensus/src/core.rs:300-337 | In every run, any two blocks that honest nodes ever send through their commit channels stand on one chain |
| HotStuffProtocol.AssemblingAdvances | consensus/src/core.rs:168-242 | A node assembles certificates only for its round or later ones, and is in the round after it at once |
| HotStuffProtocol.CertificateRoundsIncrease | consensus/src/core.rs:168-242 | The certificates that a node assembles, quorum and timeout ones together, have strictly increasing rounds, across clean-ups |
| HotStuffProtocol.HonestLeaderDoesNotEquivocate | consensus/src/core.rs:246-268 | Two valid blocks of one round with an honest author's signature are one block |
| HotStuffHousekeeping.StoreAndCommitCompletes | consensus/src/core.rs:317-337 | Storing the block that completes a two-chain commits it |
| HotStuffHousekeeping.NodesAreTidy | consensus/src/core.rs:168-403 | In every reachable state a node has signed and suspended only blocks of the right leaders, holds no makers of past rounds, and has committed every two-chain below a stored block |
| MempoolCores.MempoolCore.HandlePayload | mempool/src/core.rs:92-167 | Own payloads are dropped exactly when the queue is full, those of others exactly when they are too big; what enters the queue is stored |
| MempoolCores.MempoolCore.GetPayload | mempool/src/core.rs:184-202 | The new queue and store and the chosen payload, for an empty and a filled queue |
| MempoolCores.MempoolCore.Cleanup | mempool/src/core.rs:208-214 | The loop over the queue leaves what the recursive `Retain` keeps, of which the next rows say what it is |
| Mempools.Retain | mempool/src/core.rs:213-213 | A payload is left exactly if it was in the queue and is not removed |
| Mempools.RetainCounts | mempool/src/core.rs:213-213 | Every occurrence of a removed payload is gone, and every other payload is left as often as before |
| Mempools.RetainDistributes | mempool/src/core.rs:213-213 | Each part of the queue is treated by itself, so what is left stays in its order |
| Mempools.ProposalTakesFront | mempool/src/core.rs:193-200 | A proposal takes the front of the queue, within the limit, and leaves the rest without further copies of what it took |
| Mempools.ProposalTakesOffer | mempool/src/core.rs:185-192 | With an empty queue a proposal takes what the payload maker offers, stored first, or nothing |
| LedgerDelivery.Node.GetParentBlock | mynode/src/mynode.rs:232-244 | From a deliverable block the parent is always found, and the walk ends in the genesis block only |
| LedgerDelivery.Node.CollectAncestors | mynode/src/mynode.rs:202-213 | The collected blocks are the path from the committed block to the genesis block |
| LedgerDelivery.Node.AnalyzeBlock | mynode/src/mynode.rs:202-228 | For one commit, the ledger grows by what the recursive specification delivers, and so does the bound on processed rounds |
| LedgerDelivery.Node.AnalyzeBlocks | mynode/src/mynode.rs:199-230 | The loop over the commits that arrive, each with what the store holds by then: the ledger is what delivering them one by one sends, and, when they are on one chain, the payload up to the highest of them |
| LedgerDelivery.DeliverBelow | mynode/src/mynode.rs:215-217 | A block of the chain below what was processed sends nothing and changes nothing |
| LedgerDelivery.DeliverAbove | mynode/src/mynode.rs:215-217 | A block above what was processed sends exactly the missing rest of its chain |
| LedgerDelivery.LedgerIsHighestChain | mynode/src/mynode.rs:199-230 | After any commits of one chain, with repetitions and late older ones, the ledger is the payload from the genesis block up to the highest commit, each block once and in order |
| LedgerAgreement.CommitsOnOneChain | consensus/src/core.rs:320-337 | In every run, a node's commits stand on one chain with increasing rounds, as delivery needs it |
| LedgerAgreement.LedgerOfChain | mynode/src/mynode.rs:199-230 | In every run, a node's ledger is the payload of the chain up to a commit that is above all its other commits |
| LedgerAgreement.LedgersAgree | mynode/src/mynode.rs:199-230 | At any two times of a run, the ledgers of two honest nodes are prefixes of each other |
| LedgerAgreement.CommittedIsDeliverable | mynode/src/mynode.rs:221-242 | From a commit on, the walk finds every parent and every payload stored, so no lookup can stop the program, and it ends |
| LcBlocks.LcBlockTree.constructor | mynode/src/lcblocks.rs:102-116 | The tree starts with the genesis block alone, with its caches right |
| LcBlocks.LcBlockTree.Add | mynode/src/lcblocks.rs:118-144 | A block is added exactly if its parent is known, otherwise nothing changes; cached heights stay path lengths and all leaves stay indexed, also when a known block is added again; an index of just the leaves stays one if and only if the block is not the parent of a known block |
| LcBlocks.IndexExactIff | mynode/src/lcblocks.rs:136-137 | After an addition the index holds just the leaves if and only if the added block has no child yet and no other block than its parent was in the index without being a leaf |
| LcBlocks.IndexStaysExactIff | mynode/src/lcblocks.rs:136-137 | An index of just the leaves stays one if and only if the added block is not the parent of a known block |
| LcBlocks.IndexCanHoldInnerBlock | mynode/src/lcblocks.rs:136-141 | A concrete tree in which adding a known block again puts a block with a child into the index |
| LcBlocks.LcBlockTree.IsPrefixOf | mynode/src/lcblocks.rs:146-170 | With its height cut-off it terminates and decides ancestry exactly; unknown blocks are reported |
| LcBlocks.LcBlockTree.TieBreak | mynode/src/lcblocks.rs:172-201 | The preferred of two blocks: by height, then adversarial, then smaller digest |
| LcBlocks.LcBlockTree.LeadingTipExtending | mynode/src/lcblocks.rs:203-214 | In whatever order the index is walked, the result is preferred to all other descendants of the checkpoint, indexed or not |
| LcBlocks.LcBlockTree.KDeep | mynode/src/lcblocks.rs:216-226 | The result is in the tree and is the ancestor that many steps up |
| LcBlocks.LcBlockTree.HigherOf | mynode/src/lcblocks.rs:228-241 | By path lengths the higher of the two, the first if equal; unknown blocks are reported |
| LcBlocks.LcBlockTree.HeightHonest | mynode/src/lcblocks.rs:251-261 | The number of honest blocks on the path, without the genesis block |
| LcBlocks.HonestOnPathAre | mynode/src/lcblocks.rs:251-261 | What is counted are exactly the blocks of the path that are neither the genesis block nor adversarial, each once |
| LcBlocks.AncestorOnPath | mynode/src/lcblocks.rs:216-226 | `k` deep below a block of height h is the one block of its path at height max(h - k, 0) |
| LcBlocks.PathIsLinear | mynode/src/lcblocks.rs:146-170 | Blocks on one path are ordered by their heights, which is why the cut-off is safe |
| LcBlocks.LeafAbove | mynode/src/lcblocks.rs:136-137 | Every block has a leaf above it |
| LcBlocks.BestIsUnique | mynode/src/lcblocks.rs:172-201 | At most one block is preferred to all others, so neither the order of arrival nor of the index matters |
| LcBlocks.BestExists | mynode/src/lcblocks.rs:203-214 | Some descendant is preferred to all others |
| LcBlocks.BestOfTipsIsBest | mynode/src/lcblocks.rs:203-214 | The best among an index that holds all leaves is the best among all descendants |
| LcBlockTreeManagers.LcBlockTreeManager.AddBlock | mynode/src/lcblocktreemanager.rs:48-58 | The tree grows by the block, or the addition fails, exactly if the parent is unknown |
| LcBlockTreeManagers.LcBlockTreeManager.NewCheckpoint | mynode/src/lcblocktreemanager.rs:96-140 | A decision for a block becomes the latest checkpoint; one for none changes nothing |
| LcBlockTreeManagers.LcBlockTreeManager.Follow | mynode/src/lcblocktreemanager.rs:96-147 | After any events, the latest checkpoint is the last one that they decide, which is what the gadget takes for it; proposals are ignored |
| LcBlockTreeManagers.LcBlockTreeManager.GetCurrentTip | mynode/src/lcblocktreemanager.rs:179-183 | The unique best descendant of the latest checkpoint |
| LcBlockTreeManagers.LcBlockTreeManager.GetCurrentProposal | mynode/src/lcblocktreemanager.rs:151-163 | The proposal passes the node's own validation |
| LcBlockTreeManagers.LcBlockTreeManager.ValidateProposal | mynode/src/lcblocktreemanager.rs:164-175 | A proposal is valid exactly if it is known and lies on the path from the latest checkpoint to the leading tip |
| LcBlockTreeManagers.LcBlockTreeManager.CurrentLogs | mynode/src/lcblocktreemanager.rs:73-81 | LOGacc is a prefix of LOGava |
| LcBlockTreeManagers.KDeepOrCheckpointValidates | mynode/src/lcblocktreemanager.rs:151-175 | For any depth, the higher of checkpoint and k-deep block lies between the checkpoint and the leading tip |
| LcBlockTreeManagers.KDeepOrCheckpointIs | mynode/src/lcblocktreemanager.rs:74-81 | The result is the one block on the leading tip's path that is `k` below the tip, or the checkpoint if that is higher |
| LcBlockTreeManagers.AdoptingKeepsTip | mynode/src/lcblocktreemanager.rs:96-125 | Adopting a checkpoint that validates leaves the leading tip as it is and does not roll LOGava back |
| LcBlockTreeManagers.AddingMovesTip | mynode/src/lcblocktreemanager.rs:65-70 | A new block becomes the leading tip exactly if it descends from the checkpoint and is preferred to the old tip |
| LcBlockTreeManagers.LogAvaRollsBackIff | mynode/src/lcblocktreemanager.rs:73-81 | Adding a block keeps LOGava growing if and only if the block does not become the leading tip or extends the old LOGava |
| LcBlockTreeManagers.LogAvaCanRollBack | mynode/src/lcblocktreemanager.rs:73-81 | A concrete addition that rolls LOGava back: it is not monotone in general |
| LcBlockTreeManagers.AdoptingRollsBackIff | mynode/src/lcblocktreemanager.rs:96-125 | Adopting any block of the tree, also one that does not validate, keeps LOGava growing if and only if the old LOGava is on the path to that block, or on the path to the new leading tip and at least `k` below it |
| LcBlockTreeManagers.AdoptingCanRollBack | mynode/src/lcblocktreemanager.rs:96-125 | A concrete adoption that rolls LOGava back: of a sibling of the leading tip |
| CheckpointExtractor.ExtractCheckpoints | mynode/src/cpextractor.rs:39-92 | The nested loops emit exactly the events of the step-by-step specification |
| CheckpointExtractor.FindDecision | mynode/src/cpextractor.rs:70-90 | In whatever order the blocks are tried, a decision is found exactly if one is enabled, and it is the only one |
| CheckpointExtractor.OneDecision | mynode/src/cpextractor.rs:79-90 | Never two blocks above two thirds, and never one together with a third of rejections |
| CheckpointExtractor.UnanimityDecides | mynode/src/cpextractor.rs:79-90 | If all members vote for one block or for rejection, one of the two is decided |
| CheckpointExtractor.IterationEndsByUnanimity | mynode/src/cpextractor.rs:43-91 | In every reachable state, an iteration in which all members have voted for one block or for rejection is over |
| CheckpointExtractor.ExtractMembers | mynode/src/cpextractor.rs:50-69 | Only members' votes are counted, and the votes of a running iteration decide nothing |
| CheckpointExtractor.EventsAreNumbered | mynode/src/cpextractor.rs:39-91 | Decisions are numbered 0, 1, 2, ... with none skipped or repeated |
| CheckpointExtractor.LongerLedgerAppends | mynode/src/cpextractor.rs:39-91 | A longer ledger only appends decisions |
| CheckpointExtractor.DecisionHasVotes | mynode/src/cpextractor.rs:56-85 | For every decided block, more than two thirds of the members have a well-signed vote for it, in that iteration, in the ledger |
| CheckpointCounting.EntryDecidesIff | mynode/src/cpextractor.rs:43-91 | One more ledger entry ends the iteration with a block, or with none, if and only if it is well signed and, counting it, the last votes of more than two thirds of the members since the iteration began accept the block, or those of at least a third reject |
| CheckpointCounting.CountedVotesAreLast | mynode/src/cpextractor.rs:56-69 | In every reachable state the counted vote of each member is its last well-signed vote for the iteration since it began |
| CheckpointCounting.DecisionHasMoment | mynode/src/cpextractor.rs:70-90 | Every decision in a ledger was made at an entry with which those thresholds were reached for it |
| CheckpointCounting.RejectionHasVotes | mynode/src/cpextractor.rs:86-89 | For every iteration that decided none, at least a third of the members have a well-signed rejection of it in the ledger |
| CheckpointProposer.Proposer.constructor | mynode/src/cpproposer.rs:90-93 | The proposer starts in iteration 0 without a delay |
| CheckpointProposer.Proposer.EnterIteration | mynode/src/cpproposer.rs:93-151 | The whole new state: the last iteration's proposal is dropped, and the delay applies only after a checkpoint |
| CheckpointProposer.Proposer.EnterWaiting | mynode/src/cpproposer.rs:154-167 | The whole new state: a leader proposes, and a proposal that came early is taken up |
| CheckpointProposer.Proposer.Turn | mynode/src/cpproposer.rs:120-269 | One turn of any of the three loops does what the specification says; in order, no assertion fails, and the one-slot channel has room |
| CheckpointProposer.TurnKeepsOk | mynode/src/cpproposer.rs:93-269 | Every turn keeps the discipline of signatures, the keys of the proposals at or above the iteration, and the slot within its bound |
| CheckpointProposer.NewAccept | mynode/src/cpproposer.rs:177-191 | An Accept is signed only for the proposal in the slot and only if the tree manager validated it |
| CheckpointProposer.LockStep | mynode/src/cpproposer.rs:93-269 | Fed with the extractor's decisions in order and anything in between, the proposer never fails one of its three assertions, never blocks, and is in the iteration after the last decision |
| CheckpointProposer.OneAcceptPerIteration | mynode/src/cpproposer.rs:172-240 | In every run fed with the decisions in order, a node signs at most one Accept per iteration, and none after a Reject |
| CheckpointProposer.FirstProposalStays | mynode/src/cpproposer.rs:212-221 | In every such run, of each iteration that is not over exactly the first proposal received is recorded |
| CheckpointProposer.AcceptsFirstProposal | mynode/src/cpproposer.rs:164-221 | In every such run, whatever is accepted in an iteration is the first proposal received for it |
| CheckpointTurns.SlotOutcome | mynode/src/cpproposer.rs:177-200 | All that the slot's turn does: one Accept of the block in it if the tree manager finds it valid, one Reject if not, and the slot is empty |
| CheckpointTurns.TimerOutcome | mynode/src/cpproposer.rs:120-243 | All that the timer does: it ends the delay, and otherwise one more Reject is signed; when waiting begins, the node proposes if and only if it leads and does not boycott |
| CheckpointTurns.DecisionOutcome | mynode/src/cpproposer.rs:93-151 | All that a decision does: the next iteration begins, with the delay if and only if a checkpoint was decided |
| CheckpointTurns.ProposalOutcome | mynode/src/cpproposer.rs:212-221 | All that a proposal does: the first one for an iteration that is not over is recorded, and enters the slot if the node waits in it |
| CheckpointTurns.InitialOutcome | mynode/src/cpproposer.rs:90-167 | The proposer starts by waiting in iteration 0, where a leader proposes at once |
| CheckpointTurns.FirstProposalIsVotedOn | mynode/src/cpproposer.rs:164-200 | In every run fed with the decisions in order, a waiting node that has not voted and has received a proposal votes on the first one at the slot's turn, as the tree manager finds it |
| CheckpointTurns.ValidatedIsAccepted | mynode/src/cpproposer.rs:185-191 | A first proposal that was validated in time has the node's Accept for the rest of the run |
| CheckpointGadget.HonestAccepter | mynode/src/cpextractor.rs:79-85 | A decided block was accepted by an honest member |
| CheckpointGadget.AppendKeepsChain | mynode/src/cpextractor.rs:79-85 | A new decision extends the last checkpoint |
| CheckpointGadget.NewAcceptExtends | mynode/src/cpproposer.rs:185-191 | What a member newly accepts extends the last checkpoint decided before that iteration |
| CheckpointGadget.RunKeepsInv | mynode/src/cpproposer.rs:93-269 | Every reachable state of all members together satisfies the gadget's invariant |
| CheckpointGadget.CheckpointsFormChain | mynode/src/lcblocktreemanager.rs:164-175 | In every reachable state, each decided checkpoint descends from every earlier one |
| CheckpointGadget.DecisionWasValidated | mynode/src/cpproposer.rs:185-191 | Every decided checkpoint was signed by an honest member and extends the checkpoint before it |
| CheckpointGadget.LogAccsAgree | mynode/src/lcblocktreemanager.rs:73-74 | At any two times of a run, LOGacc of one honest member is a prefix of LOGacc of another, or the reverse |
| EndToEnd.ExtractionsAgree | mynode/src/cpextractor.rs:39-92 | At any two times of a consensus run, the decisions that two honest nodes extract are prefixes of each other |
| EndToEnd.ReceivedGrows | mynode/src/mynode.rs:199-230 | What a node has received stays at the front of what it receives later |
| EndToEnd.NodesRun | consensus/src/core.rs:433-482 | The consensus part of a joint run is a run of consensus |
| EndToEnd.LongestCovers | mynode/src/mynode.rs:199-230 | By agreement, the longest ledger of honest nodes begins with each of the others |
| EndToEnd.GadgetsRun | mynode/src/cpproposer.rs:93-269 | The gadget's part of a joint run is a run of the gadget on one growing ledger |
| EndToEnd.CheckpointsAgreeAndFormChain | mynode/src/cpextractor.rs:39-92 | In every joint run, at any two times: what two honest nodes extract are prefixes of each other, numbered from 0, and every checkpoint of one descends from the earlier ones of the other |
| WholeSystem.WholeRunIsJointRun | consensus/src/core.rs:445-455 | Every run of nodes with store, synchronizers and gadget is a joint run of consensus and gadget |
| WholeSystem.WholeSystemAgrees | mynode/src/cpextractor.rs:39-92 | The end-to-end theorem for such nodes: what any two of them extract at any two times are prefixes of each other, numbered, and form a chain |
| Stores.Store.Write | store/src/lib.rs:34-41 | The key is stored and its waiting readers are answered, in their order |
| Stores.Store.NotifyRead | store/src/lib.rs:46-57 | The reader is answered if the key is stored, and owed an answer otherwise |
| Stores.NoLostWakeUp | store/src/lib.rs:32-59 | After any commands, whoever asked for a stored key was answered once, in the order of asking; whoever asked for another key is still owed; no key is both stored and owed |
| Stores.RepliedIffAskedAndStored | store/src/lib.rs:32-59 | After any commands, a reader has its reply if and only if it asked and the key is stored, whichever came first |
| Stores.StoredGrows | store/src/lib.rs:34-41 | More commands store exactly the keys that they write, and nothing stored is lost |
| Stores.DatabaseHoldsLastWritten | store/src/lib.rs:34-35 | After any commands the database holds under each key the value that was last written, and nothing else |
| Stores.WriteAnswersOwed | store/src/lib.rs:36-40 | A value that is written is sent to exactly the readers that wait for its key, in their order |
| Stores.ReadIsAnswered | store/src/lib.rs:46-57 | A reader that asks for a written key is sent the value that was last written |
| Synchronizers.AwaitParentKeepsOk | consensus/src/synchronizer.rs:50-67 | A suspended block has a waiter, the only one for its digest, on a channel of its own |
| Synchronizers.ParentIsRequested | consensus/src/synchronizer.rs:51-66 | A newly waiting block has its parent requested, and a request is sent exactly if none was open |
| Synchronizers.ParentArrivedKeepsOk | consensus/src/synchronizer.rs:68-78 | Looping one block back leaves every other pending block its waiter |
| SynchronizerTasks.ParentSynchronizer.GetParentBlock | consensus/src/synchronizer.rs:131-145 | The stored parent is returned, and otherwise the block is handed to the task |
| SynchronizerTasks.ParentSynchronizer.Receive | consensus/src/synchronizer.rs:49-67 | The whole new state: one waiter per pending digest, and a request exactly for a parent that was not requested before |
| SynchronizerTasks.ParentSynchronizer.Ask | consensus/src/synchronizer.rs:104-107 | The waiter asks the store over its own channel |
| SynchronizerTasks.ParentSynchronizer.Resume | consensus/src/synchronizer.rs:68-78 | When the store has answered its waiter, a block is looped back, and its parent is stored, as follows from the history of the store |
| Synchronizers.SuspendingKeepsPending | mempool/src/synchronizer.rs:66-74 | A newly suspended block has a live waiter, and the waiters of the others stay live |
| Synchronizers.PayloadIsRequested | mempool/src/synchronizer.rs:59-83 | A newly waiting block waits for all that it misses, all of it is requested, and what was requested before is not requested again |
| Synchronizers.ForgettingKeepsPending | mempool/src/synchronizer.rs:97-122 | Cleaning up and resuming leave no pending block without a live waiter |
| SynchronizerTasks.PayloadSynchronizer.VerifyPayload | mempool/src/synchronizer.rs:197-214 | A block is accepted exactly if its whole payload is stored; otherwise it is handed over with exactly what is missing |
| SynchronizerTasks.PayloadSynchronizer.Receive | mempool/src/synchronizer.rs:54-106 | The whole new state for both messages, and what is requested; every pending block keeps a live waiter |
| SynchronizerTasks.PayloadSynchronizer.HandleSync | mempool/src/synchronizer.rs:55-96 | Nothing happens for a pending block; otherwise there is a waiter for all that is missing, and what was not requested before is requested |
| SynchronizerTasks.PayloadSynchronizer.HandleClean | mempool/src/synchronizer.rs:97-105 | Exactly the blocks and requests of later rounds are kept |
| SynchronizerTasks.PayloadSynchronizer.Resume | mempool/src/synchronizer.rs:107-122 | When the store has answered for all that a waiter misses, its block is looped back, and the whole payload is stored, as follows from the history of the store |
| SynchronizerTasks.PayloadSynchronizer.GiveUp | mempool/src/synchronizer.rs:168-172 | When a cancelled waiter gives up, every pending block still has a live one |
| NodeAssembly.SuspensionInOrder | consensus/src/core.rs:290-403 | Whatever the core hands over is in order: blocks that wait for a parent and own proposals have their payload stored, and blocks that wait for payload wait for all that is missing |
| NodeAssembly.WritingKeepsMatch | consensus/src/core.rs:104-108 | What the core takes for stored is what the store holds |
| NodeAssembly.PayloadResumedIsReady | mempool/src/synchronizer.rs:107-122 | A block whose waiter was answered has its whole payload stored |
| NodeAssembly.MoveKeepsOk | consensus/src/core.rs:445-455 | Every move of the core, the store and the synchronizers keeps all of this |
| AssemblyRuns.AssembledRun | consensus/src/core.rs:445-455 | Every run of nodes with store and synchronizers is a run of the protocol: looped back blocks were suspended and have their payload |
| AssemblyRuns.AssembledAgreement | consensus/src/core.rs:300-337 | Agreement for such nodes, with no assumption on what is looped back |
| AssemblyRuns.LoopedBackIsReady | mempool/src/synchronizer.rs:107-122 | Every block on its way back to the core was suspended, and its whole payload is in the database |
| AssemblyRuns.ParentWaiterIsAnswered | consensus/src/synchronizer.rs:104-107 | In every reachable state, a waiter for a parent can resume if and only if it asked and the parent is stored |
| AssemblyRuns.PayloadWaiterIsAnswered | mempool/src/synchronizer.rs:158-173 | In every reachable state, a waiter for payload can resume if and only if it asked for all that was missing and the whole payload is stored |
| AssemblyRuns.PendingIsAwaited | mempool/src/synchronizer.rs:55-122 | In every reachable state, every pending block of either synchronizer has a waiter, which nobody cancelled, and the parent of every waiting block is stored or requested |
| OpenRequests.OnlyAwaitedIsRequested | mempool/src/synchronizer.rs:55-122 | In every reachable state, every open request of either synchronizer is for the parent, or the missing payload, of a block that waits for it; what has arrived is not requested any more |
| LoopBacks.MoveConserves | mempool/src/synchronizer.rs:54-122 | Every move conserves the hand-overs of a block: after it they are held, have come back, or were dropped because the digest was pending or a waiter gave up |
| LoopBacks.HandOversAreConserved | mempool/src/synchronizer.rs:54-122 | In every run, the times a block was suspended are the times it came back, the times it was dropped, and the times it is still held by a synchronizer or on its way |
| LoopBacks.LoopedBackAtMostAsSuspended | consensus/src/synchronizer.rs:49-78 | In every run a block comes back at most as often as it was suspended; if that was once, it has come back exactly once if and only if it was not dropped and is not held any more |
| LoopBackExamples.CanComeBackTwice | mempool/src/synchronizer.rs:54-122 | From any state in which nothing is suspended, moves by which a block comes back twice: it is proposed, cleaned up, and proposed again |
| LoopBackExamples.CleaningKeepsRequestsIff | mempool/src/synchronizer.rs:97-105 | After a clean-up everything that pending blocks miss is still requested if and only if each such request was made for a later round |
| LoopBackExamples.RequestCanBeForgotten | mempool/src/synchronizer.rs:80-105 | Two blocks that miss one payload, where cleaning up the round of the first leaves the second pending without a request |
| NodeObject.NodeWithTasks.TaskTurn | mempool/src/synchronizer.rs:52-122 | Every turn of a synchronizer, on the objects, is the move of the assembled node |
| NodeObject.NodeWithTasks.CoreTurn | consensus/src/core.rs:445-455 | A turn of the core object, with its writes and what it hands to the synchronizer objects, is the move of the assembled node |
| NodeObject.NodeWithTasks.Boot | consensus/src/core.rs:433-441 | The objects boot into the state in which runs of assembled nodes start |

## Left out

- Networking, gossip, RocksDB, serialization, configuration files, benchmarks and clients: plumbing around the protocols.
- Cryptography: hashing and signatures are ideal, as described above; leader election is an arbitrary function.
- `handle_tc` and `LoopBack` messages from the network: honest nodes send no timeout certificates on their own, as that broadcast is commented out, and `handle_tc` does not verify what it receives; the results are for runs without these messages.
- Liveness and times: timers are arbitrary steps, proposals need not be votable, and no result says that something happens eventually.
- Crash recovery: the last voted round is not stored persistently by the program (consensus/src/core.rs:130).
- The miner, the adversarial node and the dump of the tree; why and for how long the proposer pauses consensus.
- Overflow of `u64` rounds: rounds are unbounded, and `round + 1` cannot wrap around.
- Overflow of the makers' and verifiers' running sums of stake: these are unbounded here, and each is at most the total stake.
- `f32` rounding in the extractor: its comparisons are the exact integer tests `3 * c > 2 * n` and `3 * c >= n`.
- Payload contents: a payload is its digest, the ledger is a list of such digests, and the transactions are a function of them, because the program's digest of a payload does not determine its transactions.
- The task that filters proposals by signature and leader before they reach the proposer: the proposer is given any proposals here.
- HotStuffCore.Core.React: the branch for timeout certificates from the network is not an event; a pause only stops the timer, and so changes nothing.
- LedgerDelivery.Node.AnalyzeBlock: what the store holds may grow between commits, but is fixed during the walk for one commit.
- CheckpointGadget.RunKeepsInv: a member may read any part of the common ledger, also more than its own node has received so far, which covers more runs than the program has.
- When the mempool core is cleaned up it tells the payload synchronizer the round; in the assembled node any round may be told at any time, which covers more runs.
- LcBlockTreeManagers.LcBlockTreeManager.AddBlock: the program stops when an addition fails; here the failure is the result.
- Claims that do not hold and are not made, each with a failing input and the exact condition in the table above: the index of tips is just the leaves, LOGava is monotone (for additions and for adoptions), a suspended block is looped back exactly once, and the requests that pending blocks need survive a clean-up.
