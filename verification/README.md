# HotStuff finality replica

This project models the finality protocol of `hotstuff/consensus`: a chained HotStuff replica with a
two-chain commit rule and timeout certificates, running beside a Substrate client and finalising the
blocks that its proposals carry.

The model has three layers.

- **The replica in its own form.** Objects whose methods update their fields: the aggregator
  (`Aggregation.dfy`), the pending-block queue (`Pending.dfy`), the gossip validator (`Gossip.dfy`), the
  consensus state and the worker with all its handlers (`Worker.dfy`), and the certificate verification
  loops (`Certificates.dfy`).
- **The replica on values.** `Replica.dfy` gives every handler as a function from the worker's state to
  its next state and result. Each method of the first layer is proved equal to its function. What a
  handler does outside its own fields (sign, gossip, finalise, request a block) and every view it enters is
  appended to a trace.
- **The system.** `System.dfy` runs any number of correct nodes (authorities, or observers without a key)
  against faulty authorities and a network that delays, drops, duplicates and reorders, with one trace for
  all. `Trace.dfy` says which traces are acceptable and proves the safety theorems about them;
  `Invariant.dfy` proves that the handlers produce no others. `Effects.dfy` and `Responses.dfy` say exactly when a
  node votes, finalises, moves, broadcasts and proposes, and that nothing else happens; `CarriedTC.dfy` proves that the timeout certificate (TC) inside a proposal has no effect.
  `Blocks.dfy` compares the blocks that finalised proposals carry. `Fork.dfy`, `CorrectFork.dfy` and
  `Witnesses.dfy` are runs that show which conditions in the theorems are needed.

## Assumptions

- Hashing is injective and acyclic: a digest is the term that was hashed. Proposals, votes and timeouts hash
  byte strings of different fixed lengths, so their digests never coincide. SCALE encoding is the identity.
- Signatures are ideal. A message can be delivered when every signature of a correct node in it has been
  made; faulty authorities, and keys off the authority list that the configuration names as outsiders, sign
  anything. The theorems about runs say by `ListedSigners` that there are no outsiders.
- The authority list is fixed, non-empty and distinct, and at most (n - 1) / 3 authorities are faulty. A node
  holds at most one key. Authority weights are not read by the consensus state and are left off.
- The keystore always signs, the proposal store always saves, and the client knows a set of blocks with
  their numbers; asking it to finalise a known block moves its finalised head there. Between handler calls
  the client and the queue may change in any way. Within one handler call they change only by that call.
- View numbers do not wrap around at 2^64.

## Findings

Four things one might expect of the code are false of it. Each has a run that shows it and a theorem that says
what holds instead.

- **Finality is conditional.** The voting rule compares a proposal's view with the last voted view and
  ignores the QC it carries, so there is no lock (`Effects.VotesExactly`). Once a proposal g of view v is
  finalised through its child p, later certified proposals all extend g if and only if no certified proposal
  above view v + 1 carries a QC from below v, and if and only if no voter for p later votes, for a proposal that
  gets certified, on a parent older than p's (`System.FinalityExact`). A fork always has a correct culprit of that
  kind (`System.DisagreementHasCulprit`), so comparing parent views before voting would be enough
  (`System.FinalizedAgreeWhenVotesRise`); so are views led by correct authorities and entered by QCs
  (`System.FinalizedAgreeWhenQCsDrive`). Neither half of the latter can be dropped. With four faulty leaders
  among thirteen authorities and every view entered by a QC, two correct nodes finalise proposals on different
  branches; the voters vote on a parent of view 1 and then on the root (`Fork.FinalityCanFork`). And three correct
  authorities with no faulty one do the same by timeouts alone: a leader that has moved on by timeouts ignores the
  certificates of the views it has left (`CorrectFork.CorrectNodesCanFork`).
- **Timeout certificates fail where they are needed.** The maker stores the timeout's own view where the verifier
  reads the signed high-QC view, so a TC built from verified timeouts of view v verifies if and only if all of
  them carried a high QC of view v (`Aggregation.TimeoutsMakeVerifiableTC`). A TC that a correct node passes on for
  a view v from 1 on is therefore rejected by every node unless a proposal of view v has been certified
  (`System.RelayedTCsFail`). Two correct authorities are enough to see it (`TimeoutRun.RelayedTCRejected`). The
  repository's test of TC verification fills that slot with the high-QC view instead.
- **Certificates may be signed by strangers.** Certificate verification does not look at the authority list
  (`Invariant.OutsiderVerifies`, `Invariant.VerifiedQuorumExactly`). With one key off the list in certificates a
  node reaches any view although no authority has signed anything (`OutsiderRun.OutsiderMovesViews`).
- **Agreement is on proposals, not on blocks.** Nodes that finalise proposals of one view finalise the same block
  (`System.SameViewSameBlock`). Proposals of different views on one chain can carry different blocks of one height,
  and two correct nodes can finalise these, because no code compares a proposal's block with those below it
  (`Fork.BlocksCanDiverge`). On every chain block numbers never fall towards the tip and equal numbers mean equal
  blocks if and only if each block is the last one below it or has a larger number (`Blocks.ClimbingExactly`). With
  that comparison, and the one on parents, made for their own votes, all correct nodes' finalised blocks are in one
  order (`Blocks.BlocksAgreeWhenVotesClimb`).

## Model

| member | source | states |
|---|---|---|
| Certificates.VerifyQC | hotstuff/consensus/src/message.rs:51-75 | The QC verification loop returns the verdict that VerdictExact characterises. |
| Certificates.VerifyTC | hotstuff/consensus/src/message.rs:242-270 | The TC verification loop returns the same verdict on its ballots, each with the digest of its own stored view. |
| Certificates.VerdictExact | hotstuff/consensus/src/message.rs:51-75 | Ok exactly for distinct signers, a quorum of them, all signatures good; otherwise the first repeated signer, then too few signers, then the first bad signature, in that order. |
| Certificates.VerifyAuthor | hotstuff/consensus/src/message.rs:180-192 | A message's author check passes exactly for an authority with its own signature of the digest. |
| Certificates.MessagesVerifyExactly | hotstuff/consensus/src/message.rs:138-231 | Exactly the proposals, votes and timeouts that verify: a listed author, its own signature, and a carried QC that is sound or has the default hash and view, whatever its votes; an unlisted author is reported first. |
| Aggregation.Aggregator.constructor | hotstuff/consensus/src/aggregator.rs:18-20 | A new aggregator is empty. |
| Aggregation.Aggregator.AddVote | hotstuff/consensus/src/aggregator.rs:22-81 | Recording a vote in place gives the next aggregate and the result of RecordVote. |
| Aggregation.Aggregator.AddTimeout | hotstuff/consensus/src/aggregator.rs:35-123 | Recording a timeout in place gives the next aggregate and the result of RecordTimeout. |
| Aggregation.VoteRecordedExactly | hotstuff/consensus/src/aggregator.rs:22-70 | A vote is added to the bucket of its own view and digest exactly if signed and new there; no other vote bucket and no timeout bucket changes. |
| Aggregation.TimeoutRecordedExactly | hotstuff/consensus/src/aggregator.rs:35-112 | The same for a timeout and its view; no vote bucket changes. |
| Aggregation.BucketIsFirstArrivals | hotstuff/consensus/src/aggregator.rs:58-81 | After any calls each bucket is the distinct signed voters of its key in order of first arrival, and its weight is their number. |
| Aggregation.FirstArrivalsMembers | hotstuff/consensus/src/aggregator.rs:64-70 | A voter is in the bucket of a digest if and only if it sent some signed vote for it. |
| Aggregation.EmissionExact | hotstuff/consensus/src/aggregator.rs:58-81 | A QC is returned exactly when a new voter brings the count to the threshold or beyond, with exactly those voters; the null-signature error exactly for an unsigned vote of a new voter. |
| Aggregation.WeightConserved | hotstuff/consensus/src/aggregator.rs:22-33 | All bucket weights together are the number of distinct (view, digest, voter) triples signed. |
| Aggregation.VotesMakeVerifiableQC | hotstuff/consensus/src/aggregator.rs:68-80 | Every QC built from individually verified votes passes QC verification and is signed by authorities only. |
| Aggregation.BucketIsFirstTimeouts | hotstuff/consensus/src/aggregator.rs:100-123 | After any calls the timeout bucket of a view is its distinct signed voters in order of first arrival, with that view stored. |
| Aggregation.TimeoutEmission | hotstuff/consensus/src/aggregator.rs:100-123 | A TC is returned exactly when a new voter brings the count to the threshold or beyond; the null-signature error exactly for an unsigned timeout of a new voter. |
| Aggregation.KindsAreSeparate | hotstuff/consensus/src/aggregator.rs:12-46 | However votes and timeouts are mixed, each kind is collected as if the other had never come. |
| Aggregation.MixedEmission | hotstuff/consensus/src/aggregator.rs:22-45 | What the last call of a mixed history returns is what it returns among the calls of its own kind alone. |
| Aggregation.TimeoutsMakeVerifiableTC | hotstuff/consensus/src/aggregator.rs:100-122 | A TC built from verified timeouts verifies if and only if every contributing timeout's high QC has the timed-out view; otherwise it fails with a bad signature. |
| Pending.PendingQueue.constructor | hotstuff/consensus/src/import.rs:202-217 | The stored queue starts empty, whatever the client holds. |
| Pending.PendingQueue.Poll | hotstuff/consensus/src/import.rs:230-273 | One poll pushes the new best blocks and then prunes for each finality notification. |
| Pending.BestExactly | hotstuff/consensus/src/import.rs:232-248 | The pushed blocks are those of exactly the new-best notes, each once, in the order of the notes. |
| Pending.QueueConserved | hotstuff/consensus/src/import.rs:230-273 | After any polls the popped blocks followed by the queue are exactly the new-best notes of all polls, each once and in order, and every popped block is at or below a notified number. |
| Pending.PollLeavesUnfinalised | hotstuff/consensus/src/import.rs:251-270 | If best blocks arrive in ascending order, a poll leaves only blocks above every number it was notified of. |
| Pending.PayloadExactly | hotstuff/consensus/src/consensus.rs:615-670 | Payload and block in process in every case: empty while a block in process is not finalised, then the first queued block above finality or empty; with none in process the queue's front or nothing. |
| Pending.BlockProposedOnlyWhenIdle | hotstuff/consensus/src/consensus.rs:615-670 | A block is proposed only from the queue, and only if no block is in process or the one in process is finalised. |
| Pending.LowestPendingChosen | hotstuff/consensus/src/consensus.rs:630-665 | For the queue that any polls with ascending pushes leave, the last one notified of the finalised number, both branches propose the lowest pending block above finality; no pushed block above it is lost if no larger number was notified. |
| GossipFilter.GossipValidator.constructor | hotstuff/consensus/src/network.rs:74-79 | The validator starts at view 0. |
| GossipFilter.GossipValidator.Validate | hotstuff/consensus/src/network.rs:105-128 | A message is kept exactly if it decodes and is at most one view behind. |
| GossipFilter.GossipValidator.MessageExpired | hotstuff/consensus/src/network.rs:131-150 | A message is expired exactly if it would not be kept. |
| GossipFilter.GossipValidator.MessageAllowed | hotstuff/consensus/src/network.rs:153-178 | A message of the right topic is sent on exactly if it would be kept. |
| Replica.OwnProposalShrinks | hotstuff/consensus/src/consensus.rs:500-561 | Each own proposal leaves strictly fewer to come, for any number of authorities, so the mutual recursion of proposal and vote handling ends. |
| Rotation.EachLeadsOnce | hotstuff/consensus/src/consensus.rs:216-219 | Any n consecutive views are led by each of the n authorities exactly once. |
| Rotation.RoundRobin | hotstuff/consensus/src/consensus.rs:216-219 | The rotation starts with the first authority in view 0 and follows the list's order, round and round. |
| Rotation.NextLeaderDiffers | hotstuff/consensus/src/consensus.rs:216-219 | With two or more authorities consecutive views have different leaders. |
| Rotation.OwnProposalEndsHere | hotstuff/consensus/src/consensus.rs:470-485 | With two or more authorities a node never handles its own vote on its own proposal. |
| Rotation.NestingDepth | hotstuff/consensus/src/consensus.rs:401-561 | With two or more authorities the recursion nests at most three deep. |
| ConsensusWorker.ConsensusState.constructor | hotstuff/consensus/src/consensus.rs:58-67 | View and last voted view start at 0, with the default high QC and an empty aggregator. |
| ConsensusWorker.VerifyCarriedQC | hotstuff/consensus/src/message.rs:151-153 | A carried QC is verified unless it equals the default one, votes aside. |
| ConsensusWorker.ConsensusState.LocalAuthorityId | hotstuff/consensus/src/consensus.rs:71-76 | The local id is the own key if it is on the authority list, and none otherwise. |
| ConsensusWorker.ConsensusState.MakeTimeout | hotstuff/consensus/src/consensus.rs:82-104 | A timeout of the current view with the high QC, signed; an error for a node that is no authority. |
| ConsensusWorker.ConsensusState.MakeProposal | hotstuff/consensus/src/consensus.rs:106-133 | A proposal of the current view on the high QC, signed; an error for a node that is no authority. |
| ConsensusWorker.ConsensusState.MakeVote | hotstuff/consensus/src/consensus.rs:135-159 | A vote, and the last voted view raised, exactly for an authority and a view above the last voted one. |
| ConsensusWorker.ConsensusState.VerifyProposal | hotstuff/consensus/src/consensus.rs:169-176 | The leader check, then the proposal's own verification. |
| ConsensusWorker.ConsensusState.VerifyTimeout | hotstuff/consensus/src/message.rs:214-231 | The author check, then the carried QC unless it is the default one. |
| ConsensusWorker.ConsensusState.AdvanceViewFromTarget | hotstuff/consensus/src/consensus.rs:210-214 | The view becomes the target plus one exactly if it has reached the target. |
| ConsensusWorker.ConsensusState.IsLeaderOf | hotstuff/consensus/src/consensus.rs:216-231 | The node leads a view exactly if its id is the rotation's entry for it. |
| ConsensusWorker.Worker.constructor | hotstuff/consensus/src/consensus.rs:267-293 | A worker built on fresh parts is in the initial state of the value model. |
| ConsensusWorker.Worker.AdvanceView | hotstuff/consensus/src/consensus.rs:672-675 | Equals AdvanceView of the value model; the gossip validator follows the view. |
| ConsensusWorker.Worker.HandleQC | hotstuff/consensus/src/consensus.rs:563-569 | Equals HandleQC of the value model. |
| ConsensusWorker.Worker.TryFinalize | hotstuff/consensus/src/consensus.rs:444-464 | Equals TryFinalize of the value model. |
| ConsensusWorker.Worker.GetProposalPayload | hotstuff/consensus/src/consensus.rs:615-670 | The search loop equals ChoosePayload, on which the payload lemmas are stated. |
| ConsensusWorker.Worker.AlreadyTwoEmpty | hotstuff/consensus/src/consensus.rs:522-532 | The backward count finds exactly the case of an empty payload after two empty ones. |
| ConsensusWorker.Worker.HandleProposal | hotstuff/consensus/src/consensus.rs:402-498 | Equals HandleProposal of the value model, result included, and ends. |
| ConsensusWorker.Worker.AbsorbProposal | hotstuff/consensus/src/consensus.rs:430-464 | Equals AbsorbProposal of the value model: certificates, store and finality. |
| ConsensusWorker.Worker.VoteOn | hotstuff/consensus/src/consensus.rs:470-495 | Equals VoteFor of the value model: the vote is gossiped unless this node leads the next view. |
| ConsensusWorker.Worker.Propose | hotstuff/consensus/src/consensus.rs:541-548 | Signs and gossips a proposal in the current view; an error for a node that is no authority. |
| ConsensusWorker.Worker.HandleVote | hotstuff/consensus/src/consensus.rs:500-561 | Equals HandleVote of the value model, result included, and ends. |
| ConsensusWorker.Worker.GenerateProposal | hotstuff/consensus/src/consensus.rs:587-613 | Equals GenerateProposal of the value model. |
| ConsensusWorker.Worker.HandleTimeout | hotstuff/consensus/src/consensus.rs:352-399 | Equals HandleTimeout of the value model. |
| ConsensusWorker.Worker.HandleLocalTimer | hotstuff/consensus/src/consensus.rs:334-350 | Equals HandleLocalTimer of the value model. |
| ConsensusWorker.Worker.HandleTC | hotstuff/consensus/src/consensus.rs:571-585 | Equals HandleTC of the value model. |
| Effects.HandleQCEffect | hotstuff/consensus/src/consensus.rs:563-569 | A QC moves the view by one and only from its own view; one from a later view is kept as high QC without moving; nothing else changes. |
| Effects.LastVotedExact | hotstuff/consensus/src/consensus.rs:135-159 | For an authority, a view is above the last voted one if and only if it is not 0 and the node has signed no vote or timeout of it or of a later view. |
| Effects.VotesExactly | hotstuff/consensus/src/consensus.rs:402-498 | In the whole handler, nested calls included, a node signs a vote for a proposal if and only if it accepts it, is in its view after its QC, is an authority, and has neither voted nor timed out there or later. |
| Responses.ProposalEmitsExactly | hotstuff/consensus/src/consensus.rs:402-498 | For every event: a call of the proposal handler emits it, nested calls included, if and only if one of its steps does: a vote, a view entry by QC, the vote's broadcast unless the node leads the next view, a finality request, or a request for an unknown block. |
| Responses.VoteEmitsExactly | hotstuff/consensus/src/consensus.rs:500-561 | The same for the vote handler: a completed quorum enters the next view from its own view and, at the leader of the view then reached, signs and gossips the proposal of the chosen payload, unless it is empty and the last two hashes are. |
| Responses.FinalizesExactly | hotstuff/consensus/src/consensus.rs:444-462 | In the whole handler a node asks to finalise g through ch if and only if some proposal handled in the call is accepted on a QC for ch, ch extends g by one view, both are stored, and g's block is neither empty nor the head. |
| Responses.NestedAreOwn | hotstuff/consensus/src/consensus.rs:480-556 | Everything handled in a call after the first message is the node's own: a proposal it has gossiped in a view it leads, or a vote it has signed as the next leader. |
| Responses.VoteGoesOut | hotstuff/consensus/src/consensus.rs:480-495 | A node that votes gossips the vote, or, leading the next view, has it in its own bucket when the handler returns. |
| Responses.VoteKept | hotstuff/consensus/src/consensus.rs:511-512 | A vote that counts is in its bucket when the handler returns, whatever nested calls followed. |
| Responses.BlockProposedOnQuorum | hotstuff/consensus/src/consensus.rs:512-548 | When a vote completes a quorum at the leader of the view then reached, with no unfinalised block in process, the first queued block above finality is gossiped in a proposal on the new high QC, however many empty ones came before. |
| Effects.GossipedProposalVotes | hotstuff/consensus/src/consensus.rs:541-548 | A proposal gossiped by a correct leader is never turned down: a correct node that hears it votes for it if and only if it knows the block and is ready for the view. |
| Responses.TimerEffect | hotstuff/consensus/src/consensus.rs:334-350 | When the timer fires the node will vote no more in its view, gossips a timeout that verifies, and has it in its own bucket. |
| Responses.TCEmitsExactly | hotstuff/consensus/src/consensus.rs:571-613 | For every event: a call of the TC handler emits it if and only if it is the entry of the next view from the TC's view, the signature or broadcast of the leader's proposal of the queue's front, or an event of handling that proposal. |
| Responses.TCEffect | hotstuff/consensus/src/consensus.rs:571-613 | A received TC makes the node enter a view if and only if it verifies and is of the node's view; the leader of the view then reached proposes the queue's front on its high QC; a TC that fails or is older changes nothing. |
| Responses.TimeoutEmitsExactly | hotstuff/consensus/src/consensus.rs:352-399 | For every event: a call of the timeout handler emits it if and only if it is a view entry by the carried QC or by the completed TC, that TC's broadcast, the leader's proposal of the queue's front with it, or an event of handling that proposal. |
| Responses.TimeoutEffect | hotstuff/consensus/src/consensus.rs:352-399 | A verified timeout of the node's view or later: its QC is seen, its voter is in the bucket, and nothing else happens unless it completes the count; then the TC is gossiped, the node leaves that view, and a leader proposes. |
| Trace.QuorumsMeet | hotstuff/consensus/src/aggregator.rs:72-74 | Two sets of n * 2 / 3 + 1 authorities share a correct one, for every n. |
| Trace.UniqueCertificate | hotstuff/consensus/src/consensus.rs:135-159 | In an acceptable trace at most one proposal is certified per view. |
| Trace.VotesAscend | hotstuff/consensus/src/consensus.rs:135-159 | A node's later vote has a larger view than any earlier vote or timeout of its own. |
| Trace.ParentCertifiedBelow | hotstuff/consensus/src/consensus.rs:138-143 | A certified proposal extends the root or a certified proposal of a strictly smaller view, though no code compares the two. |
| Trace.AncestorsCertified | hotstuff/consensus/src/synchronizer.rs:70-98 | The ancestor walk of a certified proposal passes only certified proposals, with strictly falling views, down to the root. |
| Trace.SettledExactly | hotstuff/consensus/src/consensus.rs:444-462 | For a two-chain on g: all certified proposals from g's view on extend g if and only if none above the child carries a QC from below g. |
| Trace.LateForkHasCulprit | hotstuff/consensus/src/consensus.rs:135-159 | If a certified proposal above a two-chain carries a QC from below it, a correct authority voted for the two-chain's child and later for that proposal. |
| Trace.SettledByVotes | hotstuff/consensus/src/consensus.rs:135-159 | For a two-chain (g, p): all certified proposals from g's view on extend g if and only if no voter for p later votes for a certified proposal on an older parent. |
| Trace.RisingVotesPreventForks | hotstuff/consensus/src/consensus.rs:135-159 | If no correct node's vote is on an older parent than an earlier vote of its own, no two-chain is forked. |
| Trace.FinalityIsTwoChain | hotstuff/consensus/src/consensus.rs:444-462 | Every finalised proposal and its child of the next view are certified by two quorums. |
| Trace.Agreement | hotstuff/consensus/src/consensus.rs:444-462 | Two finalised proposals lie on one chain if that condition holds of the lower one. |
| Trace.QCEntriesPreventForks | hotstuff/consensus/src/consensus.rs:563-569 | The condition holds if the views above are entered by QCs and led by correct authorities. |
| Trace.EnteredAll | hotstuff/consensus/src/consensus.rs:210-214 | A node in view w has entered every view up to w, the v-th entry being view v. |
| Trace.ViewsAreBacked | hotstuff/consensus/src/consensus.rs:352-373 | A node in view w is backed in each view from 1 to w - 1 by a quorum that voted or timed out there. |
| Trace.BallotSignedInView | hotstuff/consensus/src/consensus.rs:466-470 | A correct authority's vote or timeout of a view was signed while it was in that view. |
| Trace.BackedByCorrect | hotstuff/consensus/src/consensus.rs:352-373 | A backed view was reached by at least q - f correct authorities that signed a ballot of it. |
| Invariant.VerifiedQuorumExactly | hotstuff/consensus/src/message.rs:51-75 | A verified certificate is a quorum of authorities if and only if each of its signers is one. |
| Invariant.OutsiderVerifies | hotstuff/consensus/src/message.rs:51-75 | A certificate signed by a key off the list that verifies all the same. |
| Invariant.GoodQCCertified | hotstuff/consensus/src/message.rs:51-75 | A verified QC made of existing signatures certifies a proposal of exactly the QC's view. |
| Invariant.VerifiedTCCertified | hotstuff/consensus/src/message.rs:242-270 | A verified TC of view 1 or more in which every line stores the TC's view implies a certified proposal of that view. |
| CarriedTC.CarriedTCIgnored | hotstuff/consensus/src/consensus.rs:432-437 | Exchanging the TC in a proposal changes neither the handler's result nor, through all nested calls, anything of the state but the stored copy. |
| Invariant.HandleQCKeeps | hotstuff/consensus/src/consensus.rs:563-569 | Acting on a good QC keeps the invariant; the view moves exactly from the QC's own view. |
| Invariant.AdvanceByTCKeeps | hotstuff/consensus/src/consensus.rs:366-373 | Acting on a backed TC keeps the invariant; the view moves exactly from the TC's own view. |
| Invariant.RecordVoteKeeps | hotstuff/consensus/src/consensus.rs:199-202 | Recording a verified vote keeps the aggregate sound, and any QC it returns is good. |
| Invariant.RecordTimeoutKeeps | hotstuff/consensus/src/consensus.rs:194-197 | Recording a verified timeout keeps the aggregate sound, and any TC it returns is backed by a quorum of its view. |
| Invariant.TryFinalizeKeeps | hotstuff/consensus/src/consensus.rs:444-462 | Finalising keeps the invariant: what is finalised is a two-chain of certified proposals. |
| Invariant.ProposeKeeps | hotstuff/consensus/src/consensus.rs:541-548 | A leader's proposal is on a root or certified parent, verifies, and keeps the invariant. |
| Invariant.VoteKeeps | hotstuff/consensus/src/consensus.rs:470-495 | A vote is for a proposal with a root or certified parent, signed by its leader, above all earlier ballots, and keeps the invariant. |
| Invariant.HandleProposalKeeps | hotstuff/consensus/src/consensus.rs:402-498 | Handling any deliverable proposal keeps the invariant and emits only acceptable events, through all nested calls. |
| Invariant.HandleVoteKeeps | hotstuff/consensus/src/consensus.rs:500-561 | The same for any deliverable vote. |
| Invariant.HandleTimeoutKeeps | hotstuff/consensus/src/consensus.rs:352-399 | The same for any deliverable timeout. |
| Invariant.HandleTCKeeps | hotstuff/consensus/src/consensus.rs:571-585 | The same for any deliverable TC. |
| Invariant.HandleLocalTimerKeeps | hotstuff/consensus/src/consensus.rs:334-350 | The same for the local timer. |
| System.RunSafe | hotstuff/consensus/src/consensus.rs:295-332 | In every state of every run the trace is acceptable and every correct node satisfies the invariant. |
| System.OneCertificatePerView | hotstuff/consensus/src/aggregator.rs:64-80 | In every run at most one proposal is certified per view. |
| System.CertifiedAncestry | hotstuff/consensus/src/synchronizer.rs:70-98 | In every run a verified QC certifies a proposal of its own view whose ancestors are all certified, views falling to the root. |
| System.FinalityExact | hotstuff/consensus/src/consensus.rs:428-462 | In every run a finalised proposal and its child of the next view are both certified, and it stays settled if and only if no certified proposal above carries a QC from below, and if and only if no voter for the child falls back behind it. |
| System.FinalizedAgree | hotstuff/consensus/src/consensus.rs:444-462 | Proposals finalised by any two correct nodes lie on one chain if that condition holds of the lower one. |
| System.FinalizedAgreeWhenQCsDrive | hotstuff/consensus/src/consensus.rs:563-569 | Finalised proposals agree in runs whose views above the lower pair are led by correct authorities and entered by QCs. |
| System.DisagreementHasCulprit | hotstuff/consensus/src/consensus.rs:135-159 | If two finalised proposals are on different branches, a correct authority voted for the lower one's child and later, for a certified proposal, on an older parent. |
| System.FinalizedAgreeWhenVotesRise | hotstuff/consensus/src/consensus.rs:135-159 | All finalised proposals lie on one chain if no correct node votes on an older parent than in an earlier vote of its own. |
| System.SameViewSameBlock | hotstuff/consensus/src/consensus.rs:444-462 | Any two correct nodes that finalise proposals of one view finalise the same proposal, hence the same block. |
| System.NodesNeverRegress | hotstuff/consensus/src/consensus.rs:204-214 | Over every run no node's view, last voted view or high-QC view falls, and no event is undone. |
| Blocks.ClimbingExactly | hotstuff/consensus/src/consensus.rs:402-431 | For every chain: each block is the last one below it or higher if and only if all blocks of the chain are in order, equal numbers meaning equal blocks. |
| Blocks.CertifiedChainsInOrder | hotstuff/consensus/src/consensus.rs:402-431 | All certified chains are in order if and only if every certified proposal's block is the last one below it or higher. |
| Blocks.VotesMakeChainsClimb | hotstuff/consensus/src/consensus.rs:135-159 | If correct nodes vote only for proposals of that kind, only such proposals are certified. |
| Blocks.FinalizedBlocksInOrder | hotstuff/consensus/src/consensus.rs:444-462 | Finalised blocks of any two correct nodes are in order, and of one number equal, if the lower proposal is not forked and the higher one's chain climbs. |
| Blocks.BlocksAgreeWhenVotesClimb | hotstuff/consensus/src/consensus.rs:135-159 | All finalised blocks of correct nodes are in one order if each correct node compares parents and blocks before its own votes. |
| System.ViewsContiguousAndBacked | hotstuff/consensus/src/consensus.rs:210-214 | No view is skipped; a node in view w means q - f correct authorities signed a vote or timeout in each view from 1 to w - 1, while in it. |
| System.BallotsCastInView | hotstuff/consensus/src/consensus.rs:334-350 | Every vote and timeout, a node's first included, names the view the node is in, for a vote never view 0; the vote is for that view's leader's proposal on the root or an already certified parent, the timeout names an existing high QC. |
| System.VotingDiscipline | hotstuff/consensus/src/consensus.rs:135-159 | A node's votes have strictly increasing views, none in or below a view it timed out of. |
| System.HighQCVerifies | hotstuff/consensus/src/consensus.rs:204-208 | In every state the high QC is the default or verifies, and the last voted view is at most the view. |
| System.BroadcastsVerify | hotstuff/consensus/src/consensus.rs:82-133 | Every proposal, vote and timeout gossiped by a correct node verifies at every node, and proposals pass the leader check. |
| System.RelayedTCsFail | hotstuff/consensus/src/aggregator.rs:111-122 | Unless a proposal of view v >= 1 is certified, every TC of view v gossiped by a correct node is rejected at every correct node, which stays as it is. |
| System.ExpiredStaysExpired | hotstuff/consensus/src/consensus.rs:672-675 | The gossip validator always stands at the node's view, and what it has dropped stays dropped. |
| Fork.FinalityCanFork | hotstuff/consensus/src/consensus.rs:135-159 | A run with four faulty of thirteen authorities in which two correct nodes finalise proposals on different branches and end on different blocks of one height, every view entered by a QC; a voter votes on a parent of view 1 and then on the root. |
| Fork.BlocksCanDiverge | hotstuff/consensus/src/consensus.rs:444-462 | A run in which two correct nodes finalise a proposal and its child and end on different blocks of one height; the child does not climb. |
| CorrectFork.CorrectNodesCanFork | hotstuff/consensus/src/consensus.rs:563-569 | A run of three correct authorities and no faulty one in which two nodes finalise proposals on different branches and end on different blocks of one height. |
| TimeoutRun.RelayedTCRejected | hotstuff/consensus/src/aggregator.rs:111-122 | A run of two correct authorities that time out of view 1; the TC one of them gossips fails at the other with a bad signature. |
| OutsiderRun.OutsiderMovesViews | hotstuff/consensus/src/message.rs:242-270 | For every view, a run with one unlisted key in which a node reaches that view and no authority signs anything. |

## Left out

- Liveness, timer durations, the event loop's fairness and channel capacity: the timer may fire at any time.
- Catch-up of lagging replicas: a certificate of a later view does not move the view (`Effects.HandleQCEffect`), and there is no other mechanism.
- sr25519, Blake2, SCALE and the keystore: ideal signatures and digests, identity encoding, signing that never fails.
- Substrate client internals: block status, finalisation, fork sync and the auxiliary store are a set of blocks, a head, a trace event and a map; errors of the store are not modelled.
- Changes of queue or client by other threads in the middle of a handler call: a call sees only its own changes.
- Blocks fetched by sync after a request, and proposals missing from the store: the source only logs them.
- QCMaker and TCMaker as objects: they are values inside the aggregator's maps, which are updated in place; no aliasing of makers is modelled.
- Initial filling of the pending queue from the client: the source computes it and drops it.
- Block import, `client.rs`, `aux_schema.rs`, `config.rs`, `store.rs`, `authorities.rs`, the pallet and the node template: wrappers and single-branch checks.
- State across restarts: last voted view and high QC live in memory only, so every claim is about one run of each node.
- 64-bit wrap-around of view numbers and weights.
