# A verified model of the Malachite-driven chain

The program connects a simulated network of BFT consensus peers to an in-memory execution chain. This
project models both halves in Dafny and proves what holds in every run of each, and across the joint.

**The consensus pipe.** A block builder numbers batches of transactions 0, 1, 2, … and hands them over through
a one-slot channel. N peers share one network; the simulator takes an envelope, feeds it to the destination
peer's consensus state, and the peer's application turns every effect of the consensus library into envelopes
or announced steps. A consumer pairs proposed and finalized steps by height and relays the batches of peer
0's decisions. The main results are that all this is a plain FIFO pipe, that no two peers finalize different
values at a height, that no peer ever leaves round 0, that the network never runs dry, and that the consumer's
`unwrap` never fails.

**The execution side.** A task queues relayed batches and keeps at most one insert job in flight. Each job
builds and executes a block, appends it to a store made of three maps, drives the engine's fork choice and
moves the canonical head; a download client walks the same store. The main results are that the store always
stands for a plain linked list of blocks, that the client's walks are slices of this list, that every
fork-choice head ever sent stays downloadable down to the first local block, and that no batch and no
transaction is lost on the way. `TaskTheorems.BuilderToBlocks` joins the two halves.

## How it is organised

| files | contents |
|---|---|
| `Primitives`, `Messages`, `Options` | transactions, headers, votes, proposals, inputs, effects, envelopes |
| `PeerSets` | validator set and quorum arithmetic |
| `Consensus` | the one place that says what is assumed of the consensus library |
| `Agreement` | agreement of those rules in any number of rounds, with up to a third of the power faulty |
| `Application`, `Simulator`, `Pipeline` | the shell, the network and the two ends of the pipe, as objects; their contracts refer to pure specification functions |
| `EffectOrder`, `Protocol` | the whole pipe as one state machine, and why the objects refine it |
| `ProtocolInvariant`, `ProtocolSteps`, `ProtocolRuns`, `ProtocolTheorems` | its invariant, the steps that keep it, and the theorems |
| `Chains`, `Storage`, `Client` | the plain list of blocks, the store that stands for it, the client that reads it |
| `TaskModel`, `Task` | the execution task as a state machine, and as an object that refines it |
| `TaskTheorems`, `TaskHistory` | what holds in every run, and what the actions of a run add up to |

**The library in two layers.** `Simulator.Simulator.Step` takes the library's answer as an arbitrary argument, so the shell's
safety holds for any library. `Consensus.LibraryAnswers` is the second layer: each peer follows Algorithm 1
of "The latest gossip on BFT consensus" (arXiv:1807.04938), adapted to the way the application uses it, and
its effects may come in any order in which announcements keep theirs.

**Delivery order.** In `Protocol` the network is a multiset and any envelope may be delivered next. The
simulator's FIFO queue is one such order (`Protocol.FifoStepRefines`), so the theorems hold for it and for
every other order. They hold for every positive number of peers, of which 4 to 24 are the ones the simulator
admits.

**Panics.** A step that panics in the program is a step that cannot be taken, and the contracts of the
objects say exactly when that is.

**Hashing.** A block hash is a free constructor applied to the header, so hashes are injective and no axiom is
needed. The hash of the base block is arbitrary: that it differs from the hash of every later block is
proved (`Chains.HashesDiffer`), by counting how deep headers nest.

## Where code and documentation disagree

The model follows the code.

- src/chain/application.rs:208 says that the application waits for a value to propose. It uses `try_recv`, and
  its caller unwraps the result: with an empty slot it panics. `ProtocolTheorems.SimulatorStepPanicsIff` proves
  that in a reachable state this is the only way a step can panic, and exactly when it does;
  `ProtocolTheorems.FirstDeliveryMayPanic` shows that the very first delivery can do it.
- src/chain/storage.rs:125-135 sums up the blob gas of the block's transactions for its header, and
  src/chain/storage.rs:165 overwrites the sum with zero. `Chains.BlobGasRecordedIffNone` proves that the header
  is right exactly when no transaction uses blob gas.
- src/chain/storage.rs:37-38 records the base header and body but not the base hash in the index. The base can
  therefore be met neither by hash nor as the start of a request by number (`Client.LookupOutside`); a falling walk ends at the first local block.

## Model

| member | source | states |
|---|---|---|
| PeerSets.PeerSet.GetByAddress | src/chain/context/peer_set.rs:52-54 | finds a peer of the set with that address, and none exactly when no peer has it |
| PeerSets.NewPeerSet | src/chain/context/peer_set.rs:21-32 | the loop yields peers 0 to size - 1 in order; each is found under its own address; the total power is the size |
| PeerSets.TotalPowerIsSum | src/chain/context/peer_set.rs:47-50 | reporting the number of peers as total voting power is right: it is the sum of the single powers |
| PeerSets.ThresholdsByCount | src/chain/context/peer_set.rs:47-50 | by head count: a quorum is exactly more than 2n/3 distinct peers of n (3 of 4 suffice, 2 do not), a skip threshold exactly more than n/3 |
| PeerSets.QuorumsIntersect | src/chain/context/peer_set.rs:47-50 | two sets with more than 2/3 of the power share a member outside any set with at most 1/3 |
| Agreement.ReactKeeps | src/chain/application.rs:71-86 | whatever a peer is fed and whichever rules fire, its own votes stay disciplined: one per round, precommits backed by a prevote quorum, prevotes respecting the lock, decisions backed by a precommit quorum |
| Agreement.PrevoteQuorumsFollow | src/chain/application.rs:170-202 | after a precommit quorum for a value, no prevote quorum for another value exists in that round or any later one |
| Agreement.PrecommitQuorumsAgree | src/chain/application.rs:170-202 | precommit quorums of one height, in whatever rounds and held by whichever correct peers, are for one value |
| Agreement.ClusterStepKeeps | src/chain/simulator.rs:216-237 | every step of a cluster fed by an adversary keeps discipline and authenticity of votes; logs only grow |
| Agreement.AgreementInEveryRun | src/chain/application.rs:170-202 | in every run, with any rounds, timeouts and proposals and up to a third of the power faulty, correct peers that ever decide a height decide the same value id |
| Application.HandleAllConcat | src/chain/application.rs:71-86 | handling two lists of effects in turn is handling their concatenation, panics included |
| Application.VoteReachesOthersOnce | src/chain/application.rs:119-132 | publishing a vote puts exactly one envelope for each other peer on the wire, none for oneself, and nothing else |
| Application.ProposalReachesAllOnce | src/chain/application.rs:133-164 | publishing a proposal sends each peer, oneself included, the proposal once and its proposed value once, and nothing else |
| Application.VotesInPeerOrder | src/chain/application.rs:117-132 | the votes leave in the order of the peers, oneself left out: the k-th envelope is given |
| Application.ProposalsInPeerOrder | src/chain/application.rs:117-164 | proposals leave in the order of the peers, each followed at once by its proposed value |
| Application.AnnouncedOncePerPeer | src/chain/application.rs:151-154 | a published proposal is announced once per peer and a vote never |
| Application.EffectsInOrder | src/chain/application.rs:71-86 | what each effect sends and announces follows what the effects before it did |
| Application.PublicationKeepsOrder | src/chain/application.rs:133-164 | after a publication every proposed value on the wire still follows its proposal |
| Application.ShellIsSafe | src/chain/application.rs:230-345 | for any list of effects from any library: all envelopes are addressed to peers, control inputs only to oneself, proposals come before their proposed values |
| Application.Application.Init | src/chain/application.rs:55-67 | one envelope to oneself that starts height 0, and nothing else |
| Application.Application.HandleScheduleTimeout | src/chain/application.rs:88-108 | only a Commit timeout is sent, to oneself |
| Application.Application.HandlePublish | src/chain/application.rs:110-168 | the loop over peers sends the envelopes and announcements that the two reach-once lemmas characterise |
| Application.Application.HandleDecide | src/chain/application.rs:170-202 | announces the decision and sends oneself the start of the next height |
| Application.Application.HandleGetValue | src/chain/application.rs:209-228 | succeeds exactly when the slot holds a value, and then empties it into an envelope to oneself |
| Application.Application.HandleEffect | src/chain/application.rs:230-345 | panics exactly on the four unimplemented effects and on a value request with an empty slot; otherwise sends what the specification says |
| Application.Application.ApplyInput | src/chain/application.rs:71-86 | handles the effects in order up to the first panic, as the specification of the whole list says |
| EffectOrder.HandleAllSums | src/chain/application.rs:230-345 | a list of effects is handled without panic exactly when none is unimplemented and the slot serves every value request; what is sent is the sum over the effects |
| EffectOrder.OrderIsImmaterial | src/chain/application.rs:230-345 | reordering effects changes neither what is sent nor what is announced nor the slot, only the order of sending |
| Simulator.Simulator.constructor | src/chain/simulator.rs:87-157 | params, application and state of each peer carry its address; all applications share the channels |
| Simulator.Simulator.InitializeSystem | src/chain/simulator.rs:174-201 | registers metrics for every peer, sends each the start of height 0, and establishes the invariant |
| Simulator.Simulator.StepWithEnvelope | src/chain/simulator.rs:216-237 | every lookup for an addressed envelope succeeds; only the destination's state changes |
| Simulator.Simulator.Step | src/chain/simulator.rs:206-214 | for any answer of the library: takes the oldest envelope, appends what the shell sends, and keeps the invariant that every envelope ever sent is well addressed and in causal order |
| Pipeline.ChainConsumer.Run | src/chain.rs:205-247 | one batch per decision of peer 0 is relayed, in order: that of the first proposal of its height, remembered or read before; reading stops exactly at a decision of peer 0 whose height was not proposed before |
| Pipeline.ConsumeAllFailsIff | src/chain.rs:222-225 | the unwrap fails among the first n steps exactly if one of them is a decision of peer 0 for a height never proposed before it |
| Pipeline.ConsumeAllRelays | src/chain.rs:222-234 | the relayed batches are those of the decisions of peer 0, in order, each from its height's first proposal |
| Pipeline.ConsumeAllRemembers | src/chain.rs:214-221 | the heights remembered are exactly those proposed, each with its first value in spite of repeated announcements |
| Pipeline.BlockBuilder.BuildNext | src/chain.rs:150-178 | the k-th value handed over carries id k, and waits in the slot |
| Protocol.FifoInitRefines | src/chain/simulator.rs:174-201 | the initialized simulator is the machine's initial state |
| Protocol.BuilderTurnRefines | src/chain.rs:150-178 | a turn of the builder is a build of the machine |
| Protocol.SilentEffects | src/chain/application.rs:230-345 | effects answered without sending can be dropped from a list without changing its outcome |
| Protocol.FifoStepRefines | src/chain/simulator.rs:206-237 | a step of the simulator's queue with an answer of the library is a delivery of the machine |
| ProtocolRuns.EnabledRules | src/chain/application.rs:331-340 | in a safe state only a prevote, precommit or decision for the height's one proposal can be enabled; skipping a round and precommitting nil never are |
| ProtocolRuns.DeliverSafe | src/chain/simulator.rs:216-237 | accepting an envelope and firing any enabled rules keeps every safety conjunct and produces no effect of a later round |
| ProtocolRuns.ReadSucceeds | src/chain.rs:205-247 | in a safe state the next read succeeds and finds for a decision of peer 0, which is for the next height, the value it names |
| ProtocolRuns.StepKeepsInv | src/chain/simulator.rs:161-172 | building, delivering and reading all keep the invariant of the pipe |
| ProtocolRuns.RunKeepsInv | src/chain/simulator.rs:161-172 | the invariant holds in every state of every run |
| ProtocolTheorems.RoundZero | src/chain/application.rs:88-108 | no peer leaves round 0; everything in flight or logged has round 0, no vote is nil, and only Commit timeouts are in flight |
| ProtocolTheorems.RoundZeroInEveryRun | src/chain/application.rs:331-340 | the same in every run, and no delivery ever produces an effect reserved for later rounds |
| ProtocolTheorems.DeliveryIsClusterStep | src/chain/simulator.rs:216-237 | every delivery of the pipe is a step of the cluster for which agreement is proved |
| ProtocolTheorems.RunKeepsCluster | src/chain/simulator.rs:161-172 | in every run of the pipe the peers satisfy the cluster invariant with no faulty peer |
| ProtocolTheorems.AgreementInEveryRun | src/chain/application.rs:170-202 | peers that finalize the same height name the same value id, that of a proposal peer 0 made for the height |
| ProtocolTheorems.FinalizedIsSupported | src/chain/application.rs:170-202 | behind every announced decision stands a proposal and a precommit quorum in the announcing peer's log |
| ProtocolTheorems.ValuesIdentifiedById | src/chain/context/value.rs:11-37 | comparing values by id loses nothing: proposals anywhere in the system with one value id are equal, batch included |
| ProtocolTheorems.NeverStalls | src/chain/simulator.rs:203-214 | in a state that satisfies the invariant the network holds an envelope, even with peers at different heights |
| ProtocolTheorems.NeverStallsInAnyRun | src/chain/simulator.rs:203-214 | so the blocking receive never hangs, in any run |
| ProtocolTheorems.AcceptancePanicsIff | src/chain/application.rs:209-228 | in a reachable state accepting an envelope panics exactly when peer 0 starts a height while the slot is empty |
| ProtocolTheorems.DeliveryPanicsIff | src/chain/simulator.rs:216-237 | the same for the whole delivery, with any enabled rules firing after acceptance |
| ProtocolTheorems.SimulatorStepPanicsIff | src/chain/simulator.rs:206-237 | the same for a simulator step with any answer of the library, in whatever order its effects come |
| ProtocolTheorems.FirstDeliveryMayPanic | src/chain/application.rs:278-285 | a concrete panic: peer 0's first envelope, before the builder has handed over a value |
| ProtocolTheorems.DeliverExtends | src/chain/application.rs:71-86 | an enabled rule can always be fired without panic, and leaves fewer rules to fire |
| ProtocolTheorems.Settles | src/chain/application.rs:71-86 | every delivery that has begun can be completed to a quiescent peer |
| ProtocolTheorems.EveryEnvelopeIsDeliverable | src/chain/simulator.rs:216-237 | with a value in the slot, every envelope in flight can be delivered |
| ProtocolTheorems.NoDeadlockInAnyRun | src/chain/simulator.rs:161-172 | in every state of every run the builder can build or some envelope can be delivered |
| ProtocolTheorems.ConsumerNeverPanics | src/chain.rs:221-234 | every read succeeds; a decision of peer 0 is for the height after those relayed, and the value found by height is the one the decision names |
| ProtocolTheorems.ConsumerIsLoop | src/chain.rs:205-247 | in every run the machine's consumer is the consumer's loop over the steps read so far |
| ProtocolTheorems.ReadingAllRelaysFinalized | src/chain.rs:205-247 | in every run a consumer that reads all announced steps never fails and has relayed the batch of every height peer 0 finalized: the first batches built |
| ProtocolTheorems.StepRefinesPipe | src/chain.rs:150-247 | every step is a step of a FIFO pipe: a build puts one batch in, a delivery changes nothing, a relay takes the next batch out |
| ProtocolTheorems.RelayedIsPrefixOfBuilt | src/chain.rs:150-247 | in every run the relayed batches are a prefix of the built ones, and the batch relayed at height h is the one with id h |
| Chains.HashesDiffer | src/chain/storage.rs:95-107 | the base and all local blocks have pairwise different hashes, whatever the base hash is |
| Chains.DifficultyIsTwoPerBlock | src/chain/storage.rs:137-159 | the local blocks' difficulties add up to 2 per block |
| Chains.ExcessBlobGasDecays | src/chain/storage.rs:161-182 | on a Cancun-active chain the k-th local block's excess blob gas is the base's excess and used gas less k times the target, floored at zero (section "Header extension" of EIP-4844) |
| Chains.FirstCancunBlock | src/chain/storage.rs:167-182 | a Cancun block on a pre-Cancun parent has no excess blob gas |
| Chains.BeaconRootInherited | src/chain/storage.rs:161-165 | on a Cancun-active chain every local block carries the base's beacon root |
| Chains.BlobGasRecordedIffNone | src/chain/storage.rs:125-165 | a Cancun block's header records the blob gas of its transactions exactly when they use none |
| Chains.HeaderCommitsToBody | src/chain/storage.rs:137-159 | the roots in a header leave no choice of body |
| Storage.AppendedRepresents | src/chain/storage.rs:95-107 | appending to the three maps and fields is appending to the block list: contiguous headers, linked parents, a bijective index, a body for every block, matching tip and total difficulty |
| Storage.StorageInner.constructor | src/chain/storage.rs:29-42 | the new store stands for the chain with the given base and no local block |
| Storage.StorageInner.BlockHash | src/chain/storage.rs:76-80 | the search through the index gives the hash of the local block with that number, or nothing, in whatever order it iterates |
| Storage.StorageInner.InsertNewBlock | src/chain/storage.rs:95-107 | the store then stands for the chain extended by the header, renumbered and relinked to the old tip |
| Storage.StorageInner.BuildHeaderTemplate | src/chain/storage.rs:111-185 | number, parent and timestamp, roots that match the body, and the fields that depend on the parent and the active forks |
| Storage.StorageInner.BuildAndExecute | src/chain/storage.rs:191-311 | on failure nothing changes; on success the chain grows by one block with these transactions, built on the old tip, and the sealed header is the stored tip under its true hash |
| Client.LookupBlock | src/chain/storage.rs:83-92 | a local block is found by its number and by its hash |
| Client.LookupOutside | src/chain/storage.rs:37-38 | the base is not found by its hash, and nothing is found beyond the tip |
| Client.SliceHeaders | src/chain/client.rs:56-70 | a slice header by header: min(limit, blocks left) of them, the k-th being k blocks up or down from the start |
| Client.RisingWalk | src/chain/client.rs:56-70 | walking up by number from block s yields blocks s, s + 1, … up to the limit or the tip |
| Client.FallingWalk | src/chain/client.rs:56-70 | walking down by parent hash from block s yields s, s - 1, … down to the limit or the first local block |
| Client.WalkIsAnswer | src/chain/client.rs:44-70 | from any hash, known or not, the walk is the slice of the block list |
| Client.FallingReversesRising | src/chain/client.rs:44-70 | over the same blocks a falling answer is the reverse of a rising one |
| Client.MalachiteClient.FetchHeaders | src/chain/client.rs:33-75 | the loop returns exactly the slice of the block list that the request names |
| Client.MalachiteClient.FetchBodies | src/chain/client.rs:77-92 | as many bodies as there are leading known hashes, each the body of its hash; the first hash left out is unknown; on a valid store exactly the base and the local blocks are known |
| Client.BodiesForLeading | src/chain/client.rs:81-87 | bodies come back in order up to the first unknown hash and not beyond it |
| Client.StoredBodies | src/chain/storage.rs:95-107 | exactly the local blocks have bodies, and the base has the empty one |
| Client.BodiesAnswer | src/chain/client.rs:77-92 | on every store that stands for a chain, the answer is the bodies of the leading hashes the chain knows |
| Client.HeadersAndBodiesAlign | src/chain/client.rs:33-92 | for any headers request, the bodies fetched for the answered hashes are one per header, in order, each with the roots its header carries |
| TaskModel.ConservedKept | src/chain/task.rs:100-133 | every action keeps: received is completed, then in flight, then queued, in order |
| TaskModel.HistoryKept | src/chain/task.rs:137-223 | every action keeps: the blocks hold exactly the batches whose execution succeeded, in order |
| TaskModel.UpdatesKept | src/chain/task.rs:155-172 | every action keeps: each update ever sent names a stored block, and a job awaiting a reply has built the tip from its batch |
| TaskModel.HeadsKept | src/chain/task.rs:211-213 | every action keeps: heads are stored blocks with strictly rising numbers; head, safe and finalized agree |
| TaskModel.NoneLostKept | src/chain/task.rs:142-153 | every action keeps: each submitted transaction is in the pool or in a stored block |
| TaskModel.RunKeepsInv | src/chain/task.rs:100-244 | every run keeps the whole invariant, whatever arrives and whatever executor and engine answer |
| Task.MalachiteTask.constructor | src/chain/task.rs:62-83 | the new task is in the machine's initial state |
| Task.MalachiteTask.SetPipelineEvents | src/chain/task.rs:86-88 | changes only the held event stream |
| Task.MalachiteTask.Receive | src/chain/task.rs:104-107 | moves the oldest batch from the channel to the end of the queue: the machine's receiving action |
| Task.MalachiteTask.StartJob | src/chain/task.rs:109-137 | the job takes the oldest queued batch and the event stream |
| Task.MalachiteTask.Execute | src/chain/task.rs:142-165 | on success the block built from the batch is stored, exactly the batch's hashes leave the pool, and one update names the new tip; on failure the job ends and store, pool and updates are unchanged |
| Task.MalachiteTask.HandleReply | src/chain/task.rs:164-213 | Valid sets canonical, safe and finalized head to the job's header and gives the event stream back; Syncing sends the update once more; Invalid and errors set nothing and give nothing back |
| Task.MalachiteTask.AwaitReplies | src/chain/task.rs:164-206 | the fork-choice loop acts on the available replies up to and including the first that is not Syncing, and ends the job exactly if there is one |
| Task.MalachiteTask.PollJob | src/chain/task.rs:137-223 | all that a poll does: nothing while the lock is taken; a failure; or a block and then the replies acted on. It is ready exactly if execution failed or a reply is not Syncing |
| Task.MalachiteTask.Turn | src/chain/task.rs:102-239 | all that a pass does: one batch received if there is one, a job started if none is in flight, the job polled; it goes round again exactly if the job ends, which uses up one unit of channel, queue and job |
| Task.MalachiteTask.Poll | src/chain/task.rs:100-244 | the loop terminates and is a sequence of such passes, all but the last ending a job; it returns with queue and channel empty, or with a job that waits for the lock or has had only Syncing replies |
| TaskTheorems.RunGrows | src/chain/task.rs:100-244 | over a run, blocks, updates, heads and executions are only ever added |
| TaskTheorems.DownloadsAll | src/chain/client.rs:33-75 | a falling fetch from a local block with a large enough limit returns the whole parent-linked chain down to the first local block |
| TaskTheorems.UpdatesStayDownloadable | src/chain/task.rs:155-172 | for every update ever sent, such a fetch from its head gives that chain at that moment and in all later states, with the same answer |
| TaskTheorems.BatchesConserved | src/chain/task.rs:100-133 | in every reachable state: relayed is completed, in flight, queued and still on the channel, in order |
| TaskTheorems.ExecutionHistory | src/chain/task.rs:109-223 | the local blocks' transactions are the executed batches without the failed ones, in order; best - base + failures is the number of executions returned; the chain is linked and well built |
| TaskTheorems.FailureChangesNothing | src/chain/task.rs:216-218 | a failed execution leaves chain, pool, updates and head alone |
| TaskTheorems.NoTransactionLost | src/chain/task.rs:142-153 | in every reachable state each transaction ever in the pool is there or in a stored block |
| TaskTheorems.TotalDifficulty | src/chain/storage.rs:95-107 | in every reachable state the total difficulty is the base's plus 2 per local block |
| TaskTheorems.HeadsRise | src/chain/task.rs:211-213 | in every reachable state head, safe and finalized are one stored block not above the best; a later head has a strictly larger number |
| TaskTheorems.EventStreamHeld | src/chain/task.rs:132-231 | once set, the task holds its event stream exactly when no job is in flight and no update has ended Invalid or in error |
| TaskTheorems.BuilderToBlocks | src/chain.rs:150-247 | end to end: the executed batches are the first batches built, the one with id h at place h, and the blocks hold those that succeeded |
| TaskHistory.RunLedger | src/chain/task.rs:100-244 | in every run the relayed batches are those that arrived, the blocks those inserted, and receipts, executions, updates, heads and finished jobs as many as the actions account for |
| TaskHistory.PoolExactly | src/chain/task.rs:151-153 | in every run the pool holds exactly the transactions that no inserted block has held since they last entered |
| TaskHistory.SubmittedExactly | src/chain.rs:154-158 | the transactions that must not be lost are those pooled at the start and those submitted since |
| TaskHistory.PooledWasResubmitted | src/chain/task.rs:151-153 | a pooled transaction that is in a stored block was submitted again after that block was inserted |
| TaskHistory.BlocksAnnounced | src/chain/task.rs:155-172 | every stored block has an update, in block order, and besides the first one of each block there is one update per Syncing reply |
| TaskHistory.UpdatesInOrder | src/chain/task.rs:164-172 | all updates for a block come before all updates for a later one |
| TaskHistory.ValidSetsHead | src/chain/task.rs:211-213 | each Valid reply makes the tip, which its own job built from its batch, canonical, safe and finalized head; the n-th head is that of the n-th Valid reply |

## Left out

- The inside of the consensus library: only `Consensus` says what is assumed of it; its thresholds are its defaults, and what it does about equivocation, vote sync and crash recovery is absent.
- Signatures and their schemes: the application accepts every signature, so messages carry none.
- Liveness beyond the absence of stalls and deadlocks: that a height is eventually decided needs fairness of delivery.
- Builder turns within a delivery: the builder's hand-over falls between deliveries, so one delivery takes at most the value that was in the slot when it began.
- Simulator.Simulator.constructor: the network and slot are passed in empty rather than created, and the peer states are a field rather than a vector passed along.
- Simulator.Simulator.StepWithEnvelope: when the effects panic it says nothing about the channels, since the program ends there.
- Pipeline.BlockBuilder.BuildNext: requires a free slot, because the send blocks until there is one; the pool's transactions are an argument.
- Pipeline.ChainConsumer.Run: reads a finite list of steps, the ones sent before the channel is closed.
- Task.MalachiteTask.Poll: panics on a closed batch channel and on an engine that drops its reply sender are outside the runs considered; wake-ups are modelled by what the loop has seen when it returns.
- Task.MalachiteTask.SetPipelineEvents: theorems about the event stream take it as set once, before the first poll.
- EVM execution, state root, receipts root, logs bloom and base fee: arbitrary results; Merkle roots are free constructors of what they commit to.
- Pool ordering and contents beyond the set of hashes, the engine, the sync pipeline and the provider: arbitrary inputs and replies.
- Width of heights, ids, gas and difficulty: natural numbers without overflow.
- Clock, delays, metrics and logging: the timestamp is an argument, the rest is absent.
- Header fields that are always default (beneficiary, mix hash, nonce, extra data) and the read and write locks beyond whether the job finds the lock free.
- Node start-up (src/launcher.rs, src/main.rs), the validation that accepts everything (src/mac.rs), display and encoding of messages, and proposal parts.
