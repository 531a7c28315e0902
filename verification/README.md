# Verified models of a blockchain node

A Dafny project that models parts of the node software and proves properties of
every run of them. `dafny verify dfyconfig.toml` checks the whole project.

**Gas price estimator** (`Chain`, `GasPrices`, `GasCache`, `GasEstimator`,
`GasService`, `GasExample`). The estimator walks the block history backwards, stops at the
first block whose price is cached, reads the rest of its price list from an
ordered map, derives three estimates and evicts the oldest entries. The ledger
is a sequence of blocks of consecutive versions, the newest of which may still
be growing; version lookups may fail. `GasService.Serve` is the main result:
over any interleaving of the read-locked and write-locked sections of any number
of requests, on a ledger that grows in between, answers are ordered and never
below a minimum price everyone paid, and the cache holds true prices only. While
lookups succeed, in whatever order versions come, the answers are exactly those
of an estimator that has no price map and remembers its last result and two block
numbers, and the cache is one gap-free run of blocks. If moreover versions never
go back, each answer is what a recomputation from the ledger alone gives for that
request or for an earlier unexpired one.

**Epoch manager** (`EpochTypes`, `EpochManager`, `EpochRun`). One actor owns the
epoch state, the senders and the close handles; verification tasks own copies of
them and finish at any later time; processors ack a close request and lose their
receivers some time after. The `await` points of the original split an operation
into several atomic methods. `EpochRun.Run` ranges over every order of messages,
task completions, processor steps, acks and reconfigurations; the states the node
goes through are those of a pure step function.

**Catching up** (`CatchUp`, `CatchUpNetwork`). Epoch change proofs, and the
request/proof protocol between honest nodes on a network that loses, duplicates
and reorders packets: no delivery ever fails, epochs only advance, and a node
however far behind reaches a node ahead. A proof from anyone, once accepted, is
the true history.

**Agreement** (`SafetyRules`, `Quorums`, `Agreement`, `Replicas`,
`ReplicaExamples`, `ReplicaProgress`, `SafetyInit`). The 2-chain voting, timeout
and order-vote rules, and agreement for any number of epochs and Byzantine
validators that hold less than a third: no two committed blocks of an epoch are on
different branches. `Replicas` is about the components themselves: one
safety-rules object with its cache, disk, signer and verifier per honest validator,
every signing call with any outcome of its write, restarts at any time,
certificates checked by each object's own verifier against what has been released.
What they release is what the rules without caches release, and they agree
whenever every signing call is careful, which can be told before the call. Partners
are the progress results: from start-up, from any state in which the honest
validators are ready, or after any number of failed rounds, two rounds commit a
block. `SafetyInit` is the loop that
brings the rules to the current epoch, and the retry around it.

**Smaller parts.** Cursor pagination (`Pagination`), with clients that call the
resource and module endpoints page after page, the port allocator of concurrent
test processes (`Ports`), long-poll admission (`LongPoll`), the per-epoch
configuration caches (`EpochCache`), the randomness key pair (`RandKeys`),
transaction timestamps (`Rendering`) and event translation (`EventTranslation`).

Some properties do not hold on all inputs. Each has inputs that break it and the
condition under which it holds:

- a request for an older version than one already served may see fewer prices
  (`GasExample.StaleCallerDiffers`, `GasEstimator.ListExactIff`);
- pages of resources may repeat entries, or never end, when a group's cursor is
  rebuilt as a resource key (`Pagination.GroupCursorMayLoop`,
  `Pagination.FollowResources`, `Pagination.PagesAreTheScanIff`);
- validators may disagree when one signs while its verifier is of another epoch
  than its stored data, which happens exactly after the write of a new epoch's data
  failed and yet reached the disk (`ReplicaExamples.MixedMayDisagree`,
  `Replicas.MixedIff`, `Replicas.CarefulRunsAgree`);
- they may also disagree when a timeout certificate of another epoch is handed to
  the safety rules (`ReplicaExamples.OldTcMayDisagree`, `Replicas.CarefulRunsAgree`);
  `consensus/consensus-types/src/sync_info.rs:149-151` checks for that before;
- initialising the safety rules may stop before the newest epoch when storage is
  more than a page of epochs ahead (`SafetyInit.StopsEarly`,
  `SafetyInit.SettlesAtNewestIff`);
- a randomness key pair is not stable when an epoch comes back after another one
  (`RandKeys.EpochReturns`, `RandKeys.ConsistentIffContiguous`).

Assumptions the statements carry: genesis is one transaction alone in epoch 0; a
full block has a user transaction and at most one end-of-block record
(`PricedAt`); the history settings pass the configuration sanitizer; hashes and
signatures cannot be forged; an epoch has one genesis block, since
`consensus/consensus-types/src/quorum_cert.rs:129-143` takes any block of round 0
without signatures; the port vector is a permutation of its range. A late verification
task may still insert into the shared pending blocks, and a local timeout carries
no epoch, so neither is claimed to be epoch-pure.

## Model

| member | source | states |
|---|---|---|
| `Chain.GetBlockByVersion` | storage/creditchaindb/src/db/include/creditchaindb_reader.rs:692-702 | the block that holds a version, or nothing when it cannot be read |
| `GasPrices.NextBucket` | api/src/context.rs:1118-1129 | the first bucket above the price, or the price itself exactly when no bucket is above it |
| `GasPrices.NextBucketIsLeast` | api/src/context.rs:1118-1129 | with ascending buckets it is the smallest one above the price |
| `GasPrices.DefaultEstimation` | api/src/context.rs:1131-1137 | the default estimate is ordered, with low and market at the minimum price and prioritized at the first bucket above it |
| `GasPrices.GetGasPricesAndUsed` | api/src/context.rs:1169-1224 | one pass collects the block's user transactions and end-of-block records and decides whether one contract makes up more than half |
| `GasPrices.MajorityIsMax` | api/src/context.rs:1210-1222 | the majority decision does not depend on which of several most frequent use cases the hash map yields |
| `GasPrices.UsersAppend` | api/src/context.rs:1184-1209 | users and end-of-block records are collected transaction by transaction, in order |
| `GasPrices.UsersOne` | api/src/context.rs:1184-1209 | and what each kind of transaction contributes |
| `GasPrices.GasUsedAdds` | api/src/context.rs:1259-1263 | the gas of a block is the sum over its user transactions |
| `GasPrices.InclusionPriceMeans` | api/src/context.rs:1244-1284 | reason by reason: a majority contract leaves a block unpriced, enough transactions price it, then its end-of-block record decides, then gas at or above the limit; the price is the bucket above a lowest bid |
| `GasPrices.GasFillsABlock` | api/src/context.rs:1259-1263 | three bids of 40 gas fill a block of 100 |
| `GasPrices.ReadWholeBlock` | api/src/context.rs:1176-1181 | the cap at the ledger version never cuts a block that ends by then, so a block's price does not depend on who asks |
| `GasPrices.EpilogueIsNotRead` | api/src/context.rs:1256-1258 | of a block whose end-of-block record is its last transaction no record is read, so fullness never depends on it |
| `GasPrices.BlockPriceAtLeastMinimum` | api/src/context.rs:1226-1284 | a block in which everyone paid the minimum is priced at least the minimum |
| `GasPrices.EstimateMeaning` | api/src/context.rs:1392-1446 | low is the least of the low window; market the smallest number from low up with more than half of the market window at or below it; prioritized the bucket above the smallest number from market up with more than nine tenths of all prices at or below it |
| `GasPrices.RankIsUnique` | api/src/context.rs:1404-1437 | which determines the three numbers |
| `GasCache.RangeOfRun` | api/src/context.rs:1381-1390 | the reverse range read from the end of a cached block yields the cached run below it, newest first |
| `GasCache.RangeRevMeans` | api/src/context.rs:1381-1390 | whatever the map holds, the range yields the value of each cached version of the epoch once, after those of all later versions |
| `GasCache.DropPrefix` | api/src/context.rs:1447-1453 | popping first entries removes the oldest blocks of the cached runs, in order |
| `GasCache.SoundSurvivesGrowth` | api/src/context.rs:1366-1380 | cached prices stay true when the ledger grows, although its newest block may still gain transactions |
| `GasCache.GapFreeSurvivesGrowth` | api/src/context.rs:1366-1380 | so does the gap-free run |
| `GasEstimator.Estimator.WalkBlocks` | api/src/context.rs:1326-1360 | the walk takes uncached sealed blocks of the epoch below the ledger version's block and stops exactly at a cached block, the history limit, the epoch's first block or an unreadable version |
| `GasEstimator.Estimator.PriceBlocks` | api/src/context.rs:1367-1390 | each walked block is priced and cached, and the list is the walked prices followed by the cached ones |
| `GasEstimator.Estimator.BlockMinInclusionPrice` | api/src/context.rs:1226-1284 | the price of the block as the reasons say: present exactly when the block was full, and then the bucket above its lowest bid |
| `GasEstimator.ReferenceListMeans` | api/src/context.rs:1326-1390 | the reference list holds the prices of the complete blocks of the epoch before the ledger version's, newest first, as many as the history setting or all there are |
| `GasEstimator.ReferenceMeans` | api/src/context.rs:1362-1446 | the reference estimate is the default for an empty list and otherwise the three ranks of that list |
| `GasEstimator.WalkedListFacts` | api/src/context.rs:1362-1390 | past the default exit the list is never empty, so both empty-list exits are unreachable, and no price in it is below a minimum everyone paid |
| `GasEstimator.CollectedList` | api/src/context.rs:1366-1390 | over a gap-free cache, walk plus cached range is the prices of one run of blocks |
| `GasEstimator.ListExactIff` | api/src/context.rs:1326-1390 | the list a caller works with is the reference list if and only if the caller is not asking about a block inside the cached run whose window begins before it |
| `GasEstimator.FreshAtTop` | api/src/context.rs:1326-1390 | a caller at or past the newest cached block is never in that case |
| `GasEstimator.Estimator.CollectGarbage` | api/src/context.rs:1447-1453 | eviction keeps exactly the newest entries up to the limit, unchanged: whatever goes comes before whatever stays |
| `GasEstimator.NextRunGapFree` | api/src/context.rs:1447-1453 | old run plus walked blocks, after eviction, is again one run that is full or reaches the epoch's first block |
| `GasEstimator.Estimator.ClearOnEpochChange` | api/src/context.rs:1319-1324 | an epoch change empties the cache, so every entry is of the caller's epoch |
| `GasEstimator.Estimator.Refresh` | api/src/context.rs:1326-1453 | a call keeps the cache true and within its limit; over a gap-free cache it works, for every caller, with the list that the cached run determines, and leaves the determined gap-free run |
| `GasEstimator.Estimator.Recompute` | api/src/context.rs:1326-1455 | the result is ordered, at least the minimum and remembered with its epoch and time; for every caller, stale or not, result and cached run are those of the estimator without a price map |
| `GasEstimator.Estimator.EstimateLocked` | api/src/context.rs:1312-1455 | under the write lock an unexpired result of the epoch is returned again and nothing changes; otherwise, for every caller, the answer and the state after it are those without a price map, and for one not behind the answer is the reference |
| `GasEstimator.Estimator.EstimateGasPrice` | api/src/context.rs:1286-1456 | disabled gives the default, an override is returned as configured, everything else is ordered, at least the minimum, and for every caller the answer without a price map |
| `GasEstimator.Estimator.SurvivesGrowth` | api/src/context.rs:1286-1456 | both invariants hold of every later view of the ledger |
| `GasService.Serve` | api/src/context.rs:1286-1456 | in every interleaved run answers are ordered and at least the minimum and the cache is true and bounded; with successful lookups, versions in any order, the answers are exactly those of the service without a price map and the cache is gap-free; with nondecreasing versions every answer is the reference of its own request or of an unexpired one of the same epoch |
| `GasExample.StaleCallerDiffers` | api/src/context.rs:1326-1390 | two calls of the estimator: the second, for an older version, answers 2 where its own ledger gives 1 |
| `EpochManager.Node.ProcessMessage` | consensus/src/epoch_manager.rs:1503-1600 | the whole new state: exactly the events of the current epoch that pass the filters become verification tasks with copies of the epoch state and senders, a valid proof of the current epoch starts the shutdown, and nothing else changes anything |
| `EpochManager.Node.CheckEpoch` | consensus/src/epoch_manager.rs:1602-1667 | only events of the current epoch pass; one of a later epoch is answered with a request for the epochs in between, one of an earlier epoch with the proof, or by a validator not at all; only a valid proof of the current epoch starts a shutdown |
| `EpochManager.Node.ProcessRpcRequest` | consensus/src/epoch_manager.rs:1778-1860 | requests of another epoch are answered and go no further; a DAG request of the current epoch reaches the running bootstrapper |
| `EpochManager.Node.ProcessLocalTimeout` | consensus/src/epoch_manager.rs:1862-1876 | a local timeout goes to the current sender, if there is one |
| `EpochManager.Node.FinishTask` | consensus/src/epoch_manager.rs:1562-1597 | a task that ends at any later time forwards through the senders it was given, and the invariant survives; a failed check forwards nothing, except that sync infos and own messages are forwarded unchecked; a check that succeeded is recorded |
| `EpochManager.Node.ForwardEvent` | consensus/src/epoch_manager.rs:1705-1775 | proposals go to the proposal queue and the rest to the main queue of the captured receiver, quorum store events to neither |
| `EpochManager.Node.PushEvent` | consensus/src/epoch_manager.rs:1693-1703 | a send appends to the receiver's queue until the receiver is gone |
| `EpochManager.Node.BeginShutdown` | consensus/src/epoch_manager.rs:634-657 | the close request goes to the one running processor, whose handle is held, so the send cannot fail |
| `EpochManager.Node.ReceiveAck` | consensus/src/epoch_manager.rs:634-657 | the sender is dropped and the manager moves on only after the processor has acked |
| `EpochManager.Node.StartNewEpoch` | consensus/src/epoch_manager.rs:1155-1308 | the whole new state: a reconfiguration sets the epoch state and starts exactly one processor, when none runs |
| `EpochManager.Node.StartRoundManager` | consensus/src/epoch_manager.rs:941-991 | both senders and the handle lead to the new round manager, recovery mode ends |
| `EpochManager.Node.StartRecoveryManager` | consensus/src/epoch_manager.rs:679-708 | sender and handle lead to the new recovery manager, the stale proposal sender stays |
| `EpochManager.Node.StartDagBootstrapper` | consensus/src/epoch_manager.rs:1490-1495 | RPC sender and handle lead to the new bootstrapper, the stale proposal sender stays |
| `EpochManager.Node.HandleEvent` | consensus/src/round_manager.rs:2110-2133 | a running processor takes one event off its main queue and leaves the rest; a round manager handles every one, a recovery manager votes and sync infos, and the rest it turns away; the event is of the processor's epoch |
| `EpochManager.Node.HandleProposal` | consensus/src/round_manager.rs:2043-2082 | a running round manager takes one proposal off its proposal queue, leaves the rest and handles it |
| `EpochManager.Node.HandleRpc` | consensus/src/dag/bootstrap.rs:697-728 | a running bootstrapper serves a queued request |
| `EpochManager.Node.Resend` | consensus/src/round_manager.rs:1278-1299 | a delayed proposal comes back to the round manager that checked it, even if that one has stopped |
| `EpochManager.Node.AckClose` | consensus/src/recovery_manager.rs:163-168 | a processor acks a close request and stops |
| `EpochRun.FromNetwork` | consensus/src/network.rs:754-862 | a message becomes a verification task if and only if the conversion to an unverified event accepts its kind and it is of the current epoch and passes the filters |
| `EpochRun.Run` | consensus/src/epoch_manager.rs:1888-1930 | every run goes through the states its steps determine, and in all of them at most one processor runs, a handle is held exactly for it while the manager is idle, a new one starts only after the old one acked, everything handled is of the handler's epoch, for what another node sent, sync infos aside, a check with the handler's own verifier succeeded in an earlier step, every event queued for a round manager has a case waiting, and a recovery manager never sees a proposal |
| `EpochRun.RecordIsTrue` | consensus/src/epoch_manager.rs:1562-1597 | the record of checks holds only what an earlier step of the run checked successfully |
| `EpochRun.EventIsHandled` | consensus/src/epoch_manager.rs:1537-1597 | messages get through: an event of another node and of the current epoch that verifies, and for which the running round or recovery manager has a case, is handled by it |
| `EpochRun.ProposalIsHandled` | consensus/src/epoch_manager.rs:1733-1752 | and so is a proposal, by the running round manager |
| `CatchUp.VerifyProof` | types/src/epoch_change.rs:67-118 | a proof is accepted exactly when it is not stale and its unskipped entries form a signed chain from the verifier, and the last entry is returned |
| `CatchUp.AcceptedProofIsTrue` | types/src/epoch_change.rs:67-118 | whatever it contains, an accepted proof is the true history from the node's epoch on |
| `CatchUpNetwork.ServedStretch` | storage/creditchaindb/src/db/include/creditchaindb_reader.rs:889-937 | a request inside the stored epochs is served with a contiguous page that starts at its first epoch and holds a hundred epochs or all that were asked for |
| `CatchUpNetwork.DeliveryNeverFails` | consensus/src/epoch_manager.rs:475-539 | between honest nodes no check on a delivered message fails, a proof of another epoch changes nothing, one of the own epoch moves the node forward |
| `CatchUpNetwork.EveryRunIsSafe` | consensus/src/epoch_manager.rs:1630-1661 | in every run no delivery fails, epochs and storage only advance, and every request on its way asks for epochs its receiver has ended |
| `CatchUpNetwork.ExchangeAdvances` | consensus/src/epoch_manager.rs:448-566 | message, request and proof bring a node forward by a page of epochs or to its peer's epoch |
| `CatchUpNetwork.ProofIsPushed` | consensus/src/epoch_manager.rs:475-539 | a node outside the validator set sends the proof unasked to a node behind, which advances as far |
| `CatchUpNetwork.AnnouncementAdvances` | consensus/src/epoch_manager.rs:541-566 | a node that announces the end of its epoch brings another node of that epoch into the next |
| `CatchUpNetwork.EpochEnds` | consensus/src/epoch_manager.rs:541-566 | the history can always go on by an epoch with any next validator set, and be stored by any node |
| `CatchUpNetwork.CatchesUp` | consensus/src/epoch_manager.rs:448-566 | repeating the exchange brings any node to the epoch of a node ahead |
| `SafetyRules.Rules.ConstructAndSignVote` | consensus/safety-rules/src/safety_rules_2chain.rs:54-96 | the vote and the new data are those of the voting rules with certificates checked by the object's own verifier, a vote is released only with its data on disk, and a round voted in before returns the same vote without a write |
| `SafetyRules.Rules.SignTimeoutWithQc` | consensus/safety-rules/src/safety_rules_2chain.rs:20-52 | likewise for timeouts |
| `SafetyRules.Rules.ConstructAndSignOrderVote` | consensus/safety-rules/src/safety_rules_2chain.rs:98-120 | likewise for order votes |
| `SafetyRules.Rules.Initialize` | consensus/safety-rules/src/safety_rules.rs:266-345 | a later epoch resets the data and sets the verifier, the same one keeps the data, an earlier one is refused and changes nothing, a missing key fails and clears the signer, and a failed write leaves verifier and signer as they were, also if it reached the disk |
| `SafetyRules.Rules.Write` | consensus/safety-rules/src/persistent_safety_storage.rs:151-170 | the cache never disagrees with the disk, also after a write that failed either way |
| `SafetyRules.VoteMeans` | consensus/safety-rules/src/safety_rules_2chain.rs:54-96 | in plain rounds, when a vote is given, for which block, and what is remembered |
| `SafetyRules.TimeoutMeans` | consensus/safety-rules/src/safety_rules_2chain.rs:20-52 | a timeout is signed if and only if it is of the stored epoch, its certificates check, its round follows the reported certified round or the round of the timeout certificate, nothing certified beyond that was seen, and no later round was voted in |
| `SafetyRules.OrderVoteMeans` | consensus/safety-rules/src/safety_rules_2chain.rs:98-120 | an order vote is given if and only if the block is of the stored epoch, certified, and of a round after every timeout |
| `Quorums.HonestOverlap` | types/src/validator_verifier.rs:206-214 | any two sets with the quorum power share a validator outside the faulty set |
| `Quorums.QuorumIsLeast` | types/src/validator_verifier.rs:206-214 | the quorum power is the least number above two thirds of the total |
| `Quorums.TolerableIff` | types/src/validator_verifier.rs:206-214 | what is tolerated is exactly less than a third |
| `Quorums.PowerAdds` | types/src/validator_verifier.rs:206-214 | the power of a set is the sum over its members |
| `Agreement.VoteKeeps` | consensus/safety-rules/src/safety_rules_2chain.rs:54-96 | a vote keeps: one block per round, a justified parent, and later timeouts that report at least that parent |
| `Agreement.TimeoutKeeps` | consensus/safety-rules/src/safety_rules_2chain.rs:20-52 | a timeout reports at least the parent of every vote and the round of every order vote at or before it |
| `Agreement.OrderVoteKeeps` | consensus/safety-rules/src/safety_rules_2chain.rs:98-120 | an order vote is never for a round its author has timed out of |
| `Agreement.EnterKeeps` | consensus/safety-rules/src/safety_rules.rs:284-310 | entering a later epoch contradicts nothing signed before |
| `Agreement.UniqueInRound` | consensus/safety-rules/src/safety_rules.rs:213-232 | one certified block per round |
| `Agreement.ParentAbove` | consensus/safety-rules/src/safety_rules_2chain.rs:148-167 | beyond a committed round every certified block has a certified parent at or above it |
| `Agreement.CertifiedExtendsCommitted` | consensus/safety-rules/src/safety_rules_2chain.rs:191-196 | every certified block at or above a committed one extends it |
| `Agreement.EveryRunAgrees` | consensus/safety-rules/src/safety_rules_2chain.rs:122-196 | blocks committed at any two times of any run of the rules, by the 2-chain rule or by order votes, are on one branch |
| `Replicas.VoteCall` | consensus/safety-rules/src/safety_rules_2chain.rs:54-96 | a careful vote call whose data did or did not reach the disk is one step of the rules or none, and a vote that left it is in the world |
| `Replicas.DoVote` | consensus/safety-rules/src/safety_rules_2chain.rs:54-96 | a call of a validator's own object, certificates checked by its verifier against what is released, changes disk and network as the voting rules say |
| `Replicas.DoTimeout` | consensus/safety-rules/src/safety_rules_2chain.rs:20-52 | likewise for timeouts |
| `Replicas.DoOrderVote` | consensus/safety-rules/src/safety_rules_2chain.rs:98-120 | likewise for order votes |
| `Replicas.DoLifecycle` | consensus/safety-rules/src/safety_rules.rs:266-345 | likewise for entering an epoch, with the write failing either way, and for a restart: disk, signer and verifier |
| `Replicas.StaysShown` | consensus/safety-rules/src/safety_rules_2chain.rs:54-120 | what the released statements show to be committed stays so |
| `Replicas.CarefulRunsAgree` | consensus/safety-rules/src/safety_rules_2chain.rs:122-196 | blocks shown committed at any two times are on one branch if nobody signs with a verifier of another epoch than its stored data or with a timeout certificate of another epoch |
| `Replicas.MixedIff` | consensus/safety-rules/src/safety_rules.rs:284-311 | a validator comes to sign with a verifier of another epoch exactly by a write of a later epoch's data that failed but reached the disk, and remains so until an initialisation sets the verifier or it restarts |
| `Replicas.LostWritesAreCareful` | consensus/safety-rules/src/safety_rules.rs:297-304 | so runs in which failed writes of a new epoch's data are lost agree |
| `Replicas.Run` | consensus/safety-rules/src/safety_rules_2chain.rs:20-216 | in every run of the components, over any calls, write outcomes and restarts, what is released is what the rules without caches release; if every signing call is careful, blocks shown committed at any two times are on one branch |
| `ReplicaExamples.MixedSites` | consensus/safety-rules/src/safety_rules.rs:297-311 | an initialisation whose write fails after reaching the disk leaves data of epoch 2 with a signer and a verifier of epoch 1 |
| `ReplicaExamples.MixedMayDisagree` | consensus/safety-rules/src/safety_rules.rs:297-311 | a run of the components from there in which two blocks of epoch 2 on different branches are committed |
| `ReplicaExamples.OldTcMayDisagree` | consensus/safety-rules/src/safety_rules_2chain.rs:181-189 | a run without faulty validators in which a timeout certificate of epoch 1 leads to two committed branches of epoch 2 |
| `ReplicaProgress.TwoRoundsShow` | consensus/safety-rules/src/safety_rules_2chain.rs:191-216 | from any state in which the honest validators are ready and hold a quorum, asking everyone to vote for a block and for its child shows the block committed |
| `ReplicaProgress.OrdersShow` | consensus/safety-rules/src/safety_rules_2chain.rs:98-120 | asking everyone to order a certified block shows it committed |
| `ReplicaProgress.CommitsAfterLostRounds` | consensus/safety-rules/src/safety_rules_2chain.rs:122-167 | the same after any number of lost rounds, with the last timeout certificate |
| `ReplicaProgress.CommitsFromStart` | consensus/safety-rules/src/safety_rules_2chain.rs:54-96 | the components themselves, from start-up: everyone enters the epoch and votes twice, and the first block is committed |
| `Agreement.TwoRoundsCommit` | consensus/safety-rules/src/safety_rules_2chain.rs:191-216 | ready honest validators with a quorum commit a block in two rounds |
| `Agreement.OrderVotesCommit` | consensus/safety-rules/src/safety_rules_2chain.rs:98-120 | order votes of ready honest validators with a quorum commit a certified block |
| `Agreement.RoundsMayFail` | consensus/safety-rules/src/safety_rules_2chain.rs:122-146 | however many rounds in a row everyone has timed out of, each with the certificate of the one before, everyone can time out of the next |
| `Agreement.CommitsAfterTimeouts` | consensus/safety-rules/src/safety_rules_2chain.rs:122-167 | after any number of failed rounds in a row, the timeouts of the last one form a certificate with which the next proposal is voted for and committed |
| `SafetyInit.PerformInitialize` | consensus/src/metrics_safety_rules.rs:41-70 | for every implementation whose waypoints continue and are bounded the loop ends; it goes from state to state by successful reports of progress, with strictly increasing waypoints, and returns what the last attempt gives, or a failure where there is no proof |
| `SafetyInit.Retry` | consensus/src/metrics_safety_rules.rs:72-86 | a request runs once; if it found the rules behind, it runs again exactly when the initialisation in between succeeds, and is refused otherwise |
| `SafetyInit.RealRulesContinue` | consensus/safety-rules/src/safety_rules.rs:266-311 | the real rules are such an implementation |
| `SafetyInit.InitializeFromStorage` | consensus/src/metrics_safety_rules.rs:41-70 | over a storage that serves pages of a hundred epochs the loop ends at the first page that reaches the safety data's epoch |
| `SafetyInit.SettlesIff` | consensus/src/metrics_safety_rules.rs:41-70 | it succeeds if and only if storage has ended the epoch before the safety data's and the key is there |
| `SafetyInit.SettlesAtNewestIff` | consensus/src/metrics_safety_rules.rs:41-70 | it reaches the newest epoch if and only if the safety data are past the last page that is cut short |
| `SafetyInit.StopsEarly` | consensus/src/metrics_safety_rules.rs:41-70 | safety data of epoch 1 before a storage of 251 ended epochs stop at epoch 100 |
| `Pagination.GetPage` | api/src/context.rs:503-560 | a page holds the items of the next entries from the cursor, each entry's once and in order, and a cursor exactly when there are more; it fails exactly on an entry within reach that does not decode |
| `Pagination.FlattenInOrder` | api/src/context.rs:536-552 | flattening lists the items of every entry once, one entry after the other, and nothing else |
| `Pagination.GetModules` | api/src/context.rs:562-616 | the cursor of a page of modules starts the next page right after it |
| `Pagination.FollowModules` | api/src/context.rs:562-616 | following module cursors ends and yields the items of all module entries of the account once and in order, one per entry if each decodes to one, or fails exactly when some entry does not decode |
| `Pagination.CursorPosition` | api/src/context.rs:554-558 | a next page never starts after the entry it was meant to start at, and starts there if and only if the cursor comes after the entry before it |
| `Pagination.PagesAreTheScanIff` | api/src/context.rs:503-560 | for entries that decode to something, the pages repeated calls return, put together, are the flattened scan if and only if every page boundary is exact |
| `Pagination.EntriesAreTheScanIff` | api/src/context.rs:503-560 | the same entry by entry, also with empty groups |
| `Pagination.PagesSkipNothing` | api/src/context.rs:503-560 | whatever the cursors, when they end every item of every entry has been returned and every entry decodes, and when a page fails some entry does not |
| `Pagination.FollowPages` | api/src/context.rs:503-560 | calling the endpoint with the cursor of the page before, any number of times, returns what the followed pages are defined to be |
| `Pagination.FollowResources` | api/src/context.rs:503-560 | following resource cursors over the resource and group entries of the account: without groups each item once and in order, or a failure exactly when some entry does not decode; with groups nothing is skipped, and the list is that if and only if every boundary is exact |
| `Pagination.ResourceCursorsNeverAhead` | api/src/context.rs:554-558 | for every account, a cursor rebuilt as a resource key never sorts after its entry |
| `Pagination.PlainResourcesExact` | api/src/context.rs:554-558 | without groups every boundary that parses is exact |
| `Pagination.GroupCursorMayLoop` | api/src/context.rs:554-558 | a resource followed by a group whose rebuilt cursor sorts before it: however often the endpoint is called with single-entry pages, there is another cursor |
| `Pagination.DetermineLimit` | api/src/page.rs:75-98 | a zero limit is refused, and otherwise the limit is the smaller of the requested or default one and the maximum |
| `Pagination.ComputeStart` | api/src/page.rs:28-57 | without a start the page ends at the newest version and is as long as the limit allows; a start is returned as given, or refused past the end |
| `Ports.BindPortFromCounter` | config/src/utils.rs:180-206 | the first free port from the counter on, wrapping, with the counter after it; nothing after a thousand busy ones |
| `Ports.Allocator.TryLock` | config/src/utils.rs:151-178 | the lock is taken exactly when its file does not exist |
| `Ports.Allocator.ReadCounter` | config/src/utils.rs:121-139 | whatever the file holds, in range or not, the counter used is inside the port vector: the one in the file, or 0 |
| `Ports.Allocator.WriteCounter` | config/src/utils.rs:141-146 | the counter written is the one after the chosen port |
| `Ports.Allocator.Unlock` | config/src/utils.rs:61-65 | leaving removes the lock, with or without a port |
| `Ports.NearbyPortsDiffer` | config/src/utils.rs:40-45 | two ports handed out fewer than 20000 attempts apart differ |
| `Ports.FarPortsRepeat` | config/src/utils.rs:180-186 | the window cannot be wider: exactly 20000 counted attempts later the same port comes up |
| `Ports.Run` | config/src/utils.rs:121-206 | for any number of processes, any interleaving and any counter file to start with, the state is the one the steps determine, and in it: one process inside at a time, a written counter in range, every returned port in the log, and nearby ports different |
| `LongPoll.Gate.Arrive` | api/src/transactions.rs:240-259 | a request is refused exactly when at least the limit of requests are between their add and their sub |
| `LongPoll.Gate.Leave` | api/src/transactions.rs:274-277 | the counter never underflows |
| `LongPoll.Run` | api/src/transactions.rs:240-281 | every interleaving goes through the states its steps determine; in all of them the counter is the number of requests between add and sub, and at most the limit long-poll |
| `LongPoll.RefusedWithNobodyPolling` | api/src/transactions.rs:240-259 | a run in which a request is refused although nobody is long-polling |
| `EpochCache.Cache.Update` | api/src/context.rs:1486-1540 | epoch and value change together or, after a failed fetch, not at all |
| `EpochCache.Run` | api/src/context.rs:1463-1583 | in every interleaving with any epochs a request is answered exactly when the last successful fetch was for its epoch or it makes one itself, and each answer was fetched for the asker's own epoch |
| `RandKeys.ContiguousIsConsistent` | consensus/src/epoch_manager.rs:1079-1115 | over any crashes and failed saves, all configurations of an epoch use one pair as long as no epoch comes back |
| `RandKeys.NondecreasingIsContiguous` | consensus/src/epoch_manager.rs:1079-1115 | nondecreasing epochs never come back |
| `RandKeys.BuiltIff` | consensus/src/epoch_manager.rs:1079-1115 | a configuration is built exactly if its pair is saved now or is in the store for its epoch |
| `RandKeys.StoreChanges` | consensus/src/epoch_manager.rs:1079-1115 | the store changes only when a pair of another epoch is saved, and then holds that pair |
| `RandKeys.SavedIsRecovered` | consensus/src/epoch_manager.rs:1079-1115 | a pair whose save was reported as failed but reached the store is used after the crash |
| `RandKeys.ConsistentIffContiguous` | consensus/src/epoch_manager.rs:1079-1115 | with distinct pairs and successful saves that condition is also necessary |
| `RandKeys.EpochReturns` | consensus/src/epoch_manager.rs:1079-1115 | epochs 1, 2, 1: the third configuration does not use the pair of the first |
| `Rendering.RenderSequential` | api/src/context.rs:738-769 | one running timestamp gives every transaction of a contiguous stretch the timestamp of its own block |
| `Rendering.RenderNonSequential` | api/src/context.rs:771-796 | the lookup per version gives the same |
| `Rendering.List` | api/src/transactions.rs:835-848 | started from the block timestamp of the first version, both renderings agree |
| `EventTranslation.Translate` | api/src/context.rs:1039-1065 | in place, each translated event gets the base of its key plus the number of earlier ones, other events are untouched, and nothing from the first broken one on changes |
| `EventTranslation.TranslatedMeans` | api/src/context.rs:1039-1065 | a translated event keeps its data and gets the base of its key plus the number of earlier events of that key |
| `EventTranslation.NumberedWithoutGaps` | api/src/context.rs:1039-1065 | with one base per key, the events of a key are numbered consecutively in event order |

## Left out

- GasPrices.GetGasPricesAndUsed: leaves out transactions or infos the store fails to return, which the original skips, and decides the majority over integers instead of 32-bit floats, which agree below 2^24 transactions.
- GasEstimator.Estimator.EstimateGasPrice: the ledger does not grow while one call holds the write lock, and 64-bit overflow of prices and gas sums is not modelled.
- GasEstimator.Estimator.WalkBlocks: a version is readable or not for a whole call; the one version a call looks up twice is the ledger version when the first lookup fails, so a failure followed by a success there is not modelled.
- GasService.Serve: the same per write-locked section; pruning of the ledger is covered only as unreadable versions.
- EpochManager.Node.ProcessMessage: the quorum store, rand manager, block retrieval and execution channels are not modelled, nor is what a round or recovery manager does with an event.
- EpochManager.Node.ProcessRpcRequest: of the receivers of requests only the DAG channel is modelled.
- EpochManager.Node.ForwardEvent: payload prefetch and the insertion into the shared pending blocks are not modelled.
- EpochManager.Node.HandleProposal: takes any one queued proposal, where the original drains the queue, sorts it by round and may drop all but the last.
- EpochRun.Run: a sync info is checked when it is used, by the manager that uses it and with that manager's own verifier (`consensus/src/recovery_manager.rs:85`, `consensus/src/round_manager.rs:850`), which is not modelled; the optimistic proposal loopback and payload fetches inside a round manager are not modelled; a recovery manager that exits the process ends a run.
- CatchUpNetwork.EveryRunIsSafe: is about honest nodes; storage errors and a reconfiguration notice for an epoch the storage does not have are not modelled.
- SafetyRules.Rules.Initialize: the proof and waypoint that lead to the epoch are modelled in SafetyInit; a verifier is the validator set of its epoch.
- Agreement.EveryRunAgrees: has a vote and its data appear together, verifiers of the stored epoch and timeout certificates of the current one; Replicas.Run is the result with writes, crashes, restarts and each object's own verifier.
- Replicas.Run: a restart finds the disk as it was; signing of proposals and commit votes, block execution and the carry-over of a committed branch into the next epoch's genesis are not modelled; round numbers do not overflow.
- SafetyInit.InitializeFromStorage: proofs from storage are taken to verify from the waypoint they start at.
- Pagination.GetPage: storage iterator errors are treated like entries that do not decode; keys under another prefix are not modelled.
- Ports.Run: a process killed between truncating and writing the counter, and a counter file that cannot be opened, which leaves the lock behind, are not modelled.
- LongPoll.Run: a request whose future is dropped while it long-polls never takes its one back; cancellation is not modelled.
- EpochCache.Run: that the configuration read at a version is the one in force for its epoch is up to the ledger and not modelled.
- Rendering.List: relies on every block but genesis announcing its timestamp in its first transaction and nowhere else.
- HTTP endpoints, response encoding, metrics, logging, fail points: plumbing without a hard property.
- Mempool, executor, Merkle storage, block store, DKG and threshold cryptography: not modelled.
- View functions, transaction summaries, account balances and the remaining API context helpers: easy compositions of reads.
