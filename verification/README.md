# Verified model of the den's block reward path

This project models how one block reward travels through the system, and proves what each stage
promises to the next. Shares become a PPLNS window, the window becomes coinbase outputs, the outputs
become a coinbase transaction split around the extranonce, the miner's verifier reads that coinbase
back, and after maturity a crash-prone worker pays the dust over Lightning. Beside that path it
models the per-connection difficulty logic, the share statistics, the two line framers and the
address reader.

`dafny verify dfyconfig.toml` checks everything. Code that updates state in the source is a class
or a method with loops here, proved against functions; the promises are lemmas about those
functions, or invariants over all runs.

| Files | What they hold |
|---|---|
| `PayoutTable`, `FanoutPass`, `PayoutProtocol` | the payout and block tables with their single-row writes; the drain loops cut at every await; any number of workers, crashes, restarts and writes that land late, as a step relation |
| `PayoutSafety`, `PayoutRuns`, `BlockReward` | the invariant every step keeps, and what follows over whole runs, down to the sats of a PPLNS block |
| `PayoutClosing`, `PayoutRecovery` | over whole runs: what DUST_FANNED_OUT promises, and what reconciliation leaves behind |
| `PayoutDropped`, `PayoutLines`, `PayoutReach` | which blocks nobody has in hand any more, the lines of blocks workers take on, and which rows no run pays again |
| `PayoutPaths`, `PayoutCalls`, `PayoutExactly` | paths of steps, those that end in a payment, and when there is one |
| `PayoutScenarios`, `PayoutOpposed` | runs that show what is not promised |
| `FanoutDust`, `FanoutOutcome`, `PayoutWorker` | the drain loops under every interleaving; what becomes of each row of a sole pass; the worker's procedures as methods of a class |
| `PayoutAnswers`, `PayoutDecisions` | what stands behind a status over whole runs; what the procedures decide case by case, and that the protocol decides the same |
| `Fees`, `Pplns`, `PplnsLaws`, `PplnsOutputs`, `PplnsWindow`, `SoloShowcase`, `Doubles`, `PercentHop`, `MinedBucket` | reward arithmetic; rounding to binary64; the detour through percentages and what it does to the dust bucket |
| `Bytes`, `Transaction`, `Merkle`, `MiningJob`, `Verifier`, `SoloEndToEnd`, `PplnsEndToEnd` | serialization, Merkle branch, job construction, and the miner's check of a job |
| `Smearing`, `PowerOfTwo`, `ScaledPowers`, `Vardiff`, `Statistics`, `Regimes`, `LineFraming`, `IpReader`, `IpForms`, `IpBlocks` | per-connection side cores |
| `Shared`, `Strings` | values that several files exchange, and the string order |

## What the proofs found

- A row that is IN_FLIGHT never carries a payment hash: the hash is written by the very update that
  marks the row PAID (`apps/payouts/src/dust-fanout.ts:261-267`). So the branch of
  `reconcileInFlight` that asks the wallet is never entered, and a reconciliation that runs through
  leaves every row that was IN_FLIGHT at its scan FAILED or, when its payment was recorded
  meanwhile, PAID, although the file's header promises a lookup by hash
  (`PayoutRuns.WalletNeverConsulted`, `PayoutRecovery.ReconciliationSettles`). There is a run in
  which the wallet was asked to pay and the row ends FAILED (`PayoutScenarios.PaidRowIsWrittenOff`).
- Only the tick that promotes a block works on it. A row is in hand while a live worker's main
  function has the fan-out of its block ahead of it, or a drain loop that has not ended has its claim
  or its call ahead of it. A block that left FOUND is dropped once none of its rows is in hand. A
  crash drops it if and only if no other worker has one of its rows in hand; whatever else ends a
  tick, a rejected await, a block no longer MATURED, or drain loops of which one broke, drops it if
  and only if no other worker and no drain loop has one of its rows in hand
  (`PayoutDropped.CrashDropsExactly`, `PayoutDropped.TickEndDropsExactly`). A dropped block is never
  paid (`PayoutDropped.DroppedIsNeverPaid`), and there are runs that drop one with its dust pending,
  by a crash and by one rejected claim (`PayoutScenarios.TickDies`,
  `PayoutScenarios.RejectedClaimDrops`).
- Not every row in hand can be paid: a worker whose turn comes to a block that is not MATURED ends its
  tick there, with all blocks behind it. A row is in reach if a drain loop has it in hand, or a worker
  that has its block in hand has neither a broken drain loop of its own nor anything in front of it
  but blocks that are or can still become MATURED (`PayoutReach.InReachIsInHand`). A row out of reach
  is never paid (`PayoutReach.OutOfReachIsNeverPaid`). A pending row of a
  matured block can be paid if and only if the concurrency is at least 1 and it is in reach, as long
  as no block on that way waits for a worker that is about to orphan, out of "Block not found", a
  matured block of the same way (`PayoutExactly.CanBePaidExactly`); there is a run into that
  situation after which a row in reach is never paid (`PayoutOpposed.OpposedIsNotPaid`).
- For a worker that is alone, DUST_FANNED_OUT means that every row pending at the start is PAID if
  and only if the concurrency is at least 1 or nothing was pending; with concurrency 0 the pass pays
  nothing and marks the block all the same (`FanoutDust.SoleEnd`, `PayoutWorker.MarkMeansPaidExactly`).
  With two workers it does not mean that: one that loses every claim marks the block while the other
  one's payment is refused (`PayoutScenarios.MarkedWithoutPaying`). Over all runs the mark means
  that no dust row of the block is PENDING, if and only if the concurrency is at least 1
  (`PayoutScenarios.MarkMeansNotPendingExactly`).
- A dust payment whose receipt cannot be stored, or whose PAID update is rejected, ends FAILED although
  the wallet paid, since both stand in the same try block as the payment
  (`apps/payouts/src/dust-fanout.ts:256-308`, `PayoutScenarios.LostReceiptFailsRow`,
  `PayoutScenarios.LostRecordFailsRow`). The other way round nothing is lost: over all runs a dust row
  is PAID only with a hash the wallet answered for that very row (`PayoutAnswers.PaidWasAnswered`).
- The height push of the coinbase survives a submission if and only if the height needs at most
  three bytes or the pool identifier is kept; a four-byte height without identifier has its last
  byte inside the extranonce slot (`MiningJob.HeightPushSurvives`).
- The detour through percentages may take one sat off any output but the first. The mined dust
  bucket holds what the worker pays out, under every admissible rounding, if and only if it is the
  first output or the members' shares leave a remainder (`MinedBucket.BucketCoversDustExactly`).
  Two members of weights 312499957 and 43 with no fees give a bucket of 42 sats that owes 43 in
  binary64 arithmetic (`MinedBucket.BucketOneSatShort`).
- A PPLNS result whose bare `outputs` array were stored flat, without the breakdown, would record
  no dust row at all (`BlockReward.BareOutputsRecordNoDust`).
- A member whose public key is the empty string is paid on chain but gets no payout row
  (`BlockReward.RowsAccountForReward`).
- For a double the power-of-two routine gives r with r <= val < 2r if and only if the double is at
  least 0.00001, below 2^31, and none of the three nearest to 0.000016, 0.000032 and 0.000064, for
  which it gives exactly the half (`ScaledPowers.WithinTwoOnDoubles`,
  `ScaledPowers.ExceptionsGiveHalf`). So r <= val <= 2r on the whole range
  (`ScaledPowers.DoublesWithinTwice`), and a suggestion that was applied is not repeated on the same
  cache (`Vardiff.SuggestionSettles`). From 2^31 up the routine returns if and only if one of the
  values it scales up to wraps around to a positive 32-bit integer before it becomes infinite, which
  no multiple of 2^31 does (`PowerOfTwo.ReturnsExactly`, `PowerOfTwo.NeverReturns`).
- The grace of a superseded target runs from when that target began, not from when it was
  superseded, so a target older than the grace is lost at the moment it is replaced
  (`Regimes.GraceCountsFromTheStart`, `Regimes.NoGraceAfterALongRegime`).
- Every address in ::/96 is rejected, although the comment there says that an IPv4-compatible one is
  judged by the IPv4 address in it (`apps/stratum/src/hashden/api/ssrf-guard.ts:132-135`,
  `IpBlocks.IsDisallowedIpv6`).
- In strict mode the verifier's pump never forwards the line of a failing job
  (`LineFraming.ClosingLineIsNotSent`).

## Model

| member | source | states |
|---|---|---|
| PayoutTable.ApplyMovesForward | apps/payouts/src/dust-fanout.ts:92-109 | every write the worker issues keeps rows and amounts and only moves a row up in PENDING < IN_FLIGHT < {PAID, FAILED} |
| PayoutSafety.NextInv | apps/payouts/src/index.ts:111-177 | every step of every worker, a crash, and a late write keep the invariant: dust rows are owed by the block's breakdown, a loop about to pay won its row's claim and nobody paid it before |
| PayoutSafety.TokensKept | apps/payouts/src/dust-fanout.ts:221-268 | the claim won by one loop is still exclusively its own after any other loop's step |
| PayoutRuns.PaidAtMostOnce | apps/payouts/src/dust-fanout.ts:221-314 | in every run with any number of workers, crashes and restarts, the Lightning client is asked at most once per (block, member) |
| PayoutRuns.RunForward | apps/payouts/src/dust-fanout.ts:221-314 | between any two moments of a run rows only move forward, keep their amount, and calls stay made |
| PayoutRuns.WalletNeverConsulted | apps/payouts/src/reconcile-inflight.ts:50-96 | no reachable worker ever waits for a payment status, and no IN_FLIGHT row carries a hash |
| PayoutRuns.ReconcileFailsEveryFlight | apps/payouts/src/reconcile-inflight.ts:50-60 | after any run, what reconciliation makes of an IN_FLIGHT row does not depend on the wallet: FAILED, unless the update itself is rejected |
| PayoutRuns.SpentWithinBreakdown | apps/payouts/src/dust-fanout.ts:139-159 | in every run the total sent for a block is at most what its breakdown owes |
| PayoutRuns.PaidOnlyAfterMaturity | apps/payouts/src/maturity-watcher.ts:45-57 | every call for a block was preceded by a worker reading at least maturityConfs confirmations for it |
| PayoutAnswers.PaidWasAnswered | apps/payouts/src/dust-fanout.ts:256-268 | in every run a dust row that is PAID carries a hash with which the Lightning client answered a call for that very row, made for its amount; a row paid by the coinbase is PAID from the start and carries none |
| PayoutAnswers.StatusHasGrounds | apps/payouts/src/maturity-watcher.ts:37-71 | in every run a block is MATURED only after a worker read enough confirmations for it, ORPHANED only after one was told it is off the best chain or unknown, and DUST_FANNED_OUT only after all loops of a pass over it ended without counting a failure |
| PayoutDropped.DroppedIsNeverPaid | apps/payouts/src/index.ts:136-177 | a block that left FOUND and of which no row is in hand is never paid again, by any worker after any number of restarts |
| PayoutDropped.CrashDropsExactly | apps/payouts/src/index.ts:136-177 | a crash drops a block that left FOUND if and only if no other worker, by its main function or a loop that has not ended, has a row of it in hand |
| PayoutDropped.TickEndDropsExactly | apps/payouts/src/index.ts:146-176 | every step that ends a tick, the rejected Promise.all of the drain loops included, drops it if and only if no other worker's main function and no loop that has not ended has a row of it in hand |
| PayoutReach.OutOfReachIsNeverPaid | apps/payouts/src/dust-fanout.ts:178-186 | with concurrency at least 1, a row of a block that left FOUND is never called again, in any run, once no loop holds it and in front of its block every live worker has one that is not MATURED and can no more become so |
| PayoutExactly.CanBePaidExactly | apps/payouts/src/index.ts:146-176 | after any run, a call for a pending row of a matured block can follow only if the concurrency is at least 1 and the row is in reach, and does follow in some continuation if it is freely in reach: exactly then, where the two coincide |
| PayoutOpposed.OpposedIsNotPaid | apps/payouts/src/maturity-watcher.ts:58-68 | a run, at any concurrency from 1 up, into a state with a pending row of a matured block that is in reach, not freely so, and is never called |
| PayoutScenarios.TickDies | apps/payouts/src/index.ts:146-176 | a run that ends with a matured block dropped, its row pending and nothing paid |
| PayoutScenarios.RejectedClaimDrops | apps/payouts/src/dust-fanout.ts:340-357 | a run, at any concurrency from 1 up, that ends with the one worker asleep after its claim was rejected: the matured block is dropped, its row pending and nothing paid |
| PayoutScenarios.PaidRowIsWrittenOff | apps/payouts/src/reconcile-inflight.ts:50-60 | a run in which the wallet was asked to pay a row that reconciliation then marks FAILED |
| PayoutScenarios.LostReceiptFailsRow | apps/payouts/src/dust-fanout.ts:268-308 | a run, at any concurrency from 1 up, in which a row is recorded as PAID and then, its receipt not being stored, ends FAILED, counted once as paid and once as failed, its block still MATURED |
| PayoutScenarios.LostRecordFailsRow | apps/payouts/src/dust-fanout.ts:260-308 | a run in which the wallet paid, the PAID update is rejected, and the row ends FAILED without a hash |
| PayoutRecovery.ReconciliationSettles | apps/payouts/src/reconcile-inflight.ts:32-99 | in every run a reconciliation that gets through its list leaves each row that was IN_FLIGHT at its scan PAID or FAILED, whatever other workers do meanwhile |
| PayoutClosing.FannedOutIsNotPending | apps/payouts/src/dust-fanout.ts:317-325 | with concurrency at least 1, in every run, a DUST_FANNED_OUT block has every row its breakdown lists, and none is PENDING |
| PayoutScenarios.MarkMeansNotPendingExactly | apps/payouts/src/dust-fanout.ts:340-357 | that no dust row of a DUST_FANNED_OUT block is PENDING holds over all runs if and only if the concurrency is at least 1 |
| PayoutScenarios.MarkedWithoutPaying | apps/payouts/src/dust-fanout.ts:317-325 | a run of two workers, at any concurrency from 1 up, that ends with a DUST_FANNED_OUT block whose row is FAILED |
| FanoutDust.EveryStepShrinksWork | apps/payouts/src/dust-fanout.ts:340-357 | whatever is answered, every resolved await brings the pass closer to its end |
| FanoutDust.ActiveCanStep | apps/payouts/src/dust-fanout.ts:340-357 | a loop that has not ended is waiting for something that can resolve, and one that has ended is not |
| FanoutDust.ShapeKept | apps/payouts/src/dust-fanout.ts:345-356 | each item leaves the queue to exactly one loop, in order, and min(concurrency, n) loops run |
| FanoutDust.AllDoneDrainsQueue | apps/payouts/src/dust-fanout.ts:345-356 | with concurrency at least 1, when all loops ended normally every item was handed out |
| FanoutDust.SoleStep | apps/payouts/src/dust-fanout.ts:221-315 | for a sole worker every step keeps paid + failed + not yet counted = pending |
| FanoutDust.SoleEnd | apps/payouts/src/dust-fanout.ts:220-327 | at rest paid + failed = pending if and only if a loop ran or nothing was pending, every item is PAID or counted as failed, and without a loop nothing was counted and every item is still PENDING |
| FanoutDust.WhereRejectionsLead | apps/payouts/src/dust-fanout.ts:221-315 | a rejected await ends its loop in the claim, the member lookup and both FAILED updates, and leads to the FAILED update in the payment, the PAID update and the receipt; paid counts the PAID updates that went through, failed the FAILED ones |
| FanoutOutcome.OutcomeKept | apps/payouts/src/dust-fanout.ts:221-315 | each await of a sole pass, answered by a member table and a wallet given as functions, keeps the account: every row stands where its loop is, the wallet was asked for registered members only, and paid + due and not yet counted = all that are due |
| FanoutOutcome.OutcomeEnd | apps/payouts/src/dust-fanout.ts:220-327 | at rest each row is PAID with the wallet's hash exactly if its member is registered and the wallet pays, and FAILED otherwise; the wallet was asked for exactly the rows of registered members; paid and failed are the numbers of both kinds |
| PayoutWorker.Worker.RecordOnChainPayouts | apps/payouts/src/dust-fanout.ts:64-162 | succeeds exactly if no upsert and no needed storing of an event id is rejected; then the listed rows are upserted, each member's row gets at most one zap receipt ever, and the three counts are theirs; otherwise a prefix of the rows is written |
| PayoutWorker.RecordingIsIdempotent | apps/payouts/src/dust-fanout.ts:89-159 | recording again, after any forward moves, changes nothing |
| PayoutWorker.RetryCompletes | apps/payouts/src/dust-fanout.ts:89-159 | after a recording that was cut off anywhere a second one leaves the table of a single one |
| PayoutDecisions.RecordedExactly | apps/payouts/src/dust-fanout.ts:89-159 | recording leaves every row there was and adds exactly a PAID row per named member's output and a PENDING row per dust entry that had none, with their amounts |
| PayoutDecisions.ReceiptsExactly | apps/payouts/src/dust-fanout.ts:111-135 | a row has a receipt stored for it exactly if it is a named member's on-chain row and storing succeeds |
| PayoutDecisions.RecordedCount | apps/payouts/src/dust-fanout.ts:89-109 | as many rows are counted as recorded as there are outputs of named members |
| PayoutDecisions.BreakdownIsFirst | apps/payouts/src/dust-fanout.ts:329-338 | the breakdown of a flat snapshot is the one on its first dust bucket that carries one |
| PayoutWorker.Worker.RunWithConcurrency | apps/payouts/src/dust-fanout.ts:340-357 | for a sole worker the pass ends under every schedule, touches only its items' rows, asks the wallet at most once per item, and keeps the account of what the member table and the wallet answer |
| PayoutWorker.Worker.FanoutDust | apps/payouts/src/dust-fanout.ts:173-327 | for a sole worker: without credentials every pending row is FAILED and counted as failed; else each pending row is PAID with the wallet's hash exactly if its member is registered and the wallet pays, FAILED otherwise, the wallet is asked once for each row of a registered member with its amount, both counters are the numbers of such rows, and the block is marked exactly if none failed; without a loop nothing but the mark; nothing else is touched |
| PayoutWorker.MarkMeansPaidExactly | apps/payouts/src/dust-fanout.ts:317-326 | the counters add up, and a marked block has all its rows PAID, exactly if a loop ran or nothing was pending |
| PayoutDecisions.DialingAgrees | apps/payouts/src/dust-fanout.ts:186-204 | without credentials the protocol's next write fails exactly the block's pending dust rows |
| PayoutWorker.Worker.ReconcileInFlight | apps/payouts/src/reconcile-inflight.ts:27-99 | succeeds exactly if no row's rejected update or client ends the pass; then exactly the IN_FLIGHT dust rows are decided by their hash and each counter is the number of rows with that verdict; otherwise each row is decided or as before |
| PayoutDecisions.ReconciledByCase | apps/payouts/src/reconcile-inflight.ts:47-96 | a row in flight without a hash is FAILED; one with a hash is PAID, left or FAILED as the wallet says paid, pending or neither, and left when it says nothing or the update is rejected |
| PayoutDecisions.AskingAgrees | apps/payouts/src/reconcile-inflight.ts:69-95 | the protocol's step on a wallet's answer resolves the row as the procedure does |
| PayoutWorker.Worker.CheckMaturity | apps/payouts/src/maturity-watcher.ts:26-76 | each candidate moves by the node's answer unless its update is rejected, and the three lists name exactly the promoted, the orphaned and the errored ones; it fails exactly on a rejected update behind "Block not found", the candidates in front of it being moved |
| PayoutDecisions.WatchedByCase | apps/payouts/src/maturity-watcher.ts:38-71 | a block is orphaned exactly on negative confirmations or an unknown hash and matured exactly on enough confirmations, unless its update is rejected |
| PayoutDecisions.WatchingAgrees | apps/payouts/src/maturity-watcher.ts:38-71 | the protocol's step on the node's answer goes on to the write the procedure makes |
| BlockReward.RunListed | apps/payouts/src/dust-fanout.ts:78-159 | in every run every payout row is one its block's snapshot lists, with the listed amount |
| BlockReward.RowsAreDistinct | apps/payouts/src/dust-fanout.ts:89-159 | no two rows recorded for a PPLNS block share a key |
| BlockReward.RowsAccountForReward | packages/coinbase/src/pplns.ts:80-136 | recorded rows, both fees and the rounding remainder add up to the reward, short only of the member named by the empty string |
| BlockReward.TableHoldsTheReward | apps/payouts/src/dust-fanout.ts:64-162 | in every run the rows of a PPLNS block never total more than the recorded amount, and exactly it once all are written |
| BlockReward.BothShapesRecord | apps/payouts/src/dust-fanout.ts:78-83 | a PPLNS result stored as it is, or flat with the breakdown on the bucket, is read back as the same outputs and breakdown |
| BlockReward.BareOutputsRecordNoDust | apps/payouts/src/dust-fanout.ts:78-83 | stored flat without a breakdown it records its member outputs and no dust row, and in no run is anything sent for it |
| BlockReward.WindowIsPaidOut | apps/stratum/src/hashden/hashden.service.ts:288-314 | every window is accepted by the builder, pays exactly the reward, and permuting its shares changes nothing |
| BlockReward.SpentWithinBucket | apps/payouts/src/dust-fanout.ts:182-268 | in every run what is sent for a PPLNS block is at most its DUST_BUCKET output, and nothing before maturity was read |
| BlockReward.SpentCoveredByCoinbase | apps/stratum/src/models/MiningJob.ts:163-173 | against the coinbase actually mined the payouts cost at most one sat more than the bucket output, and none more when it comes first or the remainder is positive |
| MinedBucket.BucketCoversDustExactly | apps/stratum/src/hashden/hashden.service.ts:316-332 | the mined bucket holds the whole breakdown under every admissible rounding if and only if it is the first output or the shares leave a remainder |
| MinedBucket.BucketOneSatShort | apps/stratum/src/hashden/hashden.service.ts:316-332 | a concrete input whose mined bucket is 42 sats and owes 43 under every round-to-nearest binary64 |
| Fees.SplitFees | packages/coinbase/src/fees.ts:20-53 | fails exactly on invalid fees; both fees are the largest sats not above their rate, and the three parts are the reward |
| Fees.RemainingAtLeast | packages/coinbase/src/fees.ts:45-53 | what is left is at least the part of the reward the rates leave |
| Pplns.ValidatePplnsInput | packages/coinbase/src/pplns.ts:167-191 | accepts exactly non-negative weights, addresses present and strictly ascending pubkeys |
| Pplns.RemainderBound | packages/coinbase/src/pplns.ts:80-97 | the rounding remainder is non-negative and smaller than the number of members with weight |
| Pplns.SplitMembers | packages/coinbase/src/pplns.ts:74-94 | the member loop's outputs, breakdown and running totals are those of the specification |
| Pplns.BuildPplnsCoinbase | packages/coinbase/src/pplns.ts:54-136 | the imperative builder computes the specified result and fails exactly where it does |
| PplnsLaws.OutputsConserveReward | packages/coinbase/src/pplns.ts:54-165 | for every valid input, also with zero total weight, outputs sum to the reward and the platform fee is its exact floor |
| PplnsLaws.BucketHoldsBreakdown | packages/coinbase/src/pplns.ts:96-127 | the bucket is the breakdown plus the remainder when anyone is owed dust, otherwise the operator takes the remainder |
| PplnsLaws.CreditIsShare | packages/coinbase/src/pplns.ts:80-94 | on chain or as dust, a member is credited exactly the floored proportion |
| PplnsLaws.OnChainAndDustDisjoint | packages/coinbase/src/pplns.ts:80-92 | no member is both paid on chain and owed dust, and the threshold separates them |
| PplnsLaws.HeavierIsCreditedMore | packages/coinbase/src/pplns.ts:80-94 | a heavier member is never credited less |
| PplnsLaws.ScalingChangesNothing | packages/coinbase/src/pplns.ts:59-94 | scaling all weights by a positive factor leaves the whole result identical |
| PplnsLaws.SplittingNeverPays | packages/coinbase/src/pplns.ts:59-94 | splitting a member into k never raises their total, lowers it by at most k - 1 sats, and moves nobody else |
| PplnsOutputs.BuildSucceedsExactly | packages/coinbase/src/pplns.ts:167-191 | the builder accepts exactly inputs with fees in bounds, both addresses, a threshold that is not negative, and members in strict order with addresses and weights that are not negative |
| PplnsOutputs.OutputsPayTheirOwners | packages/coinbase/src/pplns.ts:105-136 | for every valid input the bucket and the operator's fee pay the operator, the platform's fee the platform, each member output the member it names, and no fee output is empty |
| PplnsOutputs.OutputsStandInOrder | packages/coinbase/src/pplns.ts:105-136 | members first by ascending pubkey, then at most one bucket, at most one operator fee, at most one platform fee |
| PplnsOutputs.CreditIsFloor | packages/coinbase/src/pplns.ts:81-98 | a member's credit is the largest whole number of sats not above their proportion of what the fees leave |
| PplnsOutputs.WeightlessGoesToBucket | packages/coinbase/src/pplns.ts:138-164 | with no weight in the window the fees are their floors, everything else is in the bucket, and nobody is owed |
| PplnsWindow.ComputePplnsWindow | packages/groups/src/pplns-window.ts:44-102 | the result lists each member with weight and an address once, in ascending order, with the summed weight |
| PplnsWindow.WindowPassesValidation | packages/groups/src/pplns-window.ts:91-101 | the builder's member checks never reject a window |
| PplnsWindow.WindowIgnoresOrder | packages/groups/src/pplns-window.ts:65-100 | permuting the shares, and any iteration order of the map, changes no output |
| PplnsWindow.TotalIsResolvedWeight | packages/groups/src/pplns-window.ts:65-97 | total weight is the scaled difficulty of exactly the shares whose member still resolves |
| PplnsWindow.MemberWeighsTheirShares | packages/groups/src/pplns-window.ts:63-74 | a listed member's weight is a million times their plainly summed difficulty, up to half a unit a share |
| PplnsWindow.ListedExactly | packages/groups/src/pplns-window.ts:63-97 | a member is listed exactly if their address resolves and one of their shares has a difficulty of at least half a millionth |
| PplnsWindow.TotalWeighsTheWindow | packages/groups/src/pplns-window.ts:63-97 | the total weight is a million times the difficulty of the shares whose member resolves, up to half a unit a share |
| PercentHop.HopLosesAtMostOneSat | apps/stratum/src/hashden/hashden.service.ts:323-332 | with each operation rounded by at most 2^-53 relative error, an amount comes back as itself or one sat less |
| PercentHop.LowLosesOneSat | apps/stratum/src/hashden/hashden.service.ts:323-332 | an admissible rounding takes one sat off every positive amount of every reward |
| PercentHop.PercentIsShare | apps/stratum/src/hashden/hashden.service.ts:316-332 | the percentage handed on is a hundred times the part of the reward, up to two roundings |
| PercentHop.DoublesLoseOneSat | apps/stratum/src/hashden/hashden.service.ts:323-332 | round-to-nearest binary64 takes one sat off 43 of 312500000 |
| Doubles.NearestIsRounding | apps/stratum/src/hashden/hashden.service.ts:327-331 | round-to-nearest binary64 satisfies what the error analysis asks of a rounding: relative error 2^-53 in the normal range, and order kept |
| PercentHop.CreateOutputs | apps/stratum/src/models/MiningJob.ts:163-173 | floored amounts, the balance added to the first output, an error without recipients |
| PercentHop.OutputsTotalReward | apps/stratum/src/models/MiningJob.ts:163-173 | whatever the percentages, the outputs total the reward |
| PercentHop.HopIsExact | apps/stratum/src/hashden/hashden.service.ts:316-332 | through the whole hop every output but the first is intended or one less, and the first gains between 0 and n - 1 |
| SoloShowcase.BuildSoloShowcaseCoinbase | packages/coinbase/src/solo-showcase.ts:27-64 | exactly which inputs are accepted and the first failed check as error; the miner first with all both fees leave, then the operator's and the platform's floored fee to its own address, each left out exactly if it is nothing |
| Bytes.FromHexOfToHex | apps/stratum/src/models/MiningJob.ts:94-96 | hex text reads back to its bytes |
| Bytes.FromLEOfLE | apps/stratum/src/models/MiningJob.ts:64-67 | little-endian integers read back |
| Bytes.ToHexWrites | apps/stratum/src/models/MiningJob.ts:94-96 | two lower-case digits a byte, the high one first |
| Bytes.FromHexReads | apps/stratum/src/models/MiningJob.ts:122-125 | reading takes them in that order, in either case |
| Transaction.ParseOfSerialize | apps/verifier/src/coinbase.ts:45-53 | parsing a serialized legacy transaction gives the transaction back |
| Transaction.TransactionLayout | apps/verifier/src/coinbase.ts:45-53 | version, counts, inputs, outputs and lock time stand at their places on the wire |
| Transaction.OutputLayout | apps/verifier/src/coinbase.ts:45-53 | an output is eight little-endian bytes of value, the script's length and the script |
| Merkle.BranchFoldsToRoot | apps/stratum/src/services/stratum-v1-jobs.service.ts:130-137 | folding any coinbase hash through the branch gives the block's Merkle root, and the branch does not depend on the placeholder |
| Merkle.ParentsAt | apps/stratum/src/services/stratum-v1-jobs.service.ts:130-137 | node i of the next level is the hash of nodes 2i and 2i + 1, or of node 2i twice at an odd end |
| Merkle.RootIsTopNode | apps/stratum/src/services/stratum-v1-jobs.service.ts:130-137 | the root is the single node on top of the tree defined node by node |
| Merkle.BranchIsSiblings | apps/stratum/src/services/stratum-v1-jobs.service.ts:132-137 | the branch is, level by level, the second node of that tree |
| Merkle.RepeatedLeafKeepsRoot | apps/stratum/src/services/stratum-v1-jobs.service.ts:130-133 | repeating the last of an odd number of leaves above one leaves the root |
| Merkle.ProofHoldsBranch | apps/stratum/src/services/stratum-v1-jobs.service.ts:132-137 | the inclusion proof without its empty places is the leaf, the branch and the root |
| Merkle.JobsService.BuildJobTemplate | apps/stratum/src/services/stratum-v1-jobs.service.ts:109-165 | the stored template has a fresh id, the placeholder tree's root and the branch |
| Merkle.CalculateMerkleRootHash | apps/stratum/src/models/MiningJob.ts:137-150 | the reused 64-byte buffer computes the fold over the decoded branch |
| Merkle.TemplateBranchGivesBlockRoot | apps/stratum/src/services/stratum-v1-jobs.service.ts:123-137 | what a miner folds from the advertised branch is the root of the block with its own coinbase |
| MiningJob.GetExtranonce2SizeBytes | apps/stratum/src/utils/extranonce.utils.ts:23-30 | a setting from 1 to 16 is kept, a larger one is capped at 16, none or a smaller one gives 8 |
| MiningJob.BuiltScriptPushesHeight | apps/stratum/src/models/MiningJob.ts:62-80 | the script starts with the minimal height push of BIP 34's Specification section |
| MiningJob.PoolIdentifierText | apps/stratum/src/models/MiningJob.ts:59-60 | the identifier is the configured one, and "Public-Pool" if none or an empty one is configured |
| MiningJob.ZerosBehindPool | apps/stratum/src/models/MiningJob.ts:62-80 | behind the height push stands the identifier, and behind that nothing but zeros |
| MiningJob.PoolUsed | apps/stratum/src/models/MiningJob.ts:74-90 | the identifier is dropped exactly if it would break the 100-byte script limit or the block weight limit, and the script obeys the former |
| MiningJob.PoolKeptExactly | apps/stratum/src/models/MiningJob.ts:74-90 | the identifier is kept exactly if the script stays within 100 bytes and the block within 4,000,000 weight units |
| MiningJob.CommitmentBytes | apps/stratum/src/models/MiningJob.ts:51-81 | OP_RETURN, a push of 36 bytes, the header of BIP 141 and the hash, with no value |
| MiningJob.CoinbaseBytes | apps/stratum/src/models/MiningJob.ts:92-94 | the serialized coinbase byte by byte around its script and outputs |
| MiningJob.SearchFindsScript | apps/stratum/src/models/MiningJob.ts:94-98 | the hex search finds the script at its true position and no earlier one, at even or odd nibbles |
| MiningJob.SplitCoinbase | apps/stratum/src/models/MiningJob.ts:92-101 | the two parts are the serialization before and after the extranonce slot |
| MiningJob.MiningJob.constructor | apps/stratum/src/models/MiningJob.ts:44-104 | the job's script, commitment output and parts fit together |
| MiningJob.MiningJob.CopyAndUpdateBlock | apps/stratum/src/models/MiningJob.ts:106-134 | after any earlier submissions the rebuilt coinbase serializes to part1 + extranonce1 + extranonce2 + part2, and the header carries the folded root of exactly those bytes |
| MiningJob.SplicedSerialization | apps/stratum/src/models/MiningJob.ts:122-128 | filling the slot and serializing is concatenating the parts around the extranonces |
| MiningJob.OnlyLastSubmissionShows | apps/stratum/src/models/MiningJob.ts:122-125 | after any sequence of submissions the script shows only the last one's extranonces |
| MiningJob.HeightPushSurvives | apps/stratum/src/models/MiningJob.ts:69-90 | the height push survives every submission if and only if the height needs at most three bytes or the identifier is kept |
| Verifier.ScriptsEqual | apps/verifier/src/verify.ts:61-65 | true exactly on equal scripts |
| Verifier.VerifyOutputs | apps/verifier/src/verify.ts:71-134 | not accepted if no output has the address's script or those sum to nothing; else a solo job exactly if the rounded share reaches the minimum, a PPLNS job exactly if the sats reach the floor, or 1 without one; sums, share and counts are those of the outputs |
| Verifier.PaidAtLeast | apps/verifier/src/verify.ts:77-86 | an address is credited at least any one output to its script, and never more than the total |
| Verifier.SoleOutput | apps/verifier/src/verify.ts:77-86 | an address with one output is credited just that, whatever the others are paid |
| Verifier.CountIsPlaces | apps/verifier/src/verify.ts:77-86 | the count of my outputs is the number of places with my script |
| SoloEndToEnd.SlotDoesNotMoveOutputs | apps/verifier/src/coinbase.ts:26-53 | whatever extranonces fill the slot, parsing gives back exactly the den's outputs with the commitment |
| SoloEndToEnd.ReconstructionRecoversOutputs | apps/verifier/src/coinbase.ts:56-65 | the verifier's zero-filled reconstruction recovers the same outputs |
| SoloEndToEnd.ReconstructionIsTheCoinbase | apps/verifier/src/coinbase.ts:26-53 | what the verifier reads is the serialized coinbase with the first extranonce and then zeros in the slot |
| SoloEndToEnd.SoloPayoutIsAccepted | apps/verifier/src/verify.ts:71-117 | a solo payout through the percentage hop is accepted at every minimum share the fee rates leave room for |
| SoloEndToEnd.ServeAndVerifySolo | apps/verifier/src/verify.ts:71-117 | from fee split to verdict: every solo job with fees within 1 - m is accepted for the miner's address at minimum share m, so up to 1000 bps at 0.9 |
| SoloEndToEnd.TheftIsRejected | apps/verifier/src/verify.ts:94-100 | whatever extranonces fill the slot, a coinbase whose outputs pay my script nothing is rejected under both rules |
| SoloEndToEnd.UnderpaidIsRejected | apps/verifier/src/verify.ts:102-109 | a solo payout short of the minimum share by more than the rounding is rejected |
| SoloEndToEnd.ServeAndReject | apps/verifier/src/verify.ts:71-134 | from job construction to verdict: a job that pays mine nothing, too small a share, or less than the floor is rejected |
| PplnsEndToEnd.MemberAccepts | apps/verifier/src/verify.ts:119-133 | every member paid on chain at least two sats accepts the PPLNS job at every minSats up to their share less one sat |
| PplnsEndToEnd.ServeAndVerifyPplns | apps/verifier/src/verify.ts:71-134 | from the PPLNS builder to that member's verdict: accepted, credited at least the share less one sat, of a total that is the reward |
| Smearing.TopBitIsPower | apps/stratum/src/models/StratumV1ClientStatistics.ts:157-163 | smearing a positive 32-bit integer yields the power of two at or below it |
| Smearing.NoTopBit | apps/stratum/src/models/StratumV1ClientStatistics.ts:157-163 | zero and negative 32-bit integers yield zero |
| Smearing.ToInt32IsCongruent | apps/stratum/src/models/StratumV1ClientStatistics.ts:157-162 | the 32-bit integer a number is taken for differs from its floor by a multiple of 2^32 |
| PowerOfTwo.WithinTwoExactly | apps/stratum/src/models/StratumV1ClientStatistics.ts:150-171 | from 1 upwards the result r satisfies r <= val < 2r if and only if val is below 2^31 |
| ScaledPowers.DoublesWithinTwice | apps/stratum/src/models/StratumV1ClientStatistics.ts:150-171 | on every double from 0.00001 up to 2^31 the recursion ends within four nested calls with r <= val <= 2r |
| ScaledPowers.WithinTwoOnDoubles | apps/stratum/src/models/StratumV1ClientStatistics.ts:150-171 | over all doubles, r <= val < 2r if and only if val is in that range and none of three named doubles |
| ScaledPowers.ExceptionsGiveHalf | apps/stratum/src/models/StratumV1ClientStatistics.ts:164-169 | on the doubles nearest to 0.000016, 0.000032 and 0.000064 the result is exactly the half |
| PowerOfTwo.ReturnsExactly | apps/stratum/src/models/StratumV1ClientStatistics.ts:154-169 | from 2^31 upwards the routine returns within a number of nested calls if and only if one of that many scaled values has a positive 32-bit integer |
| PowerOfTwo.NeverReturns | apps/stratum/src/models/StratumV1ClientStatistics.ts:164-169 | on a multiple of 2^31 no number of nested calls suffices, also when the products are rounded |
| Vardiff.SuggestionSettles | apps/stratum/src/models/StratumV1ClientStatistics.ts:122-148 | for every target from 0.00001 up to 2^31 a suggestion comes exactly when the difficulty is not within a factor of two of the target, and applying it makes the next one on the same cache null |
| Vardiff.TargetIsRate | apps/stratum/src/models/StratumV1ClientStatistics.ts:133-142 | roundings aside the target is the plainly summed difficulty per second from the first to the last cached share, times the configured seconds per share |
| Vardiff.SilenceLowers | apps/stratum/src/models/StratumV1ClientStatistics.ts:124-131 | with fewer than five cached shares nothing happens for a minute, then each suggestion is lower by a factor between 6 and 12 up to one rounding of the division |
| Statistics.StratumV1ClientStatistics.AddShares | apps/stratum/src/models/StratumV1ClientStatistics.ts:37-120 | rows of closed slots stay exact, memory is exact, the cache holds the last 31 submissions |
| Statistics.SaveOk | apps/stratum/src/models/StratumV1ClientStatistics.ts:96-108 | writing the memory totals makes the current slot's row exact and leaves the others |
| Statistics.NextSlotOk | apps/stratum/src/models/StratumV1ClientStatistics.ts:69-95 | closing a slot leaves it exact and opens the next with the new share |
| Statistics.CurrentRowAtMostMemory | apps/stratum/src/models/StratumV1ClientStatistics.ts:96-118 | the current slot's row never exceeds the memory total |
| Statistics.TableHoldsAllCredits | apps/stratum/src/models/StratumV1ClientStatistics.ts:37-120 | all rows together hold everything credited, short only of the current slot's unwritten part |
| Statistics.CountIsShares | apps/stratum/src/models/StratumV1ClientStatistics.ts:37-120 | the count of a slot's exact row is the number of credited shares in it |
| Statistics.SlotHoldsTime | apps/stratum/src/models/StratumV1ClientStatistics.ts:39-42 | slots are the ten-minute intervals that begin at multiples of ten minutes |
| Regimes.StratumV1Client.SetSessionDifficulty | apps/stratum/src/models/StratumV1Client.ts:733-743 | the pruned list still covers the full history of targets |
| Regimes.StratumV1Client.AcceptableTarget | apps/stratum/src/models/StratumV1Client.ts:751-771 | the credit is the one the unpruned history gives: the largest active target not above what was proven |
| Regimes.CreditIsUnique | apps/stratum/src/models/StratumV1Client.ts:751-771 | the description of the credit leaves no choice |
| Regimes.CreditBounds | apps/stratum/src/models/StratumV1Client.ts:751-771 | never credited above what was proven; a share clearing the live target gets at least it |
| Regimes.SameCredit | apps/stratum/src/models/StratumV1Client.ts:738-763 | with a non-decreasing clock the pruned list and the full history answer alike |
| Regimes.GraceCountsFromTheStart | apps/stratum/src/models/StratumV1Client.ts:738-761 | for every history: a share that misses the live target is credited if and only if it clears one that began within the grace, and then at the largest such |
| Regimes.NoGraceAfterALongRegime | apps/stratum/src/models/StratumV1Client.ts:738-761 | a target older than the grace earns nothing from the moment it is superseded |
| LineFraming.LinesRejoin | apps/verifier/src/proxy.ts:31-43 | lines and rest are the stream again and hold no newline |
| LineFraming.ChunkingIsIrrelevant | apps/stratum/src/models/StratumV1Client.ts:92-107 | however the stream is cut, the same non-empty lines come out as from the whole |
| LineFraming.OnlyEmptyLinesDropped | apps/stratum/src/models/StratumV1Client.ts:92-107 | exactly the empty lines are dropped |
| LineFraming.LineBuffer.OnData | apps/stratum/src/models/StratumV1Client.ts:92-107 | each chunk hands on its new non-empty lines and keeps the unfinished one |
| LineFraming.LinePump.OnData | apps/verifier/src/proxy.ts:26-45 | observes every line and forwards those in front of the first on which the observer, by all it has seen, closes the peer, or of the moment something else does |
| LineFraming.PumpIsTransparent | apps/verifier/src/proxy.ts:31-43 | what is forwarded is a prefix of the input, and while the peer stays open exactly the input up to its last newline |
| LineFraming.ClosingLineIsNotSent | apps/verifier/src/proxy.ts:37-42 | on none of the forwarded lines the observer closes the peer, and on the first that is not forwarded it does |
| LineFraming.BuffersAgree | apps/stratum/src/models/StratumV1Client.ts:92-107 | both framers agree on the non-empty lines and on what they hold back |
| IpReader.Ipv4ToInt | apps/stratum/src/hashden/api/ssrf-guard.ts:46-57 | reads exactly the dotted quads, the signed wrap-around of the accumulator notwithstanding |
| IpReader.QuadWeighs | apps/stratum/src/hashden/api/ssrf-guard.ts:46-57 | the octets weigh 2^24, 2^16, 2^8 and 1 |
| IpReader.FormReads | apps/stratum/src/hashden/api/ssrf-guard.ts:89-125 | every lower-case form of section 2.2 of RFC 4291, full, compressed, with embedded IPv4, with or without zone, reads back to its eight groups' number |
| IpForms.FormsExactly | apps/stratum/src/hashden/api/ssrf-guard.ts:89-125 | a text is read as a number if and only if, up to a zone, it is one of those forms and the number is that of its groups |
| IpForms.QuadsExactly | apps/stratum/src/hashden/api/ssrf-guard.ts:46-57 | a text is read as an IPv4 number if and only if it is four decimal octets with dots between, and the number is theirs to the base 256 |
| IpReader.GroupOfNumber | apps/stratum/src/hashden/api/ssrf-guard.ts:119-124 | each group is the 16 bits of the number at its place |
| IpReader.EveryAddressReads | apps/stratum/src/hashden/api/ssrf-guard.ts:89-125 | every 128-bit number is what its full form reads as |
| IpBlocks.BlockIsRange | apps/stratum/src/hashden/api/ssrf-guard.ts:62-86 | each shift-and-mask test is membership in the block's first-to-last range |
| IpBlocks.IsDisallowedIpv4 | apps/stratum/src/hashden/api/ssrf-guard.ts:80-87 | true exactly inside one of the fifteen ranges |
| IpBlocks.IsDisallowedIpv6 | apps/stratum/src/hashden/api/ssrf-guard.ts:127-151 | true exactly inside the intended prefix ranges, where an IPv4 address is embedded by that one |
| IpBlocks.LowAddressDecides | apps/stratum/src/hashden/api/ssrf-guard.ts:127-151 | an IPv4-mapped or NAT64 address is judged by the IPv4 address in its low 32 bits |
| IpBlocks.SixToFourDecides | apps/stratum/src/hashden/api/ssrf-guard.ts:127-151 | a 6to4 address is judged by the IPv4 address behind its first 16 bits |
| IpBlocks.FormIsJudgedByItsNumber | apps/stratum/src/hashden/api/ssrf-guard.ts:154-164 | every textual form of an address gets the same verdict, that of its number |
| IpBlocks.IsDisallowedIp | apps/stratum/src/hashden/api/ssrf-guard.ts:154-164 | unreadable texts and non-public addresses are rejected, nothing else |

## Left out

- HTTP, LNURL, NWC, Nostr, RPC clients, the database drivers, DNS and TLS are foreign; the Lightning client, the node and the member table answer nondeterministically, and single-row writes are atomic.
- The web application, REST controllers, notifications, configuration parsing, worker-name parsing, template-source selection and hashrate displays would only add easy members.
- Hash functions, address encoding and address to script are function parameters (32-byte results for hashes); witness hashing is not part of this model beyond the 32-byte commitment.
- The Merkle-tree and transaction libraries are not part of the repository; `Merkle` and `Transaction` model what they do, with the witness form of a transaction read as an error.
- The receipt of a dust payment is part of one await that can succeed or fail; the receipts of on-chain rows are part of `PayoutWorker.Worker.RecordOnChainPayouts` and left out of the step relation.
- The graceful stop on SIGINT and SIGTERM is a special case of a crash while sleeping.
- The error list of the fan-out pass, the reasons in the one of the maturity pass, log lines, and the member named in an error text are not modelled.
- Basis points and stored decimal sats are integers here; the checks for non-integers and unparsable text have no counterpart.
- Strings are sequences of characters; UTF-8 decoding at chunk boundaries and the locale play no part.
- Share difficulties and the sums of the statistics are real numbers. The percentage hop, the verifier's share and the difficulty suggestion round each operation; in the suggestion the literal 0.00001 stands for itself and the test for a minute is exact. The scaled difficulty of the window multiplies exactly and then rounds halves up.
- PayoutSafety.NextInv: does not say that PAID is final; the catch branch and reconciliation may overwrite a settled status, so only the rank is kept.
- FanoutDust.SoleStep: a drain loop that publishes a receipt waits for the relay and the database in one await, whose rejection is the same event for both; so the sole-worker results exclude rejected publishes as well as database errors.
- FanoutDust.SoleEnd: covers a sole worker whose database and relay do not fail; rejected awaits and other workers are covered by the step relation of `PayoutProtocol` and the results over runs.
- PayoutWorker.Worker.RunWithConcurrency: covers a sole worker without rejected awaits, as FanoutDust.SoleEnd.
- PayoutWorker.Worker.FanoutDust: covers a sole worker without rejected awaits, as FanoutDust.SoleEnd, and omits the error list.
- PayoutWorker.Worker.CheckMaturity: a rejected update leaves the block as it was, and its message is taken not to read "Block not found" itself; a write that lands although its reply was lost is a Land step of `PayoutProtocol`.
- PayoutWorker.Worker.RecordOnChainPayouts: a rejected write leaves the table as it was, as in CheckMaturity.
- PayoutWorker.Worker.ReconcileInFlight: a rejected update leaves the row as it was; a write that lands although its reply was lost is a Land step of `PayoutProtocol`.
- PayoutExactly.CanBePaidExactly: goes one way only where a row is in reach but not freely so; there the answer depends on the order in which several workers orphan and promote the same blocks.
- PayoutRuns.PaidAtMostOnce: counts requests to the Lightning client, not settled payments; what the client's service does with one request is foreign.
- MiningJob.MiningJob.CopyAndUpdateBlock: requires extranonces of the advertised length; a share with another length is not modelled.
- MiningJob.MiningJob.constructor: heights go up to 2^31 - 1, the node's integer width.
- Merkle.JobsService.BuildJobTemplate: header fields other than the root, the expiry of stored templates and the clock are not modelled.
- PercentHop.HopIsExact: covers rewards up to 21 million BTC, where the rounding bound of 2^-53 keeps the error below one sat.
- Statistics.StratumV1ClientStatistics.AddShares: assumes calls that do not overlap, a clock that does not run backwards and writes that succeed; a failed write may lose or repeat a share.
- IpReader.FormReads: covers lower-case forms; that nothing else is read, upper-case digits included, is IpForms.FormsExactly.
- Regimes.StratumV1Client.AcceptableTarget: assumes a clock that does not run backwards.
