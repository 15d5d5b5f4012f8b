# Verification of the shyware ledgers

A Dafny model of the stateful parts of the repository, with proofs about every run of
them: the two-list voting machine, the shywire ledger and its custody allocator, the
generic two-list period machine, the commitments and keys they share, the relay and the
server queue in front of them, and the scytale export and cutover checks.

`dafny verify dfyconfig.toml` checks everything.

## How it is built

Each state machine is given twice. A specification module (`VotingSpec`, `PeriodSpec`,
`WireSpec`) holds the state as a value, says when a transaction is accepted and what it
does, and defines the state after any sequence of transactions. The runs are those whose
validation still holds at execution: a transaction that does not pass in the state it
meets is dropped. The block handlers execute without validating again (app/app.go:155,
embodiments/shywire/app/app.go:97), so two transactions validated against one state and
executed one after the other are covered only as far as the second still passes. The
theorems are about all such sequences. A state module (`VotingState`,
`PeriodState`, `WireState`) holds the object whose methods update its maps in place, with
the loops of the Go code; every execute method is proved to leave exactly the specified
state. Maps are visited in an arbitrary order, as Go visits them, so nothing can depend on it.

That the specified steps are the intended ones is stated a second time, without them. The
modules `*Origins`, `WireFlags` and `WireFlows` read every record, list entry, flag and
balance of any reachable state off the row of accepted transactions: each of them, in the
state it meets, says something about a key or is silent (`Histories.Mark`), and what a
record holds is the last thing that was said.

The main files, in the order of the argument:

- `ordering`, `permutations`, `sums`, `twolist`, `histories`: byte strings and sorting,
  multisets, sums over maps and int64 wrap-around, counting, the last word on a record.
- `merkle`, `payload`, `keys`, `store`: commitments, the signed bytes, prefix scans, commit
  and reload.
- `voting_spec`, `voting_laws`, `voting_runs`, `voting_theorems`, `voting_effects`,
  `voting_origins`, `voting_tally`, `voting_audit`, `voting_state`.
- `period_spec`, `period_runs`, `period_origins`, `period_batch`, `period_state`.
- `wire_spec`, `wire_ledger`, `wire_lists`, `wire_custody`, `wire_inventory`, `wire_state`,
  `wire_store`, `wire_flows`, `wire_flags`, `wire_origins`.
- `relay`, `relay_state`, `relay_ledger`, `server_queue`: every interleaving of atomic steps,
  and what of the relay's order reaches the ledger.
- `scytale_spec`, `scytale_laws`, `scytale_cutover`, `scytale_bundle`.

## Conventions

- SHA-256 is a parameter `h`. Where a property needs it, the premise is that no two of the
  byte strings actually hashed collide, never that `h` is injective.
- The code does not check that a new submission id is unused, does not consume restore
  grants and lets updates name sealed ballots. The runs here include all of that; the
  theorems carry the exact count of such events, and hold without conditions.
- `time.Now` and block times are fields of the transaction.
- A Go int64 wraps where the code can wrap it (balances, supply, contract totals, the
  inventory total). Counters that grow by one per transaction are unbounded.
- `a + ":" + b` keys are pairs. `Keys` proves when that is the same thing: colon-free
  scopes, or colon-free ids. For shywire accounts the premise is that the registered asset
  ids or the commitments are colon-free (`WireStore.RunApart`). Without it two accounts can
  share a joined key (`WireStore.SharedKey`); the code then has one record for both, and
  what is proved about single accounts and their sums does not carry over to those assets.
- Where the documentation promises more than the code does, the code is modelled and the
  promise is stated with the condition under which it holds and an input that breaks it:
  `SealedBalance` and `SealedBalanceBroken`, `CapExactly` and `ReattestationOverVoters`,
  `UniqueExactly` and `DuplicateAfterRefusal`, `IdentityChecksIff` and `BorrowedPlace`,
  `NonceIdsIff` and `SpellingsStick`, `NormalizeTwiceIff` and `StrayRowChanges`,
  `BundleVerifiesIff` and `StrayBundleFails`.

## Model

| member | source | states |
|---|---|---|
| VotingRuns.RunLaws | domain/state/state.go:186-240 | one invariant, kept by every accepted transaction of any run: drift of the two lists, all incremental poll counters, the tally against a recount, and the rolling cadence, each with the exact history that makes it differ from a fresh count |
| VotingTheorems.DriftExact | domain/state/ballots.go:310-360 | in every run and for every poll, List 1 minus List 2 is flushes of an identity that stood registered minus writes onto an existing ballot id |
| VotingEffects.FlushStores | domain/state/batch_flush.go:100-132 | after an accepted flush every cast of it is stored under its id with its own choices and key hash, neither sealed nor superseded, and its identity is registered; nothing else enters, leaves or changes |
| VotingEffects.FlushRecount | domain/state/batch_flush.go:100-132 | for every option a flush adds to the recount the number of its casts whose own choices back the option, less what the ballots it overwrote backed |
| VotingEffects.UpdateStores | domain/state/ballots.go:352-360 | after an accepted update the new id carries exactly the new choices, the old id is gone, every other ballot, List 2 and all else is as it was |
| VotingEffects.UpdateRecount | domain/state/ballots.go:352-360 | for every option the recount drops what the ballots under the two ids backed and gains the new choices |
| VotingEffects.Removes | domain/state/authority_rescind.go:130-150 | a withdrawal and a rescission take out exactly the ballot, the registration and the confirmation they name |
| VotingOrigins.BallotsExact | domain/state/batch_flush.go:100-132 | in every run a ballot is stored if and only if the last accepted transaction about its id wrote it, with the choices and key hash of that cast or update; it is sealed if and only if it was resealed since, with that same key hash |
| VotingOrigins.BallotOrigin | domain/state/ballots.go:352-360 | every stored ballot names the accepted cast or update it comes from, after which nothing accepted was about its id |
| VotingOrigins.BackersExact | domain/state/tallies.go:48-84 | the ballots a recount counts for an option are those whose last accepted cast or update backs it and that are not sealed |
| VotingOrigins.VotersExact | domain/state/ballots.go:320-330 | in every run an identity is registered if and only if the last accepted transaction about it was a cast of it, and confirmed if and only if that was its confirmation |
| VotingOrigins.FlushAcceptedIff | domain/state/ballots.go:85-106 | in every run a well-formed flush is accepted if and only if everyone in it who stands registered was granted a restore by an accepted transaction of the run |
| VotingOrigins.GrantsExact | domain/state/authority_rescind.go:290-331 | a restore grant is on record if and only if an accepted transaction of the run gave it |
| VotingOrigins.NoGrantNoRecast | domain/state/ballots.go:91-106 | a poll without an accepted restore has no recast at all: no identity casts while it stands registered |
| VotingOrigins.RestoreFollowsRescission | domain/state/authority_rescind.go:238-285 | a grant is accepted only after an accepted rescission of the ballot it names, and once for an identity |
| VotingOrigins.OneEntryPerRescission | domain/state/authority_rescind.go:188-200 | the append-only log of a poll has exactly one entry for each accepted rescission |
| VotingOrigins.PollsExact | domain/state/polls.go:94-150 | every poll has the terms of the transaction that created it, and the status that the last opening or successful close gave it |
| VotingOrigins.AcceptedWithin | domain/state/ballots.go:62-86 | in every run, what is accepted keeps to the terms the poll was created with: casts and updates to window, options and method, confirmations to the start, closes to the end, rescissions and restores to polls with keys |
| VotingTheorems.SealedBalance | domain/state/authority_rescind.go:140-170 | List 2 equals counted ballots plus `SealedCount` if and only if recasts plus erased seals equal overwrites; `SealedCount` exceeds the sealed ballots by exactly the seals that updates, withdrawals and flushes onto a sealed id erased |
| VotingAudit.SealedBalanceBroken | domain/state/ballots.go:310-360 | a concrete run, a sealed ballot withdrawn, after which the documented balance is off by one |
| VotingTheorems.RescindGuardsNeverFire | domain/state/authority_rescind.go:153-170 | in every run the guards on `ReattestationCount` and `SealedCount` in a rescission never swallow a decrement |
| VotingTheorems.AuditExact | domain/state/confirms.go:62-108 | `IDVCastCount` exceeds List 2 by exactly withdrawals, rescissions and recasts; `ReattestationCount` exceeds live confirmations by exactly the withdrawn ones; only registered identities hold a confirmation |
| VotingAudit.CapExactly | domain/state/confirms.go:77-93 | the documented cap of `ReattestationCount` by the number of voters holds, however many voters still confirm, if and only if no confirmed identity has ever withdrawn |
| VotingAudit.ReattestationOverVoters | domain/state/confirms.go:77-93 | a concrete run that breaks the cap: one confirmation and no voters |
| VotingTheorems.CadenceExact | domain/state/batch_flush.go:134-144 | threshold times checkpoints and refused checks plus the pending counter is every ballot materialised; sequence numbers are 0, 1, 2, ...; the counter stays below the threshold unless the last check failed |
| VotingTheorems.CheckpointsCommitLists | domain/state/tallies.go:89-152 | a flush only appends checkpoints, only over lists of equal length, and each commits to the lists as the flush left them |
| VotingTheorems.CloseSucceedsIff | domain/state/tallies.go:156-230 | an accepted close goes through if and only if recasts equal overwrites plus the ballots sealed right now |
| VotingTheorems.CleanCloseIff | domain/state/tallies.go:156-230 | with no recast and no overwrite, a close goes through if and only if no ballot of the poll is sealed |
| VotingTheorems.TallyExact | domain/state/authority_rescind.go:171-186 | in every reachable state of a closed poll the total is the size of List 2, total plus rescissions is the total at close, and the stored counts equal a recount for every option if and only if no sealed ballot was rescinded after close |
| VotingTally.FiguresExact | domain/state/authority_rescind.go:149-186 | in every reachable state of a closed poll the stored confirmed count exceeds the live confirmations by exactly the confirmed identities rescinded since the close or the last confirmation, and both stored roots are the roots of the lists as long as nothing was rescinded |
| VotingTally.RootsFrozen | domain/state/tallies.go:156-230 | whatever follows, the stored roots keep committing to the lists of the close |
| VotingTally.DegradedExact | domain/state/authority_rescind.go:171-186 | a stored tally is marked degraded if and only if its close was or a ballot was rescinded from it |
| VotingTheorems.ClosedForever | domain/state/tallies.go:19-44 | after a close nothing enters either list, kept ballots keep their contents, the poll stays closed, and total plus rescissions never changes, whatever transactions follow |
| VotingTheorems.FinalTally | domain/state/authority_rescind.go:171-186 | a poll that closed with nothing sealed: total, both list sizes and every count agree from then on, through any transactions |
| VotingTheorems.CleanFinalTally | domain/state/tallies.go:156-230 | the same from the transactions alone: any run without overwrites or recasts, a close that goes through, any continuation |
| VotingTheorems.BatchOrderIrrelevant | domain/state/batch_flush.go:77-164 | any permutation of a batch is valid exactly when the batch is, and leaves the same state, checkpoints, outcome and batch id |
| VotingEffects.BatchBytesBind | domain/state/batch_flush.go:174-183 | the bytes hashed into a batch id determine the poll and the ids, as long as none of them contains the zero byte that separates them |
| VotingState.CollectBallotIds | domain/state/tallies.go:48-84 | collects exactly the counted ballots of the poll, each once, in whatever order the map is visited |
| VotingState.CountBallot | domain/state/tallies.go:65-75 | bumps every chosen option under approval voting and the first choice otherwise, nothing else |
| VotingState.CountVotes | domain/state/tallies.go:48-84 | the counters are, for every option, the number of counted ballots backing it |
| VotingState.VotingState.CommitRollingAttestation | domain/state/tallies.go:89-152 | succeeds exactly when the lists match, and then appends one checkpoint numbered by the list so far; otherwise changes nothing |
| VotingState.VotingState.AttestPending | domain/state/batch_flush.go:134-144 | the loop that takes off one threshold at a time reaches the counter and checkpoints of the closed-form roll, and stops at the first refused check |
| VotingState.VotingState.ExecuteBatchFlush | domain/state/batch_flush.go:77-164 | the whole new state of a flush; success, and the reported batch id, exactly as specified; a refused attestation leaves the lists written |
| VotingState.VotingState.ComputeBatchId | domain/state/batch_flush.go:174-183 | the hash of the poll id and the sorted ballot ids, each after a zero byte |
| VotingState.VotingState.ExecuteBallotUpdate | domain/state/ballots.go:310-380 | replacement moves the direction to the new id; an empty choice withdraws ballot, registration and confirmation; counters stay |
| VotingState.VotingState.ExecuteResealVote | domain/state/reseal.go:100-146 | seals the ballot and counts it, nothing else |
| VotingState.VotingState.ExecuteConfirmReceipt | domain/state/confirms.go:62-108 | records the confirmation once, increments the counter, refreshes the stored confirmed count of a closed poll |
| VotingState.VotingState.RescindFromTally | domain/state/authority_rescind.go:171-186 | takes the ballot's choices, the total and one rescission into the tally, by voting method |
| VotingState.VotingState.ExecuteAuthorityRescind | domain/state/authority_rescind.go:130-221 | the whole new state of a rescission in ballots, registry, confirmations, guarded counters, tally and log |
| VotingState.VotingState.ExecutePollClose | domain/state/tallies.go:156-230 | closes and stores a fresh tally exactly when the lists match; otherwise changes nothing |
| PeriodRuns.CloseSucceedsIff | protocol/submission/base.go:401-475 | an accepted close of a period goes through if and only if no submission or update was ever written onto an id in use |
| PeriodRuns.OverwrittenNeverCloses | protocol/submission/base.go:223-318 | one overwrite keeps a period from closing for good, whatever is submitted afterwards |
| PeriodRuns.ClosedForever | protocol/submission/base.go:401-475 | after a close, through any validated steps of the chat and store clients: closure and lists stay, the total is the size of both lists, the roots are the roots of the current lists |
| PeriodRuns.ClosureOf | protocol/submission/base.go:440-465 | a closure exists exactly when the status is closed |
| PeriodRuns.DriftAndCadence | protocol/submission/base.go:268-278 | drift of the lists is exactly the overwrites; threshold times checkpoints and refused checks plus the counter is all submissions; counter below the threshold; sequence numbers 0, 1, 2, ... |
| PeriodOrigins.EntriesExact | protocol/submission/base.go:223-350 | every reachable submission carries the payload of the submission or update that last wrote its id; an identity is registered if and only if its last accepted transaction was a submission |
| PeriodOrigins.SubmitAcceptedIff | domain/state/shystore/state.go:222-285 | a submission is accepted if and only if the period is open and the identity has not submitted since it last withdrew |
| PeriodOrigins.UpdateAcceptedIff | domain/state/shychat/state.go:321-373 | an update is accepted if and only if the client is not write-only, the period is open, the old submission is still there and the identity is registered |
| PeriodBatch.SubmitAllCounts | protocol/submission/base.go:223-281 | n fresh submissions, run one by one through the period machine: all are accepted, both lists grow by exactly the items, counter and checkpoints go as counted one by one |
| PeriodBatch.BatchEqualsSingles | domain/state/batch_flush.go:77-164 | one flush of the voting machine and n single submissions to the period machine, of the same ids and identities and from corresponding states: the flush succeeds, and both lists, the counter and the number of checkpoints correspond again |
| PeriodState.TwoListBase.SubmitToLists | protocol/submission/base.go:223-281 | both lists and the rolling attestation of one submission; a registered identity is refused without a change |
| PeriodState.TwoListBase.UpdateSubmission | protocol/submission/base.go:286-318 | old id out, new id in, participants untouched; the two refusals change nothing |
| PeriodState.TwoListBase.WithdrawFromLists | protocol/submission/base.go:324-350 | removes one entry from each list; the two refusals change nothing |
| PeriodState.TwoListBase.CommitRollingAttestation | protocol/submission/base.go:480-537 | appends one checkpoint exactly when the lists match |
| PeriodState.TwoListBase.ClosePeriod | protocol/submission/base.go:401-475 | the three refusals, and otherwise a closure with the total and both roots |
| Merkle.LevelKeepsTree | domain/state/tallies.go:247-259 | hashing one level pairwise keeps the recursive tree hash, odd node included |
| Merkle.ComputeMerkleRoot | domain/state/tallies.go:234-262 | the level-by-level loop ends with the recursive tree hash of the sorted leaf hashes |
| Merkle.RootForgetsOrder | domain/state/tallies.go:234-262 | the root depends on the names only as a multiset |
| Merkle.TreeBinds | domain/state/tallies.go:247-259 | equal tree hashes over equally many leaves mean equal leaves, if nothing hashed collides |
| Merkle.RootBinds | domain/state/tallies.go:234-262 | for lists of equal length, equal roots if and only if equal multisets |
| Merkle.RootNeedsCount | domain/state/tallies.go:247-259 | without the count a root does not determine the list: every two-name root is also a one-name root |
| Payload.Enc64RoundTrip | verify/verify.go:38-40 | decoding the eight big-endian bytes of any int64 gives it back |
| Payload.BuildSigningPayload | verify/verify.go:33-54 | the running hash over roots, total and sorted counts is the hash of the specified bytes, for any map order |
| Payload.PayloadBinds | verify/verify.go:33-54 | for one option set, equal signed bytes if and only if equal roots, total and counts |
| Payload.DigestBinds | verify/verify.go:33-54 | the same for digests that do not collide |
| Payload.CheckpointIsNotClose | verify/verify.go:42-51 | what a checkpoint signs is never what the close of a poll with options signs |
| VotingAudit.OptionSetMustBeFixed | verify/verify.go:47-51 | nothing separates a key from the number before it: two polls that can both be created, with three and with two options, sign the same bytes at close |
| Keys.ScansAreExact | domain/state/state.go:794-796 | per-scope prefix scans are exact for a set of scopes if and only if no scope continues another after a colon |
| Keys.KeyInjective | protocol/submission/base.go:897-904 | joined keys are as good as pairs when scopes, or ids, are colon-free |
| Keys.RangeIsPrefix | domain/state/state.go:820-830 | a key lies between the prefix and its bound if and only if it has the prefix; all-0xFF and empty prefixes included |
| Keys.PrefixEnd | embodiments/shywire/state/state.go:893-903 | the in-place carry loop computes such a bound |
| Store.ReloadExact | domain/state/state.go:242-373 | reloading a table after any commits gives the last committed table if and only if no record was ever dropped from it in between |
| Store.Database.Commit | embodiments/shywire/state/state.go:398-606 | the loops over the tables only ever set keys, in an order that does not matter |
| Store.Database.LoadTable | embodiments/shywire/state/state.go:855-869 | the scan of one namespace rebuilds the table when every record carries its key |
| WireLedger.StepBalanced | embodiments/shywire/state/supply.go:68-102 | one accepted step keeps, for every asset, balances plus sink equal to minted minus burned; only a mint of that asset has to fit in int64 |
| WireLedger.RunBalanced | embodiments/shywire/state/financing.go:219-232 | for every asset, in every run in which its own mints fit in int64: balances non-negative, balances plus sink = minted - burned = supply in both the supply and the asset record; the sink is what contract executions without counterparty and forced redemptions took out |
| WireLedger.InOrderIff | embodiments/shywire/state/supply.go:88-92 | the mints of an asset fit in int64 if and only if the asset is in balance after every prefix of the run |
| WireLedger.ValueConserved | embodiments/shywire/state/adverse_action.go:136-141 | the same read off the records of a registered asset, with every balance within the supply |
| WireLedger.WithinSupply | embodiments/shywire/state/transfers.go:100-107 | no balance, and no two balances together, exceed the supply |
| WireLedger.CreditsNeverOverflow | embodiments/shywire/state/transfers.go:100-107 | debit and credit of every accepted transfer or contract execution are plain sums: no int64 wraps |
| WireFlows.BurnExact | embodiments/shywire/state/custody.go:388-402 | with mints that fit, an accepted burn, demurrage or settlement takes exactly its amount from exactly the account it names, books it as burned, and moves nothing else |
| WireFlows.MintExact | embodiments/shywire/state/supply.go:68-92 | with mints that fit, an accepted mint credits exactly the account it names, opened if need be, and books the amount as minted |
| WireFlows.BalancesExact | embodiments/shywire/state/transfers.go:100-107 | after every run in which the mints of its asset fit, a balance is the plain sum of what the accepted mints, burns, demurrages, settlements, transfers, executions and forced redemptions did to that account |
| WireFlows.SupplyExact | embodiments/shywire/state/supply.go:136-141 | total minted is the sum of the accepted mints; total burned is the accepted burns and demurrages plus the burn amounts in the settlement records of the asset |
| WireFlags.FlagsExact | embodiments/shywire/state/adverse_action.go:115-146 | in every run an account is disabled if and only if the last accepted action that disables or restores it disabled it, and frozen if and only if it was frozen while not disabled and neither disabled nor restored since |
| WireFlags.TransferAcceptedIff | embodiments/shywire/state/transfers.go:20-70 | in every run a transfer is accepted if and only if asset, amount, funds and nullifier are right, the sender is neither disabled nor frozen by the actions of the run, and the recipient is not disabled |
| WireFlags.StaysBlocked | embodiments/shywire/state/adverse_action.go:115-146 | after an accepted freeze, disabling, rescission or forced redemption of an account nothing but an accepted restore of it unblocks it, in any continuation |
| WireFlags.RestoreUnblocks | embodiments/shywire/state/adverse_action.go:132-135 | after an accepted restore neither flag is left on the accounts it targets |
| WireFlags.ActionAcceptedIff | embodiments/shywire/state/adverse_action.go:61-66 | an action is accepted if and only if the account was registered, whatever the action and the asset |
| WireFlags.FlagsStopTransfersOnly | embodiments/shywire/state/financing.go:151-172 | no transaction but a transfer looks at the flags |
| WireOrigins.ListsExact | embodiments/shywire/state/transfers.go:84-98 | every transfer, participant and execution record is what the accepted transaction that last wrote it said |
| WireOrigins.ContractsExact | embodiments/shywire/state/financing.go:42-120 | every contract has the asset and expiry it was registered with, and is active if and only if it was registered without a condition or activated since |
| WireOrigins.ExecutionAcceptedIff | embodiments/shywire/state/financing.go:132-179 | in every run an execution is accepted if and only if its contract was registered, is active and unexpired, the nullifier is unused, and the value is of the contract's asset, covered, and goes to an open account |
| WireOrigins.CustodyExact | embodiments/shywire/state/custody.go:220-427 | every lot has the asset, warehouse, SKU, quantity and time it was recorded with, every request its terms, every settlement its request, burn and quantity |
| WireOrigins.AssetsExact | embodiments/shywire/state/supply.go:25-53 | an asset is there if and only if an accepted transaction registered it |
| WireOrigins.RequestsCovered | embodiments/shywire/state/custody.go:260-295 | a request is accepted only with an open account that holds the amount and with the quantity really in stock, wrapped total or not |
| WireLists.ListsCorrespond | embodiments/shywire/state/transfers.go:84-98 | nullifiers map onto transfer ids in every reachable state; List 2 is longer by exactly the reused ids; one-to-one if and only if none was reused |
| WireLists.CountersExact | embodiments/shywire/state/financing.go:187-238 | for every run and contract: execution count is its records plus the replaced ones, total executed is the int64 wrap of their amounts plus the replaced ones |
| WireLists.CountersMatchRecords | embodiments/shywire/state/financing.go:234-238 | with ids never reused, both counters are the recount of the execution records |
| WireCustody.InventoryIsQueue | embodiments/shywire/state/custody.go:527-547 | the queue holds every matching lot in stock exactly once, by creation time and lot id |
| WireCustody.CollectedInventory | embodiments/shywire/state/custody.go:527-547 | in whatever order the map is visited, sorting gives that one queue |
| WireCustody.FifoIsAllocate | embodiments/shywire/state/custody.go:549-573 | the loop's allocations are the only draw that takes the exact quantity from a prefix of the queue, something from each and everything from all but the last |
| WireCustody.AllocationExact | embodiments/shywire/state/custody.go:549-573 | for every covered quantity: exact first-in-first-out draw, lots drawn as recorded, all other lots untouched, this inventory lower by exactly the quantity, every other inventory unchanged |
| WireInventory.SettledConserved | embodiments/shywire/state/custody.go:380-427 | a settlement keeps lots, settlement records and requests in balance |
| WireInventory.InventoryConserved | embodiments/shywire/state/custody.go:330-427 | every reachable state: lots within bounds with the status their figures call for, quantity minus remaining = all allocations of all settlements, settlements sum to their quantity within the request, a request is settled exactly with one settlement and pending exactly with none |
| WireInventory.SettlementsNeverShort | embodiments/shywire/state/custody.go:330-378 | whatever passes validation is allocated in full, although validation compares a wrapped int64 total |
| WireState.SupplyNeverMissing | embodiments/shywire/state/custody.go:388-402 | no accepted mint, burn, settlement or demurrage meets a missing supply record, in any run |
| WireState.InventoryLots | embodiments/shywire/state/custody.go:527-547 | the collecting loop and sort compute the queue |
| WireState.AvailableCustodyInventory | embodiments/shywire/state/custody.go:519-525 | the int64 sum over the queue is the wrap of the real inventory |
| WireState.WireState.AllocateCustodyInventory | embodiments/shywire/state/custody.go:549-573 | the in-place loop returns the specified allocations and leaves the lots drawn by exactly them |
| WireState.WireState.ValidateSettleCustodyRedemption | embodiments/shywire/state/custody.go:330-378 | accepts exactly when the transition allows it |
| WireState.WireState.ValidateRequestCustodyRedemption | embodiments/shywire/state/custody.go:260-295 | accepts exactly when the transition allows it |
| WireState.WireState.ExecuteSettleCustodyRedemption | embodiments/shywire/state/custody.go:380-427 | the whole new state: lots, account, supply, request, settlement |
| WireState.WireState.ExecuteAdverseAction | embodiments/shywire/state/adverse_action.go:115-146 | the loop over accounts acts on exactly the targeted ones, once each |
| WireState.WireState.ExecuteExecuteContract | embodiments/shywire/state/financing.go:181-252 | the whole new state: both lists, overlay, balances, contract counters |
| WireState.WireState.ExecuteTransfer | embodiments/shywire/state/transfers.go:75-121 | the whole new state: both lists, debit and credit |
| WireState.WireState.ExecuteMint | embodiments/shywire/state/supply.go:68-102 | the whole new state: account, supply and asset record |
| WireState.WireState.ExecuteBurn | embodiments/shywire/state/supply.go:128-152 | the whole new state: account, supply and asset record |
| WireState.WireState.ExecuteApplyCustodyDemurrage | embodiments/shywire/state/custody.go:460-499 | the whole new ledger of a demurrage |
| WireStore.RecordsNameTheirKeys | embodiments/shywire/state/state.go:678-853 | in every run every record carries the key it is filed under |
| WireStore.TablesOnlyGrow | embodiments/shywire/state/state.go:398-606 | no transaction ever drops a record from any of the tables |
| WireStore.StoreSelfKeyed | embodiments/shywire/state/state.go:398-606 | after any run and any commits along it, every stored entry is the one its record's own fields call for |
| WireStore.ReloadTable | embodiments/shywire/state/state.go:678-869 | the loader, which keys records by their own fields, gives back exactly the table of the last commit, for any run and any commits along it |
| WireStore.LoadState | embodiments/shywire/state/state.go:678-853 | the nine modelled tables come back |
| WireStore.AccountsRestored | embodiments/shywire/state/state.go:704-712 | in every run the account table holds nothing that is not an account, and it holds every account under its joined key if and only if no two accounts share one |
| WireStore.RunApart | embodiments/shywire/state/supply.go:74-84 | no two accounts of a run share a joined key if all registered asset ids, or all commitments, are free of colons |
| WireStore.SharedKey | embodiments/shywire/state/supply.go:74-84 | a concrete run in which two accounts of two assets have one joined key |
| Relay.StepConserves | api/relay/server.go:103-175 | one atomic step of one request neither loses nor multiplies a submission |
| Relay.Conservation | api/relay/server.go:103-175 | at every step of every interleaving, per poll, submitted = queue + held by requests + accepted upstream, as multisets |
| Relay.EverythingDelivered | api/relay/server.go:103-147 | with every request finished and the queue empty, exactly what was submitted was accepted |
| Relay.RestoredAhead | api/relay/server.go:168-175 | whatever others do meanwhile, a failing request puts exactly its undelivered rest back, ahead of newer arrivals, and touches no other poll |
| RelayShuffle.ShufflePermutes | api/relay/server.go:202-212 | a shuffle is a permutation |
| RelayShuffle.ShuffleReaches | api/relay/server.go:202-212 | every order of the batch is the outcome of some draws |
| RelayShuffle.ShuffleUnique | api/relay/server.go:202-212 | of different submissions each order has exactly one sequence of draws |
| RelayShuffle.ShuffleInPlace | api/relay/server.go:202-212 | the swap loop computes the shuffle; a failing random source leaves a permutation |
| RelayState.Server.FlushPoll | api/relay/server.go:103-147 | one flush end to end for any draws and answers: it is a dequeue step and then steps of that request alone, one swap or post at a time; what was posted followed by what waits again is one shuffle of what waited; other polls untouched |
| RelayState.PostAll | api/relay/server.go:116-127 | posts until the first refusal |
| RelayLedger.DrawsLeaveNoTrace | api/relay/server.go:202-212 | for any two sequences of draws, the ledger accepts both shuffled batches or neither, and from both has the same state, outcome and batch id |
| RelayLedger.SameArrivals | api/relay/server.go:103-127 | two relays that received the same submissions in different orders can send exactly the same batches |
| ServerQueue.Conservation | api/server/router.go:539-575 | over every interleaving of enqueues and flushes, entries are neither lost nor multiplied |
| ServerQueue.UniqueExactly | api/server/router.go:539-575 | what the server takes for duplicates stays out of queues and batches through every step except exactly a refused batch that comes back to newer entries clashing with it |
| ServerQueue.LedgerRefusesClashes | domain/state/batch_flush.go:37-72 | a batch the ledger accepts has no duplicate id or identity as the ledger derives them |
| ServerQueue.StuckForever | api/server/router.go:473-537 | once two entries that clash for the ledger share a queue, the poll holds a batch that the ledger refuses in every continuation |
| ServerQueue.TogetherAfterRefusal | api/server/router.go:568-575 | any two ballots come to wait together when the first is in a refused batch; the poll is then stuck if and only if they clash for the ledger, and otherwise their batch can be accepted |
| ServerQueue.DuplicateAfterRefusal | api/server/router.go:568-575 | one ballot queued twice that way sticks in every identity mode |
| ServerQueue.TogetherUnseen | api/server/router.go:539-554 | two ballots that clash for the ledger only are queued without any refusal, and the poll is stuck |
| ServerQueue.IdentityChecksIff | api/server/router.go:588-594 | in each of the three identity modes and for any two ballots, the two identity checks agree if and only if what the server goes by (nullifier, else device key, where a nullifier may equal the digest that stands for the other's device) and what the ledger goes by (device key, nullifier or wallet) tell the same participants apart |
| ServerQueue.BorrowedPlace | api/server/router.go:588-594 | a ballot whose nullifier is the digest of another participant's device key is queued and keeps that participant out; where the ledger tells the two participants apart, the two clash for it only if their ids are equal |
| ServerQueue.NonceIdsIff | api/server/router.go:577-586 | for ids made of the nonce, under beacons of one decoded length, the two id checks agree if and only if equal nonce texts and equal decodings of beacon and nonce go together |
| ServerQueue.SpellingsStick | protocol/submission/nonce.go:21-33 | one nonce in two spellings of its hexadecimal text, same beacon, two participants: both are queued, and the poll is stuck |
| ServerQueue.BeaconsDiffer | domain/state/ballots.go:431-459 | one nonce under two beacons is one id for the server and two for the ledger |
| ServerQueue.PayloadIdsAgree | api/server/router.go:577-586 | with the payload in one id or in both, the two id checks agree, for nonces of validated length |
| ServerQueue.WalletClashClears | services/identity/wallet.go:51-60 | one device with two wallets: refused as a duplicate while both would wait, and after a refused batch delivered together |
| ServerQueue.NullifiersStick | services/identity/didit.go:22-31 | one device key with two nullifiers: queued twice, and the poll is stuck |
| ServerQueue.BatchIdsDiffer | api/server/router.go:626-639 | for every non-empty batch of the same ids the server and the ledger hash different bytes for the batch id |
| ServerQueue.BallotQueue.EnqueueBallot | api/server/router.go:539-597 | takes the machine's enqueue step exactly when that step is enabled, changes nothing otherwise, and says which check failed |
| ServerQueue.BallotQueue.FlushQueuedBallots | api/server/router.go:473-537 | a flush with nothing else under way is a dequeue step followed by an accepted or a refused step of the machine: out goes the whole queue, and a refusal restores it |
| ScytaleLaws.SortValueIdempotent | runtime/db/scytaleCheckpoint.js:7-20 | sorting a value twice is sorting it once, at every depth |
| ScytaleLaws.KeyOrderIrrelevant | runtime/db/scytaleCheckpoint.js:7-24 | two objects with the same properties in any order have one canonical form |
| ScytaleLaws.NormalizeTwiceIff | runtime/db/scytaleCheckpoint.js:39-105 | normalising a row again changes nothing if and only if no plain field is null under its database spelling with the other one null or missing; otherwise fields are lost |
| ScytaleBundle.StrayRowChanges | runtime/db/scytaleCheckpoint.js:39-58 | a mailbox row with a null in `mailbox_id` loses the field on the second pass |
| ScytaleLaws.ThirdPassChangesNothing | runtime/db/scytaleCheckpoint.js:39-105 | from the second pass on every row is stable, whatever it held |
| ScytaleCutover.RootBinds | runtime/db/scytaleCheckpoint.js:107-112 | equal collection roots if and only if the same rows as multisets of canonical forms |
| ScytaleCutover.CheckpointBinds | runtime/db/scytaleCheckpoint.js:114-163 | a matching digest forces the same tenant, counts and rows, up to the order of rows and properties |
| ScytaleBundle.CleanBundleVerifies | runtime/db/scytaleCheckpoint.js:258-314 | a bundle of rows without such nulls verifies, in whatever order the rows are exported |
| ScytaleBundle.BundleVerifiesIff | runtime/db/scytaleCheckpoint.js:279-314 | with digests that do not collide on what is written, a bundle verifies if and only if no row has such a null |
| ScytaleBundle.StrayBundleFails | runtime/db/scytaleCheckpoint.js:279-314 | the bundle of that one row does not verify |
| ScytaleBundle.LoadedBundleVerifies | runtime/db/cockroach.js:761-790 | rows normalised on load, as the store does, always make a bundle that verifies |
| ScytaleBundle.CutoverContinues | runtime/db/scytaleCheckpoint.js:316-359 | a bootstrap statement made from a bundle is accepted with it if and only if the bundle verifies, for every destination |

## Left out

- Signatures, attestation tokens, identity proofs, beacons and device binding: they only
  narrow which transactions are accepted, so every theorem about all runs covers them.
- Signer and KMS backends: the signer always answers, and whether it could sign is the `degraded` flag of a close; a signer error that aborts a close is dropped.
- Custody policies, warehouse operators and SKU classes, contract parties and enrollment:
  look-ups that only narrow acceptance.
- Replay sets of demurrage assessments and authority actions: write-only next to what is modelled.
- Records as pointers: records are values here, so two map entries sharing one record is not expressible; each execute function of the code builds a fresh record.
- Voter records are membership only; heights, timestamps of updates, names and event payloads are dropped.
- `executeBallotCast`: unreachable, direct casts are refused in ValidateTx and ExecuteTx (domain/state/state.go:191, domain/state/state.go:218).
- The `writeOnly` flag of the voting state: set at start-up (domain/state/state.go:174) but not read by validateBallotUpdate, which is modelled as it is.
- Restart of the voting machine and of the period machine: their commits only set keys, so deleted entries come back; `Store.ReloadExact` gives the exact condition.
- `contractExecutions` after a reload: the loader names a field the record type lacks (embodiments/shywire/state/state.go:744-751).
- Several tables of shywire that hold no figures (policies, operators, SKUs, demurrage, enrollment, authority actions, validators) are not in the reload theorem; they are written and read by the same loops.
- WireStore.LoadState: nine of the seventeen prefixes the loader scans; height, app hash and the current custody policy, which are single keys, are not loaded.
- WireStore.AccountsRestored: two accounts with one joined key are two accounts here and one merged record in the code.
- WireLedger.ValueConserved: does not transfer to assets whose accounts share a joined key with accounts of another asset, for the same reason.
- App hashes, queries, JSON encoding, HTTP routing, CometBFT and LevelDB internals.
- Chat and store clients: only the guards they put before the period machine; mailbox expiry, reveal events, suppression and adverse actions of the store are dropped.
- shyshares: the weighted tally and the proposal server; the counting laws it would need are the easier half of the voting machine's.
- Message update and secret rotation keep the identity they name unchecked against the submission, as in the code; linkage between a submission and its participant is not part of the state.
- ServerQueue: the shyshares verifier without attestation (device key, a colon and the poll) is not a mode of the voting deployment and is left out; trimming and lower-casing of wallet addresses happen before the model.
- ServerQueue: the look-up of already registered participants before an entry is queued; it only narrows what is queued.
- ServerQueue: receipts and the reconcile store after an accepted flush.
- Relay: an upstream that accepts a post and then fails to answer; the relay then posts again, and `Relay.Conservation` counts what it saw accepted.
- ScytaleSpec: JSON text, trimming, date and number conversion, the spelling and order of property names are parameters with stated laws; integer-like property names, which JavaScript enumerates first, and dates that cannot be parsed are outside them.
- ScytaleCutover.CheckpointBinds: does not list creation time, lineage and source deployment among the conclusions; the digest covers them in the same way.
- Ed25519 checks of checkpoints and statements are a parameter: not signed, accepted or forged.
