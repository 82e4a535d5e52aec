# A verified model of Penumbra's state machines

Penumbra is a proof-of-stake chain on which all value is held in shielded notes.
This project models the parts of it that decide who holds what, and proves what
they keep over whole runs:

* **Staking.** Every block runs `begin_block` (uptime and slashing), checks and
  executes transactions (queued delegations, validator definitions), and runs
  `end_block`. At an epoch boundary exchange rates, supplies and voting powers are
  rolled forward, the Active set is chosen anew, and powers are reported to
  Tendermint. `StakingSpec` gives each step as a function from state to state or
  failure, `StakingRuns` strings them into runs from genesis, and the class
  `StakingComponent.Staking` carries the steps out in place and is verified against
  those functions. A run's block also contains what the shielded pool, which shares the
  store and runs last, does to the supplies: it mints the commissions that staking left
  (pd/src/components/app.rs:131-137). `StakingRates`, `StakingIssuance`, `StakingUptime`,
  `StakingAcceptance`, `StakingConservation` and `StakingSupply` say what runs make of rates
  and powers, rewards, uptime and slashing, transactions and supplies.
* **Shielded pool and wallet.** The chain appends note commitments, records
  nullifiers and publishes compact blocks; a wallet replays the blocks while it also
  submits spends, expects change and lets both time out. `PoolSpec` and
  `WalletSpec` hold the steps, `WalletChain` the two together, and
  `PoolComponent.ShieldedPool` and `WalletClient.ClientState` the objects.
  `ValueBalance` is the binding key that makes a transaction balance; `PoolSpends`,
  `PoolNotes` and `PoolValue` say what the accepted transactions of a run spend, how often,
  and what that leaves in the pool; `PoolSources` what is filed about it, and
  `WalletTimeouts` what a wallet waits for, and until when.
  `TxBuilder`, `NoteSelection` and `BuilderSpec` cover note selection and the four
  transaction builders, `WalletMoves` wallets that use them at any time, and
  `BuiltTransactions` and `Shuffles` what the chain says to their transactions, in
  whatever order they list their actions.
* **Algorithms.** Merkle path verification (`Merkle`), fuzzy message detection
  (`Fmd`, `FmdKeys`, over `Modular`), and printing and parsing of amounts in decimal
  units (`Decimal`, `Denom`).

Amounts are naturals with the source's 64-bit and 128-bit bounds written out. A
panic, a failed `expect`, an overflow or an error return is a failure value.
`dafny verify dfyconfig.toml` checks the project.

## Where the code and its description differ

Each difference has a theorem that says exactly when the code meets the description,
and an input on which it does not.

* A spend's position is a 64-bit number of the spender's choice. The path check reads its
  low 32 bits, the nullifier hashes all 64, and nothing compares it with the size of the
  tree. So a leaf is named by many positions, each with a nullifier of its own, and
  `PoolNotes.SpentTwice` is a run that accepts two spends of one note, at positions 0 and
  2^32. A bound on positions keeps every leaf from being spent twice, in all runs, if and
  only if it is at most 2^32 (`PoolNotes.GuardIsExact`). Without the bound the pool's value
  exceeds what was put in by exactly what the repeated spends took
  (`PoolValue.ValueAccounted`); with it value is conserved (`PoolValue.ValueConserved`).
* Delegation totals are cast between `u64` and `i64`, so the recorded supply is the
  genesis supply plus all net delegations only modulo 2^64. It is exact if and only if
  that total lies in the 64-bit range (`StakingConservation.DelegationsConserved`). If the
  recorded supplies cover what an epoch's delegations and undelegations consumed, the rate is
  at least 1 and the recorded staking change is not itself cast, a wrapped delta fails the
  boundary instead (`StakingConservation.WrapFails`). Otherwise it can pass: in the run of
  `StakingExamples.SupplyWrapsAround`, two balanced delegations of tokens that exist, in an
  epoch in which the validator is slashed to a rate of zero, bring a supply from 2 to 0.
* A commission is cast to 64 bits at the end. It is what the stream earned, less rounding, if
  and only if that cast loses nothing (`Rates.RewardExactIff`; `Rates.RewardCutExample` is an
  input).
* A validator that re-defines itself with another consensus key is not reported to
  Tendermint. The two sides still agree exactly when the key is unchanged or the
  validator carries no power (`TendermintAgreement.RekeyAgreesIff`;
  `StakingExamples.RekeyUnreported` is a run).
* With an epoch duration of one block, epoch 0 has no last block and the first boundary
  trips the epoch-index assertion, whatever the block holds
  (`StakingSafety.DurationOneStops`). Run theorems are stated for durations of at least
  two.
* The expiry of unbonding is tested on the state from before the pass, so an expired
  Unbonding validator that is also in the top set makes the whole boundary fail; that is
  the only way it can (`EpochTransitions.BoundaryOutcome`;
  `StakingExamples.ExpiredInTopSet` is a run).
* The pending compact block is taken before its height is read, so every tree anchor is
  filed under height 0, in every run (`PoolSpec.AnchorsFiledAtZero`). The set of valid
  anchors, which transactions are checked against, is right
  (`PoolSpec.AnchorAcceptedIff`).
* A payment of several values of one asset pays only the last of them. What is paid of
  an asset is all that was requested if and only if every earlier request for it is zero
  (`BuilderSpec.RequestedIsTotalIff`, `BuilderSpec.RequestedTwice`).
* A clue is described as detected with probability 1 by the key it was made for. It is,
  unless the maker's scalar equals the hash in the clue; the response is then zero, which
  detection refuses (`Fmd.NoFalseNegatives`). At precision 0 such a scalar exists for
  every key (`Fmd.ZeroPrecisionMiss`).
* A decimal string with one more digit after the point than the unit has, all of them
  zero, is parsed without the unit's scale: `1.0000000` in a unit of exponent 6 is 1 base
  unit (`Denom.ParseIsExactIff`, `Denom.ScaleLostExample`).
* A plus sign is accepted after the point and counted as a digit there, so `1.+5` is read as
  `1.05` (`Denom.PlusShifts`).
* The best unit for an amount is described as the largest one smaller than it; the code
  also takes one that is equal.

## Model

| member | source | states |
|---|---|---|
| `Epochs.EpochsPartitionHeights` | chain/src/epoch.rs:14-34 | A height lies between the start and end of epoch k if and only if k is the epoch computed from the height |
| `Epochs.NextHeightEpoch` | chain/src/epoch.rs:14-34 | The epoch index advances by one after exactly those heights that end an epoch |
| `Epochs.EpochsAbut` | chain/src/epoch.rs:22-29 | The next epoch starts one block after this one ends |
| `Rates.BaseNeverFalls` | stake/src/rate.rs:195-203 | The base exchange rate never falls and its epoch index advances by one |
| `Rates.BaseGrows` | stake/src/rate.rs:195-203 | The base rate compounds by the reward rate, rounded down: both bounds |
| `Rates.NextStaysBelowBase` | stake/src/rate.rs:28-93 | In any state and with any streams, a validator's exchange rate never falls at a boundary and never overtakes the base rate |
| `Rates.NextGrows` | stake/src/rate.rs:28-93 | An Active validator's rate grows by what commissions leave of the base reward on it, short of it by less than two roundings, and its reward rate is that share rounded down; any other rate stands still |
| `Rates.SlashCuts` | stake/src/rate.rs:116-125 | Slashing by a penalty in basis points leaves the rest of the rate, rounded up; 100% and more leave nothing |
| `Rates.VotingPowerAtMostSupply` | stake/src/rate.rs:150-155 | A rate not above the base rate gives a voting power that fits 64 bits and is at most the token supply |
| `Rates.VotingPowerIsShare` | stake/src/rate.rs:150-155 | Voting power is the supply, at the validator's rate, in units of the base rate, rounded down: both bounds |
| `Rates.OneRewardBound` | stake/src/funding_stream.rs:21-37 | One stream's commission, through three nested floors, is at most the exact product |
| `Rates.UncastBound` | stake/src/funding_stream.rs:21-37 | The three nested floors of a commission lose less than a fixed slack |
| `Rates.RewardExactIff` | stake/src/funding_stream.rs:21-37 | A commission is what the stream earned, less that slack, if and only if the last cast to 64 bits loses nothing |
| `Rates.RewardCutExample` | stake/src/funding_stream.rs:21-37 | A commission of 2^65 - 2 that is paid as 2^64 - 2 |
| `Rates.RewardsBound` | stake/src/funding_stream.rs:21-37 | All streams together earn at most the summed commission rate's share |
| `Rates.IssuanceBound` | stake/src/rate.rs:66-92 | Commissions plus growth of an Active validator's pool are at most the base reward on its tokens, for every split into streams and through every rounding |
| `Delegations.CollectSplit` | stake/src/component.rs:81-100 | Collecting queued changes over a range of heights is the same as collecting its two parts in order |
| `Delegations.NetSplit` | stake/src/component.rs:81-100 | Net delegations of a range are the sum over any split of it |
| `Delegations.BurnRounds` | stake/src/component.rs:170-190 | The burn computed from a netted delta rounds toward zero, by less than one token |
| `Delegations.DriftBound` | stake/src/rate.rs:108-146 | Tokens consumed by accepted delegations and undelegations exceed the burn of the netted delta by at least 0 and less than one delegation token per delegation plus one staking token per undelegation plus one |
| `Uptimes.MarksCountWindow` | stake/src/uptime.rs:43-83 | After any consecutive marks every slot of the ring holds the vote of its height, and the missed count is the number of unsigned votes among the last window ones, heights before creation counting as signed |
| `Uptimes.Uptime.MarkHeightAsSigned` | stake/src/uptime.rs:59-78 | Marks exactly the next height, in place; any other height is refused and changes nothing |
| `Uptimes.Uptime.NumMissedBlocks` | stake/src/uptime.rs:81-83 | Counts the unsigned slots |
| `ActiveSet.SortIsDescending` | stake/src/component.rs:278-308 | The ranking is by descending power |
| `ActiveSet.SortPermutes` | stake/src/component.rs:278-308 | The ranking is a permutation of the validators |
| `ActiveSet.SortedByRank` | stake/src/component.rs:278-308 | Each validator stands at the position given by counting the validators that outrank it, earlier ones winning ties |
| `ActiveSet.TopIsByRank` | stake/src/component.rs:278-308 | A validator is chosen if and only if it has power and fewer than the limit outrank it |
| `ActiveSet.TopIsBounded` | stake/src/component.rs:278-308 | At most the limit are chosen, none twice |
| `ActiveSet.NoStrongerOutside` | stake/src/component.rs:278-308 | No validator left out has more power than one chosen |
| `EpochTransitions.TransitionOneStep` | stake/src/component.rs:309-389 | One validator's step fails exactly when it is expired and chosen; otherwise it changes that validator's record alone, as its state and choice demand |
| `EpochTransitions.BoundaryOutcome` | stake/src/component.rs:265-392 | The pass fails if and only if some expired Unbonding validator is in the top set; otherwise the Active validators afterwards are exactly the chosen ones that are not Slashed, and each record is transitioned as its choice demands |
| `EpochTransitions.ActiveSetIsStrongest` | stake/src/component.rs:265-392 | After a pass the Active set is within the limit, and no validator outside it that is not Slashed has more power than one inside |
| `StakingInvariant.BeginBlockKeepsOk` | stake/src/component.rs:643-653 | From a well-formed state, begin_block leads to one with every Active tracker at this height and below the maximum of misses, or fails for an external reason |
| `StakingInvariant.ProcessOneSteps` | stake/src/component.rs:119-236 | Rolling one validator forward keeps its rates below the base rates and its power below its supply, and never trips an internal check |
| `StakingInvariant.ProcessAllSteps` | stake/src/component.rs:119-236 | Rolling all validators touches only their records and supplies and leaves each at the next epoch |
| `StakingInvariant.EndEpochKeepsOk` | stake/src/component.rs:78-261 | end_epoch leads from a well-formed state of epoch k to one of epoch k + 1, or fails for overflow, a supply or power out of range, or a forbidden state change; the last if and only if supplies and powers roll over and an expired Unbonding validator is in the top set |
| `StakingSafety.StartIsOk` | stake/src/component.rs:550-641 | Any genesis with distinct validators, commissions of at most 100%, a window and a duration of at least two starts in a well-formed chain, or fails for an external reason or an empty allocation |
| `StakingSafety.MintAllSteps` | shielded-pool/src/component.rs:44-78 | Genesis supplies are the allocated totals modulo 2^64, and exact below 2^63 |
| `StakingSafety.MintSteps` | shielded-pool/src/component.rs:206-243 | Minting commissions moves the staking supply alone, by the amounts as cast to signed numbers |
| `StakingSafety.BlockKeepsOk` | pd/src/components/app.rs:84-137 | Every block, from begin_block through the transactions to end_block of staking and of the pool, keeps the chain well-formed and moves it forward by one height, or fails for an external reason |
| `StakingSafety.RunsAreSafe` | stake/src/component.rs:78-261 | No run from a well-formed genesis trips the epoch-index assertion, missing delegation changes, a wrong previous epoch, a commission above 100% or a missing or lagging tracker, with slashing and validators defined in mid-epoch included |
| `StakingSafety.BeginFailure` | stake/src/component.rs:643-653 | With distinct evidence against Active or Unbonding validators begin_block fails only for overflow |
| `StakingSafety.EndFailure` | stake/src/component.rs:925-943 | end_block of a well-formed block fails only for overflow, a supply or power out of range, or, exactly at a blocked boundary, a forbidden state change |
| `StakingSafety.RunFailure` | pd/src/components/app.rs:84-137 | After any run, once begin_block of a block has succeeded, its transactions cannot fail it and the same is true of its end: no listed validator is ever missing |
| `StakingSafety.ActiveTrackersAreCurrent` | stake/src/component.rs:400-458 | After begin_block of every reachable block each Active validator's tracker is at the current height with fewer misses than the maximum |
| `StakingSafety.RatesAndPowersBounded` | stake/src/component.rs:119-208 | In every reachable state current and next rates are at most the base rates, base rates do not fall, and voting power is at most the 64-bit token supply |
| `StakingSafety.RunsGoForward` | stake/src/component.rs:1026-1093 | Along every run base rates do not fall, no validator disappears, and Slashed validators stay so at a fixed rate |
| `StakingSafety.SlashedIsAbsorbing` | stake/src/component.rs:1026-1093 | In every continuation a Slashed validator stays Slashed at an unchanged exchange rate, earns no commission, and no transaction delegating to it is accepted |
| `StakingSafety.DurationOneStops` | stake/src/component.rs:119-152 | With an epoch duration of 1 no first block can end, on any genesis with a validator: it fails in begin_block, or for overflow or at the epoch-index assertion |
| `TendermintAgreement.UpsertIsWrite` | stake/src/component.rs:50-75 | The update list behaves as a map with the last write winning and never holds a key twice |
| `TendermintAgreement.RekeyAgreesIff` | stake/src/component.rs:863-922 | A re-definition keeps agreement with Tendermint if and only if the consensus key is unchanged or the validator has no power there |
| `TendermintAgreement.TendermintMatchesActiveSet` | stake/src/component.rs:265-392 | With distinct, unchanging keys, after every run Tendermint holds exactly the Active validators of positive power, at their stored powers |
| `StakingConservation.DelegationDeltaExactIff` | stake/src/component.rs:154-168 | The netted delta is right modulo 2^64, and exact if and only if both totals are on the same side of 2^63 |
| `StakingConservation.StakingDeltaExactIff` | stake/src/component.rs:170-190 | The recorded change of the staking supply is minus the burn if and only if the burn fits signed 64 bits |
| `StakingConservation.BlockRecordsAccepted` | stake/src/component.rs:863-941 | A block records at its height exactly the changes of the transactions that passed both checks |
| `StakingConservation.DelegationsConserved` | stake/src/component.rs:154-187 | After every run each delegation token supply is its genesis supply plus all changes of completed epochs, each height counted once; modulo 2^64, and exactly if and only if that total is in range |
| `StakingConservation.WrapFails` | stake/src/component.rs:154-190 | If the supplies cover what was consumed, the rate is at least 1 and the recorded staking change is not cast, a delta that is not the net of the epoch fails the boundary |
| `StakingConservation.EpochDrift` | stake/src/component.rs:154-190 | At every boundary of every run the staking supply moves by the recorded changes plus the commissions minted in the same block, and for each validator not Slashed the record drifts from the tokens consumed by a bounded amount |
| `StakingSupply.StakingSupplyConserved` | shielded-pool/src/component.rs:206-243 | After every run the staking supply is its genesis allocation plus the commissions of all completed epochs plus all changes recorded for delegations, modulo 2^64, and exactly if and only if that total is in range; commissions are stored for the last heights of completed epochs and no others |
| `StakingExamples.SupplyWrapsAround` | stake/src/component.rs:154-168 | A run of balanced, accepted transactions that delegate no more than genesis holds, after which a supply is 0 where the sum is 2^64 |
| `StakingExamples.RekeyUnreported` | stake/src/component.rs:863-922 | A run after which Tendermint holds the key an Active validator gave up and not the one it took |
| `StakingExamples.ExpiredInTopSet` | stake/src/component.rs:381-387 | A run that the boundary stops because an expired Unbonding validator gained power |
| `StakingRates.BoundaryRates` | stake/src/component.rs:119-208 | At every boundary of every run the base rate compounds, next rates become current, Active rates grow by their share of the base reward and no others move, and each stored power is the validator's share of its supply, or 0 if it was displaced |
| `StakingIssuance.RewardsPay` | stake/src/component.rs:212-230 | Each stream's commission goes to the stream's address, at most what it earned, and less by no more than the slack unless it is cut to 64 bits |
| `StakingIssuance.TotalPaid` | stake/src/component.rs:212-230 | The same for commissions together |
| `StakingIssuance.AllIssuance` | stake/src/component.rs:119-236 | Over all validators of a pass every stream is paid in that sense, commissions plus growth of pools are at most the base reward on the tokens that earned it, and at least that reward at the validators' own rates less rounding |
| `StakingIssuance.EpochIssuance` | stake/src/component.rs:78-261 | Every epoch of every run pays every stream of its Active validators, and nobody else, and issues within those two bounds; the lower one if no commission is cut to 64 bits |
| `StakingComponent.Staking.UpdateTmValidatorPower` | stake/src/component.rs:50-75 | Overwrites the entry of the key in place or appends one; refuses powers of 2^63 and more, changing nothing |
| `StakingComponent.Staking.SetValidatorState` | stake/src/component.rs:1026-1093 | Performs exactly the allowed state changes and changes nothing else; a forbidden one is refused |
| `StakingComponent.Staking.UpdateSupply` | shielded-pool/src/component.rs:398-432 | Adds the change to one supply; refuses overflow and underflow |
| `StakingComponent.Staking.Slash` | stake/src/component.rs:461-470 | Reports power 0, marks the validator Slashed and cuts its rates, as the state function that runs are made of does |
| `StakingComponent.Staking.TrackUptimes` | stake/src/component.rs:400-458 | Marks every Active tracker from the commit's votes and slashes those at the maximum |
| `StakingComponent.Staking.BeginBlock` | stake/src/component.rs:643-653 | Refines the begin_block step of runs, result and failure alike |
| `StakingComponent.Staking.CheckTxStateless` | stake/src/component.rs:656-712 | Accepts exactly transactions with undelegations from one validator and no forbidden companion, and signed definitions with commissions of at most 100% |
| `StakingComponent.Staking.CheckTxStateful` | stake/src/component.rs:715-860 | Accepts exactly transactions whose delegations and undelegations are priced at the next epoch's rate, whose delegations name validators that are not Slashed, and whose definitions carry higher sequence numbers |
| `StakingComponent.Staking.ExecuteTx` | stake/src/component.rs:863-922 | Queues the changes and adds or updates the validators defined |
| `StakingComponent.Staking.CollectChanges` | stake/src/component.rs:81-100 | Groups the queued changes of all heights of the epoch by validator; fails if and only if a height has no record |
| `StakingComponent.Staking.RollValidator` | stake/src/component.rs:119-236 | Refines one validator's share of the roll-over |
| `StakingComponent.Staking.ProcessEpochTransitions` | stake/src/component.rs:265-392 | Refines the pass that chooses the Active set |
| `StakingComponent.Staking.EndEpoch` | stake/src/component.rs:78-261 | Refines the epoch boundary of runs, result and failure alike |
| `StakingComponent.Staking.EndBlock` | stake/src/component.rs:925-943 | Records the queued changes under the height and ends the epoch exactly at its last height |
| `StakingComponent.Staking.InitChain` | stake/src/component.rs:550-641 | Refines genesis: validators Active from the start with power for their allocations |
| `StakingComponent.Staking.MintRewards` | shielded-pool/src/component.rs:206-243 | Refines the pool's mint of the commissions left for this height |
| `StakingComponent.Staking.MintAllocations` | shielded-pool/src/component.rs:44-78 | Refines the pool's mint of the genesis allocations; an empty one is refused |
| `StakingComponent.Staking.TotalAllocations` | stake/src/component.rs:575-600 | Sums the genesis allocations of every asset |
| `StakingUptime.VotedIff` | stake/src/component.rs:404-416 | A validator counts as having signed if and only if some vote of its key is signed and no later vote names the key |
| `StakingUptime.EvidenceSlashes` | stake/src/component.rs:461-470 | Evidence that goes through names Active or Unbonding validators, none twice, and slashes exactly these, by the penalty for misbehaviour |
| `StakingUptime.TrackersHoldRecord` | stake/src/component.rs:400-458 | In every run the tracker of a validator Active since height a holds, for each height of the window after a, whether that block's commit shows its signature under the key it had then; its count is that of the heights at which it does not |
| `StakingUptime.SlashedIff` | stake/src/component.rs:400-470 | In every run a validator is Slashed after a block if and only if it was before, evidence names it, or it is Active and its misses in the window, this block's commit included, reach the maximum |
| `StakingUptime.SlashedByHowMuch` | stake/src/component.rs:400-470 | begin_block of every block of every run cuts rates by the penalty for misbehaviour, by that for downtime, or not at all, as that condition says, and changes nothing else but trackers |
| `StakingAcceptance.StatelessIff` | stake/src/component.rs:656-712 | Stated over the actions: accepted if and only if all undelegations are from one validator, none stands beside a definition or IBC action, and every definition is signed and takes at most 100% |
| `StakingAcceptance.DelegationAmountIff` | stake/src/rate.rs:108-114 | Staking tokens buy that many delegation tokens if and only if these are the quotient by the rate, rounded down, and fit 64 bits |
| `StakingAcceptance.UnbondedAmountIff` | stake/src/rate.rs:137-146 | Delegation tokens yield that many staking tokens if and only if these are the product with the rate, rounded down, and fit 64 bits |
| `StakingAcceptance.AcceptedIff` | stake/src/component.rs:715-860 | In every block of every run a transaction passes the stateful check if and only if its changes are for the next epoch, at that epoch's rates by both bounds of the rounding, to known validators that are not Slashed, its totals are in range, and its definitions are newer |
| `StakingAcceptance.DefinitionsStored` | stake/src/component.rs:880-922 | Definitions leave each validator with the last one that names it, and touch nothing else of a known one |
| `StakingAcceptance.RunNewcomers` | stake/src/component.rs:892-920 | In every run a validator first defined in a block is Inactive, without power or tracker, at a rate of one for this epoch and the next |
| `StakingAcceptance.GenesisAtPar` | stake/src/component.rs:550-641 | Genesis validators are Active under their definitions at rates of one, with the power of their allocation |
| `Merkle.VerifyPath` | crypto/src/proofs/transparent.rs:95-123 | The loop accepts exactly the paths of full depth that climb from the commitment to the anchor |
| `Merkle.GenuinePathVerifies` | crypto/src/proofs/transparent.rs:95-123 | The sibling path of the leaf that a position names modulo 2^32 is accepted against the root of any tree, for every position |
| `Merkle.PathVerifiesIff` | crypto/src/proofs/transparent.rs:95-123 | With an injective hash a path is accepted against a tree's root if and only if the commitment is the leaf at the position modulo 2^32 and the path is that leaf's genuine one, for every position |
| `PoolSpec.ExecuteAccounted` | shielded-pool/src/component.rs:178-203 | Executing a checked transaction keeps the tree equal to the published and pending commitments and the spent set equal to the nullifiers, none twice |
| `PoolSpec.NoDoubleSpend` | shielded-pool/src/component.rs:96-203 | After every run the published nullifiers have no repeats and are exactly the recorded spent set |
| `PoolSpec.AnchorAcceptedIff` | shielded-pool/src/component.rs:521-534 | After every run an anchor is valid if and only if it is the root after some published block |
| `PoolSpec.AnchorsFiledAtZero` | shielded-pool/src/component.rs:343-357 | After every run the anchors by height hold height 0 alone, with the latest root, and every valid anchor points to height 0 |
| `PoolSpends.AcceptedSpendExists` | crypto/src/proofs/transparent.rs:75-145 | A nullifier in an accepted transaction belongs to a leaf already in the tree, at one of the positions that name it modulo 2^32, or to the empty leaf |
| `PoolSpends.RunsAreTimely` | shielded-pool/src/component.rs:84-203 | In every run each published nullifier belongs, in that sense, to a leaf of the tree as the block before left it |
| `PoolSources.RunsFileSources` | shielded-pool/src/component.rs:178-244 | After every run each commitment is filed with genesis, the transaction or the reward that created it last, each nullifier with the transaction that published it, and nothing else is filed |
| `PoolSources.RunsListInOrder` | shielded-pool/src/component.rs:178-244 | After every run the tree lists the notes of genesis, of the accepted transactions and of commissions in the order in which they came, and the published nullifiers are those of the accepted transactions in their order |
| `PoolSources.AcceptedAreProven` | shielded-pool/src/component.rs:84-160 | In every run each accepted transaction has a verified binding signature and verified proofs, and no IBC action |
| `PoolNotes.SameLeafOtherPosition` | crypto/src/proofs/transparent.rs:95-144 | In every run two accepted spends of one leaf, positions being read modulo 2^32, open the same note with the same value and carry different positions |
| `PoolNotes.GuardSuffices` | crypto/src/proofs/transparent.rs:95-144 | In every run whose accepted spends have positions below 2^32 each leaf is spent at most once |
| `PoolNotes.SpentTwice` | crypto/src/keys/nullifier.rs:16-22 | For every injective hash and nullifier there is a run that accepts two spends of its one genesis note, at positions 0 and 2^32, with the same key and value |
| `PoolNotes.GuardIsExact` | crypto/src/proofs/transparent.rs:95-144 | A bound on positions keeps leaves from being spent twice in every run if and only if it is at most 2^32 |
| `ValueBalance.BindingVerificationKey` | transaction/src/transaction.rs:166-188 | The sum over the actions less the fee has, along every asset, spends minus outputs plus conversions minus fee, and the net blinding apart |
| `ValueBalance.ShufflesBalanceAlike` | transaction/src/transaction.rs:166-171 | The key's value in every asset is the same for every order of the actions |
| `PoolValue.ValueAccounted` | shielded-pool/src/component.rs:84-244 | After every run the unspent leaves are worth, in every asset, what was minted at genesis and for commissions plus what accepted delegations and undelegations turned into it less fees, plus exactly what spends of already spent leaves took |
| `PoolValue.ValueConserved` | shielded-pool/src/component.rs:84-244 | With positions below 2^32 that last term is zero: value is conserved over every run |
| `PoolComponent.ShieldedPool.CheckTxStateless` | shielded-pool/src/component.rs:84-160 | Accepts exactly transactions whose binding key is pure blinding and signed, with valid proofs and no nullifier twice |
| `PoolComponent.ShieldedPool.CheckTxStateful` | shielded-pool/src/component.rs:163-175 | Accepts exactly transactions on a valid anchor with no spent nullifier |
| `PoolComponent.ShieldedPool.ExecuteTx` | shielded-pool/src/component.rs:178-203 | Adds the outputs to tree and block, then records and publishes the nullifiers |
| `PoolComponent.ShieldedPool.EndBlock` | shielded-pool/src/component.rs:206-244 | Sets the height, mints one note per commission on top of the tree the last one left, and writes block and tree |
| `PoolComponent.ShieldedPool.InitChain` | shielded-pool/src/component.rs:44-78 | Succeeds exactly if no allocation is empty; then one note per allocation is in the tree, and block 0 is written |
| `PoolComponent.ShieldedPool.AddNote` | shielded-pool/src/component.rs:329-340 | Appends the commitment to the tree, the body to the block, and files the source |
| `PoolComponent.ShieldedPool.WriteCompactBlockAndNct` | shielded-pool/src/component.rs:343-357 | Stores the block under its height and the anchor under that of the emptied block |
| `WalletSpec.ScanBlockOk` | wallet/src/state.rs:735-854 | Scanning the expected block takes books of the earlier blocks to books of all of them |
| `WalletSpec.RunsKeepBooks` | wallet/src/state.rs:163-187 | Under any interleaving of scans, spends, change and timeouts every received note is in exactly one of the ready, submitted and spent sets, and spent exactly when its nullifier was published |
| `WalletSpec.RunsAreConfluent` | wallet/src/state.rs:683-854 | Two runs that accepted the same blocks agree on tree, nullifiers, spent notes and notes still held, whatever else they did |
| `WalletSpec.PruneOutcome` | wallet/src/state.rs:683-729 | By membership: a submitted spend past its time is ready again with its note unless it is spent, any other stays, nothing past its time remains submitted or expected, and nothing else changes |
| `WalletTimeouts.WhereHeld` | wallet/src/state.rs:163-187 | In every run, builder calls included, a note that is not spent is submitted if and only if it was registered and not pruned since, with the timeout of its last registration, and is ready otherwise |
| `WalletTimeouts.PruneRecovers` | wallet/src/state.rs:691-711 | After every run, pruning makes a note whose nullifier was not published ready if and only if it was ready or was submitted more than 60 seconds before |
| `WalletTimeouts.WhenExpected` | wallet/src/state.rs:163-171 | In every run change is expected if and only if it was announced and has neither arrived nor been pruned since, with the timeout of its last announcement |
| `WalletChain.WalletFollowsChain` | wallet/src/state.rs:735-799 | A wallet that scanned the first n blocks has the chain's tree after them, its root is a valid anchor, and it files each of its notes under the nullifier of the true position |
| `WalletChain.SpentIffPublished` | wallet/src/state.rs:804-845 | An owned output at a position below 2^32 counts as spent if and only if its nullifier is among all the published ones, whatever positions others spend at |
| `WalletChain.ReadyNotesAreSpendable` | shielded-pool/src/component.rs:84-175 | In step with the chain, any balanced transaction spending different ready notes against the wallet's own tree passes both checks of the pool, whatever positions others spent at |
| `WalletChain.OkWalletCanSpend` | shielded-pool/src/component.rs:84-175 | The same for any wallet whose books are those of the published blocks, builders used or not |
| `WalletClient.ClientState.ScanBlock` | wallet/src/state.rs:735-854 | Accepts exactly the next height and updates tree and note sets as the wallet's step does; otherwise changes nothing |
| `WalletClient.ClientState.RegisterSpend` | wallet/src/state.rs:181-187 | Moves one ready note to the submitted spends with its timeout |
| `WalletClient.ClientState.RegisterChange` | wallet/src/state.rs:163-171 | Files a note as expected change with its timeout |
| `WalletClient.ClientState.PruneTimeouts` | wallet/src/state.rs:683-729 | Returns timed-out spends that are not spent to the ready notes, drops timed-out change, keeps the rest: as a function of the state, and entry by entry |
| `WalletClient.ClientState.NotesToSpend` | wallet/src/state.rs:197-253 | Succeeds if and only if all denominations are cached, notes of the asset are known and the ready ones are worth the amount; then returns distinct ready notes of the asset and address covering the amount, not covering it without the last one, and submits exactly those; otherwise changes nothing |
| `WalletClient.ClientState.SelectNotes` | wallet/src/state.rs:220-236 | The selection loop finds a covering selection if and only if the eligible ready notes are worth the amount |
| `NoteSelection.RunsStayFiled` | wallet/src/state.rs:735-799 | In every run the ready notes are filed under their commitments and have a path in the wallet's tree |
| `TxBuilder.Builder.Finalize` | transaction/src/transaction/builder.rs:224-285 | Refuses exactly the transactions without chain id or fee, with a balance that is not zero in some asset against all fees charged, or with a definition that is not signed |
| `TxBuilder.Builder.AddSpend` | transaction/src/transaction/builder.rs:52-93 | Adds the note, and its value to the running balance, if and only if it has a path in the tree |
| `TxBuilder.Builder.AddOutput` | transaction/src/transaction/builder.rs:114-136 | Adds the output, and takes its value from the running balance |
| `TxBuilder.Builder.AddDelegation` | transaction/src/transaction/builder.rs:139-149 | Adds a delegation, which turns staking tokens into delegation tokens |
| `TxBuilder.Builder.AddUndelegation` | transaction/src/transaction/builder.rs:152-162 | Adds an undelegation, which turns delegation tokens into staking tokens |
| `TxBuilder.Builder.SetFee` | transaction/src/transaction/builder.rs:172-189 | Replaces the fee, and takes it from the running balance each time it is set |
| `BuilderSpec.BalanceWithFunding` | wallet/src/state.rs:452-486 | Notes selected for an amount together with their change contribute exactly that amount, in that asset alone |
| `BuilderSpec.BalanceWithReceipts` | wallet/src/state.rs:286-325 | Notes spent for tokens received, with their change, cost the amount and pay out what is received |
| `BuilderSpec.BookedTwice` | wallet/src/state.rs:549-585 | Booking the notes of one asset after another is one booking: all notes distinct, all submitted, all change expected |
| `BuilderSpec.OwesNext` | wallet/src/state.rs:549-585 | Funding one asset settles it and leaves the debt and the ready notes of every other asset as they were |
| `BuilderSpec.RequestedIsTotalIff` | wallet/src/state.rs:512-519 | What is paid of an asset is the sum requested if and only if every request for it but the last is zero |
| `BuilderSpec.RequestedTwice` | wallet/src/state.rs:512-519 | Two requests of 1 for one asset pay 1 |
| `BuilderSpec.PayableFromSource` | wallet/src/state.rs:549-585 | From a given source address, what a successful payment shows is also enough for it to succeed |
| `WalletClient.ClientState.FundAsset` | wallet/src/state.rs:549-585 | Spends a selection worth the amount and takes the rest back as change at the address of the last note; fails only if denominations are not cached, the notes do not suffice, or that address has no label, and even then has only booked notes |
| `WalletClient.ClientState.FundAll` | wallet/src/state.rs:549-585 | Funds every amount in any order; the body then balances; this succeeds whenever denominations are cached and the ready notes cover every amount and came to labelled addresses, which for a given source address is also necessary; with a source address all notes spent come from it and all change returns to it |
| `WalletClient.ClientState.BuildSend` | wallet/src/state.rs:496-593 | The transaction balances in every asset, makes exactly one payment per asset, of the amount requested last, and spends distinct ready notes, now submitted; it is built whenever chain and assets are known and the amounts are payable, and finalization never fails; with a source address all notes spent come from it and all change returns to it |
| `WalletClient.ClientState.BuildValidatorDefinition` | wallet/src/state.rs:419-491 | The transaction balances, carries the definition and makes no payment; it is built whenever the chain is known, the definition is signed and the fee is payable; with a source address all notes spent come from it and all change returns to it |
| `WalletClient.ClientState.BuildDelegate` | wallet/src/state.rs:262-327 | Is built if and only if address and chain are known, the rate converts and the notes cover amount and fee; then balances with one delegation at the rate's amounts, its tokens and the change sent to the wallet; spends notes of the source address and sends everything back to it |
| `WalletClient.ClientState.BuildUndelegate` | wallet/src/state.rs:331-415 | Is built if and only if address and chain are known, the rate converts, the fee is within the unbonded amount and the delegation notes cover the amount; then balances with one undelegation, the unbonded amount less the fee and the change sent to the wallet; spends notes of the source address and sends everything back to it |
| `WalletMoves.MovesKeepBooks` | wallet/src/state.rs:262-593 | With builder calls among the moves, successful or failed, the books are still those of the blocks accepted |
| `WalletMoves.MovesAreConfluent` | wallet/src/state.rs:262-593 | Runs with builder calls that accepted the same blocks agree on tree, nullifiers, spent notes and notes still held |
| `WalletMoves.MovesStayFiled` | wallet/src/state.rs:262-593 | In every such run the ready notes are filed as the builders require |
| `BuiltTransactions.KeyIsBalance` | transaction/src/transaction/builder.rs:224-331 | The binding key of a finalized transaction has the builder's running balance along every asset |
| `BuiltTransactions.PureIffBalanced` | transaction/src/transaction/builder.rs:224-331 | In every order of the actions the binding key is pure blinding if and only if the body balances |
| `Shuffles.ShufflesPassPoolAlike` | shielded-pool/src/component.rs:84-175 | Both checks of the pool come out the same for every order of the actions |
| `Shuffles.ShufflesPassStakingAlike` | stake/src/component.rs:656-860 | Both checks of the staking component come out the same for every order of the actions, though the tally is checked at each step |
| `BuiltTransactions.BuiltPassesPool` | transaction/src/transaction/builder.rs:224-331 | A transaction finalized from any balanced body with booked notes passes both checks of the pool |
| `BuiltTransactions.DelegateIsAcceptedIff` | pd/src/components/app.rs:100-120 | What BuildDelegate returns for a synchronised wallet at the chain's next rate passes all checks of both components if and only if the validator is not Slashed and the tokens are below 2^63 |
| `BuiltTransactions.UndelegateIsAcceptedIff` | pd/src/components/app.rs:100-120 | What BuildUndelegate returns at the chain's next rate passes all checks if and only if the tokens are below 2^63 |
| `BuiltTransactions.SendIsAccepted` | pd/src/components/app.rs:100-120 | What BuildSend returns passes all checks |
| `BuiltTransactions.DefinitionIsAcceptedIff` | pd/src/components/app.rs:100-120 | What BuildValidatorDefinition returns passes all checks if and only if the definition is signed, takes at most 100% and is newer than the stored one |
| `BuiltTransactions.ShufflesAreAcceptedAlike` | transaction/src/transaction/builder.rs:241-246 | Any transaction is accepted in one order of its actions if and only if it is in every other, so the four results above hold for every shuffle |
| `Fmd.Params.ChildrenMatch` | decaf377-fmd/src/hkd.rs:5-32 | The child key derived in public is the public key of the child key derived in private |
| `Fmd.PackKeepsBits` | decaf377-fmd/src/clue_key.rs:106-117 | Bits packed in three bytes, least significant first, are read back in place |
| `Fmd.ResponseOpens` | decaf377-fmd/src/detection.rs:107-108 | The commitment reconstructed from a clue's point, response and hash is the one its maker chose; the response is zero if and only if scalar and hash are equal |
| `Fmd.DetectsIff` | decaf377-fmd/src/detection.rs:81-132 | For any clue key, any detection key, any precision below 24 and any nonzero r, the detection key recognizes the clue if and only if z differs from the clue's hash and, at every place below the precision, the bit hashed from the point shared with its own child key equals the one the maker hashed |
| `Fmd.MalformedIsRefused` | decaf377-fmd/src/detection.rs:81-111 | A clue whose point or response does not decode or is zero is recognized by no key |
| `Fmd.NoFalseNegatives` | decaf377-fmd/src/detection.rs:81-132 | For every key, every precision below 24 and every nonzero r, the matching detection key recognizes the clue if and only if the scalar z differs from the clue's hash |
| `Fmd.ZeroPrecisionMiss` | decaf377-fmd/src/clue_key.rs:86-126 | For every key and every nonzero r there is a z whose clue of precision 0 is missed |
| `FmdKeys.ExpandedClueKey.Expand` | decaf377-fmd/src/clue_key.rs:40-51 | Succeeds exactly on encodings of a group element |
| `FmdKeys.ExpandedClueKey.EnsureAtLeast` | decaf377-fmd/src/clue_key.rs:54-76 | Extends the cache to the precision, keeping what it held; refuses more than 24 |
| `FmdKeys.ExpandedClueKey.CreateClue` | decaf377-fmd/src/clue_key.rs:86-126 | Makes the clue that key, precision and scalars determine, whatever was cached; refuses precision 24 and above |
| `FmdKeys.Examine` | decaf377-fmd/src/detection.rs:81-132 | The early-return loop answers yes exactly on clues with a good header of which all bits match; it has no answer exactly when more than 24 bits are claimed and the first 24 match |
| `FmdKeys.MakeAndExamine` | decaf377-fmd/tests/fmd.rs:6-32 | From one key's clue key to another's detection, with any cache beforehand: found if and only if z differs from the hash and all key bits agree; by the key itself unless z equals the hash |
| `Modular.InverseInverts` | decaf377-fmd/src/clue_key.rs:116-117 | Modulo a prime every nonzero scalar times its inverse is one |
| `Decimal.NumeralRoundTrip` | crypto/src/asset/denom.rs:211-227 | A printed number denotes itself and starts with a zero only if it is zero |
| `Decimal.TrimmedNumber` | crypto/src/asset/denom.rs:218-220 | Trimming trailing zeros divides by the matching power of ten |
| `Denom.FractionFits` | crypto/src/asset/denom.rs:256-257 | For exponents up to 19 scaling the digits after the point never overflows, so parsing does not panic |
| `Denom.ParseIsExactIff` | crypto/src/asset/denom.rs:229-269 | A value parsed from digits, point and digits is the one denoted if and only if it is not the case of one zero too many after the point in a scaled unit |
| `Denom.ParseAcceptsIff` | crypto/src/asset/denom.rs:229-269 | Digits, point and digits are accepted if and only if both parts and the value fit 64 bits and the places fit the unit, or are one too many and all zero |
| `Denom.ParseWhole` | crypto/src/asset/denom.rs:229-269 | Digits alone are whole units, refused exactly if they exceed 64 bits |
| `Denom.ScaleLostExample` | crypto/src/asset/denom.rs:249-251 | `1.0000000` and `1.000000` in a unit of exponent 6 are parsed as 1 and 1000000 |
| `Denom.PlusShifts` | crypto/src/asset/denom.rs:247-260 | A plus sign after the point shifts the value as a zero there would |
| `Denom.RoundTrip` | crypto/src/asset/denom.rs:211-269 | Every 64-bit value printed in a unit of exponent up to 19 is parsed back |
| `Denom.FormatIsShortest` | crypto/src/asset/denom.rs:211-227 | The printed string denotes the value and has no needless zero in front or at the end |
| `Denom.ShortestIsFormat` | crypto/src/asset/denom.rs:211-227 | Every such decimal string is the printed form of what it denotes |
| `Denom.FormatIsInjective` | crypto/src/asset/denom.rs:211-227 | Different values print differently |
| `Denom.NewUnits` | crypto/src/asset/denom.rs:70-94 | Accepts exactly units other than the base unit and appends it last |
| `Denom.BestUnitFor` | crypto/src/asset/denom.rs:146-157 | For descending units picks the largest that does not exceed the amount, so that the amount prints with a leading zero only if it is zero |

## Left out

- Storage, asynchrony and locks: the state is plain maps in which every read sees the last write; keys of one validator are grouped in one record.
- Wrap-around of unchecked arithmetic: an intermediate that leaves its width is a failure here, where a release build wraps silently. Casts between signed and unsigned are modelled as they wrap.
- Block heights and epoch indices are unbounded naturals; their 64-bit overflow is not modelled.
- Curves, hashes, ciphertexts and signatures are function parameters, or a flag that says whether they verify; injectivity is assumed only by the theorems that name it. A validator's funding streams are checked by their 64-bit sum, not by the 16-bit one of stake/src/funding_stream.rs:97-106.
- StakingComponent.Staking.TrackUptimes: votes name consensus keys, where the source compares 20-byte hashes of them.
- StakingComponent.Staking.BeginBlock: evidence names the validator it resolves to, because the index from consensus keys to validators has no writer in the source.
- StakingComponent.Staking.CheckTxStateless: whether a definition parses and its signature verifies is a flag of the definition.
- StakingComponent.Staking.CheckTxStateful: a tally that leaves 64 bits is refused, where a release build wraps.
- PoolComponent.ShieldedPool.CheckTxStateless: the signature under the binding key and the proof checks other than path and nullifier are flags of the transaction; a signature counts as possible only if the key is pure blinding.
- PoolComponent.ShieldedPool.EndBlock: what body a minted note gets on top of a tree is a parameter; its blinding factor and encryption are not modelled, and runs allow any minted bodies. Unique commitments are assumed where needed. The supply they add is part of the staking runs. Registering denominations and the quarantine of undelegated notes are not modelled.
- Value commitments are one number per asset and one for the blinding: generators are taken to be independent, and sums are not reduced modulo the group order. Where theorems speak of notes and their values, a note commitment is taken to have one key and one value.
- A tree of more than 2^32 leaves, and wallet notes whose commitment is the empty leaf, in the theorems that name them. Checkpoints of the wallet's tree. A wallet takes a new note's position to be that of the newest leaf.
- The wallet's 64-bit running totals, the memo of a payment, and the keys that sign a transaction.
- TxBuilder.Builder.Finalize: the body is the one before the shuffle, and the chain id and lists are not erased; the order is covered by `BuiltTransactions.ShufflesAreAcceptedAlike`, the binding key by `BuiltTransactions.PureIffBalanced`.
- WalletClient.ClientState.FundAsset: without a source address it depends on the random draw whether the change address has a label, so success is promised only if all eligible notes came to labelled addresses.
- WalletClient.ClientState.FundAll: as FundAsset.
- WalletClient.ClientState.BuildSend: as FundAsset.
- WalletClient.ClientState.BuildValidatorDefinition: as FundAsset.
- StakingSafety.RunsAreSafe: failures for external reasons remain possible in a run, namely overflow, a supply out of range, a power above Tendermint's bound, evidence against an unknown or inactive validator, and an expired validator in the top set; `StakingSafety.RunFailure` says which of them remain after begin_block, and when.
- Denom.RoundTrip: exponents of 20 and above, for which the power of ten does not fit 64 bits.
- IBC clients, the tiered commitment tree crate, seed phrases, protobuf conversions, command-line clients and daemons, gRPC services.
