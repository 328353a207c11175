# A model of reward accounting in Osmosis

This project models the parts of Osmosis that decide who is owed how much, and proves what
they promise over every input and every run.

* **The sum tree** (`osmoutils/sumtree`): an augmented B+ tree in a flat ordered store. There
  are no pointers; a node's parent is found by key, and a split pushes a new sibling into a
  parent whose own sum is stale at that moment. `SumTreeLevels`, `SumTreeEdits` and
  `SumTreeHeight` say what the levels of a tree are and what an insertion does to them,
  `SumTreeStore` how they lie in the store, `SumTreeQueries` what a query returns, and
  `SumTree` is the class that works on the store. `SumTreeCounter` adds the 16-bit counter the
  code keeps the level in, `SumTreeGrowth` says when a key adds a level, `SumTreeRuns` treats
  whole runs, `SumTreeLoops` the run that never returns, and `SumTreeOverflow` the size of the sums.
* **The reward accumulator** (`osmoutils/accum`): rewards per share with a snapshot for every
  position. `AccumulatorState` is the state machine, `Accumulator` the object over a shared
  key-value store, `AccumulatorKeys` the separation of accumulators in it,
  `AccumulatorRules` what each operation does to each position, and `AccumulatorConservation` the
  books of whole runs.
* **Concentrated-liquidity incentives** (`x/concentrated-liquidity`): incentive records emit
  into six uptime accumulators; growth is tracked per tick range; positions join, claim,
  forfeit, withdraw; swaps cross ticks; pools migrate to a scaling factor of 10^27.
  `Emission`, `UptimeAccumulator` with `Stakes` and `GrowthLaws`, `TickLiquidity`,
  `RepeatedClaims`, `ClaimPayouts`, `Migration` and `MigrationPayout` treat one part each.
  `UptimeActs` puts what is done to an accumulator under one statement, `IncentivePool` composes
  it into the pool's operations, `IncentiveSteps`, `IncentiveOps` and `IncentiveKeeps` prove them
  one by one, `Solvency` proves runs of them, and `IncentiveKeeper` has the loops. What each
  operation does is stated in plain arithmetic, apart from the code's functions: `SyncRules` for
  an update, `CreateRules` for a new record and its whole course, `ClaimRules` for claims,
  withdrawals and new positions, `PoolRules` for crossings and the migration, and `PositionRuns`
  for the age of positions over runs.
* **Fixed-point arithmetic** (`osmomath`): `FixedPoint` and `Decimals` for rounding, then
  `Logarithm`, whose accuracy is in `LogarithmAccuracy` and `LogarithmPromise`, `Power` with
  `PowerAccuracy`, `SquareRoot`, `BinarySearch`, `DecimalText` with `DecimalGrammar`, and `Limits`.
  `RealPowers` has decimals as real numbers.

Conventions. A decimal is its raw integer: 10^18 to the unit for `Dec`, 10^36 for `BigDec`.
Decimal coins are maps from denominations to such integers; a missing denomination is zero,
and maps that differ only in zero entries stand for the same coins. Panics and error returns
are values (`None`, `Err`). Times are nanoseconds and are parameters. The key-value store is a
map on keys; iteration order is the order of byte strings. Bank transfers are amounts in a
ledger. big.Int's division and square root, the rounding of `LegacyDec` multiplication and the
panic of `DecCoins.Sub` are taken as specified by their libraries.

`Folding` keeps a definition folded: `Folded(p)` and `FoldedFn(g)` are known to agree with `p`
and `g` only where an `Unfold` lemma says so. Definitions in this form are marked "kept folded".

Where the code and its comments disagree, or the code does less than one might expect, the model
follows the code:

* `TotalAccumulatedValue` returns the value of the empty key, not the total; its contract says
  exactly when the two agree, and `TotalMissesKeys` gives the runs of one `Set` in which they do
  not.
* The sum tree's level is an unsigned 16-bit counter. The operation that would put a root on level
  65535 asks for the level above it, gets level 0, and walks round the tree without end. Up to
  65534 keys, the empty one included, are safe for every branching factor, and for factors of 3
  and more so are all counts below 2^65535; with a factor of 2 or less some runs of 65535
  insertions do it (`RunRefinesMap`, `WideRunsEnd`, `CountdownLoops`, `LoopingRunNeverReturns`).
* While the right half of a split node moves up, its parent still holds the sum from before the
  split, so that a value is counted twice, and once more in every level that splits on. Sums may
  therefore reach the 256-bit limit of the summed integers although all values together stay
  below it (`StaleSumsOverflow`); they never do if the absolute values stay below 2^240
  (`LightRunFits`).
* Withdrawing a whole position leaves its records with zero shares in the uptime accumulators,
  because the claim happens before the shares are removed. A position's name is therefore new
  only if no accumulator has a record of it.
* The migration does not multiply unclaimed rewards. No operation of a pool leaves a live position
  with any, so no payout depends on it (`RunAccounted`, `MigrationPayout`).
* `BinarySearch` is documented to search both bounds. Midpoints are cut toward zero, so a positive
  upper and a negative lower bound are never tried; `SearchComplete` says exactly which inputs are.
* The parser of decimals is documented to take an optional minus. It also takes a plus, and a second
  sign after a minus, and reads a lone plus as zero (`ParsesExactly`).
* A record that starts between two updates emits for the whole time since the first of them, not
  from its start (`NextCourse`, `CreatedOverUpdates`).
* Every claim drops less than a coin per accumulator, so claiming often can pay less, down to
  nothing (`ManyPaymentsOrOne`, `SmallClaimsPayNothing`).
* A claim that forfeits coins without a withdrawal gives them to no one; they are a term of the
  books that `RunAccounted` balances.

## Model

| member | source | states |
|---|---|---|
| ByteKeys.Greatest | osmoutils/sumtree/tree.go:185-197 | the greatest byte string of a set, which a reverse iterator yields first |
| SumTreeStore.NodeKeyParts | osmoutils/sumtree/tree.go:111-118 | level and key can be read back from a node key |
| SumTreeStore.NodeKeyOrder | osmoutils/sumtree/tree.go:111-118 | node keys are ordered by level first and by key within a level, in both directions |
| SumTreeStore.NodeKeyInjective | osmoutils/sumtree/tree.go:111-118 | different nodes have different store keys |
| SumTreeStore.WriteNode | osmoutils/sumtree/node.go:33-39 | writing one node changes that node of the represented levels and nothing else |
| SumTreeStore.WriteLeaf | osmoutils/sumtree/node.go:41-50 | writing one leaf changes that leaf and nothing else |
| SumTreeEdits.SlotFromOK | osmoutils/sumtree/node.go:226-238 | on sorted children the scan finds a key exactly if it is there, and otherwise its insertion point |
| SumTree.Find | osmoutils/sumtree/node.go:226-238 | the loop returns the slot of the scan that SlotFromOK describes |
| SumTree.Accumulate | osmoutils/sumtree/node.go:211-217 | the loop returns the sum of the children's accumulations |
| SumTreeLevels.LevelSetAcc | osmoutils/sumtree/node.go:240-243 | changing one accumulation keeps the level an index over the changed sums |
| SumTreeLevels.LevelInsert | osmoutils/sumtree/node.go:245-248 | inserting a child at its place keeps the level an index over the enlarged sums |
| SumTreeLevels.LevelSplit | osmoutils/sumtree/node.go:255-257 | splitting a node anywhere inside keeps the level an index over the same sums, under a key that was not a node before |
| SumTreeEdits.ParentKeyOK | osmoutils/sumtree/node.go:84-98 | in an index every key has a covering node one level up, and the parent rule names it |
| SumTreeEdits.ParentOfRightHalf | osmoutils/sumtree/node.go:157-160 | the parent of the right half of a split node is the parent of the node |
| SumTreeEdits.UpdatedIndexes | osmoutils/sumtree/node.go:110-123 | updating upwards from a correct level never panics and leaves every level the index over the new sums |
| SumTreeEdits.AfterPushIndexes | osmoutils/sumtree/node.go:125-165 | a push, through any cascade of splits, never panics and leaves every level the index over the map with the new entry |
| SumTreeEdits.AfterSplitIndexes | osmoutils/sumtree/node.go:145-163 | the same for the splitting branch, whose parent holds a stale sum while the right half is pushed |
| SumTreeHeight.PushedSized | osmoutils/sumtree/node.go:145-157 | every node keeps between one and max(m, 2) children; for m >= 3 every node but a single root on the leaves has two or more, for m = 2 the leftmost branches above the lowest level do |
| SumTreeHeight.HeightBound | osmoutils/sumtree/node.go:144-161 | with m >= 3 a tree of height h above one level has at least 2^h entries; with m = 2, at least h |
| SumTree.Tree.Exists | osmoutils/sumtree/node.go:101-106 | a node exists exactly if the level holds its key |
| SumTree.Tree.GetNode | osmoutils/sumtree/node.go:22-31 | reads the children of an existing node |
| SumTree.Tree.SetNode | osmoutils/sumtree/node.go:33-39 | the store represents the levels with that node replaced |
| SumTree.Tree.SetLeaf | osmoutils/sumtree/node.go:41-50 | the store represents the leaves with that value replaced |
| SumTree.Tree.LeftSibling | osmoutils/sumtree/node.go:56-60 | the nearest key to the left on the level, or none if there is none |
| SumTree.Tree.Parent | osmoutils/sumtree/node.go:84-98 | returns the key of the node one level up that covers the given key, where the counter takes the leaves to be above level 65535 |
| SumTree.Tree.UpdateAccumulation | osmoutils/sumtree/node.go:110-123 | changes the stored levels as the update function says, and reports exactly the panics |
| SumTree.Tree.Push | osmoutils/sumtree/node.go:125-165 | changes the stored levels as the push function says, and reports exactly the panics |
| SumTree.Tree.PushSplit | osmoutils/sumtree/node.go:145-157 | the splitting branch of push: a new root, or the right half pushed |
| SumTree.Tree.PushRight | osmoutils/sumtree/node.go:157-164 | the right half goes up, and the left half's sum is told to the parent that the second look-up finds |
| SumTree.Tree.PushInto | osmoutils/sumtree/node.go:163-164 | the parent hears of the node's new sum before the node is written |
| SumTree.Tree.PushRoot | osmoutils/sumtree/node.go:149-155 | two halves without a parent get one, perhaps on a new level |
| SumTree.Tree.constructor | osmoutils/sumtree/tree.go:29-35 | a new tree on an empty store is valid and holds the empty key with zero |
| SumTree.Tree.Reopen | osmoutils/sumtree/tree.go:29-35 | a tree on a store that already holds one is valid for any branching factor |
| SumTree.Tree.Set | osmoutils/sumtree/tree.go:41-47 | keeps the tree valid and balanced; the map it stands for has the new value and is otherwise the same, as long as the counter can leave the top level it makes |
| SumTree.Tree.Get | osmoutils/sumtree/tree.go:140-152 | the map's value, or zero |
| SumTree.Tree.Increase | osmoutils/sumtree/tree.go:59-62 | the map's value is raised by the amount |
| SumTree.Tree.Decrease | osmoutils/sumtree/tree.go:64-66 | the map's value is lowered by the amount |
| SumTree.Tree.Root | osmoutils/sumtree/tree.go:125-137 | the greatest key of the whole store is the single node of the top level, keyed empty |
| SumTree.Tree.AccumulationSplit | osmoutils/sumtree/tree.go:212-244 | computes the split of the node's range at the key, and reports exactly the panics |
| SumTree.Tree.SplitAcc | osmoutils/sumtree/tree.go:274-276 | the sums of the plain map below, at and above the key |
| SumTree.Tree.SubsetAccumulation | osmoutils/sumtree/tree.go:260-272 | each of the four nil combinations in terms of the plain map's sums |
| SumTree.Tree.PrefixSum | osmoutils/sumtree/tree.go:252-254 | the sum of the map's entries up to and including the key |
| SumTree.Tree.TotalAccumulatedValue | osmoutils/sumtree/tree.go:247-249 | returns the value of the empty key, which is the total if and only if the other entries sum to zero |
| SumTree.SubsetSumIsRange | osmoutils/sumtree/tree.go:260-272 | for bounds in order every form of the query is the map's inclusive range sum |
| SumTree.TopIsEmptyKey | osmoutils/sumtree/tree.go:125-137 | the top level of every index holds exactly the empty key |
| SumTreeQueries.LevelBelow | osmoutils/sumtree/tree.go:236-243 | what a level says about the entries left of a child equals the sum of the level below it |
| SumTreeQueries.LevelAbove | osmoutils/sumtree/tree.go:236-243 | the same to the right |
| SumTreeQueries.SplitAtOK | osmoutils/sumtree/tree.go:212-244 | the descent from any covering node yields the map's sums, with what lies outside the node added |
| SumTreeQueries.SplitOfMap | osmoutils/sumtree/tree.go:212-244 | from the root the split is the plain map's sums below, at and above the key |
| SumTree.WithEntryOK | osmoutils/sumtree/tree.go:41-47 | setting any key never panics and re-indexes the changed map |
| SumTreeCounter.UpdateEnds | osmoutils/sumtree/node.go:84-123 | with the 16-bit level, updating a correct index ends if and only if the counter can leave the top level, and then does what it does without a bound |
| SumTreeCounter.PushEnds | osmoutils/sumtree/node.go:84-165 | the same for a push, of the top level it makes; a push into a lone level ends in any case |
| SumTreeCounter.LoopsNeverEnds | osmoutils/sumtree/node.go:84-123 | a walk that leaves level 65535 goes round through the leaves, and no number of calls ends it, as long as no sum overflows |
| SumTreeGrowth.KnownKeyKeepsHeight | osmoutils/sumtree/node.go:134-138 | changing a known key adds no level |
| SumTreeGrowth.NarrowGrows | osmoutils/sumtree/node.go:145-161 | with m < 2 every new key adds a level, wherever it goes |
| SumTreeGrowth.LeftFullGrows | osmoutils/sumtree/node.go:145-161 | with m = 2 a new key left of all branches adds a level to a tree whose leftmost nodes are full, and leaves them full |
| SumTreeRuns.RunIndexes | osmoutils/sumtree/tree.go:29-66 | after every run from a new tree the levels, if they had no bound, index the plain map and are balanced |
| SumTreeRuns.RunEnds | osmoutils/sumtree/tree.go:29-66 | with the counter, a run does the same if and only if the counter can leave the top level, and otherwise never returns |
| SumTreeRuns.HeightAndKeys | osmoutils/sumtree/node.go:125-165 | a tree is never higher than it has keys, and exactly as high for m < 2 |
| SumTreeRuns.RunRefinesMap | osmoutils/sumtree/tree.go:29-66 | every run of unbounded sums, whatever m and shape, panics nowhere, ends exactly under that condition, and then splits at every key as the plain map does; fewer than 65535 keys suffice, and for m < 2 are needed |
| SumTreeRuns.WideRunsEnd | osmoutils/sumtree/node.go:144-161 | for m >= 3 the height is logarithmic, and every run with fewer than 2^65535 keys ends |
| SumTreeRuns.RunMeetsSet | osmoutils/sumtree/tree.go:41-47 | in a run that ends, every operation finds the tree as low as Set requires |
| SumTreeRuns.DescendingHeight | osmoutils/sumtree/node.go:145-161 | with m = 2, n new keys in descending order make a tree of height n |
| SumTreeRuns.CountdownLoops | osmoutils/sumtree/node.go:84-165 | for m <= 2 a concrete family of runs: which of them never return, exactly |
| SumTreeRuns.FullTreeNeverReturns | osmoutils/sumtree/node.go:84-123 | on a tree that takes up the whole counter, the update after a change of any key never returns, as long as no sum overflows |
| SumTreeLoops.PushGetsStuck | osmoutils/sumtree/node.go:125-165 | a push that loops is half done: right halves are stored, left ones not yet, and it is inside an update walk that takes up the counter and goes round |
| SumTreeLoops.LoopingRunNeverReturns | osmoutils/sumtree/tree.go:41-66 | on the store that the looping operation of a run has made so far, its walk makes any number of calls without returning, as long as no sum overflows |
| SumTreeLoops.LoopBegins | osmoutils/sumtree/tree.go:41-66 | every run that loops has such an operation |
| SumTreeOverflow.LevelMass | osmoutils/sumtree/node.go:211-217 | the absolute values of a level add up to no more than those of the level below |
| SumTreeOverflow.LightUpdateFits | osmoutils/sumtree/node.go:110-123 | no partial sum of an update reaches a limit that the absolute values of the new map stay below |
| SumTreeOverflow.LightPushFits | osmoutils/sumtree/node.go:125-165 | no partial sum of a push reaches a limit that the absolute values of the new map, and those of the old one once per level, stay below together |
| SumTreeOverflow.LightRunFits | osmoutils/sumtree/tree.go:41-66 | no sum of a run that ends reaches a limit that 65536 times the absolute values of each of its maps stay below |
| SumTreeOverflow.StaleSumsOverflow | osmoutils/sumtree/node.go:157-164 | for every limit, three keys whose values stay below it and whose third insertion still makes a sum that reaches it |
| SumTreeRuns.TotalMissesKeys | osmoutils/sumtree/tree.go:247-249 | after one Set of any key but the empty one, TotalAccumulatedValue is zero and the total is the value set |
| AccumulatorKeys.CollideIff | osmoutils/accum/prefix.go:18-29 | two accumulators share a position key if and only if one name is the other plus a single bar |
| AccumulatorKeys.WritePosition | osmoutils/accum/accum_helpers.go:12-20 | writing a position record changes that record of the accumulator's state and no other key |
| AccumulatorKeys.RemovePosition | osmoutils/accum/accum.go:367-369 | the same for deletion |
| AccumulatorKeys.WriteContent | osmoutils/accum/accum.go:118-125 | the same for value and total shares |
| AccumulatorKeys.OthersUntouched | osmoutils/accum/prefix.go:18-29 | an operation that touches only its own keys leaves every separately named accumulator's state alone |
| AccumulatorKeys.SeparateUnchanged | osmoutils/accum/prefix.go:18-29 | the same for the stored states that the handles keep |
| Accumulator.MakeAccumulator | osmoutils/accum/accum.go:36-50 | fails exactly for an existing name or one with the separator; otherwise creates an accumulator of zero value and shares, over whatever records its name already has, and touches no other |
| Accumulator.GetAccumulator | osmoutils/accum/accum.go:82-95 | a handle exactly if the accumulator exists, and an error otherwise; under a name without the separator it agrees with the store |
| Accumulator.AccumulatorObject.constructor | osmoutils/accum/accum.go:82-95 | a handle on an existing accumulator has its stored state, and agrees with the store if the name has no separator |
| Accumulator.AccumulatorObject.SetAccumulator | osmoutils/accum/accum.go:118-125 | writes the handle's value and total shares |
| Accumulator.AccumulatorObject.InitOrUpdatePosition | osmoutils/accum/accum_helpers.go:12-20 | writes one position record |
| Accumulator.AccumulatorObject.DropPosition | osmoutils/accum/accum.go:367-369 | deletes one position record |
| Accumulator.AccumulatorObject.GetPosition | osmoutils/accum/accum_helpers.go:23-34 | reads a record, or reports that there is none |
| Accumulator.AccumulatorObject.GetTotalRewards | osmoutils/accum/accum_helpers.go:37-45 | unclaimed rewards plus the growth since the snapshot times the shares, or a panic on negative growth |
| Accumulator.AccumulatorObject.AddToAccumulator | osmoutils/accum/accum.go:130-135 | the stored state with the value raised |
| Accumulator.AccumulatorObject.NewPosition | osmoutils/accum/accum.go:154-168 | the stored state with the record overwritten and the shares added |
| Accumulator.AccumulatorObject.UpdatePosition | osmoutils/accum/accum.go:306-316 | dispatches to growth or shrinking; zero is an error |
| Accumulator.AccumulatorObject.AddToPosition | osmoutils/accum/accum.go:206-235 | moves rewards to unclaimed, adds shares and re-snapshots, or fails with the source's errors |
| Accumulator.AccumulatorObject.RemoveFromPosition | osmoutils/accum/accum.go:253-286 | the same for removing shares, which never exceed those held |
| Accumulator.AccumulatorObject.SetPositionInterval | osmoutils/accum/accum.go:324-336 | replaces the snapshot of an existing record |
| Accumulator.AccumulatorObject.ClaimRewards | osmoutils/accum/accum.go:408-430 | pays the whole coins, returns the change, and resets or removes the record |
| Accumulator.AccumulatorObject.DeletePosition | osmoutils/accum/accum.go:345-364 | claims, removes the record and its shares |
| Accumulator.AccumulatorObject.AddToUnclaimedRewards | osmoutils/accum/accum.go:440-455 | deposits non-negative rewards into an existing record |
| AccumulatorRules.SucceedsWhen | osmoutils/accum/accum.go:130-455 | exactly when each operation succeeds in a sound state |
| AccumulatorRules.SharesAfter | osmoutils/accum/accum.go:154-430 | which positions there are after it, and with how many shares; only the one named changes, and a claim removes one without shares |
| AccumulatorRules.RewardsAfter | osmoutils/accum/accum.go:130-455 | what each position then has set aside, and from where it counts its growth |
| AccumulatorRules.PaysEarned | osmoutils/accum/accum.go:345-430 | a claim or deletion pays all that the position has earned, and the others pay nothing |
| AccumulatorConservation.Settles | osmoutils/accum/accum_helpers.go:37-45 | a settlement never panics in a reachable state and is within half a unit of 10^-18 of the growth it settles |
| AccumulatorConservation.StepBalanced | osmoutils/accum/accum.go:130-455 | every admissible operation keeps the invariant and balances income, payments and what is owed, within half a unit per settlement |
| AccumulatorConservation.OwedIsHoldings | osmoutils/accum/accum_helpers.go:37-45 | the telescoped measure of what is owed is the sum over positions of unclaimed and pending rewards |
| AccumulatorConservation.RunConserves | osmoutils/accum/accum.go:130-455 | over every run per denomination: income equals payments plus holdings within half a unit per settlement, total shares are the sum of the positions', and no snapshot is ahead |
| AccumulatorConservation.NoPanic | osmoutils/accum/accum_helpers.go:37-45 | no admissible operation after any run makes the reward subtraction panic |
| AccumulatorConservation.OverwriteBreaksTotal | osmoutils/accum/accum.go:154-168 | opening an existing name keeps total shares right if and only if the overwritten record had none |
| Emission.ScaleUpExact | x/concentrated-liquidity/incentives.go:345-358 | scaling up by a whole factor loses nothing |
| Emission.EmitBounds | x/concentrated-liquidity/incentives.go:266-338 | a record is debited never below zero, and by at least what it adds times the liquidity over the factor, short by less than one liquidity; others are left alone |
| Emission.CalcAccruedIncentivesForAccum | x/concentrated-liquidity/incentives.go:250-341 | the loop returns the coins added per liquidity and the debited records; liquidity or time that is not positive is an error |
| SyncRules.EmitsAsDue | x/concentrated-liquidity/incentives.go:266-338 | a record that has started spends its rate times the nanoseconds since the last update over 10^9, as long as it lasts, and nothing if the scaled amount needs more than 315 bits |
| SyncRules.SyncSpends | x/concentrated-liquidity/incentives.go:175-243 | with liquidity of at least one, an update makes every record spend just that, keeps the records with a rest, and raises the accumulator each names, and no other, by the amount times the factor over the liquidity |
| SyncRules.SyncRests | x/concentrated-liquidity/incentives.go:182-210 | with less liquidity nothing is spent, at the same time nothing changes, and an earlier time is an error |
| CreateRules.CreateStores | x/concentrated-liquidity/incentives.go:1003-1094 | exactly which terms are accepted; the synced pool then has one more record with the deposit, denomination, uptime, rate and start given |
| CreateRules.RecordOverUpdates | x/concentrated-liquidity/incentives.go:175-341 | over any updates the pool with a record is the pool without it, but for what the record has left and has given to the one accumulator and denomination it names |
| CreateRules.CreatedOverUpdates | x/concentrated-liquidity/incentives.go:1059-1094 | the same of a record that has just been created, from its deposit and terms |
| CreateRules.WaitsForStart | x/concentrated-liquidity/incentives.go:271-274 | up to its start a record spends nothing |
| CreateRules.SpendsAtRate | x/concentrated-liquidity/incentives.go:277-312 | after its start it spends what is due, as long as it lasts |
| CreateRules.DuesAreTime | x/concentrated-liquidity/incentives.go:277-278 | what is due is the rate times the time, short by less than a unit of 10^-18 per update |
| Emission.AddedCovered | x/concentrated-liquidity/incentives.go:250-341 | per denomination the amount added times the liquidity is covered by what the records lose, short by less than one liquidity per emitting record |
| Emission.DebitedOnce | x/concentrated-liquidity/incentives.go:212-228 | one update over all uptimes changes a record at most once, for its own uptime, and leaves it alone if it does not emit |
| Emission.RecordsStayOK | x/concentrated-liquidity/incentives.go:212-228 | remaining amounts and rates never become negative |
| Emission.UpdateCovered | x/concentrated-liquidity/incentives.go:212-228 | the bound of AddedCovered summed over all uptimes of one update |
| Emission.UpdatesEmit | x/concentrated-liquidity/incentives.go:266-338 | a run of updates debits the smaller of what remains and the sum of the truncated pieces |
| Emission.PartitionEmitsNoMore | x/concentrated-liquidity/incentives.go:266-338 | cutting an interval into n updates emits never more than one update and at most n - 1 units of 10^-18 less |
| UptimeAccumulator.GrowthAmounts | x/concentrated-liquidity/incentives.go:529-602 | on initialised ticks neither growth query panics; inside is the difference of the growths below the two ticks, outside is the rest of the global value |
| GrowthLaws.AdjacentRanges | x/concentrated-liquidity/incentives.go:529-582 | growth inside is additive over adjacent ranges at every current tick |
| GrowthLaws.InsideAndOutside | x/concentrated-liquidity/incentives.go:590-602 | inside plus outside is the global value and outside is never negative |
| GrowthLaws.NewTick | x/concentrated-liquidity/incentives.go:100-117 | a newly initialised tick has all past growth below it and leaves the other ticks' as it was |
| GrowthLaws.AccrualReaches | x/concentrated-liquidity/incentives.go:529-582 | an accrual raises the growth inside by all of it exactly for ranges that contain the current tick |
| GrowthLaws.CrossingKeepsInside | x/concentrated-liquidity/tick.go:68-97 | crossing any number of ticks leaves the growth inside every range as it was |
| Stakes.RaisedOwed | x/concentrated-liquidity/incentives.go:222-226 | an accrual is owed exactly once for every share in range |
| Stakes.SettledNear | osmoutils/accum/accum_helpers.go:37-45 | settling a stake is within half a unit of what was owed |
| UptimeAccumulator.AccrueOwed | x/concentrated-liquidity/incentives.go:222-226 | adding to an accumulator makes it owe the amount times the liquidity in range |
| UptimeAccumulator.FlipIsCross | x/concentrated-liquidity/tick.go:68-97 | flipping the one tick that is crossed never panics |
| UptimeAccumulator.CrossKeeps | x/concentrated-liquidity/tick.go:68-97 | moving the current tick across initialised ticks keeps the invariant and what is owed |
| UptimeAccumulator.InitTickKeeps | x/concentrated-liquidity/tick.go:103-158 | initialising a tick keeps the invariant and what is owed |
| UptimeAccumulator.DropTicksKeeps | x/concentrated-liquidity/tick.go:167-181 | so does removing ticks that bound no position |
| UptimeAccumulator.RewardsAreSettled | x/concentrated-liquidity/spread_rewards.go:326-345 | raising the snapshot by the growth outside makes the accumulator pay the growth inside since the last update, which is never negative |
| UptimeAccumulator.JoinKeeps | x/concentrated-liquidity/incentives.go:638-654 | a new position keeps the invariant and is owed nothing |
| UptimeAccumulator.CollectShape | x/concentrated-liquidity/incentives.go:685-716 | a claim never fails on a live position, pays the whole part of the settled rewards, and leaves the snapshot at the growth inside the range |
| UptimeAccumulator.CollectKeeps | x/concentrated-liquidity/incentives.go:685-716 | a claim keeps the invariant and takes from what is owed what it settles, within half a unit |
| UptimeAccumulator.ResizeShape | x/concentrated-liquidity/incentives.go:655-672 | a liquidity change moves the settled rewards to unclaimed and leaves the snapshot at the growth inside |
| UptimeAccumulator.ResizeKeeps | x/concentrated-liquidity/incentives.go:655-672 | a liquidity change keeps the invariant and what is owed, within half a unit |
| UptimeAccumulator.LeaveKeeps | x/concentrated-liquidity/incentives.go:655-672 | withdrawing everything leaves every other position's claim as it was |
| UptimeAccumulator.IdleResize | x/concentrated-liquidity/incentives.go:655-672 | a liquidity change of a position with nothing to claim changes nothing that is owed and leaves nothing unclaimed |
| UptimeAccumulator.SecondClaimPaysNothing | x/concentrated-liquidity/incentives.go:685-716 | an immediate second claim pays zero in every denomination |
| RepeatedClaims.StepKeeps | x/concentrated-liquidity/incentives.go:638-716 | a claim or liquidity change keeps snapshot = growth inside, and adds the growth that reached the range since the last one times the liquidity |
| RepeatedClaims.Telescopes | x/concentrated-liquidity/incentives.go:638-716 | any sequence of claims and liquidity changes, with tick moves and accruals between, settles decimal rewards that add up to the exact entitlement within half a unit each, before they are cut to coins |
| RepeatedClaims.ManyClaimsOrOne | x/concentrated-liquidity/incentives.go:685-716 | n claims settle the decimal rewards one claim at the end would, within half a unit each |
| ClaimPayouts.StepPays | x/concentrated-liquidity/incentives.go:816-832 | a claim pays the whole coins of what was set aside and gained, a liquidity change sets the gain aside |
| ClaimPayouts.ClaimsPay | x/concentrated-liquidity/incentives.go:806-852 | over any mix of claims and liquidity changes, at any scaling factor, all that is gained is paid in coins or still set aside, but for less than one coin per claim |
| ClaimPayouts.ManyPaymentsOrOne | x/concentrated-liquidity/incentives.go:806-852 | n claims, fewer than 2 * 10^18, pay at most one coin more and at most n coins less than one claim at the end |
| ClaimPayouts.SmallClaimsPayNothing | x/concentrated-liquidity/incentives.go:820-832 | claims worth less than a coin each pay nothing, however many |
| TickLiquidity.PutAgree | x/concentrated-liquidity/tick.go:25-59 | opening or resizing a position keeps every tick's gross and net liquidity the sums over the positions it bounds |
| TickLiquidity.DropAgree | x/concentrated-liquidity/tick.go:25-59 | so does closing one |
| TickLiquidity.EmptyIffUnused | x/concentrated-liquidity/tick.go:52-55 | a tick is flagged as empty if and only if no position is bounded by it |
| TickLiquidity.CleanOK | x/concentrated-liquidity/lp.go:336-342 | after the flagged bounds are removed exactly the ticks in use are initialised |
| TickLiquidity.CrossedLiquidity | x/concentrated-liquidity/swaps.go:744-754 | crossing a tick upward adds its net liquidity to the liquidity in range |
| TickLiquidity.UncrossedLiquidity | x/concentrated-liquidity/swaps.go:510-518 | a move past no tick in use leaves the liquidity in range as it is |
| UptimeActs.RaiseKeeps | x/concentrated-liquidity/incentives.go:222-223 | an accrual keeps an accumulator good and is owed exactly once per unit of liquidity in range |
| UptimeActs.ReturnKeeps | x/concentrated-liquidity/incentives.go:900-920 | redeposited coins are owed again, never more than they were and short by less than a unit per liquidity |
| UptimeActs.ChangeKeeps | x/concentrated-liquidity/incentives.go:655-672 | a partial or full withdrawal right after a claim changes nothing that is owed and leaves nothing unclaimed |
| UptimeActs.TakeKeeps | x/concentrated-liquidity/incentives.go:685-716 | a claim's whole coins and what is owed after it are what was owed before, within half a unit and less than one scaled coin dropped |
| UptimeActs.TakeLeavesIdle | x/concentrated-liquidity/incentives.go:685-716 | a claim leaves the position owed nothing |
| UptimeActs.MagnifyKeeps | x/concentrated-liquidity/pool.go:450-522 | the migration keeps an accumulator good and multiplies what it owes by exactly the factor |
| IncentiveSteps.KeptRemaining | x/concentrated-liquidity/incentives.go:404-436 | dropping exhausted records loses nothing that remains |
| IncentiveSteps.SyncKeeps | x/concentrated-liquidity/incentives.go:175-243 | syncing to now succeeds, keeps the pool's invariant, and adds what the records lose, short by at most one liquidity per emitting record |
| IncentiveOps.DescaledIs | x/concentrated-liquidity/incentives.go:361-363 | scaling down is the whole part of the amount over the factor |
| IncentiveOps.PayoutBelow | x/concentrated-liquidity/incentives.go:810-852 | what is paid times the factor is the scaled coins it stands for, less than a coin short in each accumulator |
| IncentiveOps.ChosenTotals | x/concentrated-liquidity/incentives.go:835-851 | every accumulator's coins are either forfeited or paid |
| IncentiveOps.CollectingKeeps | x/concentrated-liquidity/incentives.go:939-990 | but for decimal overflow a claim by a live position never fails; it keeps the invariant, and payout, forfeits and what is owed after it balance what was owed and debited, but for less than a coin per accumulator |
| IncentiveOps.CollectingIdle | x/concentrated-liquidity/incentives.go:939-990 | it leaves the position with nothing to claim in any accumulator |
| IncentiveOps.LeftTicks | x/concentrated-liquidity/lp.go:280-342 | after a withdrawal the ticks are those in use, with the right sums |
| IncentiveOps.ReturnAll | x/concentrated-liquidity/incentives.go:869-923 | redepositing over all accumulators adds what was forfeited, short by at most one liquidity each, and nothing without liquidity in range |
| IncentiveKeeps.WithdrawingKeeps | x/concentrated-liquidity/lp.go:224-375 | but for decimal overflow a withdrawal by a live position never fails; it keeps the invariant, and payout, refund and redeposit balance what was owed and debited, but for named losses |
| IncentiveKeeps.CreatingKeeps | x/concentrated-liquidity/incentives.go:1003-1094 | creating an incentive keeps the invariant and adds exactly the deposit to what remains |
| IncentiveKeeps.JoiningKeeps | x/concentrated-liquidity/lp.go:49-204 | but for decimal overflow a new position never fails; it keeps the invariant and is owed nothing yet |
| IncentiveKeeps.TurnedLiquidity | x/concentrated-liquidity/swaps.go:744-754 | the pool's liquidity after a crossing is again what is in range, in either direction |
| IncentiveKeeps.CrossingKeeps | x/concentrated-liquidity/swaps.go:714-757 | but for decimal overflow crossing the next initialised tick never fails; it keeps the invariant and what is owed |
| IncentiveKeeps.MovingKeeps | x/concentrated-liquidity/swaps.go:510-518 | a swap that stays between ticks keeps the invariant |
| IncentiveKeeps.MigratingKeeps | x/concentrated-liquidity/pool.go:450-522 | but for decimal overflow the migration never fails on a live pool; it keeps its invariant and multiplies what is owed by exactly the factor |
| Solvency.StepSound | x/concentrated-liquidity/incentives.go:175-1094 | every operation, in any order, keeps the pool's invariant and balanced books |
| Solvency.RunSound | x/concentrated-liquidity/incentives.go:175-1094 | so does every run from a new pool |
| Solvency.RunAccounted | x/concentrated-liquidity/incentives.go:175-1094 | over every run per denomination, what was deposited and does not remain was paid, is still owed, or is one of the named losses, within half a unit per settlement in both directions; and no live position has unclaimed rewards |
| Solvency.RunSolvent | x/concentrated-liquidity/incentives.go:175-1094 | over every run per denomination payments exceed deposits minus what remains by at most half a unit per settlement; on scaled pools with fewer than 2 * 10^27 settlements not at all |
| Solvency.RunRewardsFit | osmoutils/accum/accum_helpers.go:37-45 | after every run the reward a claim computes is bounded by the deposits times the factor, so that below 2^315 its multiplication does not overflow |
| IncentiveKeeper.Keeper.constructor | x/concentrated-liquidity/incentives.go:37-46 | a new pool's accumulators |
| IncentiveKeeper.Keeper.SetIncentiveRecords | x/concentrated-liquidity/incentives.go:428-436 | stores exactly the records with something left |
| IncentiveKeeper.Keeper.EmitToAccumulators | x/concentrated-liquidity/incentives.go:212-228 | the loop raises every accumulator by what the records, debited so far, emit to it |
| IncentiveKeeper.Keeper.UpdateToNow | x/concentrated-liquidity/incentives.go:175-243 | the pool becomes its synced self, or stays as it is if time went backwards |
| ClaimRules.ClaimPays | x/concentrated-liquidity/incentives.go:806-852 | a claim pays the whole coins over the factor of what was earned in the accumulators whose time the position has reached, and forfeits the scaled coins of the others; the six times are given in nanoseconds |
| ClaimRules.ClaimLeaves | x/concentrated-liquidity/incentives.go:685-716 | it leaves the position's records at the growth inside its range with nothing unclaimed, and the rest of the synced pool as it is |
| ClaimRules.OldForfeitNothing | x/concentrated-liquidity/incentives.go:836-849 | a position of fourteen days forfeits nothing, and one that claims as it joins is paid nothing |
| ClaimRules.WithdrawWhen | x/concentrated-liquidity/lp.go:224-375 | exactly when a withdrawal succeeds, decimal overflow aside |
| ClaimRules.WithdrawPays | x/concentrated-liquidity/lp.go:224-375 | a withdrawal pays what a claim pays, and refunds what is forfeited exactly if less than one unit of liquidity stays in range |
| ClaimRules.WithdrawReturns | x/concentrated-liquidity/incentives.go:869-923 | otherwise every accumulator rises by the forfeited coins over that liquidity |
| ClaimRules.WithdrawLeaves | x/concentrated-liquidity/lp.go:280-342 | what it makes of the position, the liquidity in range, the tick and the records |
| ClaimRules.JoinWhen | x/concentrated-liquidity/lp.go:49-204 | exactly when a position joins, decimal overflow aside |
| ClaimRules.JoinStores | x/concentrated-liquidity/lp.go:49-204 | the position is stored with its range, liquidity and time; the first one sets the tick |
| PositionRuns.PositionsComeFrom | x/concentrated-liquidity/incentives.go:770-783 | in every run the age of a live position counts from the operation that created it, and its range is the one it was created with |
| PoolRules.CrossMoves | x/concentrated-liquidity/swaps.go:714-757 | exactly when a tick is crossed, where the swap ends, and what the liquidity becomes, decimal overflow aside |
| PoolRules.CrossTurns | x/concentrated-liquidity/tick.go:68-97 | in every accumulator the growth tracked at that tick turns to the other side, and nothing else changes |
| PoolRules.MovesWithin | x/concentrated-liquidity/swaps.go:510-518 | a move succeeds exactly if it passes no initialised tick |
| PoolRules.MigratesOnce | x/concentrated-liquidity/pool.go:450-522 | a pool migrates exactly if it is not scaled, decimal overflow aside, and its factor is then 10^27 |
| PoolRules.MigratesAll | x/concentrated-liquidity/pool.go:450-522 | values, trackers and snapshots are multiplied by 10^27; shares and unclaimed rewards stay |
| IncentiveKeeper.TakeFrom | x/concentrated-liquidity/incentives.go:813-824 | one accumulator's part of a claim, its errors, and the skip of an accumulator without the position |
| IncentiveKeeper.Keeper.TakeFromAccumulators | x/concentrated-liquidity/incentives.go:806-852 | the loop claims from every accumulator and sorts the coins into paid, refundable and forfeited, and fails exactly if one of them fails |
| IncentiveKeeper.Keeper.RedepositForfeited | x/concentrated-liquidity/incentives.go:869-923 | the loop gives the forfeited coins back to the accumulators, or reports that the owner is refunded |
| IncentiveKeeper.Keeper.CollectIncentives | x/concentrated-liquidity/incentives.go:939-990 | the result is the claim's receipt, and a failure changes nothing; on a live pool, decimal overflow aside, it succeeds exactly for a known position at a time not before the last update or its start |
| IncentiveKeeper.Keeper.CreateIncentive | x/concentrated-liquidity/incentives.go:1003-1094 | adds the record to the synced pool, or changes nothing on an error |
| IncentiveKeeper.ClaimWhen | x/concentrated-liquidity/incentives.go:939-990 | exactly when a claim succeeds on a live pool, decimal overflow aside |
| Migration.UpExact | x/concentrated-liquidity/pool.go:469-490 | multiplying by the scaling factor truncates nothing, for amounts of either sign |
| Migration.MigratedGrowth | x/concentrated-liquidity/pool.go:450-522 | every range's growth inside is multiplied by exactly 10^27 |
| Migration.MigratedStake | x/concentrated-liquidity/pool.go:475-498 | every position's snapshot and accrued growth are multiplied by exactly 10^27 |
| Migration.MigratedInv | x/concentrated-liquidity/pool.go:450-522 | the migration keeps each accumulator's invariant |
| Migration.MigratedClaim | x/concentrated-liquidity/pool.go:475-498 | a position's claim is multiplied by exactly the factor, but for what it has unclaimed |
| Migration.MigratedOwed | x/concentrated-liquidity/pool.go:450-522 | without unclaimed rewards what is owed is multiplied by exactly the factor |
| Migration.MigratedSettles | osmoutils/accum/accum_helpers.go:37-45 | after the migration settling rounds nothing |
| Migration.MigratePositions | x/concentrated-liquidity/pool.go:475-498 | the loop over positions multiplies exactly the named snapshots and fails exactly if one is missing |
| Migration.MigrateTrackers | x/concentrated-liquidity/pool.go:502-517 | the loop over ticks multiplies every tracker once |
| Migration.MigrateUptime | x/concentrated-liquidity/pool.go:450-522 | the whole migration of one accumulator |
| MigrationPayout.PayoutsAre | x/concentrated-liquidity/incentives.go:361-363 | the exact payouts before and after the migration of any accumulator; unclaimed rewards are not multiplied |
| MigrationPayout.MigrationPayout | x/concentrated-liquidity/pool.go:450-522 | after every run, for every live position and accumulator, the payout right after a migration is the exact floor of the reward, equal to or one coin below the payout before it |
| FixedPoint.RoundNear | osmomath/decimal.go:798-828 | rounding half to even is off by at most half a unit |
| FixedPoint.RoundMono | osmomath/decimal.go:798-828 | and never reorders, for values of either sign |
| FixedPoint.RoundExact | osmomath/decimal.go:798-828 | and keeps multiples of the unit |
| Decimals.MulMonotone | osmomath/decimal.go:345-351 | products of non-negative decimals are never reordered, and overflow no earlier for the smaller |
| Decimals.MulWhole | osmomath/decimal.go:345-351 | products of whole numbers are exact unless they overflow |
| Logarithm.LogBase2 | osmomath/decimal.go:1125-1169 | the loops compute the logarithm function, with the mantissa in [1, 2) throughout; a non-positive argument panics |
| Logarithm.Normalise | osmomath/decimal.go:1140-1151 | the two shifting loops find the exponent and the mantissa |
| Logarithm.Normalises | osmomath/decimal.go:1140-1151 | the exponent is the n with 2^n <= x < 2^(n+1), negative ones included, and the mantissa is in [1, 2) |
| Logarithm.MantissaInRange | osmomath/decimal.go:1161-1168 | the mantissa stays in [1, 2) through every iteration |
| Logarithm.DigitsMonotone | osmomath/decimal.go:1161-1168 | a larger mantissa yields no smaller digits although every squaring rounds and every shift truncates |
| Logarithm.Log2Whole | osmomath/decimal.go:1125-1169 | the whole part of the result is exactly the integer part of the logarithm |
| LogarithmAccuracy.DigitsAccurate | osmomath/decimal.go:1160-1167 | with n the digits found in k iterations from a mantissa r, 2^n <= r^(2^k) < 2^(n+1) but for a factor of half a last decimal more, and three halves less, in every squaring |
| LogarithmAccuracy.FractionIsDigits | osmomath/decimal.go:1153-1167 | the fraction of the result is those digits over 2^300, cut by at most one last decimal per iteration |
| LogarithmPromise.LogarithmAccurate | osmomath/decimal.go:1120-1169 | for every positive decimal the result is at most one last decimal above its binary logarithm and at most 307 below it, within the 32 digits promised |
| Logarithm.Log2Monotone | osmomath/decimal.go:1125-1169 | the logarithm never reorders positive decimals |
| Logarithm.Log2OfPower | osmomath/decimal.go:1125-1169 | powers of two have exact logarithms |
| Power.PowerIntegerMut | osmomath/decimal.go:1217-1237 | the in-place loop computes the power function and returns its receiver, except for the zeroth power |
| Power.PowerInteger | osmomath/decimal.go:1209-1212 | the same on a clone |
| Power.PowerMonotone | osmomath/decimal.go:1217-1237 | powers of non-negative decimals are never reordered, for every exponent, where the larger does not overflow |
| Power.PowerExact | osmomath/decimal.go:1217-1237 | on whole numbers of either sign the power is the exact n-fold product, and from n = 2 on overflows if and only if that product does |
| PowerAccuracy.ProductNear | osmomath/decimal.go:345-351 | a product is within half a last decimal of the exact one, and overflows exactly from half a unit before 2^1144 on |
| PowerAccuracy.PowerNear | osmomath/decimal.go:1217-1237 | from one on, the n-th power is the exact n-fold product but for n factors of at most half a last decimal |
| PowerAccuracy.PowerClose | osmomath/decimal.go:1217-1237 | up to one no power overflows, and it is within n/2 last decimals of the exact n-fold product |
| PowerAccuracy.PowerSigns | osmomath/decimal.go:1217-1237 | powers of negative decimals are those of their absolute values, with the sign of the exponent's parity |
| SquareRoot.SqrtMut | osmomath/sqrt.go:24-53 | overwrites a non-negative decimal with the least root, and fails on negative ones without changing them |
| SquareRoot.MonotonicSqrtMut | osmomath/sqrt.go:24-53 | the least 18-digit decimal whose square is at least the argument |
| SquareRoot.MonotonicSqrtBigDecMut | osmomath/sqrt.go:59-88 | the least 36-digit decimal whose square is at least the argument |
| SquareRoot.MonotonicSqrt | osmomath/sqrt.go:20-22 | the same without touching the argument |
| SquareRoot.RootMonotone | osmomath/sqrt.go:15-22 | roots are never reordered |
| SquareRoot.RootExact | osmomath/sqrt.go:15-22 | representable squares have their exact root |
| SquareRoot.RootTight | osmomath/sqrt.go:15-22 | the square of the root reaches the argument and that of the decimal before it does not |
| BinarySearch.CompareAdditive | osmomath/binary_search.go:33-84 | with an additive tolerance alone the comparison is zero exactly when the difference is within it and the rounding direction is right, and otherwise the sign of the difference |
| BinarySearch.CompareExactly | osmomath/binary_search.go:33-84 | with any tolerances the comparison is zero exactly when direction, difference and quotient are right, and otherwise a sign |
| BinarySearch.QuotientNear | osmomath/binary_search.go:75-82 | that quotient is the difference over the lesser amount, within half a unit of 10^-18 and the truncation before it |
| BinarySearch.TooLarge | osmomath/binary_search.go:33-84 | what is rejected as too large stays rejected as too large when it grows, for amounts of either sign and multiplicative tolerances below 2, and for wider ones on one side of zero |
| BinarySearch.TooSmall | osmomath/binary_search.go:33-84 | the same for too small |
| BinarySearch.WideCrossing | osmomath/binary_search.go:33-84 | every multiplicative tolerance of 2 or more rejects an amount and accepts one farther away across zero |
| BinarySearch.FindInput | osmomath/binary_search.go:221-252 | the loop computes the search function and returns only inputs within tolerance |
| BinarySearch.SearchSound | osmomath/binary_search.go:221-252 | a result is within tolerance and lies between the first and the last input that can be tried: the bounds, but for a negative lower and a positive upper one |
| BinarySearch.SearchComplete | osmomath/binary_search.go:221-252 | for every range, non-decreasing error-free outputs and enough iterations, the search succeeds if and only if some input from the first to the last that can be tried is within tolerance |
| BinarySearch.BoundsMissed | osmomath/binary_search.go:235 | on every range with a negative lower or a positive upper bound, a search for what only that bound yields fails for ever |
| DecimalText.ToText | osmomath/decimal.go:612-662 | filling the byte buffer prints the decimal |
| DecimalText.FillBody | osmomath/decimal.go:628-655 | the digits with the point put in, purely fractional or mixed |
| DecimalText.RoundTrip | osmomath/decimal.go:198-249 | parsing a printed decimal gives it back if and only if its integer has at most 1024 bits; otherwise it is out of range |
| DecimalText.ParsesFraction | osmomath/decimal.go:215-248 | digits, a point and up to 36 digits are read as the number they denote |
| DecimalText.ParsesSign | osmomath/decimal.go:203-208 | a leading minus negates what follows |
| DecimalGrammar.ParsesExactly | osmomath/decimal.go:198-249 | exactly which texts without a minus in front are accepted, with and without a point, and what each stands for; and the error of every other text |
| DecimalGrammar.ParsesSigned | osmomath/decimal.go:199-213 | the empty text and a lone minus are errors, and a minus in front negates whatever follows |
| DecimalGrammar.PrintsPlainly | osmomath/decimal.go:612-662 | a printed decimal has a minus exactly if it is negative, no leading zero but a lone one, and 36 digits after the point |
| Limits.LimitsAre | osmomath/decimal.go:26-31 | the limits are 2^315, 2^1024 and 2^1144 |

## Left out

- `Tree.Remove`, `pull`, `merge`, `Clear`, iterators over leaves and the debug printers.
- SumTree.Tree.Set: requires that the counter can leave the top level it makes, without which the code never returns (RunEnds); the contract of a method cannot say that it does not return.
- SumTree.Tree.Increase: the same condition on the counter.
- SumTree.Tree.Decrease: the same condition on the counter.
- SumTree.Tree.UpdateAccumulation: requires that the counter can leave the top level (UpdateEnds), and says nothing about the store after a panic, which aborts the transaction.
- SumTree.Tree.Push: the same condition on the counter; says nothing about the store after a panic, which runs from a new tree never raise.
- SumTree.Tree.PushSplit: the same condition on the counter.
- SumTree.Tree.LeftSibling: a nil key, for which the source's iterator covers the whole level, is not modelled; no caller passes one to a level that has nodes.
- SumTreeCounter.LoopsNeverEnds: is about unbounded sums; on every turn the empty key takes up the total, so that a sum may in the end overflow and stop the walk with a panic.
- SumTreeRuns.FullTreeNeverReturns: is about unbounded sums, like LoopsNeverEnds.
- SumTreeLoops.LoopingRunNeverReturns: is about unbounded sums, like LoopsNeverEnds.
- SumTreeRuns.RunRefinesMap: is about unbounded sums; LightRunFits says below which values no sum of a run overflows.
- SumTreeOverflow.LightRunFits: gives a bound that suffices, not the exact one, and leaves out the sums that queries make.
- SumTree.Tree.PushRight: the same condition on the counter as Push.
- Accumulator.AccumulatorObject.constructor: requires an accumulator of that name to exist; GetAccumulator has the error.
- AccumulatorConservation.StepBalanced: is about non-negative share counts, like RunConserves.
- AccumulatorConservation.RunConserves: is about runs that open positions under fresh names with non-negative share counts and add non-negative amounts, as the callers do; OverwriteBreaksTotal says what a reused name does, and a negative share count earns negative rewards, which the coin library refuses to pay.
- Position options of the accumulator, which are always empty.
- Emission.PartitionEmitsNoMore: is about a record that has started and does not overflow; a record skipped by an overflow emits nothing.
- IncentiveKeeper.Keeper.CollectIncentives: ownership and decimal overflow are not modelled.
- IncentiveKeeper.Keeper.TakeFromAccumulators: says nothing about the accumulators after a failure, which CollectIncentives rolls back.
- IncentiveKeeper.Keeper.CreateIncentive: the sender's balance and governance's list of authorised uptimes are not modelled.
- CreateRules.CreateStores: the sender's balance and governance's list of authorised uptimes are not modelled.
- ClaimRules.WithdrawWhen: leaves out decimal overflow and ownership.
- ClaimRules.JoinWhen: leaves out decimal overflow and the token amounts.
- PoolRules.CrossMoves: leaves out decimal overflow.
- PoolRules.MigratesOnce: leaves out decimal overflow.
- IncentiveKeeper.ClaimWhen: leaves out decimal overflow, which RunRewardsFit excludes below its bound.
- IncentiveOps.CollectingKeeps: leaves out decimal overflow, like WithdrawingKeeps, JoiningKeeps and MigratingKeeps.
- IncentiveKeeps.WithdrawingKeeps: leaves out decimal overflow.
- IncentiveKeeps.JoiningKeeps: leaves out decimal overflow.
- IncentiveKeeps.CrossingKeeps: leaves out decimal overflow.
- IncentiveKeeps.MigratingKeeps: leaves out decimal overflow, in particular of the multiplied accumulator values.
- Solvency.RunAccounted: bounds what claims drop, and what updates and redeposits fall short, by counting them; only the forfeited coins are exact. A withdrawal's refund counts as a second fraction dropped per accumulator.
- Solvency.RunSolvent: counts each position's settlement in each accumulator, six for a claim or a withdrawal; settlements before a migration count 10^27 each.
- The order in which the store yields incentive records, which matters to no sum.
- Tick trackers are kept with each accumulator instead of each tick; a tick's six trackers are the entries of the six accumulators.
- Swap prices and amounts: a swap is a sequence of tick crossings and of moves between initialised ticks.
- Token amounts, minimum amounts, locks, ownership, hooks and the spread-reward accumulator of positions.
- Governance's list of authorised uptimes, a subset of the supported ones.
- Migration.MigrateUptime: requires that names and ticks are listed once each and that the ticks are the initialised ones, as the store iterators yield them.
- Migration of spread rewards, which repeats the incentives' on one accumulator.
- Overflow checks of the integers summed by the tree's class and its queries, of `LegacyDec` outside emission but for the bound of RunRewardsFit, and of additions in `osmomath`.
- Power.PowerIntegerMut: says nothing about the receiver after an overflow panic.
- `CompareBigDec`, `CompareDec` and `BinarySearchBigDec`, which repeat the modelled ones on other number types.
- BinarySearch.SearchComplete: with a multiplicative tolerance of 2 or more it is about outputs on the target's side of zero; WideCrossing shows that across it the comparison is not monotone for any such tolerance.
- `PowApprox`, `Exp2`, `SigFigRound`, `OrderOfMagnitude`, the round-up quotients, JSON and protobuf encodings.
- Telemetry, events, gas and queries.
