# SMAC3 run history and challenger list

This project models two pieces of SMAC3's core in Dafny and proves properties of them.

## RunHistory: the ledger of trials

The first piece is the ledger `RunHistory`. It is an insertion-ordered map from trial keys to trial values. A trial key is a configuration id, an instance, a seed and a budget. Beside the map it keeps:

- the bijection between configurations and their ids;
- the per-configuration index from instance-seed pairs to the budgets recorded for them;
- the three cost caches: average cost, minimum cost and number of trials;
- the per-objective bounds.

The files are split as follows:

- `trials.dfy` (module `TrialData`): the value types. These are trial keys and values, statuses, origins and cached cost values (`CostAgg`: NaN, a scalar or a vector).
- `aggregates.dfy` (module `Aggregates`): sums, means, minima and maxima, per objective, and the moving average.
- `budget_index.dfy` (module `BudgetIndex`): the instance-seed-to-budgets index.
  - It covers recording a budget, `get_trials` with and without the maximal-budget selection, and order-preserving de-duplication.
- `costs.dfy` (module `CostModel`): the cost lookup `_cost`, the aggregates over it, the moving-average step and the objective bounds.
- `ledger.dfy` (module `Ledgers`): the whole ledger as a value `Ledger<C>`, where `C` is the configuration type.
  - It holds the queries and the step functions `add`, `_add`, `update_cost` and `incremental_update_cost` as functions of the old ledger.
  - It holds the invariant `Valid` and the cache-agreement predicate `CachesAgree`, with the lemmas that these steps keep them.
- `bulk.dfy` (module `BulkUpdates`): `update_costs` and `update` as functions over the ledger, with their lemmas.
- `runhistory.dfy` (module `RunHistories`): the class `RunHistory`.
  - Its fields are the dictionaries of the source, and its methods update them in place.
  - Each method states its new state as the matching step function of `Ledgers` or `BulkUpdates` applied to the old state.
  - The read-only queries that loop are methods proved against their specification functions: `_cost`, `get_configs_per_budget` and `get_incumbent`.

## ChallengerList: the acquisition optimizer's iterator

The second piece is `ChallengerList` from the acquisition optimizer, in `challenger_list.dfy` (module `Challengers`). It is an iterator over the challengers that maximise the acquisition function.

- It fetches the list from a callback the first time an item or the length is needed.
- It walks the list with an index.
- It counts calls with a 1-based iteration counter.
- A random design can ask for a randomly sampled configuration, which is returned with origin "Random Search", in place of the next list item.

The class `ChallengerList` keeps the fields of the source and a ghost count of callback calls. Its methods are proved against the step function `Step`, and the lemmas about `Step` and `Run` (several calls in a row) state the iteration properties. `AcquisitionOptimizer.Maximize` models how `maximize` builds the list: it defaults `num_points`, builds the callback and advances the random design.

## Model

| member | source | states |
|---|---|---|
| RunHistories.RunHistory.constructor | smac/runhistory/runhistory.py:50-52 | a new run history is the empty ledger with the given overwrite flag, and it satisfies the invariant |
| RunHistories.RunHistory.Reset | smac/runhistory/runhistory.py:69-95 | after `reset` the state is the empty ledger: no trials, no configurations, ids restart at 0, no index, empty caches, objective count -1, no bounds; the overwrite flag is kept |
| Ledgers.EmptyLedgerValid | smac/runhistory/runhistory.py:69-95 | the reset ledger satisfies the invariant and the cache agreement, is empty, and has objective count -1 |
| RunHistories.RunHistory.RegisterConfig | smac/runhistory/runhistory.py:174-181 | the configuration is registered through `WithConfig` and its id is returned |
| Ledgers.WithConfig | smac/runhistory/runhistory.py:174-181 | a known configuration keeps its id and nothing changes; an unseen one gets id `_n_id + 1` and `_n_id` grows by one; every other configuration keeps its id |
| Ledgers.IdsWithConfig | smac/runhistory/runhistory.py:174-181 | registering a configuration keeps `config_ids` and `ids_config` mutual inverses over the ids 1 to `_n_id` |
| Ledgers.GetConfigs | smac/runhistory/runhistory.py:506-513 | `get_configs` lists each registered configuration exactly once, the one with id i at position i-1 (first-seen order) |
| RunHistories.RunHistory.FixObjectives | smac/runhistory/runhistory.py:183-189 | the first cost fixes the objective count; a later cost fits only when its length equals it, and otherwise nothing changes |
| RunHistories.RunHistory.Add | smac/runhistory/runhistory.py:127-235 | `add` changes the state exactly as `Ledgers.Added` says, and returns its outcome; an empty cost once the objective count is fixed is refused as a count mismatch |
| Ledgers.AddedOutcome | smac/runhistory/runhistory.py:183-235 | `add` refuses a cost of the wrong length, then a payload that is not serialisable, and ignores a recorded trial exactly when neither the ledger nor the caller asks to overwrite it |
| Ledgers.AddedWrites | smac/runhistory/runhistory.py:174-235 | `add` registers the configuration even when it then refuses the cost; the first cost fixes the objective count; the trial is written under the configuration's id exactly when it is inserted (or its indexing clashes), and the data is untouched otherwise |
| Ledgers.AddedIds | smac/runhistory/runhistory.py:174-181 | `add` changes the id map only by registering its configuration, and never changes the overwrite flag |
| Ledgers.AddedValid | smac/runhistory/runhistory.py:127-235 | `add` keeps the ledger invariant: the id bijection, the data listed once in insertion order, costs of the objective count, a sound index and well-shaped caches |
| Ledgers.AddedAgrees | smac/runhistory/runhistory.py:836-849 | `add` keeps every cached average cost and trial count equal to the value `update_cost` would recompute, unless the trial desyncs them: it re-writes an indexed trial without indexing it, or takes a moving-average step on an instance-seed pair already indexed |
| Ledgers.StoredOutcome | smac/runhistory/runhistory.py:230-235 | a recorded trial is ignored, and nothing changes, exactly when overwrite and force are both off; otherwise `_add` writes the value under its key and ends inserted or with the budget-type clash |
| RunHistories.RunHistory.AddTrial | smac/runhistory/runhistory.py:786-849 | `_add` changes the state exactly as `Ledgers.TrialAdded` says, and reports the budget-type clash |
| Ledgers.TrialAddedFrame | smac/runhistory/runhistory.py:794-808 | `_add` writes the value and the origin; a new key is appended to the order while a re-added key keeps its position; the bounds are recomputed; a running trial, or one of another origin, leaves the index and the caches unchanged |
| Ledgers.TrialAddedIndexes | smac/runhistory/runhistory.py:800-834 | `_add` raises the clash exactly when the trial is indexed and its budget type differs from the pair's budgets; otherwise a new pair, or an appended budget, makes the key indexed; no indexed trial is lost |
| Ledgers.TrialAddedAgrees | smac/runhistory/runhistory.py:836-849 | the caches after `_add` agree with a recomputation for a new trial that takes no moving-average step on a known pair, for an indexed trial indexed again, and for a trial that is neither indexed nor indexed again |
| Ledgers.ReindexedAgrees | smac/runhistory/runhistory.py:846-849 | re-adding an indexed trial as a completed internal or same-instance trial with overwriting on, or a budget other than 0, recomputes the cost and count of its configuration, which then agree again |
| Ledgers.WithTrialAgreesExcept | smac/runhistory/runhistory.py:794 | writing a trial leaves the caches of every other configuration in agreement with a recomputation |
| Ledgers.StepOnKnownPairMiscounts | smac/runhistory/runhistory.py:836-845 | a moving-average step for a float budget on a known pair with float budgets adds one to a trial count that was the number of pairs, and leaves the number of pairs as it was |
| Ledgers.SteppedOnKnownPairDisagrees | smac/runhistory/runhistory.py:820-845 | as written, `_add` of a budget-0 trial on an instance-seed pair already indexed, whenever recording its budget does not clash, leaves the caches disagreeing with a recomputation: the step counts one more trial while the number of pairs stays |
| Ledgers.FloatPairStepDisagrees | smac/runhistory/runhistory.py:826-845 | as written, the step on a known pair whose budgets are floats appends 0.0 without a clash and breaks cache agreement |
| Ledgers.SeedZeroStepDisagrees | smac/runhistory/runhistory.py:825-845 | as written, on seed 0 the budget 0.0 equals the seed, so the guard skips both the append and the kind check, even for `None` budgets, and the step still breaks cache agreement |
| BudgetIndex.RecordOnKnownPairKeepsLength | smac/runhistory/runhistory.py:821-834 | recording on a known pair without a clash never adds a pair |
| Ledgers.UnindexedRewriteDisagrees | smac/runhistory/runhistory.py:794-808 | as written, re-adding the only trial of a single-objective configuration with a new cost, as running or from a run on other instances, leaves the caches disagreeing with a recomputation |
| Ledgers.TrialAddedRecomputedAgrees | smac/runhistory/runhistory.py:786-849 | with every cache update of `_add` a recomputation, the caches agree with a recomputation after any trial, status and origin |
| BudgetIndex.RecordListedTrial | smac/runhistory/runhistory.py:820-834 | recording the budget of a trial already listed finds its pair and never raises the budget-type error |
| BudgetIndex.RecordFloatOnKnownPair | smac/runhistory/runhistory.py:820-834 | recording a float budget on a known pair with float budgets never raises and keeps the number of pairs |
| RunHistories.CollectSuccessCosts | smac/runhistory/runhistory.py:763-771 | the loop of `_update_objective_bounds` collects the costs of exactly the successful trials, in insertion order |
| RunHistories.RunHistory.UpdateObjectiveBounds | smac/runhistory/runhistory.py:761-784 | `_update_objective_bounds` sets the bounds to the per-objective minimum and maximum over the successful trials, and changes nothing else |
| Ledgers.BoundsOfEnclose | smac/runhistory/runhistory.py:761-784 | there is one bound per objective; each encloses every successful trial's cost; with no successful trial every bound is unbounded |
| CostModel.BoundsEnclose | smac/runhistory/runhistory.py:772-784 | each bound is attained by some successful cost at its low and at its high end, and encloses all of them |
| BudgetIndex.RecordSpec | smac/runhistory/runhistory.py:820-834 | recording a budget clashes exactly when the pair is known, the budget would be appended and its type differs; a new pair gets the budget; a known pair appends it unless it equals the instance or the seed; no other pair changes |
| BudgetIndex.ZeroBudgetOnSeedZeroNotAppended | smac/runhistory/runhistory.py:825 | budget 0.0 on a known pair with seed 0 is not appended, because 0.0 equals the seed |
| RunHistories.RunHistory.IncrementalUpdateCost | smac/runhistory/runhistory.py:256-283 | the cached cost becomes the moving average `(old*n + cost)/(n+1)`, from 0 when nothing is cached, and the count becomes n+1; an unknown configuration changes nothing |
| CostModel.IncrementalCostIsAverage | smac/runhistory/runhistory.py:256-283 | the moving-average step applied to the mean of n cost rows gives the mean of the n+1 rows |
| Aggregates.MovingAverageOfMeanPerObjective | smac/runhistory/runhistory.py:267-275 | per objective, the moving average of the mean of n rows and one more row is the mean of the n+1 rows |
| Aggregates.RunningMeanIsMean | smac/runhistory/runhistory.py:277-283 | moving averages applied one cost at a time, from 0, end at the mean |
| CostModel.IncrementalStepAgrees | smac/runhistory/runhistory.py:838-845 | on a new instance-seed pair with budget 0, the incremental update keeps the cache equal to the average over the maximal-budget trials |
| RunHistories.RunHistory.UpdateCost | smac/runhistory/runhistory.py:237-254 | `update_cost` recomputes the configuration's average over its maximal-budget trials, their count, and the minimum over all its trials; an unknown configuration changes nothing |
| CostModel.RecomputedAgrees | smac/runhistory/runhistory.py:237-254 | the recomputed cache and count agree with the average and the number of the maximal-budget trials |
| RunHistories.RunHistory.UpdateCosts | smac/runhistory/runhistory.py:723-743 | `update_costs` clears the average and count caches and recomputes both, with the minimum, for every configuration with trials on the given instances |
| BulkUpdates.CostsUpdatedAt | smac/runhistory/runhistory.py:723-743 | after `update_costs`, a configuration with selected trials caches their average, their minimum and their number; one without selected trials has no average or count and keeps its old minimum |
| BulkUpdates.CostsUpdatedAgree | smac/runhistory/runhistory.py:723-743 | with no instance filter, `update_costs` leaves caches that agree with a recomputation |
| BulkUpdates.CostsUpdatedValid | smac/runhistory/runhistory.py:723-743 | `update_costs` keeps the ledger invariant |
| BulkUpdates.SelectedKeys | smac/runhistory/runhistory.py:735-738 | the selected keys are maximal-budget trials of the configuration, and with an instance list only those on a listed instance |
| RunHistories.RunHistory.Update | smac/runhistory/runhistory.py:688-721 | `update` replays every trial of the other run history through `add`, in its order, and stops at the first error; the invariant is kept |
| BulkUpdates.MergedRecords | smac/runhistory/runhistory.py:688-721 | after an `update` that raised nothing, every configuration keeps its id, every trial is still recorded, and every trial of the other run history is recorded under its configuration's id in this one, with the other's value unless this one already held that trial and does not overwrite |
| BulkUpdates.MergedObjectivesFit | smac/runhistory/runhistory.py:688-721 | when the objective counts fit, `update` never raises the objective-count error |
| BulkUpdates.Merged | smac/runhistory/runhistory.py:688-721 | `update` keeps the invariant, and the only errors it can raise are the objective-count error and the budget-type clash |
| RunHistories.RunHistory.GetTrials | smac/runhistory/runhistory.py:472-504 | the method returns `Ledgers.GetTrials` of the current state |
| Ledgers.GetTrials | smac/runhistory/runhistory.py:472-504 | `get_trials` returns recorded trials of the configuration, none for an unknown one; with the maximal-budget selection it returns one distinct trial per instance-seed pair |
| BudgetIndex.MaxTrialsOnePerPair | smac/runhistory/runhistory.py:490-504 | the maximal-budget selection yields, pair by pair in order, the pair with its maximal observed budget |
| BudgetIndex.MaxObservedBudget | smac/runhistory/runhistory.py:493-497 | the selected budget is None exactly when None was recorded, and otherwise the largest recorded budget |
| BudgetIndex.AllTrialsViaBudgetsOf | smac/runhistory/runhistory.py:502-504 | without the selection, a trial is returned exactly when its budget is recorded for its pair |
| BudgetIndex.Dedupe | smac/runhistory/runhistory.py:249 | `dict.fromkeys` keeps the same elements, each once |
| BudgetIndex.DedupeKeepsFirstOrder | smac/runhistory/runhistory.py:249 | `dict.fromkeys` keeps the order of first occurrences: of two elements of the result, the earlier one first occurs earlier in the input |
| BudgetIndex.DedupeOfDistinct | smac/runhistory/runhistory.py:735-736 | de-duplication leaves a list without repeats unchanged |
| RunHistories.RunHistory.Cost | smac/runhistory/runhistory.py:851-890 | the method returns `Ledgers.Cost` of the current state |
| RunHistories.LookupCosts | smac/runhistory/runhistory.py:880-890 | the loop returns the costs of the given keys, or the first key that is missing from the data |
| CostModel.CostsOf | smac/runhistory/runhistory.py:880-890 | the lookup succeeds exactly when every key is recorded, and then lists their costs in order; a missing key is one of the given keys and is not recorded |
| Ledgers.Cost | smac/runhistory/runhistory.py:851-890 | `_cost` gives no costs for an unknown configuration, the costs of the maximal-budget trials when no keys are given, and fails exactly when a given key is not recorded |
| Ledgers.AverageCost | smac/runhistory/runhistory.py:342-383 | `average_cost` raises exactly when the lookup does; it is NaN exactly when there are no costs, and has the objective count's shape |
| Ledgers.SumCost | smac/runhistory/runhistory.py:385-425 | `sum_cost` raises exactly when the lookup does; it is never NaN, and is 0 when there are no costs |
| Ledgers.MinCost | smac/runhistory/runhistory.py:427-470 | `min_cost` raises exactly when the lookup does; it is NaN exactly when there are no costs, and has the objective count's shape |
| Ledgers.CostQueriesConsistent | smac/runhistory/runhistory.py:342-470 | the three queries fail together; with costs, the minimum is at most the average and the sum is the count times the average, per objective |
| Aggregates.MeanBetweenMinAndMax | smac/runhistory/runhistory.py:376-470 | the mean of a non-empty list lies between its minimum and maximum |
| Aggregates.PerObjectiveBounds | smac/runhistory/runhistory.py:778-779 | for one objective, the minimum and maximum over the rows enclose every row's cost and are each attained by some row |
| Ledgers.GetCost | smac/runhistory/runhistory.py:285-312 | `get_cost` (one objective) is NaN for an unknown or uncached configuration, and otherwise a scalar |
| Ledgers.GetCostIsAverage | smac/runhistory/runhistory.py:285-312 | when the caches agree, `get_cost` equals `average_cost` over the maximal-budget trials |
| Ledgers.GetMinCost | smac/runhistory/runhistory.py:314-340 | `get_min_cost` (one objective) is NaN for an unknown or uncached configuration, and otherwise a scalar |
| RunHistories.RunHistory.GetConfigsPerBudget | smac/runhistory/runhistory.py:515-537 | with no subset, all configurations; with one, the configuration of every trial whose budget is in the subset, in trial order and with repeats |
| RunHistories.TrialsOnBudgets | smac/runhistory/runhistory.py:533-535 | the trials kept are exactly those whose budget is in the subset |
| RunHistories.RunHistory.GetIncumbent | smac/runhistory/runhistory.py:539-549 | the incumbent is None exactly when no configuration has a cached cost; otherwise it is a registered configuration whose cost is lowest and strictly lower than that of every configuration registered before it |
| RunHistories.FirstLowest | smac/runhistory/runhistory.py:542-549 | the scan returns None exactly when no entry is a number; otherwise the first entry of least value |
| RunHistories.IncumbentOfFirstLowest | smac/runhistory/runhistory.py:539-549 | the first lowest entry of the costs in `get_configs` order is the incumbent |
| Ledgers.Len | smac/runhistory/runhistory.py:109-111 | `len` is the number of trials, each listed once in insertion order |
| Ledgers.EmptyIffNoTrial | smac/runhistory/runhistory.py:97-125 | the ledger is empty exactly when it lists no trial, and then contains no key |
| Ledgers.EqualSameTrials | smac/runhistory/runhistory.py:113-115 | equal run histories have the same length and contain the same keys |
| Challengers.ChallengerList.constructor | smac/acquisition/abstract_acqusition_optimizer.py:171-183 | a new list has nothing fetched, index 0 and iteration 1, and the callback has not run |
| Challengers.ChallengerList.Next | smac/acquisition/abstract_acqusition_optimizer.py:185-204 | `__next__` moves the state and returns the draw exactly as `Step` does for the design's answer, and the callback has run at most once, exactly when the list was fetched |
| Challengers.StepSpec | smac/acquisition/abstract_acqusition_optimizer.py:185-204 | one call stops exactly when the fetched list is used up; it returns a random configuration tagged "Random Search" exactly when the design asks for one; the index grows by one exactly for a list item, which is the list's next element; the iteration grows by one exactly when a design is present and a configuration is returned |
| Challengers.RunKeepsListOrder | smac/acquisition/abstract_acqusition_optimizer.py:185-204 | over any number of calls and any design answers, the list items returned are the callback's list from the start index to the final one, in order, none skipped or repeated |
| Challengers.WithoutDesignInOrder | smac/acquisition/abstract_acqusition_optimizer.py:186-193 | without a design, the first n calls on a new list return the list's first n elements in order |
| Challengers.RunThenStep | smac/acquisition/abstract_acqusition_optimizer.py:185-204 | running a list of calls and then one more call is one `Step` after the run of the list |
| Challengers.UsedUp | smac/acquisition/abstract_acqusition_optimizer.py:186-187 | once the fetched list is used up, every call raises StopIteration and changes nothing |
| Challengers.ChallengerList.Len | smac/acquisition/abstract_acqusition_optimizer.py:206-209 | `__len__` fetches the list if needed and returns the number of list items not yet returned |
| Challengers.Length | smac/acquisition/abstract_acqusition_optimizer.py:206-209 | the length is the list's size minus the index, never negative, and the list is fetched afterwards |
| Challengers.LengthShrinks | smac/acquisition/abstract_acqusition_optimizer.py:185-209 | each call returning a list item shortens the length by one; a random configuration leaves it unchanged |
| Challengers.RandomDesign.NextIteration | smac/acquisition/abstract_acqusition_optimizer.py:96-97 | `next_iteration` advances the design by one step |
| Challengers.AcquisitionOptimizer.Default | smac/acquisition/abstract_acqusition_optimizer.py:40-49 | an optimizer built without a `challengers` argument asks for 5000 points by default |
| Challengers.AcquisitionOptimizer.Maximize | smac/acquisition/abstract_acqusition_optimizer.py:87-99 | `maximize` returns a new list whose callback yields the configurations `_maximize` ranks for `num_points`, or for the optimizer's default when it is None; a given design is advanced exactly once |

## Left out

- JSON serialisability (`_check_json_serializable`, runhistory.py:745-759) is a boolean parameter `serializable` of `Add`, because it wraps `json.dumps`. `Update` passes `true`, since the other run history's entries already passed the check when they were added there.
- `save_json`, `load_json` and `update_from_json` are file I/O and are not part of this model.
- `normalize_costs` comes from a module that is not part of this model. Its multi-objective paths are left out.
- Ledgers.GetCost: models only the single-objective path, because the multi-objective path calls `normalize_costs`.
- Ledgers.GetMinCost: models only the single-objective path, for the same reason.
- RunHistories.RunHistory.GetIncumbent: requires at most one objective, because it ranks by `get_cost`.
- Ledgers.AverageCost, Ledgers.SumCost and Ledgers.MinCost: the `normalize` flag is not modelled; they return the raw per-objective value.
- Floating point: costs are `real`. NaN in a cache is the `Nan` value of `CostAgg`. A reset ledger has no bounds (the empty sequence, as at runhistory.py:95). The (inf, -inf) bounds that `_update_objective_bounds` gives when a ledger holds trials but none succeeded are `Unbounded`. A cost of infinity is not representable, and neither are rounding effects.
- RunHistories.RunHistory.Add (with Ledgers.Added and its lemmas): an empty cost list is excluded only while the objective count is still unset. Once the count is fixed at n >= 1, an empty cost is refused as `ObjectiveCountMismatch`, as at runhistory.py:185-189. On a fresh run history the source accepts the empty cost. It sets `_n_objectives` to 0 and stores `[]` as the bounds. A RUNNING trial or one from a run on other instances then skips the cache block, and every later non-empty cost fails the objective-count check. An indexed trial fails inside the cache update instead: `update_cost`'s `np.min` raises on the zero-size array, or `incremental_update_cost`'s float assertion fails (runhistory.py:256-283). The model has no zero-objective state, so this path is left out.
- The `TypeError` for a `None` or non-`Configuration` config is ruled out by the Dafny type system.
- The instance-type check of `_add` (runhistory.py:814-819) tests the instance-seed key objects themselves, never their instances, so it can never raise. It is modelled as doing nothing.
- Ledgers.AddedAgrees: cache agreement with a recomputation is proved only when the predicate `Desyncs` is false. `Desyncs` holds in two cases. In the first, an indexed trial is written again without being indexed, because it is running or comes from a run on other instances. In the second, a budget-0 trial with overwriting off takes a moving-average step on an instance-seed pair that is already indexed. Disagreement follows whenever recording its budget does not clash: on a pair with float budgets, and on seed 0 whatever the pair's budgets. In both cases the source's caches can really differ from a recomputation; see "## Findings".
- BulkUpdates.CostsUpdatedAt: `update_costs` clears the average and count caches but not the minimum cache, so a configuration without selected trials keeps its old minimum. This is stated as the source does it.
- RunHistories.RunHistory.IncrementalUpdateCost and RunHistories.RunHistory.UpdateCost: the source raises `KeyError` for an unknown configuration. Here they return `known = false` and change nothing. `_add` only calls them for registered configurations.
- Logging is left out.
- `__getitem__` and `__iter__` are plain reads of the data map and its order. They are the fields `data` and `order` of the ledger.
- The trial's `time`, `starttime`, `endtime` and `additional_info` are carried opaquely in `TrialValue`; `additional_info` is a string.
- `_sort_configs_by_acq_value`, `FixedSet` and `_maximize` are left out: they use numpy sorting with random tie-breaks and an abstract optimizer. `_maximize` is the function parameter `ranked` of `Maximize`.
- Challengers.ChallengerList.Next: the configuration space's `sample_configuration` is the parameter `sample`, and the random design's `check` is the function `decide` of `RandomDesign`. Both are uninterpreted.
- The challenger callback's result is a fixed list, `callbackList`. The callback is lazy, and this is tracked by the ghost counter `callbackCalls`.
- Writing "Random Search" into the sampled configuration's `origin` attribute is modelled as the origin carried by the returned `Yield` draw.
- `ChallengerList`'s default random design `NoCoolDownRandomDesign(modulus=2.0)` is not part of this model. The design is always passed explicitly, and `None` means no design.
- `previous_configs`, passed through `maximize` to `_maximize`, is left out, because `_maximize` is uninterpreted.

## Findings

The ledger model keeps `_add` as the source writes it. `Ledgers.WithTrialRecomputed` is the corrected cache update: every update is a recomputation, and a re-written indexed trial is recomputed too.

| source | as written | input that shows it | evidently intended | confidence | as-written member | corrected member |
|---|---|---|---|---|---|---|
| smac/runhistory/runhistory.py:836-845 | with overwriting off, a budget-0 trial always takes the moving-average step, which counts one more trial | a configuration with one trial on pair (None, 1) at budget 5.0; then a trial on the same pair at budget 0.0: the count becomes 2, while `update_cost` would count one maximal-budget trial | the cached average cost and count equal what `update_cost` recomputes | not executed; medium | Ledgers.FloatPairStepDisagrees | Ledgers.TrialAddedRecomputedAgrees |
| smac/runhistory/runhistory.py:825-845 | on seed 0 the guard `k.budget != isk.seed` is false for budget 0.0, since `0.0 == 0`, so nothing is appended and the kind check is skipped; the moving-average step then still counts one more trial | a configuration with one trial on pair (None, 0) at budget None; then a trial on the same pair at budget 0.0: the count becomes 2 and the cost the mean of both costs, while `update_cost` would count the one maximal-budget trial and give its cost | the cached average cost and count equal what `update_cost` recomputes | not executed; medium | Ledgers.SeedZeroStepDisagrees | Ledgers.TrialAddedRecomputedAgrees |
| smac/runhistory/runhistory.py:794-808 | a trial is written to the data before the check that skips the index and the caches for a running trial or one from a run on other instances | a configuration whose only trial has cost 1.0; the same key added again with force, status RUNNING and cost 2.0: the cached cost stays 1.0 while `update_cost` would give 2.0 | the cached cost follows the written trial, or the written trial does not change an indexed one | not executed; low | Ledgers.UnindexedRewriteDisagrees | Ledgers.TrialAddedRecomputedAgrees |
