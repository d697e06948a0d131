/** The whole state of a run history as one value: the read-only queries on it, the state
    each mutating operation of the run history leads to, and what those operations
    preserve. */
module Ledgers {
  import opened TrialData
  import opened Aggregates
  import opened BudgetIndex
  import opened CostModel

  /** Result of `average_cost`, `sum_cost` and `min_cost`. */
  datatype Query = Answer(agg: CostAgg) | KeyError(key: TrialKey)

  /** How an `add` call ended. The last three are the `ValueError`s of the source. */
  datatype AddOutcome = Inserted | Ignored | ObjectiveCountMismatch | NotSerializable | BudgetTypeClash

  /** The fields of a run history. Trials are kept in insertion order (`order` lists the
      keys of `data`); configurations get ids 1, 2, ... in order of first appearance; the
      index lists, per configuration id, the budgets recorded per instance-seed pair for the
      trials that count towards its cost; the caches hold, per configuration id, its cost,
      its lowest cost and the number of trials behind the cost. */
  datatype Ledger<C(==,!new)> = Ledger(
    overwrite: bool,
    order: seq<TrialKey>,
    data: map<TrialKey, TrialValue>,
    external: map<TrialKey, DataOrigin>,
    index: map<nat, seq<IskEntry>>,
    configIds: map<C, nat>,
    idsConfig: map<nat, C>,
    nId: nat,
    cost: map<nat, CostAgg>,
    minCost: map<nat, CostAgg>,
    num: map<nat, nat>,
    nObjectives: int,
    bounds: seq<Bound>)

  /** Configurations and ids are in one-to-one correspondence, ids being 1 .. nId. */
  ghost predicate IdsBijective<C(!new)>(configIds: map<C, nat>, idsConfig: map<nat, C>, nId: nat)
  {
    && (forall id ::
          && (id in idsConfig <==> 1 <= id <= nId)
          && (id in idsConfig ==> idsConfig[id] in configIds && configIds[idsConfig[id]] == id))
    && (forall c :: c in configIds ==> configIds[c] in idsConfig && idsConfig[configIds[c]] == c)
  }

  /** `order` lists each recorded trial once; every trial has an origin and a known
      configuration. */
  ghost predicate DataOrdered<C(!new)>(order: seq<TrialKey>, data: map<TrialKey, TrialValue>,
                                       external: map<TrialKey, DataOrigin>, idsConfig: map<nat, C>)
  {
    && Distinct(order)
    && (forall k ::
          && (k in data <==> k in order)
          && (k in external <==> k in data)
          && (k in data ==> k.configId in idsConfig))
  }

  /** The objective count is unset (-1) or positive, and every cost has that many entries. */
  ghost predicate CostsShaped(data: map<TrialKey, TrialValue>, nObj: int)
  {
    && (nObj == -1 || nObj >= 1)
    && (forall k :: k in data ==> |data[k].cost| == nObj)
  }

  /** Every indexed trial is recorded. */
  ghost predicate IndexSound<C(!new)>(index: map<nat, seq<IskEntry>>, idsConfig: map<nat, C>,
                                      data: map<TrialKey, TrialValue>)
  {
    forall id :: id in index ==>
      && id in idsConfig
      && WellFormed(index[id])
      && (forall x :: x in Trials(index[id], false) ==> KeyOf(id, x) in data)
  }

  /** The caches belong to known configurations and have the objective count's shape. */
  ghost predicate CachesShaped<C(!new)>(cost: map<nat, CostAgg>, minCost: map<nat, CostAgg>, num: map<nat, nat>,
                                        idsConfig: map<nat, C>, nObj: int)
  {
    forall id ::
      && (id in cost ==> id in idsConfig && Shaped(cost[id], nObj))
      && (id in minCost ==> id in idsConfig && Shaped(minCost[id], nObj))
      && (id in num ==> id in idsConfig)
  }

  ghost predicate Valid<C(!new)>(L: Ledger<C>)
  {
    && IdsBijective(L.configIds, L.idsConfig, L.nId)
    && DataOrdered(L.order, L.data, L.external, L.idsConfig)
    && CostsShaped(L.data, L.nObjectives)
    && IndexSound(L.index, L.idsConfig, L.data)
    && CachesShaped(L.cost, L.minCost, L.num, L.idsConfig, L.nObjectives)
  }

  /** The index of configuration `id` (empty when it has none). */
  function IndexOf(index: map<nat, seq<IskEntry>>, id: nat): seq<IskEntry>
  {
    if id in index then index[id] else []
  }

  /** Every configuration's index is well formed and points at recorded trials. */
  lemma IndexedAt<C(!new)>(L: Ledger<C>, id: nat)
    requires IndexSound(L.index, L.idsConfig, L.data) && CostsShaped(L.data, L.nObjectives)
    ensures Indexed(L.data, IndexOf(L.index, id), id, L.nObjectives)
  {
  }

  /** The cost and count caches of every configuration agree with a recomputation from the
      recorded trials. */
  ghost predicate CachesAgree<C(!new)>(L: Ledger<C>)
  {
    CachesAgreeOn(L.idsConfig, L.data, L.index, L.cost, L.num, L.nObjectives)
  }

  ghost predicate CachesAgreeOn<C(!new)>(idsConfig: map<nat, C>, data: map<TrialKey, TrialValue>,
                                         index: map<nat, seq<IskEntry>>, cost: map<nat, CostAgg>,
                                         num: map<nat, nat>, nObj: int)
  {
    forall id :: id in idsConfig ==>
      AgreesAt(data, IndexOf(index, id), CachedCost(cost, id), CachedCount(num, id), nObj, id)
  }

  /** The caches of every configuration other than `id` agree with a recomputation. */
  ghost predicate CachesAgreeExcept<C(!new)>(L: Ledger<C>, id: nat)
  {
    forall j :: j in L.idsConfig && j != id ==>
      AgreesAt(L.data, IndexOf(L.index, j), CachedCost(L.cost, j), CachedCount(L.num, j), L.nObjectives, j)
  }

  /** The cached cost of configuration `id`, if any. */
  function CachedCost(cost: map<nat, CostAgg>, id: nat): Option<CostAgg>
  {
    if id in cost then Some(cost[id]) else None
  }

  /** The cached trial count of configuration `id`, if any. */
  function CachedCount(num: map<nat, nat>, id: nat): Option<nat>
  {
    if id in num then Some(num[id]) else None
  }

  /** The trial count `incremental_update_cost` starts from (0 when none is cached). */
  function NumTrials(num: map<nat, nat>, id: nat): nat
  {
    if id in num then num[id] else 0
  }

  /** The state after `reset`: no trial, no configuration, no cache, no objective count. */
  function EmptyLedger<C(==,!new)>(overwrite: bool): Ledger<C>
  {
    Ledger(overwrite, [], map[], map[], map[], map[], map[], 0, map[], map[], map[], -1, [])
  }

  /** The state after `reset` is valid, its caches agree, and it is empty. */
  lemma EmptyLedgerValid<C(!new)>(overwrite: bool)
    ensures var L := EmptyLedger<C>(overwrite);
      Valid(L) && CachesAgree(L) && Empty(L) && L.nObjectives == -1 && L.overwrite == overwrite
  {
  }

  /** `k in runhistory`. */
  predicate Contains<C(==,!new)>(L: Ledger<C>, k: TrialKey)
  {
    k in L.data
  }

  /** `len(runhistory)`: the number of recorded trials, each listed once in `order`. */
  function Len<C(==,!new)>(L: Ledger<C>): (n: nat)
    requires Valid(L)
    ensures n == |L.order|
  {
    DistinctLength(L.order, L.data);
    |L.data|
  }

  /** `empty()`. */
  predicate Empty<C(==,!new)>(L: Ledger<C>)
  {
    |L.data| == 0
  }

  /** A ledger is empty exactly when it lists no trial, and then contains none. */
  lemma EmptyIffNoTrial<C(!new)>(L: Ledger<C>, k: TrialKey)
    requires Valid(L)
    ensures Empty(L) ==> !Contains(L, k)
    ensures Empty(L) <==> L.order == []
  {
    DistinctLength(L.order, L.data);
  }

  /** `==`: the trials and their order coincide (the data is an ordered dictionary); the
      configurations, index and caches are not compared. */
  predicate Equal<C(==,!new)>(L: Ledger<C>, other: Ledger<C>)
  {
    L.order == other.order && L.data == other.data
  }

  lemma EqualSameTrials<C(!new)>(L: Ledger<C>, other: Ledger<C>)
    requires Valid(L) && Valid(other) && Equal(L, other)
    ensures Len(L) == Len(other)
    ensures forall k :: Contains(L, k) <==> Contains(other, k)
  {
  }

  /** `get_trials`: the trials of a configuration as instance-seed-budget keys, pair by
      pair: all recorded budgets, or only the maximal observed one per pair. */
  function GetTrials<C(==,!new)>(L: Ledger<C>, config: C, onlyMaxObservedBudget: bool): (r: seq<InstanceSeedBudgetKey>)
    requires Valid(L)
    ensures config !in L.configIds ==> r == []
    ensures config in L.configIds ==> forall x :: x in r ==> x in Trials(IndexOf(L.index, L.configIds[config]), false)
    ensures config in L.configIds ==> forall x :: x in r ==> KeyOf(L.configIds[config], x) in L.data
    ensures onlyMaxObservedBudget ==> Distinct(r)
    ensures onlyMaxObservedBudget && config in L.configIds ==> |r| == |IndexOf(L.index, L.configIds[config])|
  {
    if config !in L.configIds then []
    else
      var ix := IndexOf(L.index, L.configIds[config]);
      var r := Trials(ix, onlyMaxObservedBudget);
      if onlyMaxObservedBudget then
        MaxTrialsDistinct(ix);
        MaxTrialsOnePerPair(ix);
        assert forall x :: x in r ==> x in Trials(ix, false) by {
          forall x | x in r ensures x in Trials(ix, false) {
            MaxTrialsAreRecorded(ix, x);
          }
        }
        r
      else
        r
  }

  /** `get_configs`: every configuration once, in order of first appearance. */
  function GetConfigs<C(==,!new)>(L: Ledger<C>): (r: seq<C>)
    requires IdsBijective(L.configIds, L.idsConfig, L.nId)
    ensures Distinct(r)
    ensures forall c :: c in r <==> c in L.configIds
    ensures forall i :: 0 <= i < |r| ==> L.configIds[r[i]] == i + 1
  {
    var r := seq(L.nId, i requires 0 <= i < L.nId => L.idsConfig[i + 1]);
    assert forall c :: c in L.configIds ==> c in r by {
      forall c | c in L.configIds ensures c in r {
        assert r[L.configIds[c] - 1] == c;
      }
    }
    r
  }

  /** `_cost`: the costs recorded for the given keys of a configuration: nothing for an
      unknown configuration, the maximal-budget trials when no keys are given, and the first
      missing trial when one of the keys is not recorded. */
  function Cost<C(==,!new)>(L: Ledger<C>, config: C, keys: Option<seq<InstanceSeedBudgetKey>>): (r: CostLookup)
    requires Valid(L)
    ensures config !in L.configIds ==> r == Costs([])
    ensures r.Costs? ==> CostRows(r.rows, L.nObjectives)
    ensures keys.None? ==> r.Costs? && |r.rows| == |GetTrials(L, config, true)|
    ensures config in L.configIds && keys.Some? ==>
              (r.Costs? <==> forall x :: x in keys.value ==> KeyOf(L.configIds[config], x) in L.data)
    ensures r.MissingTrial? ==> keys.Some? && r.key !in L.data
  {
    if config !in L.configIds then Costs([])
    else
      var id := L.configIds[config];
      var ks := if keys.None? then GetTrials(L, config, true) else keys.value;
      var r := CostsOf(L.data, id, ks);
      assert r.Costs? ==> CostRows(r.rows, L.nObjectives) by {
        if r.Costs? {
          forall row | row in r.rows ensures |row| == L.nObjectives && L.nObjectives >= 1 {
            var i :| 0 <= i < |r.rows| && r.rows[i] == row;
            assert KeyOf(id, ks[i]) in L.data;
          }
        }
      }
      r
  }

  /** `average_cost`: NaN when no cost is found, otherwise one mean per objective (a single
      float for one objective); a `KeyError` when a requested trial is missing. */
  function AverageCost<C(==,!new)>(L: Ledger<C>, config: C, keys: Option<seq<InstanceSeedBudgetKey>>): (r: Query)
    requires Valid(L)
    ensures r.KeyError? <==> Cost(L, config, keys).MissingTrial?
    ensures r.Answer? ==> (r.agg.Nan? <==> |Cost(L, config, keys).rows| == 0) && Shaped(r.agg, L.nObjectives)
  {
    match Cost(L, config, keys)
    case MissingTrial(k) => KeyError(k)
    case Costs(rows) =>
      AggregatesShaped(rows, L.nObjectives);
      Answer(AverageOf(rows, L.nObjectives))
  }

  /** `sum_cost`: never NaN; 0.0 when no cost is found. */
  function SumCost<C(==,!new)>(L: Ledger<C>, config: C, keys: Option<seq<InstanceSeedBudgetKey>>): (r: Query)
    requires Valid(L)
    ensures r.KeyError? <==> Cost(L, config, keys).MissingTrial?
    ensures r.Answer? ==> !r.agg.Nan?
    ensures r.Answer? && |Cost(L, config, keys).rows| == 0 ==> r.agg == Scalar(0.0)
  {
    match Cost(L, config, keys)
    case MissingTrial(k) => KeyError(k)
    case Costs(rows) => Answer(SumOf(rows, L.nObjectives))
  }

  /** `min_cost`: shaped like `average_cost`. */
  function MinCost<C(==,!new)>(L: Ledger<C>, config: C, keys: Option<seq<InstanceSeedBudgetKey>>): (r: Query)
    requires Valid(L)
    ensures r.KeyError? <==> Cost(L, config, keys).MissingTrial?
    ensures r.Answer? ==> (r.agg.Nan? <==> |Cost(L, config, keys).rows| == 0) && Shaped(r.agg, L.nObjectives)
  {
    match Cost(L, config, keys)
    case MissingTrial(k) => KeyError(k)
    case Costs(rows) =>
      AggregatesShaped(rows, L.nObjectives);
      Answer(MinOf(rows, L.nObjectives))
  }

  /** The three aggregates over the same trials are consistent: the minimum is at most the
      average and the sum is the average times the number of trials, objective by
      objective. */
  lemma CostQueriesConsistent<C(!new)>(L: Ledger<C>, config: C, keys: Option<seq<InstanceSeedBudgetKey>>)
    requires Valid(L)
    ensures AverageCost(L, config, keys).KeyError? <==> MinCost(L, config, keys).KeyError?
    ensures AverageCost(L, config, keys).KeyError? <==> SumCost(L, config, keys).KeyError?
    ensures AverageCost(L, config, keys).Answer? && !AverageCost(L, config, keys).agg.Nan? ==>
              Consistent(MinCost(L, config, keys).agg, AverageCost(L, config, keys).agg,
                         SumCost(L, config, keys).agg, |Cost(L, config, keys).rows|, L.nObjectives)
  {
    var r := Cost(L, config, keys);
    if r.Costs? && |r.rows| > 0 {
      AggregatesConsistent(r.rows, L.nObjectives);
    }
  }

  /** `get_cost` for one objective: the cached cost, a float or NaN; NaN for a configuration
      without a cached cost. */
  function GetCost<C(==,!new)>(L: Ledger<C>, config: C): (r: CostAgg)
    requires CachesShaped(L.cost, L.minCost, L.num, L.idsConfig, L.nObjectives) && L.nObjectives <= 1
    ensures r.Nan? || r.Scalar?
    ensures config !in L.configIds || L.configIds[config] !in L.cost ==> r.Nan?
  {
    if config in L.configIds && L.configIds[config] in L.cost then L.cost[L.configIds[config]] else Nan
  }

  /** `get_min_cost` for one objective: the cached lowest cost, a float or NaN; NaN for a
      configuration without a cached lowest cost. */
  function GetMinCost<C(==,!new)>(L: Ledger<C>, config: C): (r: CostAgg)
    requires CachesShaped(L.cost, L.minCost, L.num, L.idsConfig, L.nObjectives) && L.nObjectives <= 1
    ensures r.Nan? || r.Scalar?
    ensures config !in L.configIds || L.configIds[config] !in L.minCost ==> r.Nan?
  {
    if config in L.configIds && L.configIds[config] in L.minCost then L.minCost[L.configIds[config]] else Nan
  }

  /** When the caches agree with a recomputation, the cached cost read by `get_cost` is the
      average cost over the maximal-budget trials that `average_cost` computes. */
  lemma GetCostIsAverage<C(!new)>(L: Ledger<C>, config: C)
    requires Valid(L) && CachesAgree(L) && L.nObjectives <= 1
    ensures AverageCost(L, config, None) == Answer(GetCost(L, config))
  {
    if config in L.configIds {
      var id := L.configIds[config];
      var ix := IndexOf(L.index, id);
      CostOfMaxTrials(L, config);
      assert AgreesAt(L.data, ix, CachedCost(L.cost, id), CachedCount(L.num, id), L.nObjectives, id);
      if id !in L.cost {
        assert Trials(ix, true) == [];
      }
    }
  }

  /** Without keys, `_cost` looks up the maximal-budget trials of the configuration. */
  lemma CostOfMaxTrials<C(!new)>(L: Ledger<C>, config: C)
    requires Valid(L) && config in L.configIds
    ensures Cost(L, config, None) == CostsOf(L.data, L.configIds[config], Trials(IndexOf(L.index, L.configIds[config]), true))
  {
  }

  /** Registering `config` as `add` does first: a new configuration gets the next id, and
      nothing but the registry changes. */
  function WithConfig<C(==,!new)>(L: Ledger<C>, config: C): (L': Ledger<C>)
    ensures config in L'.configIds
    ensures config in L.configIds ==> L' == L
    ensures config !in L.configIds ==> L'.configIds[config] == L.nId + 1 && L'.nId == L.nId + 1
    ensures forall c :: c in L.configIds ==> c in L'.configIds && L'.configIds[c] == L.configIds[c]
    ensures L' == L.(configIds := L'.configIds, idsConfig := L'.idsConfig, nId := L'.nId)
  {
    if config in L.configIds then L
    else
      L.(configIds := L.configIds[config := L.nId + 1], idsConfig := L.idsConfig[L.nId + 1 := config],
         nId := L.nId + 1)
  }

  /** Fixing the objective count (to the length of the first cost seen). */
  function WithObjectives<C(==,!new)>(L: Ledger<C>, n: nat): Ledger<C>
  {
    L.(nObjectives := n)
  }

  /** The trial written as `_add` writes it (keeping its position when it was already
      recorded), before the bounds are recomputed. */
  function WithTrialData<C(==,!new)>(L: Ledger<C>, k: TrialKey, v: TrialValue, origin: DataOrigin): Ledger<C>
  {
    L.(order := if k in L.data then L.order else L.order + [k],
       data := L.data[k := v],
       external := L.external[k := origin])
  }

  lemma TrialDataOrdered<C(!new)>(L: Ledger<C>, k: TrialKey, v: TrialValue, origin: DataOrigin)
    requires DataOrdered(L.order, L.data, L.external, L.idsConfig) && CostsShaped(L.data, L.nObjectives) && k.configId in L.idsConfig && |v.cost| == L.nObjectives
    ensures var W := WithTrialData(L, k, v, origin);
            DataOrdered(W.order, W.data, W.external, W.idsConfig) && CostsShaped(W.data, W.nObjectives)
  {
    if k !in L.data {
      assert k !in L.order;
    }
  }

  /** `_update_objective_bounds` on a state: the bounds of the successful costs. */
  function BoundsOf<C(==,!new)>(L: Ledger<C>): seq<Bound>
    requires DataOrdered(L.order, L.data, L.external, L.idsConfig) && CostsShaped(L.data, L.nObjectives)
  {
    assert forall i :: 0 <= i < |L.order| ==> L.order[i] in L.data && |L.data[L.order[i]].cost| == L.nObjectives by {
      forall i | 0 <= i < |L.order| ensures L.order[i] in L.data && |L.data[L.order[i]].cost| == L.nObjectives {
        assert L.order[i] in L.order;
      }
    }
    SuccessCostsRectangular(L.order, L.data, L.nObjectives);
    ObjectiveBoundsOf(SuccessCosts(L.order, L.data), L.nObjectives)
  }

  /** The first half of `_add`: the trial is written and the bounds recomputed. */
  function WithTrial<C(==,!new)>(L: Ledger<C>, k: TrialKey, v: TrialValue, origin: DataOrigin): Ledger<C>
    requires DataOrdered(L.order, L.data, L.external, L.idsConfig) && CostsShaped(L.data, L.nObjectives) && k.configId in L.idsConfig && |v.cost| == L.nObjectives
  {
    TrialDataOrdered(L, k, v, origin);
    var W := WithTrialData(L, k, v, origin);
    W.(bounds := BoundsOf(W))
  }

  /** Replaces the index of configuration `id`. */
  function WithIndex<C(==,!new)>(L: Ledger<C>, id: nat, ix: seq<IskEntry>): Ledger<C>
  {
    L.(index := L.index[id := ix])
  }

  /** `incremental_update_cost` on a state: one moving-average step of the cached cost of
      configuration `id` with the new cost `c`, and one more trial counted. */
  function WithCostStep<C(==,!new)>(L: Ledger<C>, id: nat, c: seq<real>): Ledger<C>
    requires L.nObjectives >= 1 && |c| == L.nObjectives
    requires id in L.cost ==> Shaped(L.cost[id], L.nObjectives)
  {
    WithCaches(L, id, IncrementalCost(CachedCost(L.cost, id), NumTrials(L.num, id), c, L.nObjectives),
               NumTrials(L.num, id) + 1, L.minCost)
  }

  /** `update_cost` on a state: the cost of configuration `id` recomputed over its
      maximal-budget trials, their number, and its lowest cost over all its trials. */
  function WithCostRecomputed<C(==,!new)>(L: Ledger<C>, id: nat): Ledger<C>
    requires Indexed(L.data, IndexOf(L.index, id), id, L.nObjectives)
  {
    var ix := IndexOf(L.index, id);
    WithCaches(L, id, RecomputedCostOf(L.data, ix, id, L.nObjectives), |MaxKeys(ix)|,
               L.minCost[id := RecomputedMinCostOf(L.data, ix, id, L.nObjectives)])
  }

  /** The cost and count of configuration `id` replaced, and the lowest costs. */
  function WithCaches<C(==,!new)>(L: Ledger<C>, id: nat, a: CostAgg, n: nat, minCost: map<nat, CostAgg>): Ledger<C>
  {
    L.(cost := L.cost[id := a], num := L.num[id := n], minCost := minCost)
  }

  /** Whether `_add` indexes a trial: it must come from this run or from a run on the same
      instances, and must have completed. */
  predicate Indexes(origin: DataOrigin, status: StatusType)
  {
    (origin == Internal || origin == ExternalSameInstances) && status != Running
  }

  /** Recording the budget of a recorded trial keeps the index well formed and pointing at
      recorded trials. */
  lemma RecordStaysIndexed(data: map<TrialKey, TrialValue>, ix: seq<IskEntry>, k: TrialKey)
    requires WellFormed(ix) && forall x :: x in Trials(ix, false) ==> KeyOf(k.configId, x) in data
    requires k in data
    requires Record(ix, InstanceSeedKey(k.instance, k.seed), k.budget).Recorded?
    ensures WellFormed(Record(ix, InstanceSeedKey(k.instance, k.seed), k.budget).ix)
    ensures forall x :: x in Trials(Record(ix, InstanceSeedKey(k.instance, k.seed), k.budget).ix, false) ==>
              KeyOf(k.configId, x) in data
    ensures |Record(ix, InstanceSeedKey(k.instance, k.seed), k.budget).ix| > 0
  {
    var isk := InstanceSeedKey(k.instance, k.seed);
    RecordSpec(ix, isk, k.budget, isk);
    forall x | x in Trials(Record(ix, isk, k.budget).ix, false) ensures KeyOf(k.configId, x) in data {
      RecordTrials(ix, isk, k.budget, x);
    }
  }

  /** The cache update of `_add` for the just-indexed trial `k`: one moving-average step
      of its configuration's cost (budget 0 without overwriting), or a recomputation. */
  function WithCostOfTrial<C(==,!new)>(L: Ledger<C>, k: TrialKey): Ledger<C>
    requires Indexed(L.data, IndexOf(L.index, k.configId), k.configId, L.nObjectives) && k in L.data
    requires k.configId in L.cost ==> Shaped(L.cost[k.configId], L.nObjectives)
  {
    if !L.overwrite && k.budget == Some(0.0) then WithCostStep(L, k.configId, L.data[k].cost)
    else WithCostRecomputed(L, k.configId)
  }

  /** The second half of `_add`, on a trial already written: an indexed trial has its
      budget recorded for its instance-seed pair (`true` reports the error raised when a
      budget of the other kind is recorded there, after the configuration's index has been
      created), and the cost of its configuration is updated. */
  function WithTrialIndexed<C(==,!new)>(L: Ledger<C>, k: TrialKey, status: StatusType, origin: DataOrigin)
    : (Ledger<C>, bool)
    requires IndexSound(L.index, L.idsConfig, L.data) && CostsShaped(L.data, L.nObjectives) && CachesShaped(L.cost, L.minCost, L.num, L.idsConfig, L.nObjectives) && k in L.data
  {
    if !Indexes(origin, status) then (L, false)
    else
      var id := k.configId;
      IndexedAt(L, id);
      var ix0 := IndexOf(L.index, id);
      var rec := Record(ix0, InstanceSeedKey(k.instance, k.seed), k.budget);
      if rec.MixedBudgetTypes? then (WithIndex(L, id, ix0), true)
      else
        RecordStaysIndexed(L.data, ix0, k);
        assert IndexOf(WithIndex(L, id, rec.ix).index, id) == rec.ix;
        (WithCostOfTrial(WithIndex(L, id, rec.ix), k), false)
  }

  /** `_add`: the trial written, then indexed. */
  function TrialAdded<C(==,!new)>(L: Ledger<C>, k: TrialKey, v: TrialValue, status: StatusType,
                                  origin: DataOrigin): (Ledger<C>, bool)
    requires Valid(L) && k.configId in L.idsConfig && |v.cost| == L.nObjectives
  {
    WithTrialValid(L, k, v, origin);
    WithTrialIndexed(WithTrial(L, k, v, origin), k, status, origin)
  }

  /** The index and cache half of `_add` with every cache update a recomputation: like
      `WithTrialIndexed`, except that the moving-average step is replaced by `update_cost`,
      and a trial that is already indexed but not indexed again also has the cost of its
      configuration recomputed. */
  function WithTrialRecomputed<C(==,!new)>(L: Ledger<C>, k: TrialKey, status: StatusType, origin: DataOrigin)
    : (Ledger<C>, bool)
    requires IndexSound(L.index, L.idsConfig, L.data) && CostsShaped(L.data, L.nObjectives) && k in L.data
  {
    var id := k.configId;
    IndexedAt(L, id);
    var ix0 := IndexOf(L.index, id);
    if Indexes(origin, status) then
      var rec := Record(ix0, InstanceSeedKey(k.instance, k.seed), k.budget);
      if rec.MixedBudgetTypes? then (WithIndex(L, id, ix0), true)
      else
        RecordStaysIndexed(L.data, ix0, k);
        assert IndexOf(WithIndex(L, id, rec.ix).index, id) == rec.ix;
        (WithCostRecomputed(WithIndex(L, id, rec.ix), id), false)
    else if KeyIndexed(L, k) then (WithCostRecomputed(L, id), false)
    else (L, false)
  }

  /** `_add` with the cache update of `WithTrialRecomputed`. */
  function TrialAddedRecomputed<C(==,!new)>(L: Ledger<C>, k: TrialKey, v: TrialValue, status: StatusType,
                                            origin: DataOrigin): (Ledger<C>, bool)
    requires Valid(L) && k.configId in L.idsConfig && |v.cost| == L.nObjectives
  {
    WithTrialValid(L, k, v, origin);
    WithTrialRecomputed(WithTrial(L, k, v, origin), k, status, origin)
  }

  /** `add`: the configuration is registered, the objective count fixed or checked, the
      payload checked for JSON serialisability, and the trial stored. */
  function Added<C(==,!new)>(L: Ledger<C>, config: C, instance: Option<string>, seed: Option<int>, budget: Budget,
                             v: TrialValue, origin: DataOrigin, forceUpdate: bool, serializable: bool)
    : (Ledger<C>, AddOutcome)
    requires Valid(L) && (|v.cost| >= 1 || L.nObjectives >= 1)
  {
    var L1 := WithConfig(L, config);
    if L1.nObjectives != -1 && L1.nObjectives != |v.cost| then (L1, ObjectiveCountMismatch)
    else if !serializable then (WithObjectives(L1, |v.cost|), NotSerializable)
    else
      WithConfigValid(L, config);
      WithObjectivesValid(L1, |v.cost|);
      Stored(WithObjectives(L1, |v.cost|), TrialKey(L1.configIds[config], instance, seed, budget), v, origin,
             forceUpdate)
  }

  /** The end of `add`: the trial is added unless it is already recorded and neither the
      ledger nor the caller asks to overwrite it. */
  function Stored<C(==,!new)>(L: Ledger<C>, k: TrialKey, v: TrialValue, origin: DataOrigin, forceUpdate: bool)
    : (Ledger<C>, AddOutcome)
    requires Valid(L) && k.configId in L.idsConfig && |v.cost| == L.nObjectives
  {
    if L.overwrite || forceUpdate || k !in L.data then
      var r := TrialAdded(L, k, v, v.status, origin);
      (r.0, if r.1 then BudgetTypeClash else Inserted)
    else
      (L, Ignored)
  }

  /** When the objective count fits and the payload is serialisable, `add` ends as `Stored`
      on a valid state. */
  lemma AddedStores<C(!new)>(L: Ledger<C>, config: C, instance: Option<string>, seed: Option<int>, budget: Budget,
                             v: TrialValue, origin: DataOrigin, forceUpdate: bool)
    requires Valid(L) && |v.cost| >= 1
    requires L.nObjectives == -1 || L.nObjectives == |v.cost|
    ensures var L2 := WithObjectives(WithConfig(L, config), |v.cost|);
            var k := TrialKey(L2.configIds[config], instance, seed, budget);
            Valid(L2) && k.configId in L2.idsConfig &&
            Added(L, config, instance, seed, budget, v, origin, forceUpdate, true) == Stored(L2, k, v, origin, forceUpdate)
  {
    WithConfigValid(L, config);
    WithObjectivesValid(WithConfig(L, config), |v.cost|);
  }

  /** Registering a configuration keeps the state valid. */
  lemma WithConfigValid<C(!new)>(L: Ledger<C>, config: C)
    requires Valid(L)
    ensures Valid(WithConfig(L, config))
  {
    var L' := WithConfig(L, config);
    IdsWithConfig(L, config);
  }

  lemma IdsWithConfig<C(!new)>(L: Ledger<C>, config: C)
    requires IdsBijective(L.configIds, L.idsConfig, L.nId)
    ensures var L' := WithConfig(L, config); IdsBijective(L'.configIds, L'.idsConfig, L'.nId)
  {
    if config !in L.configIds {
      assert L.nId + 1 !in L.idsConfig;
    }
  }

  /** Fixing the objective count at the first cost's length (or keeping it) keeps the state
      valid: while the count is unset nothing is recorded. */
  lemma WithObjectivesValid<C(!new)>(L: Ledger<C>, n: nat)
    requires Valid(L) && n >= 1 && (L.nObjectives == -1 || L.nObjectives == n)
    ensures Valid(WithObjectives(L, n))
    ensures L.nObjectives == -1 ==> Empty(L)
  {
    var L' := WithObjectives(L, n);
    CostsReshaped(L, n);
    CachesReshaped(L, n);
  }

  lemma CostsReshaped<C(!new)>(L: Ledger<C>, n: nat)
    requires CostsShaped(L.data, L.nObjectives) && n >= 1 && (L.nObjectives == -1 || L.nObjectives == n)
    ensures var L' := WithObjectives(L, n); CostsShaped(L'.data, L'.nObjectives)
    ensures L.nObjectives == -1 ==> Empty(L)
  {
    if L.nObjectives == -1 {
      assert L.data == map[];
    }
  }

  /** An unset objective count admits only NaN caches, which fit any count. */
  lemma CachesReshaped<C(!new)>(L: Ledger<C>, n: nat)
    requires CachesShaped(L.cost, L.minCost, L.num, L.idsConfig, L.nObjectives) && n >= 1 && (L.nObjectives == -1 || L.nObjectives == n)
    ensures var L' := WithObjectives(L, n); CachesShaped(L'.cost, L'.minCost, L'.num, L'.idsConfig, L'.nObjectives)
  {
  }

  /** Writing a trial of a known configuration whose cost has the objective count's shape
      keeps the state valid. */
  lemma WithTrialValid<C(!new)>(L: Ledger<C>, k: TrialKey, v: TrialValue, origin: DataOrigin)
    requires Valid(L) && k.configId in L.idsConfig && |v.cost| == L.nObjectives
    ensures Valid(WithTrial(L, k, v, origin))
  {
    var L' := WithTrial(L, k, v, origin);
    TrialDataOrdered(L, k, v, origin);
    var W := WithTrialData(L, k, v, origin);
  }

  /** Replacing the index of a known configuration by a well-formed one over recorded
      trials keeps the state valid. */
  lemma WithIndexValid<C(!new)>(L: Ledger<C>, id: nat, ix: seq<IskEntry>)
    requires Valid(L) && id in L.idsConfig && WellFormed(ix)
    requires forall x :: x in Trials(ix, false) ==> KeyOf(id, x) in L.data
    ensures Valid(WithIndex(L, id, ix))
  {
    var L' := WithIndex(L, id, ix);
    IndexReplaced(L, id, ix);
  }

  lemma IndexReplaced<C(!new)>(L: Ledger<C>, id: nat, ix: seq<IskEntry>)
    requires IndexSound(L.index, L.idsConfig, L.data) && id in L.idsConfig && WellFormed(ix)
    requires forall x :: x in Trials(ix, false) ==> KeyOf(id, x) in L.data
    ensures var L' := WithIndex(L, id, ix); IndexSound(L'.index, L'.idsConfig, L'.data)
  {
  }

  /** Storing shaped caches for a known configuration keeps the caches shaped. */
  lemma CachesWritten<C(!new)>(L: Ledger<C>, id: nat, a: CostAgg, n: nat, minCost: map<nat, CostAgg>)
    requires CachesShaped(L.cost, L.minCost, L.num, L.idsConfig, L.nObjectives) && id in L.idsConfig && Shaped(a, L.nObjectives)
    requires forall j :: j in minCost ==> j in L.idsConfig && Shaped(minCost[j], L.nObjectives)
    ensures var L' := WithCaches(L, id, a, n, minCost); CachesShaped(L'.cost, L'.minCost, L'.num, L'.idsConfig, L'.nObjectives)
  {
  }

  /** Storing shaped caches for a known configuration keeps the state valid. */
  lemma CachesWrittenValid<C(!new)>(L: Ledger<C>, id: nat, a: CostAgg, n: nat, minCost: map<nat, CostAgg>)
    requires Valid(L) && id in L.idsConfig && Shaped(a, L.nObjectives)
    requires forall j :: j in minCost ==> j in L.idsConfig && Shaped(minCost[j], L.nObjectives)
    ensures Valid(WithCaches(L, id, a, n, minCost))
  {
    var L' := WithCaches(L, id, a, n, minCost);
    CachesWritten(L, id, a, n, minCost);
  }

  /** `incremental_update_cost` keeps the state valid. */
  lemma WithCostStepValid<C(!new)>(L: Ledger<C>, id: nat, c: seq<real>)
    requires Valid(L) && id in L.idsConfig && L.nObjectives >= 1 && |c| == L.nObjectives
    ensures Valid(WithCostStep(L, id, c))
  {
    CachesWrittenValid(L, id, IncrementalCost(CachedCost(L.cost, id), NumTrials(L.num, id), c, L.nObjectives),
                       NumTrials(L.num, id) + 1, L.minCost);
  }

  /** The recomputed caches have the objective count's shape. */
  lemma RecomputedCachesShaped<C(!new)>(L: Ledger<C>, id: nat)
    requires CachesShaped(L.cost, L.minCost, L.num, L.idsConfig, L.nObjectives) && IndexSound(L.index, L.idsConfig, L.data) && CostsShaped(L.data, L.nObjectives) && id in L.idsConfig
    ensures var L' := WithCostRecomputed(L, id); CachesShaped(L'.cost, L'.minCost, L'.num, L'.idsConfig, L'.nObjectives)
  {
    var ix := IndexOf(L.index, id);
    IndexedAt(L, id);
    RecomputedShaped(L.data, ix, id, L.nObjectives);
    CachesWritten(L, id, RecomputedCostOf(L.data, ix, id, L.nObjectives), |MaxKeys(ix)|,
                  L.minCost[id := RecomputedMinCostOf(L.data, ix, id, L.nObjectives)]);
  }

  /** `update_cost` keeps the state valid. */
  lemma WithCostRecomputedValid<C(!new)>(L: Ledger<C>, id: nat)
    requires Valid(L) && id in L.idsConfig
    ensures Valid(WithCostRecomputed(L, id))
  {
    IndexedAt(L, id);
    var L' := WithCostRecomputed(L, id);
    RecomputedCachesShaped(L, id);
  }

  /** The cache update changes only the caches. */
  lemma WithCostOfTrialFrame<C(!new)>(L: Ledger<C>, k: TrialKey)
    requires Indexed(L.data, IndexOf(L.index, k.configId), k.configId, L.nObjectives) && k in L.data
    requires k.configId in L.cost ==> Shaped(L.cost[k.configId], L.nObjectives)
    ensures var L' := WithCostOfTrial(L, k);
            L' == L.(cost := L'.cost, num := L'.num, minCost := L'.minCost)
  {
  }

  /** The indexing half of `_add` changes only the index and the caches. */
  lemma WithTrialIndexedFrame<C(!new)>(L: Ledger<C>, k: TrialKey, status: StatusType, origin: DataOrigin)
    requires IndexSound(L.index, L.idsConfig, L.data) && CostsShaped(L.data, L.nObjectives) && CachesShaped(L.cost, L.minCost, L.num, L.idsConfig, L.nObjectives) && k in L.data
    ensures var L' := WithTrialIndexed(L, k, status, origin).0;
            L' == L.(index := L'.index, cost := L'.cost, num := L'.num, minCost := L'.minCost)
  {
    if Indexes(origin, status) {
      var id := k.configId;
      IndexedAt(L, id);
      var ix0 := IndexOf(L.index, id);
      var rec := Record(ix0, InstanceSeedKey(k.instance, k.seed), k.budget);
      if rec.Recorded? {
        RecordStaysIndexed(L.data, ix0, k);
        WithCostOfTrialFrame(WithIndex(L, id, rec.ix), k);
      }
    }
  }

  lemma WithTrialIndexedIndexSound<C(!new)>(L: Ledger<C>, k: TrialKey, status: StatusType, origin: DataOrigin)
    requires IndexSound(L.index, L.idsConfig, L.data) && CostsShaped(L.data, L.nObjectives) && CachesShaped(L.cost, L.minCost, L.num, L.idsConfig, L.nObjectives) && k in L.data && k.configId in L.idsConfig
    ensures var L' := WithTrialIndexed(L, k, status, origin).0; IndexSound(L'.index, L'.idsConfig, L'.data)
  {
    if Indexes(origin, status) {
      var id := k.configId;
      IndexedAt(L, id);
      var ix0 := IndexOf(L.index, id);
      var rec := Record(ix0, InstanceSeedKey(k.instance, k.seed), k.budget);
      if rec.MixedBudgetTypes? {
        IndexReplaced(L, id, ix0);
      } else {
        RecordStaysIndexed(L.data, ix0, k);
        IndexReplaced(L, id, rec.ix);
        var L1 := WithIndex(L, id, rec.ix);
        WithCostOfTrialFrame(L1, k);
      }
    }
  }

  /** The cache update keeps the caches shaped. */
  lemma WithCostOfTrialShaped<C(!new)>(L: Ledger<C>, k: TrialKey)
    requires IndexSound(L.index, L.idsConfig, L.data) && CostsShaped(L.data, L.nObjectives) && CachesShaped(L.cost, L.minCost, L.num, L.idsConfig, L.nObjectives) && k in L.data && k.configId in L.idsConfig
    ensures var L' := WithCostOfTrial(L, k); CachesShaped(L'.cost, L'.minCost, L'.num, L'.idsConfig, L'.nObjectives)
  {
    IndexedAt(L, k.configId);
    if !L.overwrite && k.budget == Some(0.0) {
      var id := k.configId;
      CachesWritten(L, id, IncrementalCost(CachedCost(L.cost, id), NumTrials(L.num, id), L.data[k].cost, L.nObjectives),
                    NumTrials(L.num, id) + 1, L.minCost);
    } else {
      RecomputedCachesShaped(L, k.configId);
    }
  }

  lemma WithTrialIndexedCachesShaped<C(!new)>(L: Ledger<C>, k: TrialKey, status: StatusType, origin: DataOrigin)
    requires IndexSound(L.index, L.idsConfig, L.data) && CostsShaped(L.data, L.nObjectives) && CachesShaped(L.cost, L.minCost, L.num, L.idsConfig, L.nObjectives) && k in L.data && k.configId in L.idsConfig
    ensures var L' := WithTrialIndexed(L, k, status, origin).0; CachesShaped(L'.cost, L'.minCost, L'.num, L'.idsConfig, L'.nObjectives)
  {
    if Indexes(origin, status) {
      var id := k.configId;
      IndexedAt(L, id);
      var ix0 := IndexOf(L.index, id);
      var rec := Record(ix0, InstanceSeedKey(k.instance, k.seed), k.budget);
      if rec.MixedBudgetTypes? {
      } else {
        RecordStaysIndexed(L.data, ix0, k);
        var L1 := WithIndex(L, id, rec.ix);
        IndexReplaced(L, id, rec.ix);
        WithCostOfTrialShaped(L1, k);
      }
    }
  }

  /** Indexing a recorded trial of a known configuration keeps the state valid. */
  lemma WithTrialIndexedValid<C(!new)>(L: Ledger<C>, k: TrialKey, status: StatusType, origin: DataOrigin)
    requires Valid(L) && k in L.data && k.configId in L.idsConfig
    ensures Valid(WithTrialIndexed(L, k, status, origin).0)
  {
    var L' := WithTrialIndexed(L, k, status, origin).0;
    WithTrialIndexedFrame(L, k, status, origin);
    WithTrialIndexedIndexSound(L, k, status, origin);
    WithTrialIndexedCachesShaped(L, k, status, origin);
  }

  /** `_add` keeps the state valid. */
  lemma TrialAddedValid<C(!new)>(L: Ledger<C>, k: TrialKey, v: TrialValue, status: StatusType, origin: DataOrigin)
    requires Valid(L) && k.configId in L.idsConfig && |v.cost| == L.nObjectives
    ensures Valid(TrialAdded(L, k, v, status, origin).0)
  {
    WithTrialValid(L, k, v, origin);
    WithTrialIndexedValid(WithTrial(L, k, v, origin), k, status, origin);
  }

  /** `add` keeps the state valid, whichever way it ends. */
  lemma AddedValid<C(!new)>(L: Ledger<C>, config: C, instance: Option<string>, seed: Option<int>, budget: Budget,
                            v: TrialValue, origin: DataOrigin, forceUpdate: bool, serializable: bool)
    requires Valid(L) && (|v.cost| >= 1 || L.nObjectives >= 1)
    ensures Valid(Added(L, config, instance, seed, budget, v, origin, forceUpdate, serializable).0)
  {
    WithConfigValid(L, config);
    var L1 := WithConfig(L, config);
    var r := Added(L, config, instance, seed, budget, v, origin, forceUpdate, serializable).0;
    if L1.nObjectives != -1 && L1.nObjectives != |v.cost| {
      assert r == L1;
    } else {
      WithObjectivesValid(L1, |v.cost|);
      var L2 := WithObjectives(L1, |v.cost|);
      if !serializable {
        assert r == L2;
      } else {
        var k := TrialKey(L1.configIds[config], instance, seed, budget);
        StoredValid(L2, k, v, origin, forceUpdate);
        assert r == Stored(L2, k, v, origin, forceUpdate).0;
      }
    }
  }

  lemma StoredValid<C(!new)>(L: Ledger<C>, k: TrialKey, v: TrialValue, origin: DataOrigin, forceUpdate: bool)
    requires Valid(L) && k.configId in L.idsConfig && |v.cost| == L.nObjectives
    ensures Valid(Stored(L, k, v, origin, forceUpdate).0)
  {
    if L.overwrite || forceUpdate || k !in L.data {
      TrialAddedValid(L, k, v, v.status, origin);
    }
  }

  /** Registering a configuration keeps the caches in agreement: the new id has neither an
      index nor a cache. */
  lemma WithConfigAgrees<C(!new)>(L: Ledger<C>, config: C)
    requires Valid(L) && CachesAgree(L)
    ensures CachesAgree(WithConfig(L, config))
  {
    var L' := WithConfig(L, config);
    forall id | id in L'.idsConfig
      ensures AgreesAt(L'.data, IndexOf(L'.index, id), CachedCost(L'.cost, id), CachedCount(L'.num, id), L'.nObjectives, id)
    {
      if id !in L.idsConfig {
        assert id !in L.cost && id !in L.num && id !in L.index;
      }
    }
  }

  /** A non-empty well-formed index lists at least one trial. */
  lemma NonEmptyIndexHasTrial(ix: seq<IskEntry>)
    requires WellFormed(ix) && |ix| > 0
    ensures InstanceSeedBudgetKey(ix[0].isk.instance, ix[0].isk.seed, ix[0].budgets[0]) in Trials(ix, false)
  {
    AllTrialsMembership(ix, InstanceSeedBudgetKey(ix[0].isk.instance, ix[0].isk.seed, ix[0].budgets[0]));
  }

  /** Fixing the objective count keeps the caches in agreement: before it is fixed no trial
      is recorded, so no cache is held. */
  lemma WithObjectivesAgrees<C(!new)>(L: Ledger<C>, n: nat)
    requires Valid(L) && CachesAgree(L) && n >= 1 && (L.nObjectives == -1 || L.nObjectives == n)
    ensures CachesAgree(WithObjectives(L, n))
  {
    var L' := WithObjectives(L, n);
    if L.nObjectives == -1 {
      forall id | id in L'.idsConfig
        ensures AgreesAt(L'.data, IndexOf(L'.index, id), CachedCost(L'.cost, id), CachedCount(L'.num, id), L'.nObjectives, id)
      {
        var ix := IndexOf(L.index, id);
        assert AgreesAt(L.data, ix, CachedCost(L.cost, id), CachedCount(L.num, id), L.nObjectives, id);
        if |ix| > 0 {
          NonEmptyIndexHasTrial(ix);
          assert false;
        }
      }
    }
  }

  /** Whether trial `k` is listed in the index of its configuration. */
  predicate KeyIndexed<C(==,!new)>(L: Ledger<C>, k: TrialKey)
  {
    InstanceSeedBudgetKey(k.instance, k.seed, k.budget) in Trials(IndexOf(L.index, k.configId), false)
  }

  /** A trial that is not recorded is in no index. */
  lemma UnrecordedUnindexed<C(!new)>(L: Ledger<C>, k: TrialKey)
    requires IndexSound(L.index, L.idsConfig, L.data) && k !in L.data
    ensures !KeyIndexed(L, k)
  {
    if k.configId in L.index {
      assert KeyOf(k.configId, InstanceSeedBudgetKey(k.instance, k.seed, k.budget)) == k;
    }
  }

  /** Writing a trial leaves the caches of every other configuration in agreement, since
      only the index of the trial's own configuration can list it. */
  lemma WithTrialAgreesExcept<C(!new)>(L: Ledger<C>, k: TrialKey, v: TrialValue, origin: DataOrigin)
    requires IndexSound(L.index, L.idsConfig, L.data) && CachesAgree(L)
    requires DataOrdered(L.order, L.data, L.external, L.idsConfig) && CostsShaped(L.data, L.nObjectives)
    requires k.configId in L.idsConfig && |v.cost| == L.nObjectives
    ensures CachesAgreeExcept(WithTrial(L, k, v, origin), k.configId)
  {
    var W := WithTrial(L, k, v, origin);
    assert W.data == L.data[k := v] && W.index == L.index && W.cost == L.cost && W.num == L.num;
    forall id | id in W.idsConfig && id != k.configId
      ensures AgreesAt(W.data, IndexOf(W.index, id), CachedCost(W.cost, id), CachedCount(W.num, id), W.nObjectives, id)
    {
      var ix := IndexOf(L.index, id);
      assert AgreesAt(L.data, ix, CachedCost(L.cost, id), CachedCount(L.num, id), L.nObjectives, id);
      AgreesAfterUnindexedWrite(L.data, ix, CachedCost(L.cost, id), CachedCount(L.num, id), L.nObjectives, id, k, v);
    }
  }

  /** Writing a trial that no index lists keeps the caches in agreement. */
  lemma WithTrialAgrees<C(!new)>(L: Ledger<C>, k: TrialKey, v: TrialValue, origin: DataOrigin)
    requires IndexSound(L.index, L.idsConfig, L.data) && CachesAgree(L) && !KeyIndexed(L, k)
    requires DataOrdered(L.order, L.data, L.external, L.idsConfig) && CostsShaped(L.data, L.nObjectives)
    requires k.configId in L.idsConfig && |v.cost| == L.nObjectives
    ensures CachesAgree(WithTrial(L, k, v, origin))
  {
    UnindexedWriteAgrees(L.idsConfig, L.data, L.index, L.cost, L.num, L.nObjectives, k, v);
  }

  /** Field form of `WithTrialAgrees`. */
  lemma UnindexedWriteAgrees<C(!new)>(idsConfig: map<nat, C>, data: map<TrialKey, TrialValue>,
                                      index: map<nat, seq<IskEntry>>, cost: map<nat, CostAgg>,
                                      num: map<nat, nat>, nObj: int, k: TrialKey, v: TrialValue)
    requires IndexSound(index, idsConfig, data) && CachesAgreeOn(idsConfig, data, index, cost, num, nObj)
    requires InstanceSeedBudgetKey(k.instance, k.seed, k.budget) !in Trials(IndexOf(index, k.configId), false)
    ensures CachesAgreeOn(idsConfig, data[k := v], index, cost, num, nObj)
  {
    forall id | id in idsConfig
      ensures AgreesAt(data[k := v], IndexOf(index, id), CachedCost(cost, id), CachedCount(num, id), nObj, id)
    {
      var ix := IndexOf(index, id);
      forall x | x in Trials(ix, false) ensures KeyOf(id, x) != k {
        if id == k.configId {
          assert x != InstanceSeedBudgetKey(k.instance, k.seed, k.budget);
        }
      }
      AgreesAfterUnindexedWrite(data, ix, CachedCost(cost, id), CachedCount(num, id), nObj, id, k, v);
    }
  }

  /** Replacing the index and the caches of configuration `id` by ones that agree brings
      every configuration into agreement, whatever the old caches of `id` were. */
  lemma CachesRewrittenAgree<C(!new)>(L: Ledger<C>, id: nat, ix: seq<IskEntry>, a: CostAgg, n: nat,
                                      minCost: map<nat, CostAgg>)
    requires CachesAgreeExcept(L, id)
    requires AgreesAt(L.data, ix, Some(a), Some(n), L.nObjectives, id)
    ensures CachesAgree(WithCaches(WithIndex(L, id, ix), id, a, n, minCost))
  {
    var L' := WithCaches(WithIndex(L, id, ix), id, a, n, minCost);
    forall j | j in L'.idsConfig
      ensures AgreesAt(L'.data, IndexOf(L'.index, j), CachedCost(L'.cost, j), CachedCount(L'.num, j), L'.nObjectives, j)
    {
      if j == id {
        assert IndexOf(L'.index, j) == ix && CachedCost(L'.cost, j) == Some(a) && CachedCount(L'.num, j) == Some(n);
      } else {
        RewrittenElsewhere(L, id, ix, a, n, minCost, j);
      }
    }
  }

  /** Rewriting the index and caches of `id` leaves those of any other configuration as
      they were. */
  lemma RewrittenElsewhere<C(!new)>(L: Ledger<C>, id: nat, ix: seq<IskEntry>, a: CostAgg, n: nat,
                                    minCost: map<nat, CostAgg>, j: nat)
    requires j != id
    ensures var L' := WithCaches(WithIndex(L, id, ix), id, a, n, minCost);
      && L'.data == L.data && L'.nObjectives == L.nObjectives
      && IndexOf(L'.index, j) == IndexOf(L.index, j)
      && CachedCost(L'.cost, j) == CachedCost(L.cost, j) && CachedCount(L'.num, j) == CachedCount(L.num, j)
  {
  }

  /** Whether the moving-average step of `_add` would be applied to trial `k` on an
      instance-seed pair its configuration has already indexed, where it stops agreeing
      with a recomputation. */
  predicate SteppedOnKnownPair<C(==,!new)>(L: Ledger<C>, k: TrialKey, status: StatusType, origin: DataOrigin)
  {
    && Indexes(origin, status) && !L.overwrite && k.budget == Some(0.0)
    && Find(IndexOf(L.index, k.configId), InstanceSeedKey(k.instance, k.seed)).Some?
  }

  /** The incremental branch of `_add` keeps the caches in agreement when the trial is on
      an instance-seed pair its configuration had not indexed. */
  lemma StepAgrees<C(!new)>(L: Ledger<C>, k: TrialKey, ix1: seq<IskEntry>)
    requires CachesAgree(L) && k in L.data && k.configId in L.idsConfig && !L.overwrite && k.budget == Some(0.0)
    requires Indexed(L.data, IndexOf(L.index, k.configId), k.configId, L.nObjectives)
    requires k.configId in L.cost ==> Shaped(L.cost[k.configId], L.nObjectives)
    requires Find(IndexOf(L.index, k.configId), InstanceSeedKey(k.instance, k.seed)).None?
    requires Record(IndexOf(L.index, k.configId), InstanceSeedKey(k.instance, k.seed), k.budget) == Recorded(ix1)
    requires Indexed(L.data, ix1, k.configId, L.nObjectives)
    ensures CachesAgree(WithCostOfTrial(WithIndex(L, k.configId, ix1), k))
  {
    var id := k.configId;
    var n := NumTrials(L.num, id);
    var a := IncrementalCost(CachedCost(L.cost, id), n, L.data[k].cost, L.nObjectives);
    IncrementalStepAgrees(L.data, IndexOf(L.index, id), CachedCost(L.cost, id), CachedCount(L.num, id), L.nObjectives, k);
    assert ix1 == IndexOf(L.index, id) + [IskEntry(InstanceSeedKey(k.instance, k.seed), [k.budget])];
    CachesRewrittenAgree(L, id, ix1, a, n + 1, L.minCost);
    StepCaches(L, k, ix1);
  }

  /** The incremental branch of `_add` writes one moving-average step and one more trial. */
  lemma StepCaches<C(!new)>(L: Ledger<C>, k: TrialKey, ix1: seq<IskEntry>)
    requires k in L.data && !L.overwrite && k.budget == Some(0.0)
    requires k.configId in L.cost ==> Shaped(L.cost[k.configId], L.nObjectives)
    requires Indexed(L.data, ix1, k.configId, L.nObjectives)
    ensures var id := k.configId; var n := NumTrials(L.num, id);
      WithCostOfTrial(WithIndex(L, id, ix1), k)
      == WithCaches(WithIndex(L, id, ix1), id, IncrementalCost(CachedCost(L.cost, id), n, L.data[k].cost, L.nObjectives),
                    n + 1, L.minCost)
  {
    var id := k.configId;
    var L1 := WithIndex(L, id, ix1);
    assert CachedCost(L1.cost, id) == CachedCost(L.cost, id) && NumTrials(L1.num, id) == NumTrials(L.num, id);
    assert WithCostOfTrial(L1, k) == WithCostStep(L1, id, L.data[k].cost);
  }

  /** The recomputing branch of `_add` brings the caches into agreement, even when those of
      the trial's configuration were out of step before. */
  lemma RecomputeAgrees<C(!new)>(L: Ledger<C>, k: TrialKey, ix1: seq<IskEntry>)
    requires CachesAgreeExcept(L, k.configId) && k in L.data && k.configId in L.idsConfig && (L.overwrite || k.budget != Some(0.0))
    requires k.configId in L.cost ==> Shaped(L.cost[k.configId], L.nObjectives)
    requires Indexed(L.data, ix1, k.configId, L.nObjectives) && |ix1| > 0
    ensures CachesAgree(WithCostOfTrial(WithIndex(L, k.configId, ix1), k))
  {
    var id := k.configId;
    RecomputedAgrees(L.data, ix1, id, L.nObjectives);
    var a := RecomputedCostOf(L.data, ix1, id, L.nObjectives);
    var m := L.minCost[id := RecomputedMinCostOf(L.data, ix1, id, L.nObjectives)];
    CachesRewrittenAgree(L, id, ix1, a, |MaxKeys(ix1)|, m);
    RecomputeCaches(L, k, ix1);
  }

  /** The recomputing branch of `_add` writes the recomputed cost, count and lowest cost. */
  lemma RecomputeCaches<C(!new)>(L: Ledger<C>, k: TrialKey, ix1: seq<IskEntry>)
    requires k in L.data && (L.overwrite || k.budget != Some(0.0))
    requires k.configId in L.cost ==> Shaped(L.cost[k.configId], L.nObjectives)
    requires Indexed(L.data, ix1, k.configId, L.nObjectives)
    ensures var id := k.configId; var nObj := L.nObjectives;
      && IndexOf(WithIndex(L, id, ix1).index, id) == ix1
      && WithCostOfTrial(WithIndex(L, id, ix1), k)
      == WithCaches(WithIndex(L, id, ix1), id, RecomputedCostOf(L.data, ix1, id, nObj), |MaxKeys(ix1)|,
                    L.minCost[id := RecomputedMinCostOf(L.data, ix1, id, nObj)])
  {
    var L1 := WithIndex(L, k.configId, ix1);
    assert IndexOf(L1.index, k.configId) == ix1;
  }

  /** The index and cache half of `_add` keeps the caches in agreement, unless it moves the
      cost of a configuration by a moving-average step for a trial on an instance-seed pair
      already indexed for it. */
  lemma WithTrialIndexedAgrees<C(!new)>(L: Ledger<C>, k: TrialKey, status: StatusType, origin: DataOrigin)
    requires IndexSound(L.index, L.idsConfig, L.data) && CostsShaped(L.data, L.nObjectives)
    requires CachesShaped(L.cost, L.minCost, L.num, L.idsConfig, L.nObjectives)
    requires CachesAgree(L) && k in L.data && k.configId in L.idsConfig
    requires !SteppedOnKnownPair(L, k, status, origin)
    ensures CachesAgree(WithTrialIndexed(L, k, status, origin).0)
  {
    if Indexes(origin, status) {
      IndexedAt(L, k.configId);
      var rec := Record(IndexOf(L.index, k.configId), InstanceSeedKey(k.instance, k.seed), k.budget);
      if rec.MixedBudgetTypes? {
        ClashAgrees(L, k, status, origin);
      } else {
        RecordedAgrees(L, k, status, origin, rec.ix);
      }
    }
  }

  /** When `_add` stops at a budget of the other kind, only an empty index may have been
      created, and the caches still agree. */
  lemma ClashAgrees<C(!new)>(L: Ledger<C>, k: TrialKey, status: StatusType, origin: DataOrigin)
    requires IndexSound(L.index, L.idsConfig, L.data) && CostsShaped(L.data, L.nObjectives)
    requires CachesShaped(L.cost, L.minCost, L.num, L.idsConfig, L.nObjectives)
    requires CachesAgree(L) && k in L.data && Indexes(origin, status)
    requires Record(IndexOf(L.index, k.configId), InstanceSeedKey(k.instance, k.seed), k.budget).MixedBudgetTypes?
    ensures CachesAgree(WithTrialIndexed(L, k, status, origin).0)
  {
    assert WithTrialIndexed(L, k, status, origin).0 == WithIndex(L, k.configId, IndexOf(L.index, k.configId));
    IndexCreatedAgrees(L, k.configId);
  }

  /** Creating an empty index where none was (`setdefault`) keeps the caches in agreement. */
  lemma IndexCreatedAgrees<C(!new)>(L: Ledger<C>, id: nat)
    requires CachesAgree(L)
    ensures CachesAgree(WithIndex(L, id, IndexOf(L.index, id)))
  {
    var L' := WithIndex(L, id, IndexOf(L.index, id));
    forall j | j in L'.idsConfig
      ensures AgreesAt(L'.data, IndexOf(L'.index, j), CachedCost(L'.cost, j), CachedCount(L'.num, j), L'.nObjectives, j)
    {
      assert IndexOf(L'.index, j) == IndexOf(L.index, j) && CachedCost(L'.cost, j) == CachedCost(L.cost, j);
      assert CachedCount(L'.num, j) == CachedCount(L.num, j);
    }
  }

  /** When `_add` records the budget of an indexed trial, the cache update agrees. */
  lemma RecordedAgrees<C(!new)>(L: Ledger<C>, k: TrialKey, status: StatusType, origin: DataOrigin,
                                ix1: seq<IskEntry>)
    requires IndexSound(L.index, L.idsConfig, L.data) && CostsShaped(L.data, L.nObjectives)
    requires CachesShaped(L.cost, L.minCost, L.num, L.idsConfig, L.nObjectives)
    requires CachesAgree(L) && k in L.data && k.configId in L.idsConfig && Indexes(origin, status)
    requires !SteppedOnKnownPair(L, k, status, origin)
    requires Record(IndexOf(L.index, k.configId), InstanceSeedKey(k.instance, k.seed), k.budget) == Recorded(ix1)
    ensures CachesAgree(WithTrialIndexed(L, k, status, origin).0)
  {
    var id := k.configId;
    IndexedAt(L, id);
    RecordStaysIndexed(L.data, IndexOf(L.index, id), k);
    assert WithTrialIndexed(L, k, status, origin).0 == WithCostOfTrial(WithIndex(L, id, ix1), k);
    if !L.overwrite && k.budget == Some(0.0) {
      StepAgrees(L, k, ix1);
    } else {
      RecomputeAgrees(L, k, ix1);
    }
  }

  /** Whether `_add` of trial `k` can leave a cache out of step with a recomputation: the
      trial is already indexed but is not indexed again (it is running, or comes from a run
      on other instances), so its cost changes under a cache that is left as it was; or a
      moving-average step would count it again on an instance-seed pair already indexed. */
  predicate Desyncs<C(==,!new)>(L: Ledger<C>, k: TrialKey, status: StatusType, origin: DataOrigin)
  {
    (KeyIndexed(L, k) && !Indexes(origin, status)) || SteppedOnKnownPair(L, k, status, origin)
  }

  /** `_add` of a trial that is already indexed and is indexed again, with a recomputation
      rather than a moving-average step, brings the caches back into agreement. */
  lemma ReindexedAgrees<C(!new)>(L: Ledger<C>, k: TrialKey, v: TrialValue, status: StatusType, origin: DataOrigin)
    requires Valid(L) && CachesAgree(L) && k.configId in L.idsConfig && |v.cost| == L.nObjectives
    requires KeyIndexed(L, k) && Indexes(origin, status) && (L.overwrite || k.budget != Some(0.0))
    ensures CachesAgree(TrialAdded(L, k, v, status, origin).0)
  {
    WithTrialAgreesExcept(L, k, v, origin);
    WithTrialValid(L, k, v, origin);
    var W := WithTrial(L, k, v, origin);
    assert IndexOf(W.index, k.configId) == IndexOf(L.index, k.configId) && W.overwrite == L.overwrite;
    IndexedAgainAgrees(W, k, status, origin);
  }

  /** The index and cache half of `_add` for a trial its index already lists: the budget is
      recorded without a clash and the recomputation brings the trial's configuration back
      into agreement. */
  lemma IndexedAgainAgrees<C(!new)>(L: Ledger<C>, k: TrialKey, status: StatusType, origin: DataOrigin)
    requires IndexSound(L.index, L.idsConfig, L.data) && CostsShaped(L.data, L.nObjectives)
    requires CachesShaped(L.cost, L.minCost, L.num, L.idsConfig, L.nObjectives)
    requires CachesAgreeExcept(L, k.configId) && k in L.data && k.configId in L.idsConfig
    requires KeyIndexed(L, k) && Indexes(origin, status) && (L.overwrite || k.budget != Some(0.0))
    ensures CachesAgree(WithTrialIndexed(L, k, status, origin).0)
  {
    var id := k.configId;
    var ix0 := IndexOf(L.index, id);
    IndexedAt(L, id);
    RecordListedTrial(ix0, InstanceSeedBudgetKey(k.instance, k.seed, k.budget));
    var ix1 := Record(ix0, InstanceSeedKey(k.instance, k.seed), k.budget).ix;
    RecordStaysIndexed(L.data, ix0, k);
    assert WithTrialIndexed(L, k, status, origin).0 == WithCostOfTrial(WithIndex(L, id, ix1), k);
    RecomputeAgrees(L, k, ix1);
  }

  /** `_add` keeps the caches in agreement with a recomputation unless it desyncs them: it
      indexes a new trial, or indexes an indexed one again by recomputing, or writes a trial
      it does not index and no index lists. */
  lemma TrialAddedAgrees<C(!new)>(L: Ledger<C>, k: TrialKey, v: TrialValue, status: StatusType, origin: DataOrigin)
    requires Valid(L) && CachesAgree(L) && k.configId in L.idsConfig && |v.cost| == L.nObjectives
    requires !Desyncs(L, k, status, origin)
    ensures CachesAgree(TrialAdded(L, k, v, status, origin).0)
  {
    if KeyIndexed(L, k) {
      IndexedAt(L, k.configId);
      RecordListedTrial(IndexOf(L.index, k.configId), InstanceSeedBudgetKey(k.instance, k.seed, k.budget));
      ReindexedAgrees(L, k, v, status, origin);
    } else {
      TrialAddedNewAgrees(L, k, v, status, origin);
    }
  }

  /** `TrialAddedAgrees` for a trial that no index lists yet. */
  lemma TrialAddedNewAgrees<C(!new)>(L: Ledger<C>, k: TrialKey, v: TrialValue, status: StatusType, origin: DataOrigin)
    requires Valid(L) && CachesAgree(L) && k.configId in L.idsConfig && |v.cost| == L.nObjectives
    requires !KeyIndexed(L, k) && !SteppedOnKnownPair(L, k, status, origin)
    ensures CachesAgree(TrialAdded(L, k, v, status, origin).0)
  {
    WithTrialAgrees(L, k, v, origin);
    WithTrialValid(L, k, v, origin);
    var W := WithTrial(L, k, v, origin);
    assert IndexOf(W.index, k.configId) == IndexOf(L.index, k.configId) && W.overwrite == L.overwrite;
    WithTrialIndexedAgrees(W, k, status, origin);
  }

  /** A moving-average step on an instance-seed pair already indexed, whose budgets are
      floats, counts one trial more than the pair count `update_cost` would store: the
      caches of `_add` as written then disagree with a recomputation. */
  lemma SteppedOnKnownPairDisagrees<C(!new)>(L: Ledger<C>, k: TrialKey, v: TrialValue, status: StatusType,
                                             origin: DataOrigin)
    requires Valid(L) && CachesAgree(L) && k.configId in L.idsConfig && |v.cost| == L.nObjectives
    requires SteppedOnKnownPair(L, k, status, origin)
    requires WellFormed(IndexOf(L.index, k.configId))
    requires Record(IndexOf(L.index, k.configId), InstanceSeedKey(k.instance, k.seed), k.budget).Recorded?
    ensures !CachesAgree(TrialAdded(L, k, v, status, origin).0)
  {
    var id := k.configId;
    var ix0 := IndexOf(L.index, id);
    CountIsPairs(L, id);
    WithTrialValid(L, k, v, origin);
    var W := WithTrial(L, k, v, origin);
    assert IndexOf(W.index, id) == ix0 && W.num == L.num && W.overwrite == L.overwrite && k in W.data;
    StepOnKnownPairIndexedDisagrees(W, k, status, origin);
  }

  /** The first case of `SteppedOnKnownPairDisagrees`: the pair's budgets are floats, so
      the budget 0.0 is appended without a clash. */
  lemma FloatPairStepDisagrees<C(!new)>(L: Ledger<C>, k: TrialKey, v: TrialValue, status: StatusType,
                                        origin: DataOrigin)
    requires Valid(L) && CachesAgree(L) && k.configId in L.idsConfig && |v.cost| == L.nObjectives
    requires SteppedOnKnownPair(L, k, status, origin)
    requires forall b :: b in BudgetsOf(IndexOf(L.index, k.configId), InstanceSeedKey(k.instance, k.seed)) ==> b.Some?
    ensures !CachesAgree(TrialAdded(L, k, v, status, origin).0)
  {
    IndexedAt(L, k.configId);
    RecordFloatOnKnownPair(IndexOf(L.index, k.configId), InstanceSeedKey(k.instance, k.seed), k.budget);
    SteppedOnKnownPairDisagrees(L, k, v, status, origin);
  }

  /** The second case of `SteppedOnKnownPairDisagrees`: on seed 0 the budget 0.0 equals the
      seed, so it is neither appended nor checked for its kind, even on a pair whose
      budgets are `None`, and the step still counts one more trial. */
  lemma SeedZeroStepDisagrees<C(!new)>(L: Ledger<C>, k: TrialKey, v: TrialValue, status: StatusType,
                                       origin: DataOrigin)
    requires Valid(L) && CachesAgree(L) && k.configId in L.idsConfig && |v.cost| == L.nObjectives
    requires SteppedOnKnownPair(L, k, status, origin) && k.seed == Some(0)
    ensures !CachesAgree(TrialAdded(L, k, v, status, origin).0)
  {
    IndexedAt(L, k.configId);
    ZeroBudgetOnSeedZeroNotAppended(IndexOf(L.index, k.configId), k.instance);
    SteppedOnKnownPairDisagrees(L, k, v, status, origin);
  }

  /** The index and cache half of `SteppedOnKnownPairDisagrees`. */
  lemma StepOnKnownPairIndexedDisagrees<C(!new)>(L: Ledger<C>, k: TrialKey, status: StatusType, origin: DataOrigin)
    requires IndexSound(L.index, L.idsConfig, L.data) && CostsShaped(L.data, L.nObjectives)
    requires CachesShaped(L.cost, L.minCost, L.num, L.idsConfig, L.nObjectives) && k in L.data
    requires k.configId in L.idsConfig && SteppedOnKnownPair(L, k, status, origin)
    requires WellFormed(IndexOf(L.index, k.configId))
    requires Record(IndexOf(L.index, k.configId), InstanceSeedKey(k.instance, k.seed), k.budget).Recorded?
    requires NumTrials(L.num, k.configId) == |IndexOf(L.index, k.configId)|
    ensures !CachesAgree(WithTrialIndexed(L, k, status, origin).0)
  {
    StepOnKnownPairMiscounts(L, k, status, origin);
    WithTrialIndexedFrame(L, k, status, origin);
    MiscountDisagrees(WithTrialIndexed(L, k, status, origin).0, k.configId);
  }

  /** An agreeing trial count is the number of indexed instance-seed pairs. */
  lemma CountIsPairs<C(!new)>(L: Ledger<C>, id: nat)
    requires CachesAgree(L) && id in L.idsConfig
    ensures NumTrials(L.num, id) == |IndexOf(L.index, id)|
  {
    assert AgreesAt(L.data, IndexOf(L.index, id), CachedCost(L.cost, id), CachedCount(L.num, id), L.nObjectives, id);
  }

  /** A trial count other than the number of indexed pairs breaks agreement. */
  lemma MiscountDisagrees<C(!new)>(L: Ledger<C>, id: nat)
    requires id in L.idsConfig
    requires CachedCount(L.num, id) == Some(|IndexOf(L.index, id)| + 1)
    ensures !CachesAgree(L)
  {
    DisagreesAt(L, id);
  }

  /** One configuration whose caches disagree with a recomputation is enough to break
      agreement. */
  lemma DisagreesAt<C(!new)>(L: Ledger<C>, id: nat)
    requires id in L.idsConfig
    requires !AgreesAt(L.data, IndexOf(L.index, id), CachedCost(L.cost, id), CachedCount(L.num, id), L.nObjectives, id)
    ensures !CachesAgree(L)
  {
  }

  /** After a moving-average step on an instance-seed pair already indexed, whose budgets
      are floats, a trial count that was the number of indexed pairs is one more than that
      number, which the step leaves unchanged. */
  lemma StepOnKnownPairMiscounts<C(!new)>(L: Ledger<C>, k: TrialKey, status: StatusType, origin: DataOrigin)
    requires IndexSound(L.index, L.idsConfig, L.data) && CostsShaped(L.data, L.nObjectives)
    requires CachesShaped(L.cost, L.minCost, L.num, L.idsConfig, L.nObjectives) && k in L.data
    requires SteppedOnKnownPair(L, k, status, origin)
    requires WellFormed(IndexOf(L.index, k.configId))
    requires Record(IndexOf(L.index, k.configId), InstanceSeedKey(k.instance, k.seed), k.budget).Recorded?
    requires NumTrials(L.num, k.configId) == |IndexOf(L.index, k.configId)|
    ensures CachedCount(WithTrialIndexed(L, k, status, origin).0.num, k.configId)
            == Some(|IndexOf(WithTrialIndexed(L, k, status, origin).0.index, k.configId)| + 1)
  {
    var id := k.configId;
    var isk := InstanceSeedKey(k.instance, k.seed);
    var ix0 := IndexOf(L.index, id);
    IndexedAt(L, id);
    RecordOnKnownPairKeepsLength(ix0, isk, k.budget);
    var ix1 := Record(ix0, isk, k.budget).ix;
    RecordStaysIndexed(L.data, ix0, k);
    StepCaches(L, k, ix1);
    var L1 := WithIndex(L, id, ix1);
    var R := WithTrialIndexed(L, k, status, origin).0;
    assert R == WithCostOfTrial(L1, k);
    assert R.index == L1.index && R.num == L.num[id := NumTrials(L.num, id) + 1];
  }

  /** Writing a new cost for the only trial of a configuration without indexing it (it is
      running, or comes from a run on other instances) leaves the cached cost at the old
      one: the caches of `_add` as written then disagree with a recomputation. */
  lemma UnindexedRewriteDisagrees<C(!new)>(L: Ledger<C>, k: TrialKey, v: TrialValue, status: StatusType,
                                           origin: DataOrigin)
    requires Valid(L) && CachesAgree(L) && k.configId in L.idsConfig && |v.cost| == L.nObjectives == 1
    requires IndexOf(L.index, k.configId) == [IskEntry(InstanceSeedKey(k.instance, k.seed), [k.budget])]
    requires !Indexes(origin, status) && k in L.data && v.cost != L.data[k].cost
    ensures !CachesAgree(TrialAdded(L, k, v, status, origin).0)
  {
    var id := k.configId;
    OnlyTrialCached(L, k);
    WithTrialValid(L, k, v, origin);
    RewriteDisagrees(L, k, v, origin);
  }

  /** The data half of `UnindexedRewriteDisagrees`. */
  lemma RewriteDisagrees<C(!new)>(L: Ledger<C>, k: TrialKey, v: TrialValue, origin: DataOrigin)
    requires DataOrdered(L.order, L.data, L.external, L.idsConfig) && CostsShaped(L.data, L.nObjectives)
    requires k.configId in L.idsConfig && |v.cost| == L.nObjectives == 1
    requires IndexOf(L.index, k.configId) == [IskEntry(InstanceSeedKey(k.instance, k.seed), [k.budget])]
    requires k in L.data && v.cost != L.data[k].cost
    requires CachedCost(L.cost, k.configId) == Some(Scalar(L.data[k].cost[0]))
    ensures !CachesAgree(WithTrial(L, k, v, origin))
  {
    var c := L.data[k].cost[0];
    assert L.data[k].cost == [c] && v.cost == [v.cost[0]];
    var W := WithTrial(L, k, v, origin);
    assert W.data[k] == v && W.index == L.index && W.cost == L.cost && W.idsConfig == L.idsConfig;
    StaleCostDisagrees(W, k, c);
  }

  /** An agreeing cache of a configuration whose only trial is `k` holds the cost of `k`. */
  lemma OnlyTrialCached<C(!new)>(L: Ledger<C>, k: TrialKey)
    requires CachesAgree(L) && k.configId in L.idsConfig && L.nObjectives == 1
    requires IndexOf(L.index, k.configId) == [IskEntry(InstanceSeedKey(k.instance, k.seed), [k.budget])]
    requires k in L.data && |L.data[k].cost| == 1
    ensures CachedCost(L.cost, k.configId) == Some(Scalar(L.data[k].cost[0]))
  {
    var id := k.configId;
    assert AgreesAt(L.data, IndexOf(L.index, id), CachedCost(L.cost, id), CachedCount(L.num, id), 1, id);
    OnlyTrialAverage(L.data, IndexOf(L.index, id), id, k, CachedCost(L.cost, id).value);
  }

  /** A cache of a configuration whose only trial is `k` that holds a cost other than that
      of `k` breaks agreement. */
  lemma StaleCostDisagrees<C(!new)>(L: Ledger<C>, k: TrialKey, c: real)
    requires k.configId in L.idsConfig && L.nObjectives == 1
    requires IndexOf(L.index, k.configId) == [IskEntry(InstanceSeedKey(k.instance, k.seed), [k.budget])]
    requires k in L.data && |L.data[k].cost| == 1
    requires CachedCost(L.cost, k.configId) == Some(Scalar(c)) && c != L.data[k].cost[0]
    ensures !CachesAgree(L)
  {
    OnlyTrialAverage(L.data, IndexOf(L.index, k.configId), k.configId, k, Scalar(c));
    DisagreesAt(L, k.configId);
  }

  /** The recomputed cost of a configuration whose only trial is `k` is the cost of `k`. */
  lemma OnlyTrialAverage(data: map<TrialKey, TrialValue>, ix: seq<IskEntry>, id: nat, k: TrialKey, a: CostAgg)
    requires ix == [IskEntry(InstanceSeedKey(k.instance, k.seed), [k.budget])] && id == k.configId
    requires k in data && |data[k].cost| == 1
    ensures Recomputes(data, ix, 1, id, a) ==> a == Scalar(data[k].cost[0])
  {
    var x := InstanceSeedBudgetKey(k.instance, k.seed, k.budget);
    assert MaxObservedBudget([k.budget]) in [k.budget];
    assert ix[1..] == [] && Trials(ix[1..], true) == [];
    assert Trials(ix, true) == EntryTrials(ix[0], true) == [x];
    assert KeyOf(id, x) == k;
    var c := data[k].cost;
    assert CostsOf(data, id, [x]) == Costs([c]);
    assert Column([c], 0) == [c[0]];
    MeanOfSingleton(c[0]);
  }

  /** With every cache update a recomputation, `_add` keeps the caches in agreement with a
      recomputation for every trial, status and origin. */
  lemma TrialAddedRecomputedAgrees<C(!new)>(L: Ledger<C>, k: TrialKey, v: TrialValue, status: StatusType,
                                            origin: DataOrigin)
    requires Valid(L) && CachesAgree(L) && k.configId in L.idsConfig && |v.cost| == L.nObjectives
    ensures CachesAgree(TrialAddedRecomputed(L, k, v, status, origin).0)
  {
    WithTrialAgreesExcept(L, k, v, origin);
    WithTrialValid(L, k, v, origin);
    var W := WithTrial(L, k, v, origin);
    assert IndexOf(W.index, k.configId) == IndexOf(L.index, k.configId);
    if !KeyIndexed(L, k) {
      WithTrialAgrees(L, k, v, origin);
    }
    WithTrialRecomputedAgrees(W, k, status, origin);
  }

  /** `WithTrialRecomputed` brings the trial's configuration into agreement, and leaves
      the others as they were. */
  lemma WithTrialRecomputedAgrees<C(!new)>(L: Ledger<C>, k: TrialKey, status: StatusType, origin: DataOrigin)
    requires IndexSound(L.index, L.idsConfig, L.data) && CostsShaped(L.data, L.nObjectives)
    requires k in L.data && k.configId in L.idsConfig
    requires CachesAgreeExcept(L, k.configId) && (!KeyIndexed(L, k) ==> CachesAgree(L))
    ensures CachesAgree(WithTrialRecomputed(L, k, status, origin).0)
  {
    var id := k.configId;
    var ix0 := IndexOf(L.index, id);
    IndexedAt(L, id);
    if Indexes(origin, status) {
      RecordListedTrial(ix0, InstanceSeedBudgetKey(k.instance, k.seed, k.budget));
      RecordedRecomputedAgrees(L, k, status, origin);
    } else if KeyIndexed(L, k) {
      assert WithIndex(L, id, ix0) == L;
      RecomputedIndexAgrees(L, id, ix0);
    }
  }

  /** `WithTrialRecomputedAgrees` for a trial that is indexed. */
  lemma RecordedRecomputedAgrees<C(!new)>(L: Ledger<C>, k: TrialKey, status: StatusType, origin: DataOrigin)
    requires IndexSound(L.index, L.idsConfig, L.data) && CostsShaped(L.data, L.nObjectives)
    requires k in L.data && k.configId in L.idsConfig && Indexes(origin, status)
    requires CachesAgreeExcept(L, k.configId)
    requires Record(IndexOf(L.index, k.configId), InstanceSeedKey(k.instance, k.seed), k.budget).MixedBudgetTypes?
             ==> CachesAgree(L)
    ensures CachesAgree(WithTrialRecomputed(L, k, status, origin).0)
  {
    var id := k.configId;
    var ix0 := IndexOf(L.index, id);
    IndexedAt(L, id);
    var rec := Record(ix0, InstanceSeedKey(k.instance, k.seed), k.budget);
    if rec.MixedBudgetTypes? {
      assert WithTrialRecomputed(L, k, status, origin).0 == WithIndex(L, id, ix0);
      IndexCreatedAgrees(L, id);
    } else {
      RecordStaysIndexed(L.data, ix0, k);
      assert WithTrialRecomputed(L, k, status, origin).0 == WithCostRecomputed(WithIndex(L, id, rec.ix), id);
      RecomputedIndexAgrees(L, id, rec.ix);
    }
  }

  /** `update_cost` after the index of configuration `id` is set to a non-empty `ix` brings
      every configuration into agreement, whatever the old caches of `id` were. */
  lemma RecomputedIndexAgrees<C(!new)>(L: Ledger<C>, id: nat, ix: seq<IskEntry>)
    requires CachesAgreeExcept(L, id) && Indexed(L.data, ix, id, L.nObjectives) && |ix| > 0
    ensures CachesAgree(WithCostRecomputed(WithIndex(L, id, ix), id))
  {
    var nObj := L.nObjectives;
    RecomputedAgrees(L.data, ix, id, nObj);
    assert IndexOf(WithIndex(L, id, ix).index, id) == ix;
    CachesRewrittenAgree(L, id, ix, RecomputedCostOf(L.data, ix, id, nObj), |MaxKeys(ix)|,
                         L.minCost[id := RecomputedMinCostOf(L.data, ix, id, nObj)]);
  }

  /** The end of `add` keeps the caches in agreement unless the trial it adds desyncs them. */
  lemma StoredAgrees<C(!new)>(L: Ledger<C>, k: TrialKey, v: TrialValue, origin: DataOrigin, forceUpdate: bool)
    requires Valid(L) && CachesAgree(L) && k.configId in L.idsConfig && |v.cost| == L.nObjectives
    requires !Desyncs(L, k, v.status, origin)
    ensures CachesAgree(Stored(L, k, v, origin, forceUpdate).0)
  {
    if L.overwrite || forceUpdate || k !in L.data {
      TrialAddedAgrees(L, k, v, v.status, origin);
    }
  }

  /** A configuration that is not registered has no index, so no trial of it desyncs. */
  lemma UnregisteredQuiet<C(!new)>(L: Ledger<C>, k: TrialKey, status: StatusType, origin: DataOrigin)
    requires IndexSound(L.index, L.idsConfig, L.data) && k.configId !in L.idsConfig
    ensures !Desyncs(L, k, status, origin)
  {
    assert IndexOf(L.index, k.configId) == [];
  }

  /** `add` keeps the caches in agreement with a recomputation unless the trial it adds to
      an already registered configuration desyncs them. */
  lemma AddedAgrees<C(!new)>(L: Ledger<C>, config: C, instance: Option<string>, seed: Option<int>, budget: Budget,
                             v: TrialValue, origin: DataOrigin, forceUpdate: bool, serializable: bool)
    requires Valid(L) && CachesAgree(L) && (|v.cost| >= 1 || L.nObjectives >= 1)
    requires config in L.configIds ==>
               !Desyncs(L, TrialKey(L.configIds[config], instance, seed, budget), v.status, origin)
    ensures CachesAgree(Added(L, config, instance, seed, budget, v, origin, forceUpdate, serializable).0)
  {
    var L1 := WithConfig(L, config);
    if (L1.nObjectives != -1 && L1.nObjectives != |v.cost|) || !serializable {
      RegisteredAgrees(L, config, instance, seed, budget, v, origin, forceUpdate, serializable);
    } else {
      StoredAfterRegisteringAgrees(L, config, instance, seed, budget, v, origin, forceUpdate);
    }
  }

  /** `add` that stops before storing the trial keeps the caches in agreement. */
  lemma RegisteredAgrees<C(!new)>(L: Ledger<C>, config: C, instance: Option<string>, seed: Option<int>,
                                  budget: Budget, v: TrialValue, origin: DataOrigin, forceUpdate: bool,
                                  serializable: bool)
    requires Valid(L) && CachesAgree(L) && (|v.cost| >= 1 || L.nObjectives >= 1)
    requires var L1 := WithConfig(L, config); (L1.nObjectives != -1 && L1.nObjectives != |v.cost|) || !serializable
    ensures CachesAgree(Added(L, config, instance, seed, budget, v, origin, forceUpdate, serializable).0)
  {
    WithConfigValid(L, config);
    WithConfigAgrees(L, config);
    var L1 := WithConfig(L, config);
    if L1.nObjectives == -1 || L1.nObjectives == |v.cost| {
      WithObjectivesAgrees(L1, |v.cost|);
    }
  }

  /** `add` that reaches the end keeps the caches in agreement unless the trial desyncs them. */
  lemma StoredAfterRegisteringAgrees<C(!new)>(L: Ledger<C>, config: C, instance: Option<string>, seed: Option<int>,
                                              budget: Budget, v: TrialValue, origin: DataOrigin, forceUpdate: bool)
    requires Valid(L) && CachesAgree(L) && |v.cost| >= 1
    requires config in L.configIds ==>
               !Desyncs(L, TrialKey(L.configIds[config], instance, seed, budget), v.status, origin)
    requires var L1 := WithConfig(L, config); L1.nObjectives == -1 || L1.nObjectives == |v.cost|
    ensures CachesAgree(Added(L, config, instance, seed, budget, v, origin, forceUpdate, true).0)
  {
    WithConfigValid(L, config);
    WithConfigAgrees(L, config);
    var L1 := WithConfig(L, config);
    WithObjectivesValid(L1, |v.cost|);
    WithObjectivesAgrees(L1, |v.cost|);
    var L2 := WithObjectives(L1, |v.cost|);
    var k := TrialKey(L1.configIds[config], instance, seed, budget);
    if config !in L.configIds {
      UnregisteredQuiet(L, k, v.status, origin);
    }
    assert L2.index == L.index && L2.overwrite == L.overwrite;
    StoredAgrees(L2, k, v, origin, forceUpdate);
  }

  /** `_add` writes the trial and its origin, recomputes the bounds from the trials, and
      changes nothing else besides the index and the caches; without indexing it changes
      neither of those. */
  lemma TrialAddedFrame<C(!new)>(L: Ledger<C>, k: TrialKey, v: TrialValue, status: StatusType, origin: DataOrigin)
    requires Valid(L) && k.configId in L.idsConfig && |v.cost| == L.nObjectives
    ensures var L' := TrialAdded(L, k, v, status, origin).0;
      && Valid(L')
      && L' == L.(order := L'.order, data := L.data[k := v], external := L.external[k := origin],
                  bounds := L'.bounds, index := L'.index, cost := L'.cost, num := L'.num, minCost := L'.minCost)
      && L'.order == (if k in L.data then L.order else L.order + [k])
      && L'.bounds == BoundsOf(L')
      && (!Indexes(origin, status) ==> L'.index == L.index && L'.cost == L.cost && L'.num == L.num && L'.minCost == L.minCost)
  {
    TrialAddedValid(L, k, v, status, origin);
    WithTrialValid(L, k, v, origin);
    WithTrialIndexedFrame(WithTrial(L, k, v, origin), k, status, origin);
  }

  /** `_add` reports a clash exactly when it indexes the trial and its budget differs in
      kind from those recorded for its instance-seed pair; otherwise an indexed trial is
      listed in its configuration's index whenever its pair was new or the guard of
      `_add` let its budget through, and the other pairs keep their budgets. */
  lemma TrialAddedIndexes<C(!new)>(L: Ledger<C>, k: TrialKey, v: TrialValue, status: StatusType, origin: DataOrigin)
    requires Valid(L) && k.configId in L.idsConfig && |v.cost| == L.nObjectives
    ensures var r := TrialAdded(L, k, v, status, origin); var isk := InstanceSeedKey(k.instance, k.seed);
      && (r.1 <==> Indexes(origin, status) && Record(IndexOf(L.index, k.configId), isk, k.budget).MixedBudgetTypes?)
      && ((Indexes(origin, status) && !r.1 && (Find(IndexOf(L.index, k.configId), isk).None? || BudgetAppends(k.budget, isk)))
            ==> KeyIndexed(r.0, k))
      && (forall x :: x in Trials(IndexOf(L.index, k.configId), false) ==> x in Trials(IndexOf(r.0.index, k.configId), false))
  {
    WithTrialValid(L, k, v, origin);
    var W := WithTrial(L, k, v, origin);
    assert W.index == L.index;
    WithTrialIndexedIndexes(W, k, status, origin);
  }

  lemma WithTrialIndexedIndexes<C(!new)>(L: Ledger<C>, k: TrialKey, status: StatusType, origin: DataOrigin)
    requires IndexSound(L.index, L.idsConfig, L.data) && CostsShaped(L.data, L.nObjectives)
    requires CachesShaped(L.cost, L.minCost, L.num, L.idsConfig, L.nObjectives) && k in L.data
    ensures var r := WithTrialIndexed(L, k, status, origin); var isk := InstanceSeedKey(k.instance, k.seed);
      && (r.1 <==> Indexes(origin, status) && Record(IndexOf(L.index, k.configId), isk, k.budget).MixedBudgetTypes?)
      && ((Indexes(origin, status) && !r.1 && (Find(IndexOf(L.index, k.configId), isk).None? || BudgetAppends(k.budget, isk)))
            ==> KeyIndexed(r.0, k))
      && (forall x :: x in Trials(IndexOf(L.index, k.configId), false) ==> x in Trials(IndexOf(r.0.index, k.configId), false))
  {
    if Indexes(origin, status) {
      IndexedAt(L, k.configId);
      var rec := Record(IndexOf(L.index, k.configId), InstanceSeedKey(k.instance, k.seed), k.budget);
      if rec.Recorded? {
        RecordedIndexes(L, k, status, origin, rec.ix);
      }
    }
  }

  /** When `_add` records the budget of an indexed trial, the index of its configuration
      becomes the recorded one. */
  lemma RecordedIndexes<C(!new)>(L: Ledger<C>, k: TrialKey, status: StatusType, origin: DataOrigin,
                                 ix1: seq<IskEntry>)
    requires IndexSound(L.index, L.idsConfig, L.data) && CostsShaped(L.data, L.nObjectives)
    requires CachesShaped(L.cost, L.minCost, L.num, L.idsConfig, L.nObjectives) && k in L.data
    requires Indexes(origin, status)
    requires Record(IndexOf(L.index, k.configId), InstanceSeedKey(k.instance, k.seed), k.budget) == Recorded(ix1)
    ensures var r := WithTrialIndexed(L, k, status, origin); var isk := InstanceSeedKey(k.instance, k.seed);
      && !r.1
      && ((Find(IndexOf(L.index, k.configId), isk).None? || BudgetAppends(k.budget, isk)) ==> KeyIndexed(r.0, k))
      && (forall x :: x in Trials(IndexOf(L.index, k.configId), false) ==> x in Trials(IndexOf(r.0.index, k.configId), false))
  {
    var id := k.configId;
    var isk := InstanceSeedKey(k.instance, k.seed);
    var ix0 := IndexOf(L.index, id);
    IndexedAt(L, id);
    RecordStaysIndexed(L.data, ix0, k);
    WithCostOfTrialFrame(WithIndex(L, id, ix1), k);
    assert WithTrialIndexed(L, k, status, origin) == (WithCostOfTrial(WithIndex(L, id, ix1), k), false);
    forall x | x in Trials(ix0, false) ensures x in Trials(ix1, false) {
      RecordTrials(ix0, isk, k.budget, x);
    }
    RecordTrials(ix0, isk, k.budget, InstanceSeedBudgetKey(k.instance, k.seed, k.budget));
  }

  /** The bounds enclose, objective by objective, the cost of every successful trial, and
      are `(inf, -inf)` for every objective when no trial succeeded. */
  lemma BoundsOfEnclose<C(!new)>(L: Ledger<C>)
    requires DataOrdered(L.order, L.data, L.external, L.idsConfig) && CostsShaped(L.data, L.nObjectives)
    ensures |BoundsOf(L)| == (if L.nObjectives < 0 then 0 else L.nObjectives)
    ensures forall k, j :: k in L.data && L.data[k].status == Success && 0 <= j < L.nObjectives ==>
              BoundsOf(L)[j].Bound? && BoundsOf(L)[j].lo <= L.data[k].cost[j] <= BoundsOf(L)[j].hi
    ensures (forall k :: k in L.data ==> L.data[k].status != Success) ==>
              forall j :: 0 <= j < |BoundsOf(L)| ==> BoundsOf(L)[j] == Unbounded
  {
    forall i | 0 <= i < |L.order| ensures L.order[i] in L.data && |L.data[L.order[i]].cost| == L.nObjectives {
      assert L.order[i] in L.order;
    }
    var succ := SuccessCosts(L.order, L.data);
    SuccessCostsRectangular(L.order, L.data, L.nObjectives);
    if L.nObjectives >= 0 {
      BoundsEnclose(succ, L.nObjectives);
    }
    forall k, j | k in L.data && L.data[k].status == Success && 0 <= j < L.nObjectives
      ensures BoundsOf(L)[j].Bound? && BoundsOf(L)[j].lo <= L.data[k].cost[j] <= BoundsOf(L)[j].hi
    {
      assert k in L.order;
      var i :| 0 <= i < |L.order| && L.order[i] == k;
      SuccessCostsMembership(L.order, L.data, L.data[k].cost);
      var m :| 0 <= m < |succ| && succ[m] == L.data[k].cost;
    }
    if forall k :: k in L.data ==> L.data[k].status != Success {
      if |succ| > 0 {
        SuccessCostsMembership(L.order, L.data, succ[0]);
        assert false;
      }
    }
  }

  /** The end of `add`: the trial is ignored, and nothing changes, exactly when it is
      recorded and neither the ledger nor the caller asks to overwrite it; otherwise `_add`
      writes it, and the outcome is a clash exactly when `_add` raises one. */
  lemma StoredOutcome<C(!new)>(L: Ledger<C>, k: TrialKey, v: TrialValue, origin: DataOrigin, forceUpdate: bool)
    requires Valid(L) && k.configId in L.idsConfig && |v.cost| == L.nObjectives
    ensures var r := Stored(L, k, v, origin, forceUpdate);
      && (r.1 == Ignored <==> !L.overwrite && !forceUpdate && k in L.data)
      && (r.1 == Ignored ==> r.0 == L)
      && (r.1 != Ignored ==> r.0.data == L.data[k := v] && r.1 in {Inserted, BudgetTypeClash})
      && r.0.configIds == L.configIds && r.0.nObjectives == L.nObjectives && r.0.overwrite == L.overwrite
  {
    if L.overwrite || forceUpdate || k !in L.data {
      TrialAddedFrame(L, k, v, v.status, origin);
    }
  }

  /** How `add` ends: a cost of the wrong length is refused, then a payload that is not
      serialisable, and a recorded trial is ignored unless overwriting is asked for. */
  lemma AddedOutcome<C(!new)>(L: Ledger<C>, config: C, instance: Option<string>, seed: Option<int>, budget: Budget,
                              v: TrialValue, origin: DataOrigin, forceUpdate: bool, serializable: bool)
    requires Valid(L) && (|v.cost| >= 1 || L.nObjectives >= 1)
    ensures var r := Added(L, config, instance, seed, budget, v, origin, forceUpdate, serializable);
      var fits := L.nObjectives == -1 || L.nObjectives == |v.cost|;
      && (r.1 == ObjectiveCountMismatch <==> !fits)
      && (r.1 == NotSerializable <==> fits && !serializable)
      && (r.1 == Ignored <==>
            && fits && serializable && !L.overwrite && !forceUpdate && config in L.configIds
            && TrialKey(L.configIds[config], instance, seed, budget) in L.data)
  {
    var L1 := WithConfig(L, config);
    var r := Added(L, config, instance, seed, budget, v, origin, forceUpdate, serializable);
    if L1.nObjectives != -1 && L1.nObjectives != |v.cost| {
      assert r == (L1, ObjectiveCountMismatch);
    } else if !serializable {
      assert r == (WithObjectives(L1, |v.cost|), NotSerializable);
    } else {
      StoredAfterRegisteringOutcome(L, config, instance, seed, budget, v, origin, forceUpdate);
    }
  }

  /** What `add` writes: the configuration is registered (keeping its id when it is known)
      whatever happens next; the objective count is fixed by the first cost; only an
      inserted trial (or one whose indexing clashed) is written. */
  lemma AddedWrites<C(!new)>(L: Ledger<C>, config: C, instance: Option<string>, seed: Option<int>, budget: Budget,
                             v: TrialValue, origin: DataOrigin, forceUpdate: bool, serializable: bool)
    requires Valid(L) && (|v.cost| >= 1 || L.nObjectives >= 1)
    ensures var r := Added(L, config, instance, seed, budget, v, origin, forceUpdate, serializable);
      && config in r.0.configIds
      && (config in L.configIds ==> r.0.configIds[config] == L.configIds[config])
      && ((L.nObjectives == -1 || L.nObjectives == |v.cost|) ==> r.0.nObjectives == |v.cost|)
      && (r.1 in {Inserted, BudgetTypeClash} ==>
            r.0.data == L.data[TrialKey(r.0.configIds[config], instance, seed, budget) := v])
      && (r.1 !in {Inserted, BudgetTypeClash} ==> r.0.data == L.data)
  {
    var L1 := WithConfig(L, config);
    var r := Added(L, config, instance, seed, budget, v, origin, forceUpdate, serializable);
    if L1.nObjectives != -1 && L1.nObjectives != |v.cost| {
      assert r == (L1, ObjectiveCountMismatch);
    } else if !serializable {
      assert r == (WithObjectives(L1, |v.cost|), NotSerializable);
    } else {
      StoredAfterRegisteringOutcome(L, config, instance, seed, budget, v, origin, forceUpdate);
    }
  }

  /** `add` registers its configuration and changes no other configuration's id, nor
      whether the run history overwrites. */
  lemma AddedIds<C(!new)>(L: Ledger<C>, config: C, instance: Option<string>, seed: Option<int>, budget: Budget,
                          v: TrialValue, origin: DataOrigin, forceUpdate: bool, serializable: bool)
    requires Valid(L) && (|v.cost| >= 1 || L.nObjectives >= 1)
    ensures var r := Added(L, config, instance, seed, budget, v, origin, forceUpdate, serializable);
      && r.0.configIds == WithConfig(L, config).configIds
      && r.0.overwrite == L.overwrite
  {
    var L1 := WithConfig(L, config);
    var r := Added(L, config, instance, seed, budget, v, origin, forceUpdate, serializable);
    if L1.nObjectives != -1 && L1.nObjectives != |v.cost| {
      assert r == (L1, ObjectiveCountMismatch);
    } else if !serializable {
      assert r == (WithObjectives(L1, |v.cost|), NotSerializable);
    } else {
      StoredAfterRegisteringOutcome(L, config, instance, seed, budget, v, origin, forceUpdate);
    }
  }

  lemma StoredAfterRegisteringOutcome<C(!new)>(L: Ledger<C>, config: C, instance: Option<string>, seed: Option<int>,
                                               budget: Budget, v: TrialValue, origin: DataOrigin, forceUpdate: bool)
    requires Valid(L) && |v.cost| >= 1 && (L.nObjectives == -1 || L.nObjectives == |v.cost|)
    ensures var r := Added(L, config, instance, seed, budget, v, origin, forceUpdate, true);
      var L1 := WithConfig(L, config);
      var k := TrialKey(L1.configIds[config], instance, seed, budget);
      && (r.1 == Ignored <==> !L.overwrite && !forceUpdate && config in L.configIds && k in L.data)
      && (r.1 == Ignored ==> r.0.data == L.data)
      && (r.1 != Ignored ==> r.0.data == L.data[k := v] && r.1 in {Inserted, BudgetTypeClash})
      && r.0.configIds == L1.configIds && r.0.nObjectives == |v.cost| && r.0.overwrite == L.overwrite
  {
    AddedStores(L, config, instance, seed, budget, v, origin, forceUpdate);
    var L1 := WithConfig(L, config);
    var L2 := WithObjectives(L1, |v.cost|);
    var k := TrialKey(L1.configIds[config], instance, seed, budget);
    StoredOutcome(L2, k, v, origin, forceUpdate);
    if config !in L.configIds {
      assert k.configId !in L.idsConfig;
    }
  }

  /** A sequence that lists the keys of a map exactly once is as long as the map. */
  lemma DistinctLength<K, V>(s: seq<K>, m: map<K, V>)
    requires Distinct(s) && forall k :: k in m <==> k in s
    ensures |s| == |m|
  {
    if |s| == 0 {
      assert m == map[];
    } else {
      var x := s[|s| - 1];
      var init := s[..|s| - 1];
      var m' := map k | k in m && k != x :: m[k];
      assert forall k :: k in init ==> k in s;
      assert forall k :: k in m' <==> k in init by {
        forall k ensures k in m' <==> k in init {
          if k in s && k != x {
            var i :| 0 <= i < |s| && s[i] == k;
            assert i < |s| - 1;
            assert init[i] == k;
          }
        }
      }
      DistinctLength(init, m');
      assert m'.Keys + {x} == m.Keys;
    }
  }
}
