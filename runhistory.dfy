/** The run history as an object whose fields its operations update in place. Every
    mutating operation is proved to lead from the state `State()` to the state the
    corresponding function of `Ledgers` or `BulkUpdates` describes, so whatever is proved
    about those functions (validity, agreement of the caches, merged trials) holds of the
    object; every query is proved to return what the corresponding function returns, or is
    specified outright. */
module RunHistories {
  import opened TrialData
  import opened BudgetIndex
  import opened CostModel
  import opened Ledgers
  import opened BulkUpdates

  /** The trials on one of the given budgets, in insertion order. */
  function TrialsOnBudgets(order: seq<TrialKey>, budgets: seq<Budget>): (r: seq<TrialKey>)
    ensures forall k :: k in r <==> k in order && k.budget in budgets
    ensures |r| <= |order|
  {
    if |order| == 0 then []
    else
      var init := order[..|order| - 1];
      var k := order[|order| - 1];
      assert forall t :: t in order <==> t in init || t == k;
      TrialsOnBudgets(init, budgets) + (if k.budget in budgets then [k] else [])
  }

  /** The loop of `_update_objective_bounds`: the costs of the successful trials, in
      insertion order. */
  method CollectSuccessCosts(order: seq<TrialKey>, data: map<TrialKey, TrialValue>) returns (allCosts: seq<seq<real>>)
    requires forall j :: 0 <= j < |order| ==> order[j] in data
    ensures allCosts == SuccessCosts(order, data)
  {
    allCosts := [];
    var i := 0;
    while i < |order|
      invariant 0 <= i <= |order|
      invariant allCosts == SuccessCosts(order[..i], data)
    {
      var v := data[order[i]];
      if v.status == Success {
        allCosts := allCosts + [v.cost];
      }
      i := i + 1;
      assert order[..i][..i - 1] == order[..i - 1];
    }
    assert order[..|order|] == order;
  }

  class RunHistory<C(==,!new)> {
    const overwriteExistingTrials: bool
    var order: seq<TrialKey>
    var data: map<TrialKey, TrialValue>
    var external: map<TrialKey, DataOrigin>
    /** Per configuration id, the budgets recorded per instance-seed pair. */
    var index: map<nat, seq<IskEntry>>
    var configIds: map<C, nat>
    var idsConfig: map<nat, C>
    var nId: nat
    var costPerConfig: map<nat, CostAgg>
    var minCostPerConfig: map<nat, CostAgg>
    var numTrialsPerConfig: map<nat, nat>
    var nObjectives: int
    var objectiveBounds: seq<Bound>

    /** The fields, as one value. */
    function State(): Ledger<C>
      reads this
    {
      Ledger(overwriteExistingTrials, order, data, external, index, configIds, idsConfig, nId,
             costPerConfig, minCostPerConfig, numTrialsPerConfig, nObjectives, objectiveBounds)
    }

    ghost predicate Valid()
      reads this
    {
      Ledgers.Valid(State())
    }

    /** A run history starts empty. */
    constructor(overwriteExistingTrials: bool)
      ensures State() == EmptyLedger(overwriteExistingTrials) && Valid()
    {
      this.overwriteExistingTrials := overwriteExistingTrials;
      order, data, external, index := [], map[], map[], map[];
      configIds, idsConfig, nId := map[], map[], 0;
      costPerConfig, minCostPerConfig, numTrialsPerConfig := map[], map[], map[];
      nObjectives, objectiveBounds := -1, [];
    }

    /** `reset`: forgets every trial, configuration and cache. */
    method Reset()
      modifies this
      ensures State() == EmptyLedger(overwriteExistingTrials)
    {
      ClearTrials();
      ClearIndex();
      ClearConfigs();
      ClearCaches();
    }

    /** The cached costs, lowest costs and trial counts are forgotten. */
    method ClearCaches()
      modifies this`costPerConfig, this`minCostPerConfig, this`numTrialsPerConfig
      ensures State() == old(State()).(cost := map[], minCost := map[], num := map[])
    {
      costPerConfig, minCostPerConfig, numTrialsPerConfig := map[], map[], map[];
    }

    /** The trials and their origins are forgotten. */
    method ClearTrials()
      modifies this`order, this`data, this`external
      ensures State() == old(State()).(order := [], data := map[], external := map[])
    {
      order, data, external := [], map[], map[];
    }

    /** The index, the objective count and the bounds are forgotten. */
    method ClearIndex()
      modifies this`index, this`nObjectives, this`objectiveBounds
      ensures State() == old(State()).(index := map[], nObjectives := -1, bounds := [])
    {
      index, nObjectives, objectiveBounds := map[], -1, [];
    }

    /** The configurations and their ids are forgotten. */
    method ClearConfigs()
      modifies this`configIds, this`idsConfig, this`nId
      ensures State() == old(State()).(configIds := map[], idsConfig := map[], nId := 0)
    {
      configIds, idsConfig, nId := map[], map[], 0;
    }

    /** `_update_objective_bounds`: collects the costs of the successful trials in
        insertion order and stores their bounds; nothing else changes. */
    method UpdateObjectiveBounds()
      requires DataOrdered(order, data, external, idsConfig) && Ledgers.CostsShaped(data, nObjectives)
      modifies this`objectiveBounds
      ensures State() == old(State()).(bounds := BoundsOf(old(State())))
    {
      assert forall j :: 0 <= j < |order| ==> order[j] in data by {
        forall j | 0 <= j < |order| ensures order[j] in data {
          assert order[j] in order;
        }
      }
      var allCosts := CollectSuccessCosts(order, data);
      ghost var L := State();
      assert BoundsOf(L) == ObjectiveBoundsOf(allCosts, nObjectives) by {
        assert forall j :: 0 <= j < |order| ==> order[j] in data && |data[order[j]].cost| == nObjectives by {
          forall j | 0 <= j < |order| ensures order[j] in data && |data[order[j]].cost| == nObjectives {
            assert order[j] in order;
          }
        }
        SuccessCostsRectangular(order, data, nObjectives);
      }
      objectiveBounds := ObjectiveBoundsOf(allCosts, nObjectives);
    }

    /** `incremental_update_cost`: one moving-average step of the cached cost of `config`
        with the new cost `c`, and one more trial counted. `known` is false (a `KeyError`
        in the source) for an unknown configuration, which changes nothing. */
    method IncrementalUpdateCost(config: C, c: seq<real>) returns (known: bool)
      requires nObjectives >= 1 && |c| == nObjectives
      requires CachesShaped(costPerConfig, minCostPerConfig, numTrialsPerConfig, idsConfig, nObjectives)
      modifies this`costPerConfig, this`numTrialsPerConfig
      ensures known <==> config in configIds
      ensures known ==> State() == WithCostStep(old(State()), configIds[config], c)
      ensures !known ==> State() == old(State())
    {
      if config !in configIds {
        return false;
      }
      var id := configIds[config];
      var n := NumTrials(numTrialsPerConfig, id);
      costPerConfig := costPerConfig[id := IncrementalCost(CachedCost(costPerConfig, id), n, c, nObjectives)];
      numTrialsPerConfig := numTrialsPerConfig[id := n + 1];
      known := true;
    }

    /** `update_cost`: the cost of `config` becomes the average cost over its maximal-budget
        trials, its trial count their number, and its lowest cost the minimum cost over all
        its trials. `known` is false (a `KeyError` in the source) for an unknown
        configuration, which changes nothing. */
    method UpdateCost(config: C) returns (known: bool)
      requires IndexSound(index, idsConfig, data) && Ledgers.CostsShaped(data, nObjectives)
      modifies this`costPerConfig, this`numTrialsPerConfig, this`minCostPerConfig
      ensures known <==> config in configIds
      ensures known ==> State() == WithCostRecomputed(old(State()), configIds[config])
      ensures !known ==> State() == old(State())
    {
      if config !in configIds {
        return false;
      }
      var id := configIds[config];
      IndexedAt(State(), id);
      var ix := IndexOf(index, id);
      var instSeedBudgets := MaxKeys(ix);
      costPerConfig := costPerConfig[id := AverageOf(IndexedCosts(data, ix, id, nObjectives, instSeedBudgets), nObjectives)];
      numTrialsPerConfig := numTrialsPerConfig[id := |instSeedBudgets|];
      var allIsb := AllKeys(ix);
      minCostPerConfig := minCostPerConfig[id := MinOf(IndexedCosts(data, ix, id, nObjectives, allIsb), nObjectives)];
      known := true;
    }

    /** The first half of `_add`: the trial is written with its origin (keeping its
        position when it was already recorded) and the bounds are recomputed. */
    method WriteTrial(k: TrialKey, v: TrialValue, origin: DataOrigin)
      requires Valid() && k.configId in idsConfig && |v.cost| == nObjectives
      modifies this`order, this`data, this`external, this`objectiveBounds
      ensures State() == WithTrial(old(State()), k, v, origin)
    {
      ghost var L0 := State();
      if k !in data {
        order := order + [k];
      }
      data := data[k := v];
      external := external[k := origin];
      assert State() == WithTrialData(L0, k, v, origin);
      TrialDataOrdered(L0, k, v, origin);
      UpdateObjectiveBounds();
    }

    /** The second half of `_add`, on a trial already written: a trial that is indexed has
        its budget recorded for its instance-seed pair, and the cost of its configuration is
        updated by a moving-average step (budget 0 without overwriting) or recomputed.
        `clash` reports the error raised for a budget of the other kind. */
    method IndexTrial(k: TrialKey, status: StatusType, origin: DataOrigin) returns (clash: bool)
      requires Valid() && k in data
      modifies this`index, this`costPerConfig, this`numTrialsPerConfig, this`minCostPerConfig
      ensures (State(), clash) == WithTrialIndexed(old(State()), k, status, origin)
    {
      if !Indexes(origin, status) {
        return false;
      }
      ghost var S := State();
      var id := k.configId;
      var ix0 := IndexOf(index, id);
      IndexedAt(S, id);
      var rec := Record(ix0, InstanceSeedKey(k.instance, k.seed), k.budget);
      if rec.MixedBudgetTypes? {
        index := index[id := ix0];
        return true;
      }
      RecordStaysIndexed(data, ix0, k);
      IndexReplaced(S, id, rec.ix);
      ghost var S2 := WithIndex(S, id, rec.ix);
      assert WithTrialIndexed(S, k, status, origin) == (WithCostOfTrial(S2, k), false);
      index := index[id := rec.ix];
      assert State() == S2;
      RefreshCost(k);
      clash := false;
    }

    /** The cache update of `_add` for the just-indexed trial `k`: a moving-average step
        (budget 0 without overwriting) or a recomputation of its configuration's cost. */
    method RefreshCost(k: TrialKey)
      requires k in data && k.configId in idsConfig && IdsBijective(configIds, idsConfig, nId)
      requires IndexSound(index, idsConfig, data) && Ledgers.CostsShaped(data, nObjectives)
      requires CachesShaped(costPerConfig, minCostPerConfig, numTrialsPerConfig, idsConfig, nObjectives)
      modifies this`costPerConfig, this`numTrialsPerConfig, this`minCostPerConfig
      ensures State() == WithCostOfTrial(old(State()), k)
    {
      IndexedAt(State(), k.configId);
      var config := idsConfig[k.configId];
      assert configIds[config] == k.configId;
      if !overwriteExistingTrials && k.budget == Some(0.0) {
        var _ := IncrementalUpdateCost(config, data[k].cost);
      } else {
        var _ := UpdateCost(config);
      }
    }

    /** `_add`: the trial is written, then indexed. */
    method AddTrial(k: TrialKey, v: TrialValue, status: StatusType, origin: DataOrigin) returns (clash: bool)
      requires Valid() && k.configId in idsConfig && |v.cost| == nObjectives
      modifies this
      ensures (State(), clash) == TrialAdded(old(State()), k, v, status, origin)
    {
      ghost var L0 := State();
      WriteTrial(k, v, origin);
      WithTrialValid(L0, k, v, origin);
      clash := IndexTrial(k, status, origin);
    }

    /** The start of `add`: a configuration seen for the first time gets the next id. */
    method RegisterConfig(config: C) returns (configId: nat)
      modifies this`configIds, this`idsConfig, this`nId
      ensures State() == WithConfig(old(State()), config)
      ensures configId == configIds[config]
    {
      if config in configIds {
        return configIds[config];
      }
      nId := nId + 1;
      configIds := configIds[config := nId];
      idsConfig := idsConfig[nId := config];
      configId := nId;
    }

    /** `add`: the configuration is registered, the objective count fixed by the first
        cost or checked, the payload checked for JSON serialisability (`serializable`
        stands for that check), and the trial handed to `_add` unless it is already recorded
        and neither the run history nor the caller asks to overwrite it. */
    method Add(config: C, cost: seq<real>, time: real, status: StatusType, instance: Option<string>,
               seed: Option<int>, budget: Budget, starttime: real, endtime: real, additionalInfo: string,
               origin: DataOrigin, forceUpdate: bool, serializable: bool) returns (outcome: AddOutcome)
      requires Valid() && (|cost| >= 1 || nObjectives >= 1)
      modifies this
      ensures (State(), outcome) == Added(old(State()), config, instance, seed, budget,
                                          TrialValue(cost, time, status, starttime, endtime, additionalInfo),
                                          origin, forceUpdate, serializable)
    {
      ghost var L0 := State();
      var v := TrialValue(cost, time, status, starttime, endtime, additionalInfo);
      var configId := RegisterConfig(config);
      ghost var L1 := State();
      var fits := FixObjectives(|cost|);
      if !fits {
        assert Added(L0, config, instance, seed, budget, v, origin, forceUpdate, serializable) == (L1, ObjectiveCountMismatch);
        return ObjectiveCountMismatch;
      }
      if !serializable {
        assert Added(L0, config, instance, seed, budget, v, origin, forceUpdate, serializable) == (State(), NotSerializable);
        return NotSerializable;
      }
      outcome := StoreAdmitted(L0, config, configId, instance, seed, budget, v, origin, forceUpdate);
    }

    /** The rest of `add`, once the configuration is registered, the objective count fits
        and the payload is serialisable. */
    method StoreAdmitted(ghost L0: Ledger<C>, config: C, configId: nat, instance: Option<string>, seed: Option<int>,
                         budget: Budget, v: TrialValue, origin: DataOrigin, forceUpdate: bool)
      returns (outcome: AddOutcome)
      requires Ledgers.Valid(L0) && |v.cost| >= 1 && (L0.nObjectives == -1 || L0.nObjectives == |v.cost|)
      requires State() == WithObjectives(WithConfig(L0, config), |v.cost|) && configId == configIds[config]
      modifies this
      ensures (State(), outcome) == Added(L0, config, instance, seed, budget, v, origin, forceUpdate, true)
    {
      AddedStores(L0, config, instance, seed, budget, v, origin, forceUpdate);
      outcome := Store(TrialKey(configId, instance, seed, budget), v, origin, forceUpdate);
    }

    /** The objective count is fixed by the first cost; a later cost must match it. */
    method FixObjectives(n: nat) returns (fits: bool)
      modifies this`nObjectives
      ensures fits <==> old(nObjectives) == -1 || old(nObjectives) == n
      ensures fits ==> State() == WithObjectives(old(State()), n)
      ensures !fits ==> State() == old(State())
    {
      if nObjectives == -1 {
        nObjectives := n;
      }
      fits := nObjectives == n;
    }

    /** The end of `add`: the trial is handed to `_add` unless it is already recorded and
        neither the run history nor the caller asks to overwrite it. */
    method Store(k: TrialKey, v: TrialValue, origin: DataOrigin, forceUpdate: bool) returns (outcome: AddOutcome)
      requires Valid() && k.configId in idsConfig && |v.cost| == nObjectives
      modifies this
      ensures (State(), outcome) == Stored(old(State()), k, v, origin, forceUpdate)
    {
      if overwriteExistingTrials || forceUpdate || k !in data {
        var clash := AddTrial(k, v, v.status, origin);
        outcome := if clash then BudgetTypeClash else Inserted;
      } else {
        outcome := Ignored;
      }
    }

    /** Stores the cost and the trial count of configuration `id`, and the lowest costs. */
    method StoreCaches(id: nat, cost: CostAgg, n: nat, minCost: map<nat, CostAgg>)
      modifies this`costPerConfig, this`numTrialsPerConfig, this`minCostPerConfig
      ensures State() == WithCaches(old(State()), id, cost, n, minCost)
    {
      costPerConfig := costPerConfig[id := cost];
      numTrialsPerConfig := numTrialsPerConfig[id := n];
      minCostPerConfig := minCost;
    }

    /** The start of `update_costs`: the cached costs and trial counts are forgotten. */
    method ClearCosts()
      modifies this`costPerConfig, this`numTrialsPerConfig
      ensures State() == old(State()).(cost := map[], num := map[])
    {
      costPerConfig, numTrialsPerConfig := map[], map[];
    }

    /** One round of the `update_costs` loop: when configuration `id` has maximal-budget
        trials (on the given instances, when instances are given), its cost and lowest cost
        become the average and the minimum over them, and its trial count their number. */
    method UpdateCostsAt(id: nat, instances: Option<seq<string>>)
      requires IndexSound(index, idsConfig, data) && Ledgers.CostsShaped(data, nObjectives)
      modifies this`costPerConfig, this`numTrialsPerConfig, this`minCostPerConfig
      ensures State() == WithCostsUpdatedAt(old(State()), id, instances)
    {
      ghost var S := State();
      IndexedAt(S, id);
      var ix := IndexOf(index, id);
      var instSeedBudgets := SelectedKeys(ix, instances);
      if |instSeedBudgets| > 0 {
        var rows := IndexedCosts(data, ix, id, nObjectives, instSeedBudgets);
        var avg, low := AverageOf(rows, nObjectives), MinOf(rows, nObjectives);
        assert WithCostsUpdatedAt(S, id, instances) == WithCaches(S, id, avg, |instSeedBudgets|, S.minCost[id := low]);
        StoreCaches(id, avg, |instSeedBudgets|, minCostPerConfig[id := low]);
      } else {
        assert WithCostsUpdatedAt(S, id, instances) == S;
      }
    }

    /** `update_costs`: the cost and trial-count caches are emptied (the lowest costs are
        kept), then every configuration, in registration order, gets the average and the
        minimum cost over its maximal-budget trials (only those on the given instances, when
        instances are given) and their number, when it has such trials. */
    method UpdateCosts(instances: Option<seq<string>>)
      requires IndexSound(index, idsConfig, data) && Ledgers.CostsShaped(data, nObjectives)
      modifies this`costPerConfig, this`numTrialsPerConfig, this`minCostPerConfig
      ensures State() == CostsUpdated(old(State()), instances)
    {
      ClearCosts();
      ghost var L := State();
      var id := 1;
      while id <= nId
        invariant 1 <= id <= nId + 1
        invariant State() == CostsUpdatedUpTo(L, id - 1, instances)
      {
        ghost var S := State();
        assert CostsUpdatedUpTo(L, id, instances) == WithCostsUpdatedAt(S, id, instances);
        UpdateCostsAt(id, instances);
        id := id + 1;
      }
    }

    /** `update`: every trial of `other`, in insertion order, is added under its
        configuration with the given origin, without forcing an overwrite; the first `add`
        that raises stops the loop and is reported in `err`. */
    method Update(other: RunHistory<C>, origin: DataOrigin) returns (err: Option<AddOutcome>)
      requires Valid() && other.Valid()
      modifies this
      ensures Valid()
      ensures (State(), err) == Merged(old(State()), old(other.State()), origin)
    {
      var O := other.State();
      ghost var target := Merged(State(), O, origin);
      var i := 0;
      while i < |O.order|
        invariant 0 <= i <= |O.order| && Valid()
        invariant MergedFrom(State(), O, i, origin) == target
      {
        ghost var S := State();
        var k := O.order[i];
        assert k in O.data;
        var v := O.data[k];
        AddedValid(S, O.idsConfig[k.configId], k.instance, k.seed, k.budget, v, origin, false, true);
        var out := Add(O.idsConfig[k.configId], v.cost, v.time, v.status, k.instance, k.seed, k.budget,
                       v.starttime, v.endtime, v.additionalInfo, origin, false, true);
        if Raises(out) {
          return Some(out);
        }
        i := i + 1;
      }
      err := None;
    }

    /** `get_trials`: the trials of `config`, pair by pair in index order. */
    method GetTrials(config: C, onlyMaxObservedBudget: bool) returns (trials: seq<InstanceSeedBudgetKey>)
      requires Valid()
      ensures trials == Ledgers.GetTrials(State(), config, onlyMaxObservedBudget)
    {
      if config !in configIds {
        return [];
      }
      IndexedAt(State(), configIds[config]);
      var ix := IndexOf(index, configIds[config]);
      trials := [];
      var i := 0;
      while i < |ix|
        invariant 0 <= i <= |ix|
        invariant trials == Trials(ix[..i], onlyMaxObservedBudget)
      {
        TrialsAppend(ix[..i], ix[i], onlyMaxObservedBudget);
        assert ix[..i + 1] == ix[..i] + [ix[i]];
        trials := trials + EntryTrials(ix[i], onlyMaxObservedBudget);
        i := i + 1;
      }
      assert ix[..|ix|] == ix;
    }

    /** `_cost`: the costs recorded for the given keys of `config` (the maximal-budget trials
        when none are given), in order; the first key that is not recorded is reported. */
    method Cost(config: C, keys: Option<seq<InstanceSeedBudgetKey>>) returns (r: CostLookup)
      requires Valid()
      ensures r == Ledgers.Cost(State(), config, keys)
    {
      if config !in configIds {
        return Costs([]);
      }
      var id := configIds[config];
      var instSeedBudgets: seq<InstanceSeedBudgetKey>;
      if keys.None? {
        instSeedBudgets := GetTrials(config, true);
      } else {
        instSeedBudgets := keys.value;
      }
      r := LookupCosts(data, id, instSeedBudgets);
    }

    /** `get_configs_per_budget`: without a budget subset, every configuration; otherwise,
        for every trial on one of the budgets, in insertion order, its configuration
        (repeated once per such trial). */
    method GetConfigsPerBudget(budgetSubset: Option<seq<Budget>>) returns (configs: seq<C>)
      requires Valid()
      ensures budgetSubset.None? ==> configs == GetConfigs(State())
      ensures budgetSubset.Some? ==>
                var ks := TrialsOnBudgets(order, budgetSubset.value);
                && |configs| == |ks|
                && forall j :: 0 <= j < |ks| ==> ks[j].configId in idsConfig && configs[j] == idsConfig[ks[j].configId]
    {
      if budgetSubset.None? {
        return GetConfigs(State());
      }
      assert forall k :: k in order ==> k.configId in idsConfig;
      configs := ConfigsOnBudgets(order, idsConfig, budgetSubset.value);
    }

    /** `get_incumbent` with one objective: the configuration, in registration order, whose
        cached cost is the lowest; costs that are NaN never win, and among equal lowest
        costs the first configuration wins. None when no configuration has a cost. */
    method GetIncumbent() returns (incumbent: Option<C>)
      requires Valid() && nObjectives <= 1
      ensures IsIncumbent(State(), incumbent)
    {
      var L := State();
      var configs := GetConfigs(L);
      var costs := seq(|configs|, j requires 0 <= j < |configs| => GetCost(L, configs[j]));
      var best := FirstLowest(costs);
      incumbent := if best.None? then None else Some(configs[best.value]);
      IncumbentOfFirstLowest(L, configs, costs, best);
    }
  }

  /** The loop of `get_incumbent` over the costs in registration order: the position of
      the first strictly lowest float cost (NaN never compares lower), None without any. */
  method FirstLowest(costs: seq<CostAgg>) returns (best: Option<nat>)
    ensures best.None? <==> forall j :: 0 <= j < |costs| ==> !costs[j].Scalar?
    ensures best.Some? ==>
              && best.value < |costs| && costs[best.value].Scalar?
              && (forall j :: 0 <= j < |costs| && costs[j].Scalar? ==> costs[best.value].x <= costs[j].x)
              && (forall j :: 0 <= j < best.value && costs[j].Scalar? ==> costs[best.value].x < costs[j].x)
  {
    best := None;
    var lowestCost: real := 0.0;
    var i := 0;
    while i < |costs|
      invariant 0 <= i <= |costs|
      invariant best.None? ==> forall j :: 0 <= j < i ==> !costs[j].Scalar?
      invariant best.Some? ==>
                  && best.value < i && costs[best.value] == Scalar(lowestCost)
                  && (forall j :: 0 <= j < i && costs[j].Scalar? ==> lowestCost <= costs[j].x)
                  && (forall j :: 0 <= j < best.value && costs[j].Scalar? ==> lowestCost < costs[j].x)
    {
      var cost := costs[i];
      if cost.Scalar? && (best.None? || cost.x < lowestCost) {
        best := Some(i);
        lowestCost := cost.x;
      }
      i := i + 1;
    }
  }

  /** The loop of `get_configs_per_budget` with a budget subset: the configuration of every
      trial on one of the budgets, in insertion order. */
  method ConfigsOnBudgets<C>(order: seq<TrialKey>, idsConfig: map<nat, C>, subset: seq<Budget>) returns (configs: seq<C>)
    requires forall k :: k in order ==> k.configId in idsConfig
    ensures var ks := TrialsOnBudgets(order, subset);
            && |configs| == |ks|
            && forall j :: 0 <= j < |ks| ==> ks[j].configId in idsConfig && configs[j] == idsConfig[ks[j].configId]
  {
    configs := [];
    var i := 0;
    while i < |order|
      invariant 0 <= i <= |order|
      invariant var ks := TrialsOnBudgets(order[..i], subset);
                && |configs| == |ks|
                && forall j :: 0 <= j < |ks| ==> ks[j].configId in idsConfig && configs[j] == idsConfig[ks[j].configId]
    {
      var key := order[i];
      assert order[..i + 1][..i] == order[..i];
      if key.budget in subset {
        configs := configs + [idsConfig[key.configId]];
      }
      i := i + 1;
    }
    assert order[..|order|] == order;
  }

  /** The loop of `_cost`: the costs of the trials of configuration `id` at the keys, in
      order, or the first key whose trial is missing (a `KeyError` in the source). */
  method LookupCosts(data: map<TrialKey, TrialValue>, id: nat, keys: seq<InstanceSeedBudgetKey>) returns (r: CostLookup)
    ensures r == CostsOf(data, id, keys)
  {
    var costs: seq<seq<real>> := [];
    var i := 0;
    while i < |keys|
      invariant 0 <= i <= |keys|
      invariant CostsOf(data, id, keys[..i]) == Costs(costs)
    {
      var k := KeyOf(id, keys[i]);
      if k !in data {
        CostsOfFirstMissing(data, id, keys, i);
        return MissingTrial(k);
      }
      assert keys[..i + 1] == keys[..i] + [keys[i]];
      CostsOfAppend(data, id, keys[..i], keys[i]);
      costs := costs + [data[k].cost];
      i := i + 1;
    }
    assert keys[..|keys|] == keys;
    r := Costs(costs);
  }

  /** What `get_incumbent` returns with one objective: None exactly when no configuration
      has a float cost; otherwise a configuration with the lowest float cost, strictly lower
      than the cost of every configuration registered before it. */
  ghost predicate IsIncumbent<C(!new)>(L: Ledger<C>, incumbent: Option<C>)
    requires CachesShaped(L.cost, L.minCost, L.num, L.idsConfig, L.nObjectives) && L.nObjectives <= 1
  {
    && (incumbent.None? <==> forall c :: c in L.configIds ==> !GetCost(L, c).Scalar?)
    && (incumbent.Some? ==>
          && incumbent.value in L.configIds
          && GetCost(L, incumbent.value).Scalar?
          && (forall c :: c in L.configIds && GetCost(L, c).Scalar? ==>
                GetCost(L, incumbent.value).x <= GetCost(L, c).x)
          && (forall c :: c in L.configIds && L.configIds[c] < L.configIds[incumbent.value] &&
                          GetCost(L, c).Scalar? ==>
                GetCost(L, incumbent.value).x < GetCost(L, c).x))
  }

  /** The first lowest position over the costs in registration order names the incumbent. */
  lemma IncumbentOfFirstLowest<C(!new)>(L: Ledger<C>, configs: seq<C>, costs: seq<CostAgg>, best: Option<nat>)
    requires IdsBijective(L.configIds, L.idsConfig, L.nId)
    requires CachesShaped(L.cost, L.minCost, L.num, L.idsConfig, L.nObjectives) && L.nObjectives <= 1
    requires configs == GetConfigs(L)
    requires |costs| == |configs| && forall j :: 0 <= j < |costs| ==> costs[j] == GetCost(L, configs[j])
    requires best.None? <==> forall j :: 0 <= j < |costs| ==> !costs[j].Scalar?
    requires best.Some? ==>
               && best.value < |costs| && costs[best.value].Scalar?
               && (forall j :: 0 <= j < |costs| && costs[j].Scalar? ==> costs[best.value].x <= costs[j].x)
               && (forall j :: 0 <= j < best.value && costs[j].Scalar? ==> costs[best.value].x < costs[j].x)
    ensures IsIncumbent(L, if best.None? then None else Some(configs[best.value]))
  {
    if best.None? {
      NoIncumbent(L, configs, costs);
    } else {
      LowestIncumbent(L, configs, costs, best.value);
    }
  }

  /** A registered configuration sits at its id minus one in registration order. */
  lemma PositionOf<C(!new)>(L: Ledger<C>, configs: seq<C>, c: C)
    requires IdsBijective(L.configIds, L.idsConfig, L.nId) && configs == GetConfigs(L) && c in L.configIds
    ensures 0 <= L.configIds[c] - 1 < |configs| && configs[L.configIds[c] - 1] == c
  {
    assert c in configs;
    var j :| 0 <= j < |configs| && configs[j] == c;
  }

  /** Without a float cost in registration order, there is no incumbent. */
  lemma NoIncumbent<C(!new)>(L: Ledger<C>, configs: seq<C>, costs: seq<CostAgg>)
    requires IdsBijective(L.configIds, L.idsConfig, L.nId)
    requires CachesShaped(L.cost, L.minCost, L.num, L.idsConfig, L.nObjectives) && L.nObjectives <= 1
    requires configs == GetConfigs(L)
    requires |costs| == |configs| && forall j :: 0 <= j < |costs| ==> costs[j] == GetCost(L, configs[j])
    requires forall j :: 0 <= j < |costs| ==> !costs[j].Scalar?
    ensures IsIncumbent(L, None)
  {
    forall c | c in L.configIds ensures !GetCost(L, c).Scalar? {
      PositionOf(L, configs, c);
    }
  }

  /** The first lowest float cost in registration order names the incumbent. */
  lemma LowestIncumbent<C(!new)>(L: Ledger<C>, configs: seq<C>, costs: seq<CostAgg>, b: nat)
    requires IdsBijective(L.configIds, L.idsConfig, L.nId)
    requires CachesShaped(L.cost, L.minCost, L.num, L.idsConfig, L.nObjectives) && L.nObjectives <= 1
    requires configs == GetConfigs(L)
    requires |costs| == |configs| && forall j :: 0 <= j < |costs| ==> costs[j] == GetCost(L, configs[j])
    requires b < |costs| && costs[b].Scalar?
    requires forall j :: 0 <= j < |costs| && costs[j].Scalar? ==> costs[b].x <= costs[j].x
    requires forall j :: 0 <= j < b && costs[j].Scalar? ==> costs[b].x < costs[j].x
    ensures IsIncumbent(L, Some(configs[b]))
  {
    var inc := configs[b];
    var x := costs[b].x;
    assert L.configIds[inc] == b + 1;
    assert GetCost(L, inc) == Scalar(x);
    forall c | c in L.configIds && GetCost(L, c).Scalar? ensures x <= GetCost(L, c).x {
      PositionOf(L, configs, c);
    }
    forall c | c in L.configIds && L.configIds[c] < b + 1 && GetCost(L, c).Scalar?
      ensures x < GetCost(L, c).x
    {
      PositionOf(L, configs, c);
    }
  }
}
