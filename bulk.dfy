/** The run-history operations that act on every configuration or every trial at once:
    `update_costs`, which recomputes all cost caches, and `update`, which adds the trials
    of another run history one by one. */
module BulkUpdates {
  import opened TrialData
  import opened Aggregates
  import opened BudgetIndex
  import opened CostModel
  import opened Ledgers

  /** The trials `update_costs` aggregates for a configuration: its maximal-budget trials
      without duplicates, restricted to those run on one of `instances` when these are
      given. */
  function SelectedKeys(ix: seq<IskEntry>, instances: Option<seq<string>>): (keys: seq<InstanceSeedBudgetKey>)
    requires WellFormed(ix)
    ensures forall x :: x in keys ==> x in Trials(ix, false)
    ensures forall x :: x in keys ==> x in Trials(ix, true)
    ensures instances.Some? ==> forall x :: x in keys ==> x.instance.Some? && x.instance.value in instances.value
  {
    if instances.None? then MaxKeys(ix) else OnInstances(MaxKeys(ix), instances.value)
  }

  /** One round of the `update_costs` loop: when configuration `id` has selected trials,
      its cost and lowest cost become the average and the minimum over them, and its trial
      count their number; otherwise nothing is stored for it. */
  function WithCostsUpdatedAt<C(==,!new)>(L: Ledger<C>, id: nat, instances: Option<seq<string>>): (L': Ledger<C>)
    requires Indexed(L.data, IndexOf(L.index, id), id, L.nObjectives)
    ensures L' == L.(cost := L'.cost, num := L'.num, minCost := L'.minCost)
  {
    var ix := IndexOf(L.index, id);
    var keys := SelectedKeys(ix, instances);
    if |keys| == 0 then L
    else
      var rows := IndexedCosts(L.data, ix, id, L.nObjectives, keys);
      WithCaches(L, id, AverageOf(rows, L.nObjectives), |keys|, L.minCost[id := MinOf(rows, L.nObjectives)])
  }

  /** The `update_costs` loop over the configurations with ids 1 .. n, in id order (the
      order in which they were registered). */
  function CostsUpdatedUpTo<C(==,!new)>(L: Ledger<C>, n: nat, instances: Option<seq<string>>): (L': Ledger<C>)
    requires IndexSound(L.index, L.idsConfig, L.data) && CostsShaped(L.data, L.nObjectives)
    ensures L' == L.(cost := L'.cost, num := L'.num, minCost := L'.minCost)
  {
    if n == 0 then L
    else
      var L0 := CostsUpdatedUpTo(L, n - 1, instances);
      IndexedAt(L0, n);
      WithCostsUpdatedAt(L0, n, instances)
  }

  /** `update_costs`: the cost and trial-count caches emptied (the lowest costs are kept),
      then every configuration updated. */
  function CostsUpdated<C(==,!new)>(L: Ledger<C>, instances: Option<seq<string>>): (L': Ledger<C>)
    requires IndexSound(L.index, L.idsConfig, L.data) && CostsShaped(L.data, L.nObjectives)
    ensures L' == L.(cost := L'.cost, num := L'.num, minCost := L'.minCost)
  {
    CostsUpdatedUpTo(L.(cost := map[], num := map[]), L.nId, instances)
  }

  /** After the loop over ids 1 .. n, configuration `id` holds the aggregates of its
      selected trials if it was visited and has some; otherwise its caches are as before. */
  lemma {:induction false} CostsUpdatedUpToAt<C(!new)>(L: Ledger<C>, n: nat, instances: Option<seq<string>>, id: nat)
    requires IndexSound(L.index, L.idsConfig, L.data) && CostsShaped(L.data, L.nObjectives)
    ensures var L' := CostsUpdatedUpTo(L, n, instances);
      var ix := IndexOf(L.index, id);
      var keys := SelectedKeys(ix, instances);
      var rows := IndexedCosts(L.data, ix, id, L.nObjectives, keys);
      && (1 <= id <= n && |keys| > 0 ==>
            && CachedCost(L'.cost, id) == Some(AverageOf(rows, L.nObjectives))
            && CachedCost(L'.minCost, id) == Some(MinOf(rows, L.nObjectives))
            && CachedCount(L'.num, id) == Some(|keys|))
      && (!(1 <= id <= n) || |keys| == 0 ==>
            && CachedCost(L'.cost, id) == CachedCost(L.cost, id)
            && CachedCost(L'.minCost, id) == CachedCost(L.minCost, id)
            && CachedCount(L'.num, id) == CachedCount(L.num, id))
  {
    if n > 0 {
      CostsUpdatedUpToAt(L, n - 1, instances, id);
      var L0 := CostsUpdatedUpTo(L, n - 1, instances);
      IndexedAt(L0, n);
      StepCachesAt(L0, n, instances, id);
      assert CostsUpdatedUpTo(L, n, instances) == WithCostsUpdatedAt(L0, n, instances);
    }
  }

  /** One round of the loop touches the caches of configuration `n` only, and those only
      when it has selected trials. */
  lemma StepCachesAt<C(!new)>(L: Ledger<C>, n: nat, instances: Option<seq<string>>, id: nat)
    requires Indexed(L.data, IndexOf(L.index, n), n, L.nObjectives)
    ensures var L' := WithCostsUpdatedAt(L, n, instances);
      var ix := IndexOf(L.index, n);
      var keys := SelectedKeys(ix, instances);
      var rows := IndexedCosts(L.data, ix, n, L.nObjectives, keys);
      && (id == n && |keys| > 0 ==>
            && CachedCost(L'.cost, id) == Some(AverageOf(rows, L.nObjectives))
            && CachedCost(L'.minCost, id) == Some(MinOf(rows, L.nObjectives))
            && CachedCount(L'.num, id) == Some(|keys|))
      && (id != n || |keys| == 0 ==>
            && CachedCost(L'.cost, id) == CachedCost(L.cost, id)
            && CachedCost(L'.minCost, id) == CachedCost(L.minCost, id)
            && CachedCount(L'.num, id) == CachedCount(L.num, id))
  {
  }

  /** `update_costs` stores, for each configuration with selected trials, their average
      cost, their lowest cost and their number, exactly the answers of `average_cost` and
      `min_cost` over those trials; a configuration without selected trials has no cost
      and no count afterwards and keeps its lowest cost. */
  lemma CostsUpdatedAt<C(!new)>(L: Ledger<C>, instances: Option<seq<string>>, id: nat)
    requires Valid(L) && id in L.idsConfig
    ensures var L' := CostsUpdated(L, instances);
      var config := L.idsConfig[id];
      var keys := SelectedKeys(IndexOf(L.index, id), instances);
      && (|keys| > 0 ==>
            && id in L'.cost && id in L'.minCost && id in L'.num
            && AverageCost(L, config, Some(keys)) == Answer(L'.cost[id])
            && MinCost(L, config, Some(keys)) == Answer(L'.minCost[id])
            && L'.num[id] == |keys|)
      && (|keys| == 0 ==>
            && id !in L'.cost && id !in L'.num
            && CachedCost(L'.minCost, id) == CachedCost(L.minCost, id))
  {
    var L0 := L.(cost := map[], num := map[]);
    CostsUpdatedUpToAt(L0, L.nId, instances, id);
    SelectedQueries(L, instances, id);
  }

  /** `average_cost` and `min_cost` over the selected trials of a known configuration find
      all of them. */
  lemma SelectedQueries<C(!new)>(L: Ledger<C>, instances: Option<seq<string>>, id: nat)
    requires Valid(L) && id in L.idsConfig
    ensures var ix := IndexOf(L.index, id);
      var keys := SelectedKeys(ix, instances);
      var rows := IndexedCosts(L.data, ix, id, L.nObjectives, keys);
      && AverageCost(L, L.idsConfig[id], Some(keys)) == Answer(AverageOf(rows, L.nObjectives))
      && MinCost(L, L.idsConfig[id], Some(keys)) == Answer(MinOf(rows, L.nObjectives))
  {
    var ix := IndexOf(L.index, id);
    var keys := SelectedKeys(ix, instances);
    var rows := IndexedCosts(L.data, ix, id, L.nObjectives, keys);
    assert L.configIds[L.idsConfig[id]] == id;
    assert Cost(L, L.idsConfig[id], Some(keys)) == Costs(rows);
  }

  /** `update_costs` keeps the state valid. */
  lemma CostsUpdatedValid<C(!new)>(L: Ledger<C>, instances: Option<seq<string>>)
    requires Valid(L)
    ensures Valid(CostsUpdated(L, instances))
  {
    var L' := CostsUpdated(L, instances);
    forall id
      ensures && (id in L'.cost ==> id in L'.idsConfig && Shaped(L'.cost[id], L'.nObjectives))
              && (id in L'.minCost ==> id in L'.idsConfig && Shaped(L'.minCost[id], L'.nObjectives))
              && (id in L'.num ==> id in L'.idsConfig)
    {
      var L0 := L.(cost := map[], num := map[]);
      CostsUpdatedUpToAt(L0, L.nId, instances, id);
      var ix := IndexOf(L.index, id);
      var keys := SelectedKeys(ix, instances);
      AggregatesShaped(IndexedCosts(L.data, ix, id, L.nObjectives, keys), L.nObjectives);
    }
  }

  /** `update_costs` without instances makes every cache agree with a recomputation from
      the recorded trials again, whatever the caches held before. */
  lemma CostsUpdatedAgree<C(!new)>(L: Ledger<C>)
    requires Valid(L)
    ensures CachesAgree(CostsUpdated(L, None))
  {
    var L' := CostsUpdated(L, None);
    forall id | id in L'.idsConfig
      ensures AgreesAt(L'.data, IndexOf(L'.index, id), CachedCost(L'.cost, id), CachedCount(L'.num, id), L'.nObjectives, id)
    {
      CostsUpdatedAt(L, None, id);
      var ix := IndexOf(L.index, id);
      MaxTrialsDistinct(ix);
      MaxTrialsOnePerPair(ix);
      if |ix| > 0 {
        RecomputedAgrees(L.data, ix, id, L.nObjectives);
      }
    }
  }

  /** Whether an outcome of `add` is one of the errors that end `update`. */
  predicate Raises(out: AddOutcome)
  {
    out == ObjectiveCountMismatch || out == NotSerializable || out == BudgetTypeClash
  }

  /** The `update` loop from trial `i` of `O` on, in insertion order: each trial is added
      to `L` under its configuration, with its instance, seed, budget and value and the
      given origin; the first `add` that raises ends the loop, with its error and the
      trials added so far. The payloads of `O` passed the serialisability check when they
      were added to it. */
  function MergedFrom<C(==,!new)>(L: Ledger<C>, O: Ledger<C>, i: nat, origin: DataOrigin)
    : (r: (Ledger<C>, Option<AddOutcome>))
    requires Valid(L) && Valid(O) && i <= |O.order|
    ensures Valid(r.0)
    ensures r.1.Some? ==> r.1.value in {ObjectiveCountMismatch, BudgetTypeClash}
    decreases |O.order| - i
  {
    if i == |O.order| then (L, None)
    else
      var r1 := MergedOne(L, O, i, origin);
      if r1.1.Some? then r1 else MergedFrom(r1.0, O, i + 1, origin)
  }

  /** One round of the `update` loop: trial `i` of `O` added, and the error if `add`
      raised one. */
  function MergedOne<C(==,!new)>(L: Ledger<C>, O: Ledger<C>, i: nat, origin: DataOrigin)
    : (r: (Ledger<C>, Option<AddOutcome>))
    requires Valid(L) && Valid(O) && i < |O.order|
    ensures Valid(r.0)
    ensures r.1.Some? ==> r.1.value in {ObjectiveCountMismatch, BudgetTypeClash}
  {
    var k := O.order[i];
    assert k in O.data;
    var v := O.data[k];
    AddedValid(L, O.idsConfig[k.configId], k.instance, k.seed, k.budget, v, origin, false, true);
    AddedOutcome(L, O.idsConfig[k.configId], k.instance, k.seed, k.budget, v, origin, false, true);
    var r1 := Added(L, O.idsConfig[k.configId], k.instance, k.seed, k.budget, v, origin, false, true);
    (r1.0, if Raises(r1.1) then Some(r1.1) else None)
  }

  /** `update`: every trial of `O` added, until the first error. */
  function Merged<C(==,!new)>(L: Ledger<C>, O: Ledger<C>, origin: DataOrigin): (r: (Ledger<C>, Option<AddOutcome>))
    requires Valid(L) && Valid(O)
    ensures Valid(r.0)
    ensures r.1.Some? ==> r.1.value in {ObjectiveCountMismatch, BudgetTypeClash}
  {
    MergedFrom(L, O, 0, origin)
  }

  /** The key under which `update` records trial `k` of another run history whose ids
      are `oIds`, given the configuration ids `ids` of the receiving run history. */
  function MappedKey<C(==,!new)>(ids: map<C, nat>, oIds: map<nat, C>, k: TrialKey): TrialKey
    requires k.configId in oIds && oIds[k.configId] in ids
  {
    TrialKey(ids[oIds[k.configId]], k.instance, k.seed, k.budget)
  }

  /** Trial `k` of `O` is recorded in `L'` under its configuration's id there, with the
      value it has in `O` unless `L` already held that trial and does not overwrite. */
  ghost predicate Merges<C(!new)>(L: Ledger<C>, O: Ledger<C>, L': Ledger<C>, k: TrialKey)
  {
    MergesInto(L.data, L.overwrite, O.data, O.idsConfig, L'.configIds, L'.data, k)
  }

  /** `Merges`, on the fields it reads: `D` and `w` are the trials and the overwrite flag
      before `update`, `ids2` and `D2` the configuration ids and trials after. */
  ghost predicate MergesInto<C(!new)>(D: map<TrialKey, TrialValue>, w: bool, oData: map<TrialKey, TrialValue>,
                                      oIds: map<nat, C>, ids2: map<C, nat>, D2: map<TrialKey, TrialValue>,
                                      k: TrialKey)
  {
    && k in oData && k.configId in oIds && oIds[k.configId] in ids2
    && MappedKey(ids2, oIds, k) in D2
    && (MappedKey(ids2, oIds, k) !in D || w ==> D2[MappedKey(ids2, oIds, k)] == oData[k])
  }

  /** What holds after the first `n` trials of `O` were added without error. */
  ghost predicate MergeInvariant<C(!new)>(L: Ledger<C>, O: Ledger<C>, L': Ledger<C>, n: nat)
    requires n <= |O.order|
  {
    && L'.overwrite == L.overwrite
    && MergedSoFar(L.data, L.overwrite, L.configIds, O.order, O.data, O.idsConfig, L'.configIds, L'.data, n)
  }

  /** `MergeInvariant` on the fields it reads: ids are kept, no trial is lost, the first
      `n` trials of the other run history are recorded, and every new trial is one of them. */
  ghost predicate MergedSoFar<C(!new)>(D: map<TrialKey, TrialValue>, w: bool, ids: map<C, nat>,
                                       oOrder: seq<TrialKey>, oData: map<TrialKey, TrialValue>, oIds: map<nat, C>,
                                       ids2: map<C, nat>, D2: map<TrialKey, TrialValue>, n: nat)
    requires n <= |oOrder|
  {
    && (forall c :: c in ids ==> c in ids2 && ids2[c] == ids[c])
    && (forall t :: t in D ==> t in D2)
    && (forall i :: 0 <= i < n ==> MergesInto(D, w, oData, oIds, ids2, D2, oOrder[i]))
    && (forall t :: t in D2 && t !in D ==> MappedFrom(ids2, oIds, oOrder, n, t))
  }

  /** `t` is the mapped key of one of the first `n` trials of the other run history. */
  ghost predicate MappedFrom<C(!new)>(ids2: map<C, nat>, oIds: map<nat, C>, oOrder: seq<TrialKey>, n: nat, t: TrialKey)
    requires n <= |oOrder|
  {
    exists j :: 0 <= j < n && oOrder[j].configId in oIds && oIds[oOrder[j].configId] in ids2
                && t == MappedKey(ids2, oIds, oOrder[j])
  }

  /** After `update` without error, every trial of `O` is recorded under the id its
      configuration has in the receiving run history, with the value it had in `O` unless
      the receiving run history already held it and does not overwrite; every
      configuration keeps its id and no trial is lost. */
  lemma MergedRecords<C(!new)>(L: Ledger<C>, O: Ledger<C>, origin: DataOrigin)
    requires Valid(L) && Valid(O)
    ensures var r := Merged(L, O, origin);
      r.1.None? ==>
        && (forall c :: c in L.configIds ==> c in r.0.configIds && r.0.configIds[c] == L.configIds[c])
        && (forall t :: t in L.data ==> t in r.0.data)
        && (forall k :: k in O.data ==> Merges(L, O, r.0, k))
  {
    MergeInvariantStarts(L, O);
    MergedFromInvariant(L, O, L, 0, origin);
    var r := Merged(L, O, origin);
    if r.1.None? {
      MergeInvariantEnds(L, O, r.0);
    }
  }

  /** Before the loop, the invariant holds of the receiving run history itself. */
  lemma MergeInvariantStarts<C(!new)>(L: Ledger<C>, O: Ledger<C>)
    ensures MergeInvariant(L, O, L, 0)
  {
  }

  /** After the last trial, the invariant says that every trial of `O` is merged. */
  lemma MergeInvariantEnds<C(!new)>(L: Ledger<C>, O: Ledger<C>, L': Ledger<C>)
    requires Valid(O) && MergeInvariant(L, O, L', |O.order|)
    ensures forall c :: c in L.configIds ==> c in L'.configIds && L'.configIds[c] == L.configIds[c]
    ensures forall t :: t in L.data ==> t in L'.data
    ensures forall k :: k in O.data ==> Merges(L, O, L', k)
  {
    forall k | k in O.data ensures Merges(L, O, L', k) {
      var i :| 0 <= i < |O.order| && O.order[i] == k;
    }
  }

  /** The loop from trial `i` on keeps the invariant up to the last trial, unless it ends
      with an error. */
  lemma {:induction false} MergedFromInvariant<C(!new)>(L: Ledger<C>, O: Ledger<C>, L0: Ledger<C>, i: nat,
                                                        origin: DataOrigin)
    requires Valid(O) && Valid(L0) && i <= |O.order|
    requires MergeInvariant(L, O, L0, i)
    ensures MergedFrom(L0, O, i, origin).1.None? ==> MergeInvariant(L, O, MergedFrom(L0, O, i, origin).0, |O.order|)
    decreases |O.order| - i
  {
    if i == |O.order| {
      assert MergedFrom(L0, O, i, origin) == (L0, None);
    } else {
      MergeStep(L, O, L0, i, origin);
      var r1 := MergedOne(L0, O, i, origin);
      if r1.1.None? {
        MergedFromInvariant(L, O, r1.0, i + 1, origin);
        MergedFromContinues(L, O, L0, i, origin);
      } else {
        assert MergedFrom(L0, O, i, origin) == r1;
      }
    }
  }

  /** After a trial added without error, the loop goes on from the next trial, so what
      holds at its end holds for the loop from this trial. */
  lemma MergedFromContinues<C(!new)>(L: Ledger<C>, O: Ledger<C>, L0: Ledger<C>, i: nat, origin: DataOrigin)
    requires Valid(O) && Valid(L0) && i < |O.order|
    requires MergedOne(L0, O, i, origin).1.None?
    requires var r := MergedFrom(MergedOne(L0, O, i, origin).0, O, i + 1, origin);
      r.1.None? ==> MergeInvariant(L, O, r.0, |O.order|)
    ensures MergedFrom(L0, O, i, origin).1.None? ==> MergeInvariant(L, O, MergedFrom(L0, O, i, origin).0, |O.order|)
  {
    var r1 := MergedOne(L0, O, i, origin);
    assert MergedFrom(L0, O, i, origin) == MergedFrom(r1.0, O, i + 1, origin);
  }

  /** Adding trial `i` of `O` without error extends the invariant by that trial. */
  lemma MergeStep<C(!new)>(L: Ledger<C>, O: Ledger<C>, L0: Ledger<C>, i: nat, origin: DataOrigin)
    requires Valid(O) && Valid(L0) && i < |O.order|
    requires MergeInvariant(L, O, L0, i)
    ensures var r := MergedOne(L0, O, i, origin); r.1.None? ==> MergeInvariant(L, O, r.0, i + 1)
  {
    MergedOneWrites(L0, O, i, origin);
    var r := MergedOne(L0, O, i, origin);
    if r.1.None? {
      StepKeepsInvariant(L, O, L0, r.0, i);
    }
  }

  /** What adding trial `i` of `O` to `L0` without error changed, to get `L1`: the
      configurations as `StepKeepsIds` says, and the trial is written under its mapped key
      or was found there already without overwriting. */
  ghost predicate StepWrites<C(!new)>(L0: Ledger<C>, O: Ledger<C>, L1: Ledger<C>, i: nat)
    requires i < |O.order|
  {
    && StepKeepsIds(L0, O, L1, i)
    && O.order[i] in O.data
    && (|| L1.data == L0.data[MappedKey(L1.configIds, O.idsConfig, O.order[i]) := O.data[O.order[i]]]
        || (L1.data == L0.data && MappedKey(L1.configIds, O.idsConfig, O.order[i]) in L0.data && !L0.overwrite))
  }

  /** The overwrite flag is kept, configurations keep their ids and stay one-to-one with
      them, and the configuration of trial `i` is registered. */
  ghost predicate StepKeepsIds<C(!new)>(L0: Ledger<C>, O: Ledger<C>, L1: Ledger<C>, i: nat)
    requires i < |O.order|
  {
    && L1.overwrite == L0.overwrite
    && (forall c :: c in L0.configIds ==> c in L1.configIds && L1.configIds[c] == L0.configIds[c])
    && (forall c1, c2 :: c1 in L1.configIds && c2 in L1.configIds && L1.configIds[c1] == L1.configIds[c2] ==> c1 == c2)
    && O.order[i].configId in O.idsConfig && O.idsConfig[O.order[i].configId] in L1.configIds
  }

  /** Adding a trial of `O` without error writes it as `StepWrites` says. */
  lemma MergedOneWrites<C(!new)>(L0: Ledger<C>, O: Ledger<C>, i: nat, origin: DataOrigin)
    requires Valid(O) && Valid(L0) && i < |O.order|
    ensures var r := MergedOne(L0, O, i, origin); r.1.None? ==> StepWrites(L0, O, r.0, i)
  {
    MergedOneKeepsIds(L0, O, i, origin);
    var k := O.order[i];
    assert k in O.data;
    var c := O.idsConfig[k.configId];
    AddedOutcome(L0, c, k.instance, k.seed, k.budget, O.data[k], origin, false, true);
    AddedWrites(L0, c, k.instance, k.seed, k.budget, O.data[k], origin, false, true);
  }

  /** Adding a trial of `O` changes configurations as `StepKeepsIds` says. */
  lemma MergedOneKeepsIds<C(!new)>(L0: Ledger<C>, O: Ledger<C>, i: nat, origin: DataOrigin)
    requires Valid(O) && Valid(L0) && i < |O.order|
    ensures StepKeepsIds(L0, O, MergedOne(L0, O, i, origin).0, i)
  {
    var k := O.order[i];
    assert k in O.data;
    AddedIds(L0, O.idsConfig[k.configId], k.instance, k.seed, k.budget, O.data[k], origin, false, true);
    IdsInjective(MergedOne(L0, O, i, origin).0);
  }

  /** In a valid run history, distinct configurations have distinct ids. */
  lemma IdsInjective<C(!new)>(L: Ledger<C>)
    requires Valid(L)
    ensures forall c1, c2 :: c1 in L.configIds && c2 in L.configIds && L.configIds[c1] == L.configIds[c2] ==> c1 == c2
  {
    forall c1, c2 | c1 in L.configIds && c2 in L.configIds && L.configIds[c1] == L.configIds[c2] ensures c1 == c2 {
      assert L.idsConfig[L.configIds[c1]] == c1;
    }
  }

  /** The ids of a valid run history name distinct configurations, and its trials are
      listed once each, under known configurations. */
  lemma SourceShaped<C(!new)>(O: Ledger<C>)
    requires Valid(O)
    ensures Distinct(O.order)
    ensures forall i :: 0 <= i < |O.order| ==> O.order[i] in O.data
    ensures forall k :: k in O.data ==> k.configId in O.idsConfig
    ensures forall a, b :: a in O.idsConfig && b in O.idsConfig && O.idsConfig[a] == O.idsConfig[b] ==> a == b
  {
    forall a, b | a in O.idsConfig && b in O.idsConfig && O.idsConfig[a] == O.idsConfig[b] ensures a == b {
      assert O.configIds[O.idsConfig[a]] == a;
    }
    forall i | 0 <= i < |O.order| ensures O.order[i] in O.data {
      assert O.order[i] in O.order;
    }
  }

  /** A step that writes as `StepWrites` says extends the invariant by that trial. */
  lemma StepKeepsInvariant<C(!new)>(L: Ledger<C>, O: Ledger<C>, L0: Ledger<C>, L1: Ledger<C>, i: nat)
    requires Valid(O) && i < |O.order|
    requires MergeInvariant(L, O, L0, i) && StepWrites(L0, O, L1, i)
    ensures MergeInvariant(L, O, L1, i + 1)
  {
    SourceShaped(O);
    MergeStepOn(L.data, L.overwrite, L.configIds, O.order, O.data, O.idsConfig, L0.configIds, L0.data,
                L1.configIds, L1.data, i);
  }

  /** The invariant step on the fields it reads: the receiving run history's ids grew and
      stay one-to-one, and trial `i` of the other run history was written under its mapped
      key, or found there already without overwriting. */
  lemma MergeStepOn<C(!new)>(D: map<TrialKey, TrialValue>, w: bool, ids: map<C, nat>,
                             oOrder: seq<TrialKey>, oData: map<TrialKey, TrialValue>, oIds: map<nat, C>,
                             ids0: map<C, nat>, D0: map<TrialKey, TrialValue>,
                             ids1: map<C, nat>, D1: map<TrialKey, TrialValue>, i: nat)
    requires i < |oOrder| && Distinct(oOrder) && oOrder[i] in oData
    requires forall k :: k in oData ==> k.configId in oIds
    requires forall a, b :: a in oIds && b in oIds && oIds[a] == oIds[b] ==> a == b
    requires MergedSoFar(D, w, ids, oOrder, oData, oIds, ids0, D0, i)
    requires forall c :: c in ids0 ==> c in ids1 && ids1[c] == ids0[c]
    requires forall c1, c2 :: c1 in ids1 && c2 in ids1 && ids1[c1] == ids1[c2] ==> c1 == c2
    requires oIds[oOrder[i].configId] in ids1
    requires var t := MappedKey(ids1, oIds, oOrder[i]);
      || D1 == D0[t := oData[oOrder[i]]]
      || (D1 == D0 && t in D0 && !w)
    ensures MergedSoFar(D, w, ids, oOrder, oData, oIds, ids1, D1, i + 1)
  {
    var k := oOrder[i];
    var t := MappedKey(ids1, oIds, k);
    forall h | 0 <= h < i
      ensures oOrder[h] in oData && oIds[oOrder[h].configId] in ids0
      ensures MappedKey(ids1, oIds, oOrder[h]) == MappedKey(ids0, oIds, oOrder[h])
      ensures MappedKey(ids1, oIds, oOrder[h]) != t
    {
      assert MergesInto(D, w, oData, oIds, ids0, D0, oOrder[h]);
      var kh := oOrder[h];
      assert kh != k;
      if oIds[kh.configId] == oIds[k.configId] {
        assert kh.configId == k.configId;
      }
    }
    if D1 == D0 && t !in D {
      assert false;
    }
    assert MergesInto(D, w, oData, oIds, ids1, D1, k);
    forall h | 0 <= h < i + 1 ensures MergesInto(D, w, oData, oIds, ids1, D1, oOrder[h]) {
      if h < i {
        assert MergesInto(D, w, oData, oIds, ids0, D0, oOrder[h]);
      }
    }
    forall t' | t' in D1 && t' !in D ensures MappedFrom(ids1, oIds, oOrder, i + 1, t') {
      if t' != t {
        assert MappedFrom(ids0, oIds, oOrder, i, t');
        var j :| 0 <= j < i && oOrder[j].configId in oIds && oIds[oOrder[j].configId] in ids0
                 && t' == MappedKey(ids0, oIds, oOrder[j]);
        assert t' == MappedKey(ids1, oIds, oOrder[j]);
      }
    }
  }

  /** `update` never fails on the objective count when the receiving run history has no
      objective count yet or the same one as `O`. */
  lemma {:induction false} MergedObjectivesFit<C(!new)>(L: Ledger<C>, O: Ledger<C>, i: nat, origin: DataOrigin)
    requires Valid(L) && Valid(O) && i <= |O.order|
    requires L.nObjectives == -1 || L.nObjectives == O.nObjectives
    ensures var r := MergedFrom(L, O, i, origin);
      && r.1 != Some(ObjectiveCountMismatch)
      && (r.0.nObjectives == -1 || r.0.nObjectives == O.nObjectives)
    decreases |O.order| - i
  {
    if i == |O.order| {
      assert MergedFrom(L, O, i, origin) == (L, None);
    } else {
      MergedOneFits(L, O, i, origin);
      var r1 := MergedOne(L, O, i, origin);
      if r1.1.None? {
        MergedObjectivesFit(r1.0, O, i + 1, origin);
        FitsContinue(L, O, i, origin);
      } else {
        assert MergedFrom(L, O, i, origin) == r1;
      }
    }
  }

  /** After a trial added without error, the loop goes on from the next trial. */
  lemma FitsContinue<C(!new)>(L: Ledger<C>, O: Ledger<C>, i: nat, origin: DataOrigin)
    requires Valid(L) && Valid(O) && i < |O.order|
    requires MergedOne(L, O, i, origin).1.None?
    requires var r := MergedFrom(MergedOne(L, O, i, origin).0, O, i + 1, origin);
      r.1 != Some(ObjectiveCountMismatch) && (r.0.nObjectives == -1 || r.0.nObjectives == O.nObjectives)
    ensures var r := MergedFrom(L, O, i, origin);
      r.1 != Some(ObjectiveCountMismatch) && (r.0.nObjectives == -1 || r.0.nObjectives == O.nObjectives)
  {
    var r1 := MergedOne(L, O, i, origin);
    assert MergedFrom(L, O, i, origin) == MergedFrom(r1.0, O, i + 1, origin);
  }

  /** Adding a trial of `O` to a run history whose objective count is unset or that of `O`
      does not fail on the count, and leaves the count that of `O`. */
  lemma MergedOneFits<C(!new)>(L: Ledger<C>, O: Ledger<C>, i: nat, origin: DataOrigin)
    requires Valid(L) && Valid(O) && i < |O.order|
    requires L.nObjectives == -1 || L.nObjectives == O.nObjectives
    ensures var r := MergedOne(L, O, i, origin);
      && r.1 != Some(ObjectiveCountMismatch)
      && r.0.nObjectives == O.nObjectives
  {
    var k := O.order[i];
    assert k in O.data;
    AddedOutcome(L, O.idsConfig[k.configId], k.instance, k.seed, k.budget, O.data[k], origin, false, true);
    AddedWrites(L, O.idsConfig[k.configId], k.instance, k.seed, k.budget, O.data[k], origin, false, true);
  }
}
