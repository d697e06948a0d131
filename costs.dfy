/** Costs of a configuration looked up through its index, the aggregates computed from them,
    the moving-average step of the cost cache, the objective bounds, and what it means for a
    cache to agree with a recomputation from scratch. */
module CostModel {
  import opened TrialData
  import opened Aggregates
  import opened BudgetIndex

  /** Result of `_cost`: the costs found, or the first trial key that is not recorded
      (a `KeyError` in the source). */
  datatype CostLookup = Costs(rows: seq<seq<real>>) | MissingTrial(key: TrialKey)

  /** Per-objective bound; `Unbounded` stands for the pair (inf, -inf) used when no
      successful trial exists. */
  datatype Bound = Unbounded | Bound(lo: real, hi: real)

  /** The costs recorded for configuration `id` at the given instance-seed-budget keys,
      looked up in order. */
  function CostsOf(data: map<TrialKey, TrialValue>, id: nat, keys: seq<InstanceSeedBudgetKey>): (r: CostLookup)
    ensures r.Costs? <==> forall i :: 0 <= i < |keys| ==> KeyOf(id, keys[i]) in data
    ensures r.Costs? ==> |r.rows| == |keys| && forall i :: 0 <= i < |keys| ==> r.rows[i] == data[KeyOf(id, keys[i])].cost
    ensures r.MissingTrial? ==> r.key !in data && exists i :: 0 <= i < |keys| && r.key == KeyOf(id, keys[i])
  {
    if |keys| == 0 then Costs([])
    else if KeyOf(id, keys[0]) !in data then MissingTrial(KeyOf(id, keys[0]))
    else match CostsOf(data, id, keys[1..])
      case MissingTrial(k) => MissingTrial(k)
      case Costs(rows) => Costs([data[KeyOf(id, keys[0])].cost] + rows)
  }

  lemma CostsOfAppend(data: map<TrialKey, TrialValue>, id: nat, keys: seq<InstanceSeedBudgetKey>, x: InstanceSeedBudgetKey)
    requires CostsOf(data, id, keys).Costs? && KeyOf(id, x) in data
    ensures CostsOf(data, id, keys + [x]) == Costs(CostsOf(data, id, keys).rows + [data[KeyOf(id, x)].cost])
  {
    var r := CostsOf(data, id, keys + [x]);
    assert forall i :: 0 <= i < |keys + [x]| ==> KeyOf(id, (keys + [x])[i]) in data;
  }

  /** The lookup stops at the first key that is not recorded: when the keys before
      position `i` are all recorded and the one at `i` is not, that one is reported. */
  lemma {:induction false} CostsOfFirstMissing(data: map<TrialKey, TrialValue>, id: nat, keys: seq<InstanceSeedBudgetKey>, i: nat)
    requires i < |keys| && CostsOf(data, id, keys[..i]).Costs? && KeyOf(id, keys[i]) !in data
    ensures CostsOf(data, id, keys) == MissingTrial(KeyOf(id, keys[i]))
  {
    if i > 0 {
      assert keys[..i][0] == keys[0];
      assert KeyOf(id, keys[0]) in data;
      assert keys[1..][..i - 1] == keys[..i][1..];
      assert CostsOf(data, id, keys[..i][1..]).Costs?;
      CostsOfFirstMissing(data, id, keys[1..], i - 1);
    }
  }

  /** Writing a key that none of the looked-up keys names leaves the lookup unchanged. */
  lemma CostsOfFrame(data: map<TrialKey, TrialValue>, k: TrialKey, v: TrialValue, id: nat, keys: seq<InstanceSeedBudgetKey>)
    requires forall i :: 0 <= i < |keys| ==> KeyOf(id, keys[i]) != k
    ensures CostsOf(data[k := v], id, keys) == CostsOf(data, id, keys)
  {
    if |keys| > 0 {
      CostsOfFrame(data, k, v, id, keys[1..]);
    }
  }

  /** Every cost row has the ledger's objective count, which is then at least 1. */
  predicate CostRows(rows: seq<seq<real>>, nObj: int)
  {
    forall r :: r in rows ==> |r| == nObj && nObj >= 1
  }

  /** `average_cost` on the looked-up rows: NaN without rows, a float for one objective,
      the per-objective means otherwise. */
  function AverageOf(rows: seq<seq<real>>, nObj: int): CostAgg
    requires CostRows(rows, nObj)
  {
    if |rows| == 0 then Nan
    else if nObj > 1 then Vector(MeanPerObjective(rows, nObj))
    else Scalar(Mean(Column(rows, 0)))
  }

  /** `sum_cost` on the looked-up rows: the per-objective sums when there are rows and
      several objectives, otherwise a float (0.0 without rows, never NaN). */
  function SumOf(rows: seq<seq<real>>, nObj: int): CostAgg
    requires CostRows(rows, nObj)
  {
    if |rows| > 0 && nObj > 1 then Vector(SumPerObjective(rows, nObj))
    else if |rows| == 0 then Scalar(0.0)
    else Scalar(Sum(Column(rows, 0)))
  }

  /** `min_cost` on the looked-up rows, shaped like `AverageOf`. */
  function MinOf(rows: seq<seq<real>>, nObj: int): CostAgg
    requires CostRows(rows, nObj)
  {
    if |rows| == 0 then Nan
    else if nObj > 1 then Vector(MinPerObjective(rows, nObj))
    else Scalar(Min(Column(rows, 0)))
  }

  /** A cached cost has the form the objective count calls for. */
  predicate Shaped(a: CostAgg, nObj: int)
  {
    a.Nan? || (nObj == 1 && a.Scalar?) || (nObj > 1 && a.Vector? && |a.xs| == nObj)
  }

  /** The aggregates are NaN exactly when no cost was found, have the cache shape, and the
      minimum never exceeds the average, objective by objective. */
  lemma {:induction false} AggregatesShaped(rows: seq<seq<real>>, nObj: int)
    requires CostRows(rows, nObj)
    ensures AverageOf(rows, nObj).Nan? <==> |rows| == 0
    ensures MinOf(rows, nObj).Nan? <==> |rows| == 0
    ensures Shaped(AverageOf(rows, nObj), nObj) && Shaped(MinOf(rows, nObj), nObj)
    ensures |rows| > 0 && nObj == 1 ==> MinOf(rows, nObj).x <= AverageOf(rows, nObj).x
    ensures |rows| > 0 && nObj > 1 ==>
              forall j :: 0 <= j < nObj ==> MinOf(rows, nObj).xs[j] <= AverageOf(rows, nObj).xs[j]
  {
    if |rows| > 0 {
      if nObj > 1 {
        forall j | 0 <= j < nObj ensures MinOf(rows, nObj).xs[j] <= AverageOf(rows, nObj).xs[j] {
          MeanBetweenMinAndMax(Column(rows, j));
        }
      } else {
        MeanBetweenMinAndMax(Column(rows, 0));
      }
    }
  }

  /** The minimum, the average and the sum of `n` cost rows fit together: per objective,
      minimum <= average and sum == average * n. */
  predicate Consistent(mn: CostAgg, avg: CostAgg, sum: CostAgg, n: nat, nObj: int)
  {
    || (nObj == 1 && mn.Scalar? && avg.Scalar? && sum.Scalar? &&
        mn.x <= avg.x && sum.x == avg.x * (n as real))
    || (nObj > 1 && mn.Vector? && avg.Vector? && sum.Vector? &&
        |mn.xs| == nObj && |avg.xs| == nObj && |sum.xs| == nObj &&
        forall j :: 0 <= j < nObj ==> mn.xs[j] <= avg.xs[j] && sum.xs[j] == avg.xs[j] * (n as real))
  }

  lemma AggregatesConsistent(rows: seq<seq<real>>, nObj: int)
    requires CostRows(rows, nObj) && |rows| > 0
    ensures Consistent(MinOf(rows, nObj), AverageOf(rows, nObj), SumOf(rows, nObj), |rows|, nObj)
  {
    AggregatesShaped(rows, nObj);
    SumIsCountTimesAverage(rows, nObj);
  }

  /** The summed cost is the average times the number of rows, objective by objective. */
  lemma {:induction false} SumIsCountTimesAverage(rows: seq<seq<real>>, nObj: int)
    requires CostRows(rows, nObj) && |rows| > 0
    ensures nObj == 1 ==> SumOf(rows, nObj).x == AverageOf(rows, nObj).x * (|rows| as real)
    ensures nObj > 1 ==> forall j :: 0 <= j < nObj ==>
              SumOf(rows, nObj).xs[j] == AverageOf(rows, nObj).xs[j] * (|rows| as real)
  {
  }

  /** One step of `incremental_update_cost`: the moving average from the cached cost (0.0,
      or a zero vector, when nothing is cached; NaN stays NaN). */
  function IncrementalCost(prev: Option<CostAgg>, n: nat, c: seq<real>, nObj: int): (r: CostAgg)
    requires |c| == nObj && nObj >= 1
    requires prev.Some? ==> Shaped(prev.value, nObj)
    ensures Shaped(r, nObj)
    ensures r.Nan? <==> prev.Some? && prev.value.Nan?
  {
    if nObj > 1 then
      match prev
      case None => Vector(MovingAverageVector(seq(nObj, _ => 0.0), n, c))
      case Some(Vector(xs)) => Vector(MovingAverageVector(xs, n, c))
      case Some(_) => Nan
    else
      match prev
      case None => Scalar(MovingAverage(0.0, n, c[0]))
      case Some(Scalar(x)) => Scalar(MovingAverage(x, n, c[0]))
      case Some(_) => Nan
  }

  /** The costs of the successful trials, in ledger order. */
  function SuccessCosts(order: seq<TrialKey>, data: map<TrialKey, TrialValue>): seq<seq<real>>
    requires forall i :: 0 <= i < |order| ==> order[i] in data
  {
    if |order| == 0 then []
    else
      var k := order[|order| - 1];
      SuccessCosts(order[..|order| - 1], data) + (if data[k].status == Success then [data[k].cost] else [])
  }

  /** The successful costs are exactly the costs of the successful trials. */
  lemma {:induction false} SuccessCostsMembership(order: seq<TrialKey>, data: map<TrialKey, TrialValue>, r: seq<real>)
    requires forall i :: 0 <= i < |order| ==> order[i] in data
    ensures r in SuccessCosts(order, data) <==>
              exists i :: 0 <= i < |order| && data[order[i]].status == Success && data[order[i]].cost == r
  {
    if |order| > 0 {
      var init := order[..|order| - 1];
      SuccessCostsMembership(init, data, r);
      if exists i :: 0 <= i < |order| && data[order[i]].status == Success && data[order[i]].cost == r {
        var i :| 0 <= i < |order| && data[order[i]].status == Success && data[order[i]].cost == r;
        if i < |order| - 1 { assert init[i] == order[i]; }
      }
      if exists i :: 0 <= i < |init| && data[init[i]].status == Success && data[init[i]].cost == r {
        var i :| 0 <= i < |init| && data[init[i]].status == Success && data[init[i]].cost == r;
        assert order[i] == init[i];
      }
    }
  }

  lemma {:induction false} SuccessCostsRectangular(order: seq<TrialKey>, data: map<TrialKey, TrialValue>, n: int)
    requires forall i :: 0 <= i < |order| ==> order[i] in data && |data[order[i]].cost| == n
    ensures Rectangular(SuccessCosts(order, data), n)
  {
    forall r | r in SuccessCosts(order, data) ensures |r| == n {
      SuccessCostsMembership(order, data, r);
    }
  }

  /** `_update_objective_bounds` on the successful costs: per objective the least and the
      greatest cost, or (inf, -inf) for every objective when nothing succeeded. */
  function ObjectiveBoundsOf(succ: seq<seq<real>>, nObj: int): seq<Bound>
    requires Rectangular(succ, nObj)
  {
    if |succ| == 0 then seq(if nObj < 0 then 0 else nObj, _ => Unbounded)
    else
      assert |succ[0]| == nObj;
      var lo := MinPerObjective(succ, nObj);
      var hi := MaxPerObjective(succ, nObj);
      seq(nObj, j requires 0 <= j < nObj => Bound(lo[j], hi[j]))
  }

  /** The bounds enclose every successful cost, objective by objective, and each bound is
      attained by some successful trial. */
  lemma BoundsEnclose(succ: seq<seq<real>>, nObj: nat)
    requires Rectangular(succ, nObj)
    ensures |ObjectiveBoundsOf(succ, nObj)| == nObj
    ensures |succ| == 0 ==> forall j :: 0 <= j < nObj ==> ObjectiveBoundsOf(succ, nObj)[j] == Unbounded
    ensures |succ| > 0 ==> forall j :: 0 <= j < nObj ==>
              var b := ObjectiveBoundsOf(succ, nObj)[j];
              && b.Bound?
              && (forall i :: 0 <= i < |succ| ==> b.lo <= succ[i][j] <= b.hi)
              && (exists i :: 0 <= i < |succ| && succ[i][j] == b.lo)
              && (exists i :: 0 <= i < |succ| && succ[i][j] == b.hi)
  {
    if |succ| > 0 {
      forall j | 0 <= j < nObj
        ensures var b := ObjectiveBoundsOf(succ, nObj)[j];
          && b.Bound?
          && (forall i :: 0 <= i < |succ| ==> b.lo <= succ[i][j] <= b.hi)
          && (exists i :: 0 <= i < |succ| && succ[i][j] == b.lo)
          && (exists i :: 0 <= i < |succ| && succ[i][j] == b.hi)
      {
        PerObjectiveBounds(succ, nObj, j);
      }
    }
  }

  /** The cache `a` of configuration `id` is what `update_cost` recomputes from scratch:
      the average over the maximal-budget trials of the index `ix`. */
  ghost predicate Recomputes(data: map<TrialKey, TrialValue>, ix: seq<IskEntry>, nObj: int, id: nat, a: CostAgg)
  {
    && WellFormed(ix)
    && CostsOf(data, id, Trials(ix, true)).Costs?
    && CostRows(CostsOf(data, id, Trials(ix, true)).rows, nObj)
    && a == AverageOf(CostsOf(data, id, Trials(ix, true)).rows, nObj)
  }

  /** The cached cost `cached` and trial count `count` of configuration `id` agree with a
      recomputation: present exactly when some trial is indexed, and then equal to the
      average over the maximal-budget trials and to their number. */
  ghost predicate AgreesAt(data: map<TrialKey, TrialValue>, ix: seq<IskEntry>, cached: Option<CostAgg>,
                           count: Option<nat>, nObj: int, id: nat)
  {
    && (cached.Some? <==> count.Some?)
    && (cached.Some? ==> |ix| > 0 && count.value == |ix| && Recomputes(data, ix, nObj, id, cached.value))
    && (cached.None? ==> |ix| == 0)
  }

  /** Writing a trial that is not among the indexed ones leaves the agreement of a cache
      with its recomputation intact. */
  lemma AgreesAfterUnindexedWrite(data: map<TrialKey, TrialValue>, ix: seq<IskEntry>, cached: Option<CostAgg>,
                                  count: Option<nat>, nObj: int, id: nat, k: TrialKey, v: TrialValue)
    requires AgreesAt(data, ix, cached, count, nObj, id)
    requires WellFormed(ix) && forall x :: x in Trials(ix, false) ==> KeyOf(id, x) != k
    ensures AgreesAt(data[k := v], ix, cached, count, nObj, id)
  {
    var keys := Trials(ix, true);
    forall i | 0 <= i < |keys| ensures KeyOf(id, keys[i]) != k {
      assert keys[i] in keys;
      MaxTrialsAreRecorded(ix, keys[i]);
    }
    CostsOfFrame(data, k, v, id, keys);
  }

  /** The trials of `keys` whose instance is one of `instances` (a trial without an
      instance never is). */
  function OnInstances(keys: seq<InstanceSeedBudgetKey>, instances: seq<string>): (r: seq<InstanceSeedBudgetKey>)
    ensures forall x :: x in r <==> x in keys && x.instance.Some? && x.instance.value in instances
    ensures |r| <= |keys|
  {
    if |keys| == 0 then []
    else
      var x := keys[|keys| - 1];
      var init := keys[..|keys| - 1];
      assert forall y :: y in keys <==> y in init || y == x;
      OnInstances(init, instances) + (if x.instance.Some? && x.instance.value in instances then [x] else [])
  }

  /** One moving-average step from the average of `rows` (from nothing when there are no
      rows) gives the average of `rows` with the new cost appended. */
  lemma IncrementalCostIsAverage(rows: seq<seq<real>>, c: seq<real>, nObj: int)
    requires CostRows(rows, nObj) && |c| == nObj && nObj >= 1
    ensures CostRows(rows + [c], nObj)
    ensures IncrementalCost(if |rows| == 0 then None else Some(AverageOf(rows, nObj)), |rows|, c, nObj)
            == AverageOf(rows + [c], nObj)
  {
    var rows' := rows + [c];
    assert forall r :: r in rows' ==> r in rows || r == c;
    if |rows| > 0 {
      if nObj > 1 {
        MovingAverageOfMeanPerObjective(rows, c, nObj);
      } else {
        ColumnAppend(rows, c, 0);
        MovingAverageOfMean(Column(rows, 0), c[0]);
      }
    } else {
      assert rows' == [c];
      if nObj > 1 {
        MovingAverageFromZero(c);
      } else {
        assert Column(rows', 0) == [c[0]];
        MeanOfSingleton(c[0]);
      }
    }
  }

  /** Once trial `k` is recorded on an instance-seed pair its configuration has not indexed,
      indexing it with budget 0 appends its cost to the maximal-budget costs. */
  lemma CostsAfterFreshTrial(data: map<TrialKey, TrialValue>, ix: seq<IskEntry>, k: TrialKey)
    requires WellFormed(ix)
    requires forall x :: x in Trials(ix, false) ==> KeyOf(k.configId, x) in data
    requires k in data && k.budget == Some(0.0)
    requires Find(ix, InstanceSeedKey(k.instance, k.seed)).None?
    ensures CostsOf(data, k.configId, Trials(ix, true)).Costs?
    ensures CostsOf(data, k.configId,
                    Trials(ix + [IskEntry(InstanceSeedKey(k.instance, k.seed), [k.budget])], true))
            == Costs(CostsOf(data, k.configId, Trials(ix, true)).rows + [data[k].cost])
  {
    var id := k.configId;
    var e := IskEntry(InstanceSeedKey(k.instance, k.seed), [k.budget]);
    var keys := Trials(ix, true);
    var x := InstanceSeedBudgetKey(k.instance, k.seed, Some(0.0));
    TrialsAppend(ix, e, true);
    assert MaxObservedBudget([k.budget]) == Some(0.0);
    assert Trials(ix + [e], true) == keys + [x];
    forall i | 0 <= i < |keys| ensures KeyOf(id, keys[i]) in data {
      assert keys[i] in keys;
      MaxTrialsAreRecorded(ix, keys[i]);
    }
    CostsOfAppend(data, id, keys, x);
  }

  /** Indexing a recorded trial on a new instance-seed pair with budget 0 and updating the
      cache by one moving-average step keeps the cache equal to the recomputed average. */
  lemma IncrementalStepAgrees(data: map<TrialKey, TrialValue>, ix: seq<IskEntry>, cached: Option<CostAgg>,
                              count: Option<nat>, nObj: int, k: TrialKey)
    requires AgreesAt(data, ix, cached, count, nObj, k.configId)
    requires Indexed(data, ix, k.configId, nObj)
    requires k in data && k.budget == Some(0.0) && nObj >= 1
    requires Find(ix, InstanceSeedKey(k.instance, k.seed)).None?
    ensures
      var n := if count.Some? then count.value else 0;
      AgreesAt(data, ix + [IskEntry(InstanceSeedKey(k.instance, k.seed), [k.budget])],
               Some(IncrementalCost(cached, n, data[k].cost, nObj)), Some(n + 1), nObj, k.configId)
  {
    var id := k.configId;
    var isk := InstanceSeedKey(k.instance, k.seed);
    var ix' := ix + [IskEntry(isk, [k.budget])];
    CostsAfterFreshTrial(data, ix, k);
    var rows := CostsOf(data, id, Trials(ix, true)).rows;
    MaxTrialsOnePerPair(ix);
    assert CostRows(rows, nObj) by {
      forall r | r in rows ensures |r| == nObj {
        var i :| 0 <= i < |rows| && rows[i] == r;
      }
    }
    RecordSpec(ix, isk, k.budget, isk);
    assert Record(ix, isk, k.budget) == Recorded(ix');
    IncrementalCostIsAverage(rows, data[k].cost, nObj);
  }

  /** The index `ix` of configuration `id` is well formed and points at recorded trials,
      whose costs have `nObj` entries. */
  predicate Indexed(data: map<TrialKey, TrialValue>, ix: seq<IskEntry>, id: nat, nObj: int)
  {
    && WellFormed(ix)
    && (forall x :: x in Trials(ix, false) ==> KeyOf(id, x) in data)
    && (forall t :: t in data ==> |data[t].cost| == nObj)
    && (nObj == -1 || nObj >= 1)
  }

  /** The maximal-budget trials of an index, without duplicates. */
  function MaxKeys(ix: seq<IskEntry>): (keys: seq<InstanceSeedBudgetKey>)
    requires WellFormed(ix)
    ensures forall x :: x in keys ==> x in Trials(ix, false)
  {
    var keys := Dedupe(Trials(ix, true));
    forall x | x in keys ensures x in Trials(ix, false) {
      MaxTrialsAreRecorded(ix, x);
    }
    keys
  }

  /** All trials of an index, without duplicates. */
  function AllKeys(ix: seq<IskEntry>): (keys: seq<InstanceSeedBudgetKey>)
    ensures forall x :: x in keys ==> x in Trials(ix, false)
  {
    Dedupe(Trials(ix, false))
  }

  /** The costs recorded for indexed trials are all found and have the objective count. */
  function IndexedCosts(data: map<TrialKey, TrialValue>, ix: seq<IskEntry>, id: nat, nObj: int,
                        keys: seq<InstanceSeedBudgetKey>): (rows: seq<seq<real>>)
    requires Indexed(data, ix, id, nObj)
    requires forall x :: x in keys ==> x in Trials(ix, false)
    ensures |rows| == |keys| && CostRows(rows, nObj)
    ensures CostsOf(data, id, keys) == Costs(rows)
  {
    assert forall i :: 0 <= i < |keys| ==> KeyOf(id, keys[i]) in data by {
      forall i | 0 <= i < |keys| ensures KeyOf(id, keys[i]) in data {
        assert keys[i] in keys;
      }
    }
    var r := CostsOf(data, id, keys);
    forall row | row in r.rows ensures |row| == nObj && nObj >= 1 {
      var i :| 0 <= i < |r.rows| && r.rows[i] == row;
    }
    r.rows
  }

  /** What `update_cost` stores as the cost: the average over the maximal-budget trials. */
  function RecomputedCostOf(data: map<TrialKey, TrialValue>, ix: seq<IskEntry>, id: nat, nObj: int): CostAgg
    requires Indexed(data, ix, id, nObj)
  {
    AverageOf(IndexedCosts(data, ix, id, nObj, MaxKeys(ix)), nObj)
  }

  /** What `update_cost` stores as the lowest cost: the minimum over all trials. */
  function RecomputedMinCostOf(data: map<TrialKey, TrialValue>, ix: seq<IskEntry>, id: nat, nObj: int): CostAgg
    requires Indexed(data, ix, id, nObj)
  {
    MinOf(IndexedCosts(data, ix, id, nObj, AllKeys(ix)), nObj)
  }

  lemma RecomputedShaped(data: map<TrialKey, TrialValue>, ix: seq<IskEntry>, id: nat, nObj: int)
    requires Indexed(data, ix, id, nObj)
    ensures Shaped(RecomputedCostOf(data, ix, id, nObj), nObj)
    ensures Shaped(RecomputedMinCostOf(data, ix, id, nObj), nObj)
  {
    AggregatesShaped(IndexedCosts(data, ix, id, nObj, MaxKeys(ix)), nObj);
    AggregatesShaped(IndexedCosts(data, ix, id, nObj, AllKeys(ix)), nObj);
  }

  /** Storing the recomputed cost and count of a configuration with an indexed trial makes
      its cache agree with a recomputation. */
  lemma RecomputedAgrees(data: map<TrialKey, TrialValue>, ix: seq<IskEntry>, id: nat, nObj: int)
    requires Indexed(data, ix, id, nObj) && |ix| > 0
    ensures AgreesAt(data, ix, Some(RecomputedCostOf(data, ix, id, nObj)), Some(|MaxKeys(ix)|), nObj, id)
  {
    MaxTrialsDistinct(ix);
    MaxTrialsOnePerPair(ix);
    var rows := IndexedCosts(data, ix, id, nObj, MaxKeys(ix));
    assert CostsOf(data, id, Trials(ix, true)) == Costs(rows);
  }
}
