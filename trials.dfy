/** Value types shared by the trial ledger: keys, values, statuses and origins of trials. */
module TrialData {

  datatype Option<+T> = None | Some(value: T)

  /** Outcome of one trial. Only RUNNING and SUCCESS are branched on by the ledger;
      DONOTADVANCE marks a finished trial whose configuration should not move on to a
      higher budget. */
  datatype StatusType = Running | Success | Crashed | Timeout | Memoryout | DoNotAdvance

  /** Where a trial came from: produced by this run, or merged in from another ledger. */
  datatype DataOrigin = Internal | ExternalSameInstances | ExternalDifferentInstances

  /** A budget is a float or absent (None). */
  type Budget = Option<real>

  datatype InstanceSeedKey = InstanceSeedKey(instance: Option<string>, seed: Option<int>)

  datatype InstanceSeedBudgetKey = InstanceSeedBudgetKey(instance: Option<string>, seed: Option<int>, budget: Budget)

  /** Identifies one evaluation slot of the ledger. */
  datatype TrialKey = TrialKey(configId: nat, instance: Option<string>, seed: Option<int>, budget: Budget)

  /** The recorded result of one trial. A single-objective cost `x` is stored as `[x]`;
      `additionalInfo` stands for the JSON-serialisable dictionary and is never inspected. */
  datatype TrialValue = TrialValue(
    cost: seq<real>,
    time: real,
    status: StatusType,
    starttime: real,
    endtime: real,
    additionalInfo: string)

  /** What the cost caches and the cost queries hold: NaN, a float (one objective), or a
      list of floats (one per objective). */
  datatype CostAgg = Nan | Scalar(x: real) | Vector(xs: seq<real>)

  function KeyOf(configId: nat, isbk: InstanceSeedBudgetKey): TrialKey
  {
    TrialKey(configId, isbk.instance, isbk.seed, isbk.budget)
  }
}
