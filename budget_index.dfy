/** The per-configuration index from instance-seed pair to the budgets recorded for it
    (an insertion-ordered dictionary, modelled as a list of entries with distinct pairs),
    and the trial lists derived from it. */
module BudgetIndex {
  import opened TrialData

  datatype IskEntry = IskEntry(isk: InstanceSeedKey, budgets: seq<Budget>)

  /** All budgets recorded for one pair are of one kind: all floats or all None. */
  predicate Homogeneous(bs: seq<Budget>)
  {
    |bs| > 0 && forall b :: b in bs ==> b.Some? == bs[0].Some?
  }

  /** Distinct pairs, each with a non-empty, homogeneous budget list. */
  predicate WellFormed(ix: seq<IskEntry>)
  {
    && (forall i, j :: 0 <= i < j < |ix| ==> ix[i].isk != ix[j].isk)
    && (forall i :: 0 <= i < |ix| ==> Homogeneous(ix[i].budgets))
  }

  /** Position of `isk` in the index, if it is there. */
  function Find(ix: seq<IskEntry>, isk: InstanceSeedKey): (r: Option<nat>)
    ensures r.Some? ==> r.value < |ix| && ix[r.value].isk == isk
    ensures r.None? ==> forall i :: 0 <= i < |ix| ==> ix[i].isk != isk
  {
    if |ix| == 0 then None
    else if ix[0].isk == isk then Some(0)
    else match Find(ix[1..], isk)
      case None => None
      case Some(i) => Some(i + 1)
  }

  /** The budgets recorded for `isk`, or none. */
  function BudgetsOf(ix: seq<IskEntry>, isk: InstanceSeedKey): seq<Budget>
  {
    match Find(ix, isk)
    case None => []
    case Some(i) => ix[i].budgets
  }

  /** Python's `budget == instance`: a float never equals a string, None equals None. */
  predicate BudgetEqualsInstance(b: Budget, instance: Option<string>)
  {
    b.None? && instance.None?
  }

  /** Python's `budget == seed`: None equals None, and a float equals an int of the same value. */
  predicate BudgetEqualsSeed(b: Budget, seed: Option<int>)
  {
    match (b, seed)
    case (None, None) => true
    case (Some(x), Some(s)) => x == s as real
    case _ => false
  }

  /** The guard under which a budget is appended to an already recorded pair. */
  predicate BudgetAppends(b: Budget, isk: InstanceSeedKey)
  {
    !BudgetEqualsInstance(b, isk.instance) && !BudgetEqualsSeed(b, isk.seed)
  }

  datatype RecordResult = Recorded(ix: seq<IskEntry>) | MixedBudgetTypes(found: Budget)

  /** Records budget `b` for pair `isk`: a new pair gets `[b]`; a known pair gets `b`
      appended when the guard allows it, unless `b` and the recorded budgets differ in kind,
      which is an error. */
  function Record(ix: seq<IskEntry>, isk: InstanceSeedKey, b: Budget): RecordResult
    requires WellFormed(ix)
  {
    match Find(ix, isk)
    case None => Recorded(ix + [IskEntry(isk, [b])])
    case Some(i) =>
      if !BudgetAppends(b, isk) then Recorded(ix)
      else if ix[i].budgets[0].Some? != b.Some? then MixedBudgetTypes(ix[i].budgets[0])
      else Recorded(ix[i := IskEntry(isk, ix[i].budgets + [b])])
  }

  /** Recording keeps the index well formed, fails exactly when a budget of the other kind
      is already recorded for a known pair whose guard lets `b` through, and afterwards `b`
      is recorded for `isk` unless the guard stopped it; other pairs keep their budgets. */
  lemma RecordSpec(ix: seq<IskEntry>, isk: InstanceSeedKey, b: Budget, other: InstanceSeedKey)
    requires WellFormed(ix)
    ensures Record(ix, isk, b).MixedBudgetTypes? <==>
              Find(ix, isk).Some? && BudgetAppends(b, isk) &&
              exists b' :: b' in BudgetsOf(ix, isk) && b'.Some? != b.Some?
    ensures Record(ix, isk, b).Recorded? ==> WellFormed(Record(ix, isk, b).ix)
    ensures Record(ix, isk, b).Recorded? ==> Find(Record(ix, isk, b).ix, isk).Some?
    ensures Record(ix, isk, b).Recorded? && (Find(ix, isk).None? || BudgetAppends(b, isk)) ==>
              BudgetsOf(Record(ix, isk, b).ix, isk) == BudgetsOf(ix, isk) + [b]
    ensures Record(ix, isk, b).Recorded? && Find(ix, isk).Some? && !BudgetAppends(b, isk) ==>
              Record(ix, isk, b).ix == ix
    ensures Record(ix, isk, b).Recorded? && other != isk ==>
              BudgetsOf(Record(ix, isk, b).ix, other) == BudgetsOf(ix, other)
  {
    match Find(ix, isk)
    case None => RecordNewPair(ix, isk, b, other);
    case Some(i) => RecordKnownPair(ix, isk, b, other, i);
  }

  /** `RecordSpec` for a pair seen for the first time. */
  lemma RecordNewPair(ix: seq<IskEntry>, isk: InstanceSeedKey, b: Budget, other: InstanceSeedKey)
    requires WellFormed(ix) && Find(ix, isk).None?
    ensures Record(ix, isk, b).MixedBudgetTypes? <==>
              Find(ix, isk).Some? && BudgetAppends(b, isk) &&
              exists b' :: b' in BudgetsOf(ix, isk) && b'.Some? != b.Some?
    ensures Record(ix, isk, b).Recorded? ==> WellFormed(Record(ix, isk, b).ix)
    ensures Record(ix, isk, b).Recorded? ==> Find(Record(ix, isk, b).ix, isk).Some?
    ensures Record(ix, isk, b).Recorded? && (Find(ix, isk).None? || BudgetAppends(b, isk)) ==>
              BudgetsOf(Record(ix, isk, b).ix, isk) == BudgetsOf(ix, isk) + [b]
    ensures Record(ix, isk, b).Recorded? && other != isk ==>
              BudgetsOf(Record(ix, isk, b).ix, other) == BudgetsOf(ix, other)
  {
    FindAppendNew(ix, IskEntry(isk, [b]), isk);
    FindAppendNew(ix, IskEntry(isk, [b]), other);
  }

  /** `RecordSpec` for a pair already recorded at position `i`. */
  lemma RecordKnownPair(ix: seq<IskEntry>, isk: InstanceSeedKey, b: Budget, other: InstanceSeedKey, i: nat)
    requires WellFormed(ix) && Find(ix, isk) == Some(i)
    ensures Record(ix, isk, b).MixedBudgetTypes? <==>
              Find(ix, isk).Some? && BudgetAppends(b, isk) &&
              exists b' :: b' in BudgetsOf(ix, isk) && b'.Some? != b.Some?
    ensures Record(ix, isk, b).Recorded? ==> WellFormed(Record(ix, isk, b).ix)
    ensures Record(ix, isk, b).Recorded? ==> Find(Record(ix, isk, b).ix, isk).Some?
    ensures Record(ix, isk, b).Recorded? && (Find(ix, isk).None? || BudgetAppends(b, isk)) ==>
              BudgetsOf(Record(ix, isk, b).ix, isk) == BudgetsOf(ix, isk) + [b]
    ensures Record(ix, isk, b).Recorded? && Find(ix, isk).Some? && !BudgetAppends(b, isk) ==>
              Record(ix, isk, b).ix == ix
    ensures Record(ix, isk, b).Recorded? && other != isk ==>
              BudgetsOf(Record(ix, isk, b).ix, other) == BudgetsOf(ix, other)
  {
    if BudgetAppends(b, isk) && ix[i].budgets[0].Some? == b.Some? {
      FindUpdate(ix, i, ix[i].budgets + [b], isk);
      FindUpdate(ix, i, ix[i].budgets + [b], other);
      assert forall x :: x in ix[i].budgets + [b] ==> x in ix[i].budgets || x == b;
    }
  }

  lemma FindAppendNew(ix: seq<IskEntry>, e: IskEntry, isk: InstanceSeedKey)
    requires Find(ix, e.isk).None?
    ensures Find(ix + [e], isk) == if isk == e.isk then Some(|ix|) else Find(ix, isk)
  {
    if |ix| > 0 {
      assert (ix + [e])[1..] == ix[1..] + [e];
      FindAppendNew(ix[1..], e, isk);
    }
  }

  lemma FindUpdate(ix: seq<IskEntry>, i: nat, bs: seq<Budget>, isk: InstanceSeedKey)
    requires i < |ix|
    ensures Find(ix[i := IskEntry(ix[i].isk, bs)], isk) == Find(ix, isk)
  {
    if |ix| > 0 && i > 0 {
      assert ix[i := IskEntry(ix[i].isk, bs)][1..] == ix[1..][i - 1 := IskEntry(ix[i].isk, bs)];
      FindUpdate(ix[1..], i - 1, bs, isk);
    }
  }

  /** Budget 0.0 on seed 0 is not appended to a known pair, because `0.0 == 0` holds. */
  lemma ZeroBudgetOnSeedZeroNotAppended(ix: seq<IskEntry>, instance: Option<string>)
    requires WellFormed(ix)
    requires Find(ix, InstanceSeedKey(instance, Some(0))).Some?
    ensures Record(ix, InstanceSeedKey(instance, Some(0)), Some(0.0)) == Recorded(ix)
  {
  }

  /** The largest of a list of float budgets. */
  function MaxOf(bs: seq<Budget>): (m: real)
    requires |bs| > 0 && forall b :: b in bs ==> b.Some?
    ensures Some(m) in bs
    ensures forall b :: b in bs ==> b.value <= m
  {
    if |bs| == 1 then bs[0].value
    else
      assert forall b :: b in bs ==> b in bs[..|bs| - 1] || b == bs[|bs| - 1];
      var r := MaxOf(bs[..|bs| - 1]);
      if bs[|bs| - 1].value > r then bs[|bs| - 1].value else r
  }

  /** The maximal observed budget of a pair: None if None was ever recorded (None means
      "fully evaluated" and dominates), otherwise the largest recorded float. */
  function MaxObservedBudget(bs: seq<Budget>): (r: Budget)
    requires |bs| > 0
    ensures r.None? <==> None in bs
    ensures r in bs
    ensures r.Some? ==> forall b :: b in bs ==> b.Some? && b.value <= r.value
  {
    if None in bs then None else Some(MaxOf(bs))
  }

  function EntryTrials(e: IskEntry, onlyMax: bool): (r: seq<InstanceSeedBudgetKey>)
    requires onlyMax ==> |e.budgets| > 0
  {
    if onlyMax then [InstanceSeedBudgetKey(e.isk.instance, e.isk.seed, MaxObservedBudget(e.budgets))]
    else seq(|e.budgets|, i requires 0 <= i < |e.budgets| =>
               InstanceSeedBudgetKey(e.isk.instance, e.isk.seed, e.budgets[i]))
  }

  /** The trials of one configuration as instance-seed-budget keys, pair by pair in index
      order: every recorded budget, or only the maximal observed one per pair. */
  function Trials(ix: seq<IskEntry>, onlyMax: bool): seq<InstanceSeedBudgetKey>
    requires onlyMax ==> forall i :: 0 <= i < |ix| ==> |ix[i].budgets| > 0
  {
    if |ix| == 0 then [] else EntryTrials(ix[0], onlyMax) + Trials(ix[1..], onlyMax)
  }

  lemma {:induction false} TrialsAppend(ix: seq<IskEntry>, e: IskEntry, onlyMax: bool)
    requires onlyMax ==> forall i :: 0 <= i < |ix| ==> |ix[i].budgets| > 0
    requires onlyMax ==> |e.budgets| > 0
    ensures Trials(ix + [e], onlyMax) == Trials(ix, onlyMax) + EntryTrials(e, onlyMax)
  {
    if |ix| == 0 {
      assert Trials([e], onlyMax) == EntryTrials(e, onlyMax) + Trials([], onlyMax);
    } else {
      assert (ix + [e])[1..] == ix[1..] + [e];
      TrialsAppend(ix[1..], e, onlyMax);
    }
  }

  /** With `onlyMax`, there is exactly one trial per recorded pair, in index order, carrying
      that pair's maximal observed budget. */
  lemma {:induction false} MaxTrialsOnePerPair(ix: seq<IskEntry>)
    requires forall i :: 0 <= i < |ix| ==> |ix[i].budgets| > 0
    ensures |Trials(ix, true)| == |ix|
    ensures forall i :: 0 <= i < |ix| ==>
              Trials(ix, true)[i] ==
                InstanceSeedBudgetKey(ix[i].isk.instance, ix[i].isk.seed, MaxObservedBudget(ix[i].budgets))
  {
    if |ix| > 0 {
      MaxTrialsOnePerPair(ix[1..]);
    }
  }

  /** Without `onlyMax`, the trials are exactly the recorded (pair, budget) combinations. */
  lemma {:induction false} AllTrialsMembership(ix: seq<IskEntry>, x: InstanceSeedBudgetKey)
    ensures x in Trials(ix, false) <==>
              exists i :: 0 <= i < |ix| && ix[i].isk == InstanceSeedKey(x.instance, x.seed) &&
                          x.budget in ix[i].budgets
  {
    if |ix| > 0 {
      AllTrialsMembership(ix[1..], x);
      var e := ix[0];
      assert x in EntryTrials(e, false) <==>
             e.isk == InstanceSeedKey(x.instance, x.seed) && x.budget in e.budgets
      by {
        if e.isk == InstanceSeedKey(x.instance, x.seed) && x.budget in e.budgets {
          var k :| 0 <= k < |e.budgets| && e.budgets[k] == x.budget;
          assert EntryTrials(e, false)[k] == x;
        }
      }
      if exists i :: 0 <= i < |ix| && ix[i].isk == InstanceSeedKey(x.instance, x.seed) &&
                     x.budget in ix[i].budgets {
        var i :| 0 <= i < |ix| && ix[i].isk == InstanceSeedKey(x.instance, x.seed) &&
                 x.budget in ix[i].budgets;
        if i > 0 { assert ix[1..][i - 1] == ix[i]; }
      }
      if x in Trials(ix[1..], false) {
        var i :| 0 <= i < |ix[1..]| && ix[1..][i].isk == InstanceSeedKey(x.instance, x.seed) &&
                 x.budget in ix[1..][i].budgets;
        assert ix[i + 1] == ix[1..][i];
      }
    }
  }

  /** In a well-formed index, a (pair, budget) combination is a trial exactly when the
      budget is among those recorded for the pair. */
  lemma AllTrialsViaBudgetsOf(ix: seq<IskEntry>, x: InstanceSeedBudgetKey)
    requires WellFormed(ix)
    ensures x in Trials(ix, false) <==> x.budget in BudgetsOf(ix, InstanceSeedKey(x.instance, x.seed))
  {
    AllTrialsMembership(ix, x);
  }

  /** Recording adds at most the combination of `isk` and `b` to the trials, and adds it
      whenever the pair is new or the guard lets the budget through. */
  lemma RecordTrials(ix: seq<IskEntry>, isk: InstanceSeedKey, b: Budget, x: InstanceSeedBudgetKey)
    requires WellFormed(ix) && Record(ix, isk, b).Recorded?
    ensures x in Trials(Record(ix, isk, b).ix, false) ==>
              x in Trials(ix, false) || x == InstanceSeedBudgetKey(isk.instance, isk.seed, b)
    ensures x in Trials(ix, false) ==> x in Trials(Record(ix, isk, b).ix, false)
    ensures (Find(ix, isk).None? || BudgetAppends(b, isk)) ==>
              InstanceSeedBudgetKey(isk.instance, isk.seed, b) in Trials(Record(ix, isk, b).ix, false)
  {
    var xisk := InstanceSeedKey(x.instance, x.seed);
    var ix' := Record(ix, isk, b).ix;
    RecordSpec(ix, isk, b, xisk);
    AllTrialsViaBudgetsOf(ix, x);
    AllTrialsViaBudgetsOf(ix', x);
    var y := InstanceSeedBudgetKey(isk.instance, isk.seed, b);
    RecordSpec(ix, isk, b, isk);
    AllTrialsViaBudgetsOf(ix', y);
    if xisk == isk {
      assert forall z :: z in BudgetsOf(ix, isk) + [b] ==> z in BudgetsOf(ix, isk) || z == b;
    }
  }

  /** Recording a float budget for a known pair whose budgets are floats never fails and
      keeps the number of pairs. */
  lemma RecordFloatOnKnownPair(ix: seq<IskEntry>, isk: InstanceSeedKey, b: Budget)
    requires WellFormed(ix) && Find(ix, isk).Some? && b.Some?
    requires forall b' :: b' in BudgetsOf(ix, isk) ==> b'.Some?
    ensures Record(ix, isk, b).Recorded? && |Record(ix, isk, b).ix| == |ix|
  {
    var i := Find(ix, isk).value;
    assert ix[i].budgets[0] in BudgetsOf(ix, isk);
  }

  /** Recording on a known pair without a clash keeps the number of pairs. */
  lemma RecordOnKnownPairKeepsLength(ix: seq<IskEntry>, isk: InstanceSeedKey, b: Budget)
    requires WellFormed(ix) && Find(ix, isk).Some? && Record(ix, isk, b).Recorded?
    ensures |Record(ix, isk, b).ix| == |ix|
  {
  }

  /** Recording the budget of a trial already listed finds its pair and never fails, since
      the pair's budgets are all of the kind of the listed one. */
  lemma RecordListedTrial(ix: seq<IskEntry>, x: InstanceSeedBudgetKey)
    requires WellFormed(ix)
    ensures x in Trials(ix, false) ==> Find(ix, InstanceSeedKey(x.instance, x.seed)).Some?
    ensures x in Trials(ix, false) ==> Record(ix, InstanceSeedKey(x.instance, x.seed), x.budget).Recorded?
  {
    var isk := InstanceSeedKey(x.instance, x.seed);
    AllTrialsViaBudgetsOf(ix, x);
    RecordSpec(ix, isk, x.budget, isk);
    if Find(ix, isk).Some? {
      var i := Find(ix, isk).value;
      assert Homogeneous(ix[i].budgets);
    }
  }

  predicate Distinct<T(==)>(s: seq<T>)
  {
    forall i, j :: 0 <= i < j < |s| ==> s[i] != s[j]
  }

  /** Removes duplicates, keeping the first occurrence of each element in place
      (`list(dict.fromkeys(s))`). */
  function Dedupe<T(==,!new)>(s: seq<T>): (r: seq<T>)
    ensures Distinct(r)
    ensures forall x :: x in r <==> x in s
    ensures |r| <= |s|
  {
    if |s| == 0 then []
    else
      var p := Dedupe(s[..|s| - 1]);
      assert forall x :: x in s <==> x in s[..|s| - 1] || x == s[|s| - 1];
      if s[|s| - 1] in p then p else p + [s[|s| - 1]]
  }

  /** Position of the first occurrence of `x` in `s`. */
  function FirstIndex<T(==)>(s: seq<T>, x: T): (i: nat)
    requires x in s
    ensures i < |s| && s[i] == x
    ensures forall j :: 0 <= j < i ==> s[j] != x
  {
    if s[0] == x then 0
    else
      var i := FirstIndex(s[1..], x);
      assert forall j :: 1 <= j < i + 1 ==> s[j] == s[1..][j - 1];
      i + 1
  }

  /** An element of a prefix is first met at the same position in the whole sequence. */
  lemma FirstIndexOfPrefix<T>(s: seq<T>, m: nat, x: T)
    requires m <= |s| && x in s[..m]
    ensures FirstIndex(s, x) == FirstIndex(s[..m], x)
  {
    var a := FirstIndex(s, x);
    var b := FirstIndex(s[..m], x);
    assert s[..m][b] == s[b] == x;
    assert a <= b;
    assert forall j :: 0 <= j < m ==> s[..m][j] == s[j];
  }

  /** De-duplication keeps the order of first occurrences: an element placed before
      another one in the result first occurs before it in the input. */
  lemma {:induction false} DedupeKeepsFirstOrder<T(!new)>(s: seq<T>)
    ensures forall i, j :: 0 <= i < j < |Dedupe(s)| ==>
              FirstIndex(s, Dedupe(s)[i]) < FirstIndex(s, Dedupe(s)[j])
  {
    if |s| > 0 {
      var n := |s| - 1;
      var init := s[..n];
      var p := Dedupe(init);
      DedupeKeepsFirstOrder(init);
      forall x | x in p ensures FirstIndex(s, x) == FirstIndex(init, x) < n {
        FirstIndexOfPrefix(s, n, x);
      }
      if s[n] !in p {
        assert s[n] !in init;
        LastFirstOccurrence(s);
        OrderedThenLast(s, p, Dedupe(s));
      } else {
        assert Dedupe(s) == p;
      }
    }
  }

  /** The last element of `s`, when it does not occur before, first occurs at the end. */
  lemma LastFirstOccurrence<T>(s: seq<T>)
    requires |s| > 0 && s[|s| - 1] !in s[..|s| - 1]
    ensures FirstIndex(s, s[|s| - 1]) == |s| - 1
  {
    assert forall j :: 0 <= j < |s| - 1 ==> s[..|s| - 1][j] == s[j];
  }

  /** Elements in order of first occurrence, all first met before the last position of
      `s`, stay in that order when the last element of `s` is put after them. */
  lemma OrderedThenLast<T>(s: seq<T>, p: seq<T>, r: seq<T>)
    requires |s| > 0 && forall x :: x in p ==> x in s && FirstIndex(s, x) < |s| - 1
    requires forall i, j :: 0 <= i < j < |p| ==> FirstIndex(s, p[i]) < FirstIndex(s, p[j])
    requires FirstIndex(s, s[|s| - 1]) == |s| - 1 && r == p + [s[|s| - 1]]
    ensures forall i, j :: 0 <= i < j < |r| ==> FirstIndex(s, r[i]) < FirstIndex(s, r[j])
  {
    forall i, j | 0 <= i < j < |r| ensures FirstIndex(s, r[i]) < FirstIndex(s, r[j]) {
      assert r[i] == p[i] && p[i] in p;
      if j < |p| {
        assert r[j] == p[j];
      }
    }
  }

  /** A sequence without duplicates is left as it is. */
  lemma {:induction false} DedupeOfDistinct<T(!new)>(s: seq<T>)
    requires Distinct(s)
    ensures Dedupe(s) == s
  {
    if |s| > 0 {
      var init := s[..|s| - 1];
      DedupeOfDistinct(init);
      assert s[|s| - 1] !in init;
      assert s == init + [s[|s| - 1]];
    }
  }

  /** The maximal-budget trials of a well-formed index have no duplicates, so
      de-duplicating them changes nothing. */
  lemma MaxTrialsDistinct(ix: seq<IskEntry>)
    requires WellFormed(ix)
    ensures Distinct(Trials(ix, true))
    ensures Dedupe(Trials(ix, true)) == Trials(ix, true)
  {
    MaxTrialsOnePerPair(ix);
    var t := Trials(ix, true);
    forall i, j | 0 <= i < j < |t| ensures t[i] != t[j] {
      assert ix[i].isk != ix[j].isk;
    }
    DedupeOfDistinct(t);
  }

  /** Every maximal-budget trial is one of the recorded (pair, budget) combinations. */
  lemma MaxTrialsAreRecorded(ix: seq<IskEntry>, x: InstanceSeedBudgetKey)
    requires forall i :: 0 <= i < |ix| ==> |ix[i].budgets| > 0
    requires x in Trials(ix, true)
    ensures x in Trials(ix, false)
  {
    MaxTrialsOnePerPair(ix);
    var i :| 0 <= i < |ix| && Trials(ix, true)[i] == x;
    AllTrialsMembership(ix, x);
  }
}
