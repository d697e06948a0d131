/** Arithmetic over recorded costs: sums, means, minima and maxima of one objective,
    the same per objective over a table of cost vectors, and the moving average the
    ledger keeps as a cache. Costs are modelled as mathematical reals. */
module Aggregates {

  function Sum(xs: seq<real>): real
  {
    if |xs| == 0 then 0.0 else Sum(xs[..|xs| - 1]) + xs[|xs| - 1]
  }

  lemma SumAppend(xs: seq<real>, c: real)
    ensures Sum(xs + [c]) == Sum(xs) + c
  {
    assert (xs + [c])[..|xs|] == xs;
  }

  /** The arithmetic mean. */
  function Mean(xs: seq<real>): real
    requires |xs| > 0
  {
    Sum(xs) / (|xs| as real)
  }

  /** `|xs|` copies of the mean add up to the sum. */
  lemma MeanTimesLength(xs: seq<real>)
    requires |xs| > 0
    ensures Mean(xs) * (|xs| as real) == Sum(xs)
  {
  }

  /** The least element of a non-empty sequence. */
  function Min(xs: seq<real>): (m: real)
    requires |xs| > 0
    ensures m in xs
    ensures forall x :: x in xs ==> m <= x
  {
    if |xs| == 1 then xs[0]
    else
      var r := Min(xs[..|xs| - 1]);
      assert forall x :: x in xs ==> x in xs[..|xs| - 1] || x == xs[|xs| - 1];
      if xs[|xs| - 1] < r then xs[|xs| - 1] else r
  }

  /** The greatest element of a non-empty sequence. */
  function Max(xs: seq<real>): (m: real)
    requires |xs| > 0
    ensures m in xs
    ensures forall x :: x in xs ==> x <= m
  {
    if |xs| == 1 then xs[0]
    else
      var r := Max(xs[..|xs| - 1]);
      assert forall x :: x in xs ==> x in xs[..|xs| - 1] || x == xs[|xs| - 1];
      if xs[|xs| - 1] > r then xs[|xs| - 1] else r
  }

  /** One step of the moving average kept per configuration: the old average of `n`
      costs, updated with one more cost `c`. */
  function MovingAverage(prev: real, n: nat, c: real): real
  {
    (prev * (n as real) + c) / (n as real + 1.0)
  }

  /** Updating the mean of `xs` by one moving-average step gives the mean of `xs + [c]`. */
  lemma MovingAverageOfMean(xs: seq<real>, c: real)
    requires |xs| > 0
    ensures MovingAverage(Mean(xs), |xs|, c) == Mean(xs + [c])
  {
    SumAppend(xs, c);
    MeanTimesLength(xs);
    var n := |xs| as real;
    calc {
      MovingAverage(Mean(xs), |xs|, c);
      (Mean(xs) * n + c) / (n + 1.0);
      (Sum(xs) + c) / (n + 1.0);
      Sum(xs + [c]) / ((|xs + [c]|) as real);
    }
  }

  /** The cache obtained by feeding the costs one at a time through the moving average,
      starting from 0.0 with a count of 0. */
  function RunningMean(xs: seq<real>): real
  {
    if |xs| == 0 then 0.0
    else MovingAverage(RunningMean(xs[..|xs| - 1]), |xs| - 1, xs[|xs| - 1])
  }

  /** The incrementally maintained average equals the mean recomputed from scratch. */
  lemma {:induction false} RunningMeanIsMean(xs: seq<real>)
    requires |xs| > 0
    ensures RunningMean(xs) == Mean(xs)
  {
    var init := xs[..|xs| - 1];
    assert xs == init + [xs[|xs| - 1]];
    if |init| == 0 {
      assert Sum(xs) == Sum(init) + xs[0] by { SumAppend(init, xs[0]); }
    } else {
      RunningMeanIsMean(init);
      MovingAverageOfMean(init, xs[|xs| - 1]);
    }
  }

  /** Every row of the cost table has `n` entries (one per objective). */
  predicate Rectangular(rows: seq<seq<real>>, n: int)
  {
    forall r :: r in rows ==> |r| == n
  }

  /** The costs of objective `j` across all rows. */
  function Column(rows: seq<seq<real>>, j: nat): (col: seq<real>)
    requires forall r :: r in rows ==> j < |r|
    ensures |col| == |rows|
    ensures forall i :: 0 <= i < |rows| ==> col[i] == rows[i][j]
  {
    seq(|rows|, i requires 0 <= i < |rows| => rows[i][j])
  }

  lemma ColumnAppend(rows: seq<seq<real>>, c: seq<real>, j: nat)
    requires forall r :: r in rows ==> j < |r|
    requires j < |c|
    ensures Column(rows + [c], j) == Column(rows, j) + [c[j]]
  {
    assert forall r :: r in rows + [c] ==> r in rows || r == c;
  }

  function SumPerObjective(rows: seq<seq<real>>, n: nat): (v: seq<real>)
    requires Rectangular(rows, n)
    ensures |v| == n
    ensures forall j :: 0 <= j < n ==> v[j] == Sum(Column(rows, j))
  {
    seq(n, j requires 0 <= j < n => Sum(Column(rows, j)))
  }

  function MeanPerObjective(rows: seq<seq<real>>, n: nat): (v: seq<real>)
    requires |rows| > 0 && Rectangular(rows, n)
    ensures |v| == n
    ensures forall j :: 0 <= j < n ==> v[j] == Mean(Column(rows, j))
  {
    seq(n, j requires 0 <= j < n => Mean(Column(rows, j)))
  }

  /** The per-objective minimum. */
  function MinPerObjective(rows: seq<seq<real>>, n: nat): (v: seq<real>)
    requires |rows| > 0 && Rectangular(rows, n)
    ensures |v| == n
    ensures forall j :: 0 <= j < n ==> v[j] == Min(Column(rows, j))
  {
    seq(n, j requires 0 <= j < n => Min(Column(rows, j)))
  }

  /** The per-objective maximum. */
  function MaxPerObjective(rows: seq<seq<real>>, n: nat): (v: seq<real>)
    requires |rows| > 0 && Rectangular(rows, n)
    ensures |v| == n
    ensures forall j :: 0 <= j < n ==> v[j] == Max(Column(rows, j))
  {
    seq(n, j requires 0 <= j < n => Max(Column(rows, j)))
  }

  /** For objective `j`, the minimum is a lower bound and the maximum an upper bound of
      every row, and some row attains each. */
  lemma PerObjectiveBounds(rows: seq<seq<real>>, n: nat, j: nat)
    requires |rows| > 0 && Rectangular(rows, n) && j < n
    ensures forall i :: 0 <= i < |rows| ==>
              MinPerObjective(rows, n)[j] <= rows[i][j] <= MaxPerObjective(rows, n)[j]
    ensures exists i :: 0 <= i < |rows| && MinPerObjective(rows, n)[j] == rows[i][j]
    ensures exists i :: 0 <= i < |rows| && MaxPerObjective(rows, n)[j] == rows[i][j]
  {
    var col := Column(rows, j);
    forall i | 0 <= i < |rows| ensures Min(col) <= rows[i][j] <= Max(col) {
      assert col[i] in col;
    }
    var lo :| 0 <= lo < |col| && col[lo] == Min(col);
    assert MinPerObjective(rows, n)[j] == rows[lo][j];
    var hi :| 0 <= hi < |col| && col[hi] == Max(col);
    assert MaxPerObjective(rows, n)[j] == rows[hi][j];
  }

  /** The moving average applied to each objective separately. */
  function MovingAverageVector(prev: seq<real>, n: nat, c: seq<real>): (v: seq<real>)
    requires |prev| == |c|
    ensures |v| == |c|
  {
    seq(|c|, j requires 0 <= j < |c| => MovingAverage(prev[j], n, c[j]))
  }

  /** Per objective, one moving-average step from the mean of a cost table yields the mean
      of the table with the new cost vector appended. */
  lemma MovingAverageOfMeanPerObjective(rows: seq<seq<real>>, c: seq<real>, n: nat)
    requires |rows| > 0 && Rectangular(rows, n) && |c| == n
    ensures Rectangular(rows + [c], n)
    ensures MovingAverageVector(MeanPerObjective(rows, n), |rows|, c) == MeanPerObjective(rows + [c], n)
  {
    assert forall r :: r in rows + [c] ==> r in rows || r == c;
    var lhs := MovingAverageVector(MeanPerObjective(rows, n), |rows|, c);
    var rhs := MeanPerObjective(rows + [c], n);
    forall j | 0 <= j < n ensures lhs[j] == rhs[j] {
      ColumnAppend(rows, c, j);
      MovingAverageOfMean(Column(rows, j), c[j]);
    }
  }

  /** Starting from an all-zero vector with a count of 0, one step yields the new costs. */
  lemma MovingAverageFromZero(c: seq<real>)
    ensures MovingAverageVector(seq(|c|, _ => 0.0), 0, c) == c
    ensures |c| > 0 ==> MeanPerObjective([c], |c|) == c
  {
    if |c| > 0 {
      forall j | 0 <= j < |c| ensures MeanPerObjective([c], |c|)[j] == c[j] {
        assert Column([c], j) == [c[j]];
        assert Sum([c[j]]) == Sum([]) + c[j] by { SumAppend([], c[j]); }
      }
    }
  }

  lemma MeanOfSingleton(c: real)
    ensures Mean([c]) == c
  {
    assert Sum([c]) == Sum([]) + c by { SumAppend([], c); }
  }

  /** The mean lies between the least and the greatest element. */
  lemma {:induction false} MeanBetweenMinAndMax(xs: seq<real>)
    requires |xs| > 0
    ensures Min(xs) <= Mean(xs) <= Max(xs)
  {
    var lo, hi, mean, n := Min(xs), Max(xs), Mean(xs), |xs| as real;
    SumAtLeast(xs, lo);
    SumAtMost(xs, hi);
    MeanTimesLength(xs);
    MeanFromSumBounds(n, Sum(xs), mean, lo, hi);
  }

  lemma MeanFromSumBounds(n: real, s: real, mean: real, lo: real, hi: real)
    requires n > 0.0 && mean * n == s && n * lo <= s <= n * hi
    ensures lo <= mean <= hi
  {
  }

  /** A sum of values that are all at least `lo` is at least `|xs| * lo`. */
  lemma {:induction false} SumAtLeast(xs: seq<real>, lo: real)
    requires forall x :: x in xs ==> lo <= x
    ensures (|xs| as real) * lo <= Sum(xs)
  {
    if |xs| > 0 {
      var init := xs[..|xs| - 1];
      assert forall x :: x in init ==> x in xs;
      SumAtLeast(init, lo);
      assert xs[|xs| - 1] in xs;
    }
  }

  /** A sum of values that are all at most `hi` is at most `|xs| * hi`. */
  lemma {:induction false} SumAtMost(xs: seq<real>, hi: real)
    requires forall x :: x in xs ==> x <= hi
    ensures Sum(xs) <= (|xs| as real) * hi
  {
    if |xs| > 0 {
      var init := xs[..|xs| - 1];
      assert forall x :: x in init ==> x in xs;
      SumAtMost(init, hi);
      assert xs[|xs| - 1] in xs;
    }
  }
}
