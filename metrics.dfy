/** get_metrics and its private helper __class_metrics
    (Libraries/metrics.py): validate two label columns, count them into a
    confusion matrix in place, and derive the per-class and overall scores.
    Divisions are exact rationals. */
module Metrics {
  import opened Results
  import opened LabelArrays
  import opened Confusion

  /** The smoothing term added to every per-class denominator: `10e-8`, that is 1e-7. */
  const Epsilon: real := 1.0 / 10000000.0

  /** The four counts of one class, read off the confusion matrix. */
  datatype ClassCounts = ClassCounts(tp: int, fn: int, fp: int, tn: int)

  /** The dictionary get_metrics returns. */
  datatype Report = Report(
    oacc: Option<real>,        // 'OACC' (None: numpy's NaN for an empty matrix)
    sensitivity: seq<real>,    // 'SEN'
    specificity: seq<real>,    // 'SPE'
    accuracy: seq<real>,       // 'ACC'
    precision: seq<real>,      // 'PRECISION'
    conMat: Matrix)            // 'CON_MAT'

  /** Class i's true positives, false negatives, false positives and true
      negatives, computed as __class_metrics computes them: the diagonal
      cell, the rest of row i, the rest of column i, and everything else. */
  function CountsOf(m: Matrix, i: nat): (c: ClassCounts)
    requires IsSquare(m, |m|) && i < |m|
    ensures c.tp == m[i][i]
    ensures c.tp + c.fn == Sum(m[i]) && c.tp + c.fp == Sum(Column(m, i))
    ensures c.tp + c.fn + c.fp + c.tn == Total(m)
  {
    var tp := m[i][i];
    var fn := Sum(m[i]) - tp;
    var fp := Sum(Column(m, i)) - tp;
    var tn := Total(m) - tp - fp - fn;
    ClassCounts(tp, fn, fp, tn)
  }

  /** `num / (den + epsilon)`: the ratio that, multiplied back by the
      smoothed denominator, gives the numerator. */
  function Smoothed(num: int, den: int): (q: real)
    ensures q * (den as real + Epsilon) == num as real
  {
    assert den as real + Epsilon != 0.0 by {
      if den < 0 { assert den as real <= -1.0; }
    }
    num as real / (den as real + Epsilon)
  }

  /** The share of the class's samples predicted as the class. */
  function Sensitivity(c: ClassCounts): (s: real)
    ensures s * ((c.tp + c.fn) as real + Epsilon) == c.tp as real
  {
    Smoothed(c.tp, c.tp + c.fn)
  }

  /** The share of the other classes' samples not predicted as the class. */
  function Specificity(c: ClassCounts): (s: real)
    ensures s * ((c.tn + c.fp) as real + Epsilon) == c.tn as real
  {
    Smoothed(c.tn, c.tn + c.fp)
  }

  /** The share of all samples on which prediction and truth agree about
      membership of the class. */
  function ClassAccuracy(c: ClassCounts): (a: real)
    ensures a * ((c.tn + c.tp + c.fn + c.fp) as real + Epsilon) == (c.tn + c.tp) as real
  {
    Smoothed(c.tn + c.tp, c.tn + c.tp + c.fn + c.fp)
  }

  /** The share of the samples predicted as the class that belong to it. */
  function Precision(c: ClassCounts): (p: real)
    ensures p * ((c.tp + c.fp) as real + Epsilon) == c.tp as real
  {
    Smoothed(c.tp, c.tp + c.fp)
  }

  /** Overall accuracy, trace / total; numpy yields NaN (None) for 0 / 0. */
  function OverallAccuracy(m: Matrix): (r: Option<real>)
    requires IsSquare(m, |m|) && NonNegative(m)
    ensures r.None? <==> Total(m) == 0
    ensures r.Some? ==> 0.0 <= r.value <= 1.0
    ensures r.Some? ==> r.value * Total(m) as real == Trace(m) as real
  {
    TraceAtMostTotal(m);
    if Total(m) == 0 then None else Some(Trace(m) as real / Total(m) as real)
  }

  // ---- properties of the per-class counts and scores ----

  /** The four counts of every class are non-negative and partition the
      samples counted in the matrix. */
  lemma CountsPartitionTotal(m: Matrix, i: nat)
    requires IsSquare(m, |m|) && NonNegative(m) && i < |m|
    ensures var c := CountsOf(m, i);
      c.tp >= 0 && c.fn >= 0 && c.fp >= 0 && c.tn >= 0 &&
      c.tp + c.fn + c.fp + c.tn == Total(m)
  {
    EntryAtMostSum(m[i], i);
    EntryAtMostSum(Column(m, i), i);
    RowAndColumnAtMostTotal(m, i);
  }

  /** A smoothed ratio of a part to a whole lies in [0, 1). */
  lemma SmoothedInUnitInterval(num: int, den: int)
    requires 0 <= num <= den
    ensures 0.0 <= Smoothed(num, den) < 1.0
  {
    var d := den as real + Epsilon;
    assert d > 0.0;
    assert num as real < d;
    assert Smoothed(num, den) * d == num as real;
  }

  /** Every per-class score of a counting matrix lies in [0, 1). */
  lemma ScoresInUnitInterval(m: Matrix, i: nat)
    requires IsSquare(m, |m|) && NonNegative(m) && i < |m|
    ensures var c := CountsOf(m, i);
      0.0 <= Sensitivity(c) < 1.0 && 0.0 <= Specificity(c) < 1.0 &&
      0.0 <= ClassAccuracy(c) < 1.0 && 0.0 <= Precision(c) < 1.0
  {
    var c := CountsOf(m, i);
    CountsPartitionTotal(m, i);
    SmoothedInUnitInterval(c.tp, c.tp + c.fn);
    SmoothedInUnitInterval(c.tn, c.tn + c.fp);
    SmoothedInUnitInterval(c.tn + c.tp, c.tn + c.tp + c.fn + c.fp);
    SmoothedInUnitInterval(c.tp, c.tp + c.fp);
  }

  /** With every label in 1..n, class i's true positives plus false negatives
      are its samples, and true positives plus false positives are the
      samples predicted as it. */
  lemma ClassSupport(t: seq<int>, p: seq<int>, n: nat, i: nat)
    requires |t| == |p| && InRange(t, n) && InRange(p, n) && i < n
    ensures Indexable(t, p, n)
    ensures var c := CountsOf(Tally(t, p, n), i);
      c.tp == CountPairs(t, p, i + 1, i + 1) &&
      c.tp + c.fn == CountOf(t, i + 1) &&
      c.tp + c.fp == CountOf(p, i + 1) &&
      c.tp + c.fn + c.fp + c.tn == |t|
  {
    CountedCells(t, p, n, |t|, i, i);
    CountedRowSum(t, p, n, |t|, i);
    CountedColumnSum(t, p, n, |t|, i);
    CountedTotal(t, p, n, |t|);
  }

  /** In a diagonal matrix no class has false negatives or false positives. */
  lemma DiagonalCounts(m: Matrix, i: nat)
    requires IsSquare(m, |m|) && IsDiagonal(m) && i < |m|
    ensures CountsOf(m, i).fn == 0 && CountsOf(m, i).fp == 0
  {
    SumOfSingleEntry(m[i], i);
    SumOfSingleEntry(Column(m, i), i);
  }

  /** A perfect prediction scores an overall accuracy of exactly 1 and has
      no false negatives or false positives in any class. */
  lemma PerfectPrediction(t: seq<int>, n: nat)
    requires Indexable(t, t, n) && |t| > 0
    ensures OverallAccuracy(Tally(t, t, n)) == Some(1.0)
    ensures forall i :: 0 <= i < n ==> CountsOf(Tally(t, t, n), i).fn == 0 && CountsOf(Tally(t, t, n), i).fp == 0
  {
    var m := Tally(t, t, n);
    PerfectCounted(t, n, |t|);
    CountedTotal(t, t, n, |t|);
    assert Trace(m) == Total(m) == |t|;
    assert |t| as real / |t| as real == 1.0;
    forall i | 0 <= i < n ensures CountsOf(m, i).fn == 0 && CountsOf(m, i).fp == 0 {
      DiagonalCounts(m, i);
    }
  }

  /** true = [1,1,2,2], predicted = [1,2,2,2], two classes: the matrix is
      [[1,1],[0,2]]. */
  lemma WorkedExampleMatrix()
    ensures Tally([1, 1, 2, 2], [1, 2, 2, 2], 2) == [[1, 1], [0, 2]]
  {
    var t, p := [1, 1, 2, 2], [1, 2, 2, 2];
    var z := Counted(t, p, 2, 0);
    assert z == Zeros(2);
    assert z[0] == [0, 0] && z[1] == [0, 0];
    assert [0, 0][0 := 1] == [1, 0] && [1, 0][1 := 1] == [1, 1];
    assert [0, 0][1 := 1] == [0, 1] && [0, 1][1 := 2] == [0, 2];
    assert Counted(t, p, 2, 1) == [[1, 0], [0, 0]];
    assert Counted(t, p, 2, 2) == [[1, 1], [0, 0]];
    assert Counted(t, p, 2, 3) == [[1, 1], [0, 1]];
  }

  /** ... and its overall accuracy is 3/4. */
  lemma WorkedExampleAccuracy()
    ensures OverallAccuracy([[1, 1], [0, 2]]) == Some(0.75)
  {
    var w := [[1, 1], [0, 2]];
    assert [1, 1][..1] == [1] && [0, 2][..1] == [0] && [1, 2][..1] == [1] && [2, 2][..1] == [2];
    assert [1][..0] == [] && [0][..0] == [] && [2][..0] == [];
    assert Sum([1, 1]) == 2 && Sum([0, 2]) == 2 && Sum([1, 2]) == 3 && Sum([2, 2]) == 4;
    assert Diagonal(w) == [1, 2] && RowSums(w) == [2, 2];
  }

  // ---- the two procedures ----

  /** The values of a two-dimensional numpy array, row by row. */
  function Snapshot(a: array2<int>): (m: Matrix)
    reads a
    ensures |m| == a.Length0
    ensures forall i :: 0 <= i < a.Length0 ==> |m[i]| == a.Length1
    ensures forall i, j :: 0 <= i < a.Length0 && 0 <= j < a.Length1 ==> m[i][j] == a[i, j]
  {
    seq(a.Length0, i requires 0 <= i < a.Length0 reads a =>
      seq(a.Length1, j requires 0 <= j < a.Length1 reads a => a[i, j]))
  }

  /** The first i entries of the four lists __class_metrics appends to
      hold the scores of classes 0 .. i-1. */
  predicate Scored(m: Matrix, sen: seq<real>, spe: seq<real>, acc: seq<real>, pre: seq<real>, i: nat)
    requires IsSquare(m, |m|) && i <= |m|
  {
    |sen| == |spe| == |acc| == |pre| == i &&
    forall q :: 0 <= q < i ==>
      sen[q] == Sensitivity(CountsOf(m, q)) && spe[q] == Specificity(CountsOf(m, q)) &&
      acc[q] == ClassAccuracy(CountsOf(m, q)) && pre[q] == Precision(CountsOf(m, q))
  }

  /** __class_metrics: one pass over the classes, appending each class's
      four scores to four lists. */
  method ClassMetrics(m: Matrix) returns (sen: seq<real>, spe: seq<real>, acc: seq<real>, pre: seq<real>)
    requires IsSquare(m, |m|) && NonNegative(m)
    ensures |sen| == |spe| == |acc| == |pre| == |m|
    ensures forall i :: 0 <= i < |m| ==>
      sen[i] == Sensitivity(CountsOf(m, i)) && spe[i] == Specificity(CountsOf(m, i)) &&
      acc[i] == ClassAccuracy(CountsOf(m, i)) && pre[i] == Precision(CountsOf(m, i))
    ensures forall i :: 0 <= i < |m| ==>
      0.0 <= sen[i] < 1.0 && 0.0 <= spe[i] < 1.0 && 0.0 <= acc[i] < 1.0 && 0.0 <= pre[i] < 1.0
  {
    sen, spe, acc, pre := [], [], [], [];
    var total := Total(m);
    for i := 0 to |m|
      invariant Scored(m, sen, spe, acc, pre, i)
    {
      var tp := m[i][i];
      var fn := Sum(m[i]) - tp;
      var fp := Sum(Column(m, i)) - tp;
      var tn := total - tp - fp - fn;
      var c := ClassCounts(tp, fn, fp, tn);
      assert c == CountsOf(m, i);
      sen := sen + [Sensitivity(c)];
      spe := spe + [Specificity(c)];
      acc := acc + [ClassAccuracy(c)];
      pre := pre + [Precision(c)];
    }
    forall i | 0 <= i < |m|
      ensures 0.0 <= sen[i] < 1.0 && 0.0 <= spe[i] < 1.0 && 0.0 <= acc[i] < 1.0 && 0.0 <= pre[i] < 1.0
    {
      ScoresInUnitInterval(m, i);
    }
  }

  /** The n x n array holds the matrix m. */
  ghost predicate Holds(cm: array2<int>, m: Matrix)
    reads cm
  {
    IsSquare(m, |m|) && cm.Length0 == cm.Length1 == |m| &&
    forall a, b :: 0 <= a < |m| && 0 <= b < |m| ==> cm[a, b] == m[a][b]
  }

  /** `np.zeros([n, n], dtype='int')`, as an array. */
  method ZeroMatrix(n: nat) returns (cm: array2<int>)
    ensures fresh(cm) && Holds(cm, Zeros(n))
  {
    cm := new int[n, n]((i, j) => 0);
  }

  /** `confusion_mx[a, b] += 1`. */
  method Increment(cm: array2<int>, a: nat, b: nat, ghost m: Matrix)
    requires Holds(cm, m) && a < |m| && b < |m|
    modifies cm
    ensures Holds(cm, Bump(m, a, b))
  {
    cm[a, b] := cm[a, b] + 1;
  }

  /** An array that holds m reads back as m. */
  lemma SnapshotHolds(cm: array2<int>, m: Matrix)
    requires Holds(cm, m)
    ensures Snapshot(cm) == m
  {
    var s := Snapshot(cm);
    forall i | 0 <= i < |m| ensures s[i] == m[i] {
      assert forall j :: 0 <= j < |m| ==> s[i][j] == m[i][j];
    }
  }

  /** A sample whose labels do not both index the matrix makes the whole
      run unindexable. */
  lemma NotIndexableAt(t: seq<int>, p: seq<int>, n: nat, k: nat)
    requires k < |t| == |p| && !(AxisIndex(t[k] - 1, n).Some? && AxisIndex(p[k] - 1, n).Some?)
    ensures !Indexable(t, p, n)
  {
  }

  /** The counting loop of get_metrics: a zeroed n x n matrix, then one
      `confusion_mx[true - 1, pred - 1] += 1` per sample, in order. A label
      that indexes outside the matrix raises IndexError and no matrix is
      returned. */
  method CountConfusion(t: seq<int>, p: seq<int>, n: nat) returns (r: Result<Matrix, InputError>)
    requires |t| == |p|
    ensures r.Success? <==> Indexable(t, p, n)
    ensures r.Success? ==> r.value == Tally(t, p, n)
    ensures r.Failure? ==> r.error == LabelOutOfRange
  {
    var cm := ZeroMatrix(n);
    for k := 0 to |t|
      invariant IndexableBelow(t, p, n, k)
      invariant Holds(cm, Counted(t, p, n, k))
    {
      var row, col := AxisIndex(t[k] - 1, n), AxisIndex(p[k] - 1, n);
      if row.None? || col.None? {
        NotIndexableAt(t, p, n, k);
        return Failure(LabelOutOfRange);
      }
      assert IndexableBelow(t, p, n, k + 1);
      Increment(cm, row.value, col.value, Counted(t, p, n, k));
      assert Counted(t, p, n, k + 1) == Bump(Counted(t, p, n, k), row.value, col.value);
    }
    SnapshotHolds(cm, Tally(t, p, n));
    return Success(Snapshot(cm));
  }

  /** get_metrics: check the two label arrays, count the samples into a
      confusion matrix, then derive the scores. Raising is a Failure, and
      no report is built. A negative `num_clases` makes np.zeros raise
      ValueError once the checks have passed. */
  method GetMetrics(trueLabels: LabelArray, predLabels: LabelArray, numClasses: int)
    returns (r: Result<Report, InputError>)
    requires WellShaped(trueLabels) && WellShaped(predLabels)
    ensures trueLabels.NonArray? ==> r == Failure(NotAnArray(TrueLabels))
    ensures !trueLabels.NonArray? && predLabels.NonArray? ==> r == Failure(NotAnArray(PredLabels))
    ensures !trueLabels.NonArray? && !predLabels.NonArray? && ShapeCheck(trueLabels, predLabels).Some? ==>
      r == Failure(ShapeCheck(trueLabels, predLabels).value)
    ensures IsColumn(trueLabels) && IsColumn(predLabels) && |trueLabels.rows| == |predLabels.rows| && numClasses < 0 ==>
      r == Failure(NegativeDimension)
    ensures r.Success? <==>
      IsColumn(trueLabels) && IsColumn(predLabels) && |trueLabels.rows| == |predLabels.rows| &&
      numClasses >= 0 && Indexable(Labels(trueLabels), Labels(predLabels), numClasses)
    ensures r.Failure? && IsColumn(trueLabels) && IsColumn(predLabels) && |trueLabels.rows| == |predLabels.rows| &&
            numClasses >= 0 ==>
      r.error == LabelOutOfRange
    ensures r.Success? ==>
      numClasses >= 0 &&
      var m := Tally(Labels(trueLabels), Labels(predLabels), numClasses);
      r.value.conMat == m && r.value.oacc == OverallAccuracy(m) &&
      |r.value.sensitivity| == |r.value.specificity| == |r.value.accuracy| == |r.value.precision| == numClasses &&
      forall i :: 0 <= i < numClasses ==>
        r.value.sensitivity[i] == Sensitivity(CountsOf(m, i)) &&
        r.value.specificity[i] == Specificity(CountsOf(m, i)) &&
        r.value.accuracy[i] == ClassAccuracy(CountsOf(m, i)) &&
        r.value.precision[i] == Precision(CountsOf(m, i))
  {
    if trueLabels.NonArray? {
      return Failure(NotAnArray(TrueLabels));
    }
    if predLabels.NonArray? {
      return Failure(NotAnArray(PredLabels));
    }
    var shapeError := ShapeCheck(trueLabels, predLabels);
    if shapeError.Some? {
      return Failure(shapeError.value);
    }
    if numClasses < 0 {
      return Failure(NegativeDimension);
    }
    var counted := CountConfusion(Labels(trueLabels), Labels(predLabels), numClasses);
    if counted.Failure? {
      return Failure(counted.error);
    }
    var m := counted.value;
    var sen, spe, acc, pre := ClassMetrics(m);
    r := Success(Report(OverallAccuracy(m), sen, spe, acc, pre, m));
  }
}
