/** The confusion matrix of get_metrics (Libraries/metrics.py) as a value:
    how numpy resolves a label to a cell, the matrix that counting a run of
    samples produces, and the sums the per-class metrics are built from. */
module Confusion {
  import opened Results

  /** A square integer matrix, row by row. */
  type Matrix = seq<seq<int>>

  /** numpy's rule for one integer index on an axis of length n: a negative
      index counts back from the end; any other index outside the axis raises
      IndexError (None). */
  function AxisIndex(i: int, n: nat): (r: Option<nat>)
    ensures r.Some? <==> -(n as int) <= i < n
    ensures r.Some? ==> r.value < n && (r.value == i || r.value == i + n)
  {
    if 0 <= i < n then Some(i)
    else if -(n as int) <= i < 0 then Some(i + n)
    else None
  }

  /** Every true and every predicted label, shifted down by one, indexes an
      axis of length n, so counting the samples raises no IndexError. */
  predicate Indexable(t: seq<int>, p: seq<int>, n: nat) {
    |t| == |p| && IndexableBelow(t, p, n, |t|)
  }

  /** The first k samples index an axis of length n. */
  predicate IndexableBelow(t: seq<int>, p: seq<int>, n: nat, k: nat)
    requires k <= |t| && k <= |p|
  {
    forall q :: 0 <= q < k ==> AxisIndex(t[q] - 1, n).Some? && AxisIndex(p[q] - 1, n).Some?
  }

  /** Every label is one of the classes 1..n. */
  predicate InRange(labels: seq<int>, n: nat) {
    forall k :: 0 <= k < |labels| ==> 1 <= labels[k] <= n
  }

  predicate IsSquare(m: Matrix, n: nat) {
    |m| == n && forall i :: 0 <= i < n ==> |m[i]| == n
  }

  predicate NonNegative(m: Matrix) {
    forall i, j :: 0 <= i < |m| && 0 <= j < |m[i]| ==> m[i][j] >= 0
  }

  predicate IsDiagonal(m: Matrix) {
    forall i, j :: 0 <= i < |m| && 0 <= j < |m[i]| && i != j ==> m[i][j] == 0
  }

  /** `np.zeros([n, n], dtype='int')`. */
  function Zeros(n: nat): (m: Matrix)
    ensures IsSquare(m, n) && NonNegative(m) && IsDiagonal(m)
    ensures forall i, j :: 0 <= i < n && 0 <= j < n ==> m[i][j] == 0
  {
    seq(n, _ => seq(n, _ => 0))
  }

  /** The matrix after one `confusion_mx[a, b] += 1`. */
  function Bump(m: Matrix, a: nat, b: nat): (m': Matrix)
    requires a < |m| && b < |m[a]|
    ensures |m'| == |m| && |m'[a]| == |m[a]| && m'[a][b] == m[a][b] + 1
    ensures forall i :: 0 <= i < |m| && i != a ==> m'[i] == m[i]
    ensures forall j :: 0 <= j < |m[a]| && j != b ==> m'[a][j] == m[a][j]
  {
    m[a := m[a][b := m[a][b] + 1]]
  }

  /** The matrix that counting the first k samples of t and p, in order,
      leaves in confusion_mx (metrics.py lines 59-69). */
  function Counted(t: seq<int>, p: seq<int>, n: nat, k: nat): (m: Matrix)
    requires k <= |t| == |p| && IndexableBelow(t, p, n, k)
    ensures IsSquare(m, n) && NonNegative(m)
  {
    if k == 0 then Zeros(n)
    else Bump(Counted(t, p, n, k - 1), AxisIndex(t[k - 1] - 1, n).value, AxisIndex(p[k - 1] - 1, n).value)
  }

  /** The matrix that counting all the samples leaves in confusion_mx. */
  function Tally(t: seq<int>, p: seq<int>, n: nat): (m: Matrix)
    requires Indexable(t, p, n)
    ensures IsSquare(m, n) && NonNegative(m)
  {
    Counted(t, p, n, |t|)
  }

  /** How many of the first k samples have true label a and predicted label b. */
  function PairsBelow(t: seq<int>, p: seq<int>, a: int, b: int, k: nat): nat
    requires k <= |t| && k <= |p|
  {
    if k == 0 then 0
    else PairsBelow(t, p, a, b, k - 1) + (if t[k - 1] == a && p[k - 1] == b then 1 else 0)
  }

  /** How many samples have true label a and predicted label b. */
  function CountPairs(t: seq<int>, p: seq<int>, a: int, b: int): nat
    requires |t| == |p|
  {
    PairsBelow(t, p, a, b, |t|)
  }

  /** How many of the first k entries of s equal a. */
  function OccurrencesBelow(s: seq<int>, a: int, k: nat): nat
    requires k <= |s|
  {
    if k == 0 then 0 else OccurrencesBelow(s, a, k - 1) + (if s[k - 1] == a then 1 else 0)
  }

  /** How many entries of s equal a. */
  function CountOf(s: seq<int>, a: int): nat {
    OccurrencesBelow(s, a, |s|)
  }

  // ---- sums (np.sum) ----

  function Sum(s: seq<int>): int {
    if |s| == 0 then 0 else Sum(s[..|s| - 1]) + s[|s| - 1]
  }

  /** The sums of the rows, `np.sum(m[i, :])` for each i. */
  function RowSums(m: Matrix): (r: seq<int>)
    ensures |r| == |m| && forall i :: 0 <= i < |m| ==> r[i] == Sum(m[i])
  {
    seq(|m|, i requires 0 <= i < |m| => Sum(m[i]))
  }

  /** `m[:, j]`. */
  function Column(m: Matrix, j: nat): (c: seq<int>)
    requires forall i :: 0 <= i < |m| ==> j < |m[i]|
    ensures |c| == |m| && forall i :: 0 <= i < |m| ==> c[i] == m[i][j]
  {
    seq(|m|, i requires 0 <= i < |m| => m[i][j])
  }

  /** `np.diag(m)`. */
  function Diagonal(m: Matrix): (d: seq<int>)
    requires IsSquare(m, |m|)
    ensures |d| == |m| && forall i :: 0 <= i < |m| ==> d[i] == m[i][i]
  {
    seq(|m|, i requires 0 <= i < |m| => m[i][i])
  }

  /** `np.sum(m)`. */
  function Total(m: Matrix): int {
    Sum(RowSums(m))
  }

  /** `np.sum(np.diag(m))`. */
  function Trace(m: Matrix): int
    requires IsSquare(m, |m|)
  {
    Sum(Diagonal(m))
  }

  // ---- facts about sums ----

  lemma {:induction false} SumUpdate(s: seq<int>, j: nat, d: int)
    requires j < |s|
    ensures Sum(s[j := s[j] + d]) == Sum(s) + d
  {
    var k := |s| - 1;
    var s' := s[j := s[j] + d];
    if j == k {
      assert s'[..k] == s[..k];
    } else {
      assert s'[..k] == s[..k][j := s[j] + d];
      SumUpdate(s[..k], j, d);
    }
  }

  lemma {:induction false} SumOfZeros(s: seq<int>)
    requires forall k :: 0 <= k < |s| ==> s[k] == 0
    ensures Sum(s) == 0
  {
    if |s| > 0 {
      SumOfZeros(s[..|s| - 1]);
    }
  }

  lemma {:induction false} SumMonotone(a: seq<int>, b: seq<int>)
    requires |a| == |b| && forall k :: 0 <= k < |a| ==> a[k] <= b[k]
    ensures Sum(a) <= Sum(b)
  {
    if |a| > 0 {
      SumMonotone(a[..|a| - 1], b[..|b| - 1]);
    }
  }

  lemma {:induction false} SumNonNegative(s: seq<int>)
    requires forall k :: 0 <= k < |s| ==> s[k] >= 0
    ensures Sum(s) >= 0
  {
    if |s| > 0 {
      SumNonNegative(s[..|s| - 1]);
    }
  }

  /** With no negative entries, every entry is at most the sum. */
  lemma {:induction false} EntryAtMostSum(s: seq<int>, j: nat)
    requires j < |s| && forall k :: 0 <= k < |s| ==> s[k] >= 0
    ensures s[j] <= Sum(s)
  {
    var k := |s| - 1;
    SumNonNegative(s[..k]);
    if j < k {
      EntryAtMostSum(s[..k], j);
    }
  }

  /** A sequence that is zero except at j sums to its entry at j. */
  lemma {:induction false} SumOfSingleEntry(s: seq<int>, j: nat)
    requires j < |s| && forall k :: 0 <= k < |s| && k != j ==> s[k] == 0
    ensures Sum(s) == s[j]
  {
    var k := |s| - 1;
    if j == k {
      SumOfZeros(s[..k]);
    } else {
      SumOfSingleEntry(s[..k], j);
    }
  }

  lemma TotalOfZeros(n: nat)
    ensures Total(Zeros(n)) == 0
  {
    forall i | 0 <= i < n ensures RowSums(Zeros(n))[i] == 0 {
      SumOfZeros(Zeros(n)[i]);
    }
    SumOfZeros(RowSums(Zeros(n)));
  }

  lemma TotalAfterBump(m: Matrix, a: nat, b: nat)
    requires a < |m| && b < |m[a]|
    ensures Total(Bump(m, a, b)) == Total(m) + 1
  {
    SumUpdate(m[a], b, 1);
    assert RowSums(Bump(m, a, b)) == RowSums(m)[a := RowSums(m)[a] + 1];
    SumUpdate(RowSums(m), a, 1);
  }

  /** The sums of the n columns of a matrix whose rows all have n entries. */
  function ColumnSums(m: Matrix, n: nat): (c: seq<int>)
    requires forall i :: 0 <= i < |m| ==> |m[i]| == n
    ensures |c| == n && forall j :: 0 <= j < n ==> c[j] == Sum(Column(m, j))
  {
    seq(n, j requires 0 <= j < n => Sum(Column(m, j)))
  }

  /** Summing entry by entry: a sequence of pairwise sums sums to the two sums. */
  lemma {:induction false} SumPointwise(a: seq<int>, b: seq<int>, c: seq<int>)
    requires |a| == |b| == |c| && forall j :: 0 <= j < |c| ==> c[j] == a[j] + b[j]
    ensures Sum(c) == Sum(a) + Sum(b)
  {
    if |c| > 0 {
      var k := |c| - 1;
      SumPointwise(a[..k], b[..k], c[..k]);
    }
  }

  /** Adding up the columns gives the total that adding up the rows gives. */
  lemma {:induction false} ColumnSumsTotal(m: Matrix, n: nat)
    requires forall i :: 0 <= i < |m| ==> |m[i]| == n
    ensures Sum(ColumnSums(m, n)) == Total(m)
  {
    if |m| == 0 {
      SumOfZeros(ColumnSums(m, n));
    } else {
      var k := |m| - 1;
      var m' := m[..k];
      ColumnSumsTotal(m', n);
      forall j | 0 <= j < n
        ensures ColumnSums(m, n)[j] == ColumnSums(m', n)[j] + m[k][j]
      {
        assert Column(m, j)[..k] == Column(m', j);
      }
      SumPointwise(ColumnSums(m', n), m[k], ColumnSums(m, n));
      assert RowSums(m)[..k] == RowSums(m');
    }
  }

  // ---- what the counting loop computes ----

  /** Count conservation: every sample increments exactly one cell, so the
      entries of the matrix add up to the number of samples counted, whatever
      labels numpy's negative indexing wraps around. */
  lemma {:induction false} CountedTotal(t: seq<int>, p: seq<int>, n: nat, k: nat)
    requires k <= |t| == |p| && IndexableBelow(t, p, n, k)
    ensures Total(Counted(t, p, n, k)) == k
  {
    if k == 0 {
      TotalOfZeros(n);
    } else {
      CountedTotal(t, p, n, k - 1);
      TotalAfterBump(Counted(t, p, n, k - 1), AxisIndex(t[k - 1] - 1, n).value, AxisIndex(p[k - 1] - 1, n).value);
    }
  }

  /** The counted matrix balances: its entries, added up row by row and
      column by column, both give the number of samples. */
  lemma TallyBalanced(t: seq<int>, p: seq<int>, n: nat)
    requires Indexable(t, p, n)
    ensures Total(Tally(t, p, n)) == |t|
    ensures Sum(ColumnSums(Tally(t, p, n), n)) == |t|
  {
    CountedTotal(t, p, n, |t|);
    ColumnSumsTotal(Tally(t, p, n), n);
  }

  /** Labels in 1..n index the matrix without wrapping around. */
  lemma InRangeIndexable(t: seq<int>, p: seq<int>, n: nat)
    requires |t| == |p| && InRange(t, n) && InRange(p, n)
    ensures Indexable(t, p, n)
  {
  }

  /** With every label in 1..n, cell (i, j) after k samples counts those
      whose true label is i + 1 and whose predicted label is j + 1. */
  lemma {:induction false} CountedCells(t: seq<int>, p: seq<int>, n: nat, k: nat, i: nat, j: nat)
    requires k <= |t| == |p| && InRange(t, n) && InRange(p, n) && i < n && j < n
    ensures IndexableBelow(t, p, n, k)
    ensures Counted(t, p, n, k)[i][j] == PairsBelow(t, p, i + 1, j + 1, k)
  {
    InRangeIndexable(t, p, n);
    if k > 0 {
      CountedCells(t, p, n, k - 1, i, j);
      var a, b := t[k - 1] - 1, p[k - 1] - 1;
      assert AxisIndex(a, n).value == a && AxisIndex(b, n).value == b;
    }
  }

  /** With every label in 1..n, row i after k samples adds up to the number
      of them of class i + 1 (true positives plus false negatives). */
  lemma {:induction false} CountedRowSum(t: seq<int>, p: seq<int>, n: nat, k: nat, i: nat)
    requires k <= |t| == |p| && InRange(t, n) && InRange(p, n) && i < n
    ensures IndexableBelow(t, p, n, k)
    ensures Sum(Counted(t, p, n, k)[i]) == OccurrencesBelow(t, i + 1, k)
  {
    InRangeIndexable(t, p, n);
    if k == 0 {
      SumOfZeros(Zeros(n)[i]);
    } else {
      CountedRowSum(t, p, n, k - 1, i);
      var a, b := t[k - 1] - 1, p[k - 1] - 1;
      assert AxisIndex(a, n).value == a && AxisIndex(b, n).value == b;
      if a == i {
        SumUpdate(Counted(t, p, n, k - 1)[i], b, 1);
      }
    }
  }

  /** With every label in 1..n, column j after k samples adds up to the
      number of them predicted as class j + 1 (true positives plus false
      positives). */
  lemma {:induction false} CountedColumnSum(t: seq<int>, p: seq<int>, n: nat, k: nat, j: nat)
    requires k <= |t| == |p| && InRange(t, n) && InRange(p, n) && j < n
    ensures IndexableBelow(t, p, n, k)
    ensures Sum(Column(Counted(t, p, n, k), j)) == OccurrencesBelow(p, j + 1, k)
  {
    InRangeIndexable(t, p, n);
    if k == 0 {
      SumOfZeros(Column(Zeros(n), j));
    } else {
      CountedColumnSum(t, p, n, k - 1, j);
      var a, b := t[k - 1] - 1, p[k - 1] - 1;
      assert AxisIndex(a, n).value == a && AxisIndex(b, n).value == b;
      var m := Counted(t, p, n, k - 1);
      assert Counted(t, p, n, k) == Bump(m, a, b);
      ColumnAfterBump(m, a, b, j);
    }
  }

  lemma ColumnAfterBump(m: Matrix, a: nat, b: nat, j: nat)
    requires IsSquare(m, |m|) && a < |m| && b < |m| && j < |m|
    ensures Sum(Column(Bump(m, a, b), j)) == Sum(Column(m, j)) + (if b == j then 1 else 0)
  {
    var c := Column(m, j);
    if b == j {
      assert Column(Bump(m, a, b), j) == c[a := c[a] + 1];
      SumUpdate(c, a, 1);
    } else {
      assert Column(Bump(m, a, b), j) == c;
    }
  }

  /** Bumping a diagonal cell keeps a matrix diagonal and adds one to its trace. */
  lemma DiagonalBump(m: Matrix, a: nat)
    requires IsSquare(m, |m|) && IsDiagonal(m) && a < |m|
    ensures IsDiagonal(Bump(m, a, a)) && Trace(Bump(m, a, a)) == Trace(m) + 1
  {
    assert Diagonal(Bump(m, a, a)) == Diagonal(m)[a := Diagonal(m)[a] + 1];
    SumUpdate(Diagonal(m), a, 1);
  }

  /** A perfect prediction (p == t) puts every sample on the diagonal. */
  lemma {:induction false} PerfectCounted(t: seq<int>, n: nat, k: nat)
    requires k <= |t| && IndexableBelow(t, t, n, k)
    ensures IsDiagonal(Counted(t, t, n, k))
    ensures Trace(Counted(t, t, n, k)) == k
  {
    if k == 0 {
      SumOfZeros(Diagonal(Zeros(n)));
    } else {
      PerfectCounted(t, n, k - 1);
      DiagonalBump(Counted(t, t, n, k - 1), AxisIndex(t[k - 1] - 1, n).value);
    }
  }

  /** Label 0 does not raise: numpy reads index -1 as the last row, so the
      sample is counted as class n. */
  lemma ZeroLabelCountsAsLastClass()
    ensures Tally([0], [1], 2) == [[0, 0], [1, 0]]
  {
    var z := Counted([0], [1], 2, 0);
    assert z == Zeros(2);
    assert z[0] == [0, 0] && z[1] == [0, 0];
    assert AxisIndex(0 - 1, 2) == Some(1) && AxisIndex(1 - 1, 2) == Some(0);
    assert Tally([0], [1], 2) == Bump(z, 1, 0);
    assert z[1][0 := 1] == [1, 0];
    assert Bump(z, 1, 0) == [z[0], [1, 0]];
  }

  // ---- the totals the per-class counts are derived from ----

  /** The diagonal never exceeds the total: trace <= total. */
  lemma TraceAtMostTotal(m: Matrix)
    requires IsSquare(m, |m|) && NonNegative(m)
    ensures 0 <= Trace(m) <= Total(m)
  {
    forall i | 0 <= i < |m| ensures Diagonal(m)[i] <= RowSums(m)[i] && Diagonal(m)[i] >= 0 {
      EntryAtMostSum(m[i], i);
    }
    SumMonotone(Diagonal(m), RowSums(m));
    SumNonNegative(Diagonal(m));
  }

  /** Summing the first k rows covers the first k entries of column i, and
      all of row i once row i is among them. */
  lemma {:induction false} RowsCoverColumn(m: Matrix, i: nat, k: nat)
    requires IsSquare(m, |m|) && NonNegative(m) && i < |m| && k <= |m|
    ensures Sum(RowSums(m)[..k]) >= Sum(Column(m, i)[..k]) + (if i < k then Sum(m[i]) - m[i][i] else 0)
  {
    if k > 0 {
      var r := k - 1;
      RowsCoverColumn(m, i, r);
      assert RowSums(m)[..k][..r] == RowSums(m)[..r];
      assert Column(m, i)[..k][..r] == Column(m, i)[..r];
      if r != i {
        EntryAtMostSum(m[r], i);
      }
    }
  }

  /** A row and a column together never hold more than the whole matrix:
      row i + column i - m[i][i] <= total, so the true-negative count is
      never negative. */
  lemma RowAndColumnAtMostTotal(m: Matrix, i: nat)
    requires IsSquare(m, |m|) && NonNegative(m) && i < |m|
    ensures Sum(m[i]) + Sum(Column(m, i)) - m[i][i] <= Total(m)
  {
    RowsCoverColumn(m, i, |m|);
    assert RowSums(m)[..|m|] == RowSums(m);
    assert Column(m, i)[..|m|] == Column(m, i);
  }
}
