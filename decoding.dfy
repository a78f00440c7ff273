/** probs_2_label (Libraries/nn_models.py) and the label shift of the
    training loop: stored labels are 1-based, the loss is given label - 1,
    and decoding a row of class scores gives back its argmax + 1. */
module Decoding {

  /** The largest of the first n scores of a row. */
  function MaxBelow(r: seq<real>, n: nat): (m: real)
    requires 0 < n <= |r|
    ensures forall k :: 0 <= k < n ==> r[k] <= m
    ensures exists k :: 0 <= k < n && r[k] == m
  {
    if n == 1 then r[0]
    else
      var m' := MaxBelow(r, n - 1);
      if r[n - 1] > m' then r[n - 1] else m'
  }

  /** `np.amax(r)`: the largest score of a non-empty row. */
  function Max(r: seq<real>): (m: real)
    requires |r| > 0
    ensures forall k :: 0 <= k < |r| ==> r[k] <= m
    ensures exists k :: 0 <= k < |r| && r[k] == m
  {
    MaxBelow(r, |r|)
  }

  /** The positions below n that hold v, in increasing order. */
  function WhereBelow(r: seq<real>, v: real, n: nat): (ix: seq<nat>)
    requires n <= |r|
    ensures forall j :: 0 <= j < |ix| ==> ix[j] < n && r[ix[j]] == v
    ensures forall i :: 0 <= i < n && r[i] == v ==> i in ix
    ensures forall a, b :: 0 <= a < b < |ix| ==> ix[a] < ix[b]
  {
    if n == 0 then []
    else WhereBelow(r, v, n - 1) + (if r[n - 1] == v then [n - 1] else [])
  }

  /** `np.where(r == v)[0]`: the positions that hold v, in increasing order. */
  function Where(r: seq<real>, v: real): (ix: seq<nat>)
    ensures forall j :: 0 <= j < |ix| ==> ix[j] < |r| && r[ix[j]] == v
    ensures forall i :: 0 <= i < |r| && r[i] == v ==> i in ix
    ensures forall a, b :: 0 <= a < b < |ix| ==> ix[a] < ix[b]
  {
    WhereBelow(r, v, |r|)
  }

  /** Exactly one position holds the row's largest score. */
  predicate UniqueMax(r: seq<real>) {
    exists i :: 0 <= i < |r| && forall k :: 0 <= k < |r| && k != i ==> r[k] < r[i]
  }

  /** One row of probs_2_label before it is stacked: the 1-based labels of
      every position holding the row's maximum. */
  function RowLabels(r: seq<real>): seq<int>
    requires |r| > 0
  {
    var ix := Where(r, Max(r));
    seq(|ix|, j requires 0 <= j < |ix| => ix[j] + 1)
  }

  /** A row gives at least one label, in increasing order, and each is
      the 1-based position of a maximal score. */
  lemma RowLabelsAreMaxima(r: seq<real>)
    requires |r| > 0
    ensures |RowLabels(r)| > 0
    ensures forall j :: 0 <= j < |RowLabels(r)| ==> 1 <= RowLabels(r)[j] <= |r| && r[RowLabels(r)[j] - 1] == Max(r)
    ensures forall a, b :: 0 <= a < b < |RowLabels(r)| ==> RowLabels(r)[a] < RowLabels(r)[b]
  {
    var ix, labels := Where(r, Max(r)), RowLabels(r);
    forall j | 0 <= j < |labels| ensures 1 <= labels[j] <= |r| && r[labels[j] - 1] == Max(r) {
      assert labels[j] - 1 == ix[j];
    }
    var m :| 0 <= m < |r| && r[m] == Max(r);
    assert m in ix;
  }

  /** Every position holding the maximum is among a row's labels. */
  lemma RowLabelsComplete(r: seq<real>, i: nat)
    requires i < |r| && r[i] == Max(r)
    ensures i + 1 in RowLabels(r)
  {
    var ix := Where(r, Max(r));
    var j :| 0 <= j < |ix| && ix[j] == i;
    assert RowLabels(r)[j] == i + 1;
  }

  /** The first of the first n positions holding their maximum. */
  function ArgMaxBelow(r: seq<real>, n: nat): (i: nat)
    requires 0 < n <= |r|
    ensures i < n && r[i] == MaxBelow(r, n)
    ensures forall k :: 0 <= k < i ==> r[k] < r[i]
  {
    if n == 1 then 0
    else
      var i := ArgMaxBelow(r, n - 1);
      if r[n - 1] > r[i] then n - 1 else i
  }

  /** `torch.argmax`: the first position holding the row's maximum. */
  function ArgMax(r: seq<real>): (i: nat)
    requires |r| > 0
    ensures i < |r| && r[i] == Max(r)
    ensures forall k :: 0 <= k < i ==> r[k] < r[i]
  {
    ArgMaxBelow(r, |r|)
  }

  /** With a unique maximum, every position holding the maximum is the
      unique one: all other scores lie strictly below it. */
  lemma UniqueMaxAt(r: seq<real>, p: nat)
    requires UniqueMax(r) && p < |r| && r[p] == Max(r)
    ensures forall j :: 0 <= j < |r| && j != p ==> r[j] < r[p]
  {
    var i :| 0 <= i < |r| && forall k :: 0 <= k < |r| && k != i ==> r[k] < r[i];
    assert p == i;
  }

  /** One row of probs_2_label when its maximum is unique: the 1-based
      label of the largest score, which every other score lies below. */
  function DecodeRow(r: seq<real>): (stored: int)
    requires UniqueMax(r)
    ensures 1 <= stored <= |r| && r[stored - 1] == Max(r)
    ensures forall j :: 0 <= j < |r| && j != stored - 1 ==> r[j] < r[stored - 1]
  {
    var ix := Where(r, Max(r));
    assert ArgMax(r) in ix;
    UniqueMaxAt(r, ix[0]);
    RowLabels(r)[0]
  }

  /** probs_2_label: for every row, in row order, its decoded label. */
  function ProbsToLabel(rows: seq<seq<real>>): (labels: seq<int>)
    requires forall k :: 0 <= k < |rows| ==> UniqueMax(rows[k])
    ensures |labels| == |rows|
    ensures forall k :: 0 <= k < |rows| ==> labels[k] == DecodeRow(rows[k])
  {
    seq(|rows|, k requires 0 <= k < |rows| => DecodeRow(rows[k]))
  }

  /** No position below n holds v: np.where finds nothing. */
  lemma {:induction false} WhereNone(r: seq<real>, v: real, n: nat)
    requires n <= |r| && forall k :: 0 <= k < n ==> r[k] != v
    ensures WhereBelow(r, v, n) == []
  {
    if n > 0 {
      WhereNone(r, v, n - 1);
    }
  }

  /** Position i alone below n holds v: np.where finds i alone. */
  lemma {:induction false} WhereSingle(r: seq<real>, v: real, n: nat, i: nat)
    requires i < n <= |r| && r[i] == v
    requires forall k :: 0 <= k < n && k != i ==> r[k] != v
    ensures WhereBelow(r, v, n) == [i]
  {
    if i == n - 1 {
      WhereNone(r, v, n - 1);
    } else {
      WhereSingle(r, v, n - 1, i);
    }
  }

  /** With a unique maximum, np.where finds one position, so the row gives
      exactly one label: the decoded one. */
  lemma UniqueRowLabel(r: seq<real>)
    requires UniqueMax(r)
    ensures RowLabels(r) == [DecodeRow(r)]
  {
    var p := DecodeRow(r) - 1;
    WhereSingle(r, Max(r), |r|, p);
  }

  /** With a unique maximum, the decoded label is torch.argmax + 1, the
      index the training loop compares with. */
  lemma DecodedIsArgMaxPlusOne(r: seq<real>)
    requires UniqueMax(r)
    ensures DecodeRow(r) == ArgMax(r) + 1
  {
  }

  /** With two positions sharing the maximum, np.where yields two indices
      and the row does not decode to a single label. */
  lemma TiesGiveSeveralLabels(r: seq<real>, a: nat, b: nat)
    requires a < b < |r| && r[a] == r[b] == Max(r)
    ensures |RowLabels(r)| >= 2
  {
    var ix := Where(r, Max(r));
    assert a in ix && b in ix;
    var ja :| 0 <= ja < |ix| && ix[ja] == a;
    var jb :| 0 <= jb < |ix| && ix[jb] == b;
    assert ja != jb;
  }

  /** The target the loss is given for a stored label: `stored - 1`. */
  function TrainTarget(stored: int): int {
    stored - 1
  }

  /** The label shift round trip: a row whose argmax is the training target
      of a stored label decodes back to that label, and only then. */
  lemma TargetRoundTrip(r: seq<real>, stored: int)
    requires UniqueMax(r)
    ensures ArgMax(r) == TrainTarget(stored) <==> DecodeRow(r) == stored
  {
    DecodedIsArgMaxPlusOne(r);
  }
}
