/** The bookkeeping of the two `trainNet` methods of Libraries/nn_models.py:
    per epoch, one pass over zip(batch_x, batch_y) that shifts the stored
    labels to loss targets, takes an optimiser step per batch, and records
    the epoch's mean loss and mean per-batch accuracy. The network itself is
    a parameter: its weights are a value of type W threaded through the
    passes. */
module Training {
  import opened Results
  import opened Decoding
  import LabelArrays

  /** The parts of a network the training loop drives, none of them
      modelled: `scores(w, X)` is the softmax of the forward pass with
      weights w, one row of class scores per element of X;
      `loss(w, X, targets)` is CrossEntropyLoss's value; `step(w, X, targets)`
      is the state after the backward pass and the optimiser step. A value
      of W is the network's weights together with the optimiser's state
      (Adam's moment estimates), so that `step` is a function of it. */
  datatype Network<!W, -X> = Network(
    scores: (W, X) -> seq<seq<real>>,
    loss: (W, X, seq<int>) -> real,
    step: (W, X, seq<int>) -> W)

  /** A row of the Conv2DNet label batches: `(x_coord, y_coord, label)`. */
  datatype PixelTarget = PixelTarget(row: int, col: int, classLabel: int)

  /** `Y.T[0] - 1`: the FourLayerNet loss targets of a label column. */
  function ColumnTargets(ys: seq<int>): (targets: seq<int>)
    ensures |targets| == |ys|
    ensures forall k :: 0 <= k < |ys| ==> targets[k] == TrainTarget(ys[k])
  {
    seq(|ys|, k requires 0 <= k < |ys| => TrainTarget(ys[k]))
  }

  /** `Y[:, -1] - 1`: the Conv2DNet loss targets, from the last column. */
  function LastColumnTargets(ys: seq<PixelTarget>): (targets: seq<int>)
    ensures |targets| == |ys|
    ensures forall k :: 0 <= k < |ys| ==> targets[k] == TrainTarget(ys[k].classLabel)
  {
    seq(|ys|, k requires 0 <= k < |ys| => TrainTarget(ys[k].classLabel))
  }

  /** A batch gives as many score rows as it has targets, at least one,
      and every target is a class index of its row, 0 .. C-1, as
      CrossEntropyLoss demands. */
  predicate BatchFits(rows: seq<seq<real>>, ts: seq<int>) {
    |rows| == |ts| > 0 && forall k :: 0 <= k < |ts| ==> 0 <= ts[k] < |rows[k]|
  }

  /** Every paired batch fits its targets, whatever the weights. */
  ghost predicate Fits<W(!new), X>(net: Network<W, X>, xs: seq<X>, targets: seq<seq<int>>) {
    forall w, b :: 0 <= b < |xs| && b < |targets| ==> BatchFits(net.scores(w, xs[b]), targets[b])
  }

  /** `(predicted == targets).sum()` over the first n rows: the rows whose
      argmax is the target. */
  function Hits(rows: seq<seq<real>>, targets: seq<int>, n: nat): (h: nat)
    requires n <= |rows| == |targets|
    requires forall k :: 0 <= k < |rows| ==> |rows[k]| > 0
    ensures h <= n
  {
    if n == 0 then 0
    else Hits(rows, targets, n - 1) + (if ArgMax(rows[n - 1]) == targets[n - 1] then 1 else 0)
  }

  /** One batch's share of `correct_train`: its hits over its row count. */
  function BatchAccuracy(rows: seq<seq<real>>, targets: seq<int>): (a: real)
    requires |targets| == |rows| > 0
    requires forall k :: 0 <= k < |rows| ==> |rows[k]| > 0
    ensures 0.0 <= a <= 1.0
  {
    var h := Hits(rows, targets, |rows|);
    Fraction(h as real, |rows| as real);
    h as real / |rows| as real
  }

  /** Every one of the first n rows is a hit exactly when the hit count is n. */
  lemma {:induction false} HitsAll(rows: seq<seq<real>>, targets: seq<int>, n: nat)
    requires n <= |rows| == |targets|
    requires forall k :: 0 <= k < |rows| ==> |rows[k]| > 0
    ensures Hits(rows, targets, n) == n <==> forall k :: 0 <= k < n ==> ArgMax(rows[k]) == targets[k]
  {
    if n > 0 {
      HitsAll(rows, targets, n - 1);
    }
  }

  /** A batch scores accuracy 1 exactly when every row's argmax is its
      target. */
  lemma PerfectBatch(rows: seq<seq<real>>, targets: seq<int>)
    requires |targets| == |rows| > 0
    requires forall k :: 0 <= k < |rows| ==> |rows[k]| > 0
    ensures BatchAccuracy(rows, targets) == 1.0 <==>
      forall k :: 0 <= k < |rows| ==> ArgMax(rows[k]) == targets[k]
  {
    HitsAll(rows, targets, |rows|);
    Fraction(Hits(rows, targets, |rows|) as real, |rows| as real);
  }

  /** A count over a positive total lies in [0, 1], and is 1 only when the
      count is the total. */
  lemma Fraction(c: real, d: real)
    requires 0.0 <= c <= d && d > 0.0
    ensures 0.0 <= c / d <= 1.0
    ensures c / d == 1.0 <==> c == d
  {
    var q := c / d;
    assert q * d == c;
    assert (1.0 - q) * d == d - c;
  }

  /** The running sums of one epoch's inner loop. */
  datatype Pass<W> = Pass(weights: W, runningLoss: real, correct: real)

  /** What Fits gives of batch b under weights w: the shapes Next needs. */
  lemma FitsAt<W(!new), X>(net: Network<W, X>, xs: seq<X>, targets: seq<seq<int>>, w: W, b: nat)
    requires Fits(net, xs, targets) && b < |xs| && b < |targets|
    ensures |net.scores(w, xs[b])| == |targets[b]| > 0
    ensures forall k :: 0 <= k < |targets[b]| ==> |net.scores(w, xs[b])[k]| > 0
  {
    assert BatchFits(net.scores(w, xs[b]), targets[b]);
  }

  /** One iteration of the inner loop on the pair (x, y): the optimiser
      step, and the batch's loss and accuracy added to the running sums. */
  function Next<W, X>(net: Network<W, X>, p: Pass<W>, x: X, y: seq<int>): (p': Pass<W>)
    requires |net.scores(p.weights, x)| == |y| > 0
    requires forall k :: 0 <= k < |y| ==> |net.scores(p.weights, x)[k]| > 0
    ensures p'.weights == net.step(p.weights, x, y)
    ensures p.correct <= p'.correct <= p.correct + 1.0
  {
    Pass(net.step(p.weights, x, y),
         p.runningLoss + net.loss(p.weights, x, y),
         p.correct + BatchAccuracy(net.scores(p.weights, x), y))
  }

  /** The inner loop after its first n pairs, starting from weights w. */
  function PassAfter<W(!new), X>(net: Network<W, X>, w: W, xs: seq<X>, targets: seq<seq<int>>, n: nat): (p: Pass<W>)
    requires n <= |xs| && n <= |targets| && Fits(net, xs, targets)
    ensures 0.0 <= p.correct <= n as real
  {
    if n == 0 then Pass(w, 0.0, 0.0)
    else
      var p := PassAfter(net, w, xs, targets, n - 1);
      FitsAt(net, xs, targets, p.weights, n - 1);
      Next(net, p, xs[n - 1], targets[n - 1])
  }

  /** The number of pairs zip(batch_x, batch_y) yields. */
  function Paired<X, Y>(xs: seq<X>, ys: seq<Y>): (n: nat)
    ensures n <= |xs| && n <= |ys|
    ensures n == |xs| || n == |ys|
  {
    if |xs| <= |ys| then |xs| else |ys|
  }

  /** The weights at the start of epoch e (after e full passes). */
  function WeightsAt<W(!new), X>(net: Network<W, X>, w0: W, xs: seq<X>, targets: seq<seq<int>>, e: nat): W
    requires Fits(net, xs, targets)
  {
    if e == 0 then w0
    else PassAfter(net, WeightsAt(net, w0, xs, targets, e - 1), xs, targets, Paired(xs, targets)).weights
  }

  /** `accuracy[epoch]`: the summed per-batch accuracies over len(batch_x),
      or 0 when zip yields nothing and the slot is never written. */
  function EpochAccuracy<W(!new), X>(net: Network<W, X>, w0: W, xs: seq<X>, targets: seq<seq<int>>, e: nat): (a: real)
    requires Fits(net, xs, targets)
    ensures 0.0 <= a <= 1.0
  {
    var n := Paired(xs, targets);
    if n == 0 then 0.0
    else
      var c := PassAfter(net, WeightsAt(net, w0, xs, targets, e), xs, targets, n).correct;
      Fraction(c, |xs| as real);
      c / |xs| as real
  }

  /** `loss_train[epoch]`: the summed batch losses over len(batch_x), or 0
      when zip yields nothing. */
  function EpochLoss<W(!new), X>(net: Network<W, X>, w0: W, xs: seq<X>, targets: seq<seq<int>>, e: nat): real
    requires Fits(net, xs, targets)
  {
    var n := Paired(xs, targets);
    if n == 0 then 0.0
    else PassAfter(net, WeightsAt(net, w0, xs, targets, e), xs, targets, n).runningLoss / |xs| as real
  }

  /** Batch b of the pass that starts from weights w is predicted without
      a miss: under the weights the pass has reached by then, every row's
      argmax is its target. */
  ghost predicate NoMissAt<W(!new), X>(net: Network<W, X>, w: W, xs: seq<X>, targets: seq<seq<int>>, b: nat)
    requires Fits(net, xs, targets) && b < |xs| && b < |targets|
  {
    var v := PassAfter(net, w, xs, targets, b).weights;
    FitsAt(net, xs, targets, v, b);
    forall k :: 0 <= k < |targets[b]| ==> ArgMax(net.scores(v, xs[b])[k]) == targets[b][k]
  }

  /** None of the first n batches of the pass from weights w has a miss. */
  ghost predicate NoMiss<W(!new), X>(net: Network<W, X>, w: W, xs: seq<X>, targets: seq<seq<int>>, n: nat)
    requires Fits(net, xs, targets) && n <= |xs| && n <= |targets|
  {
    n == 0 || (NoMiss(net, w, xs, targets, n - 1) && NoMissAt(net, w, xs, targets, n - 1))
  }

  /** An epoch in which every batch is paired records accuracy 1 exactly
      when no batch has a miss under the weights the epoch reaches. */
  lemma PerfectEpoch<W(!new), X>(net: Network<W, X>, w0: W, xs: seq<X>, targets: seq<seq<int>>, e: nat)
    requires Fits(net, xs, targets) && 0 < |xs| <= |targets|
    ensures EpochAccuracy(net, w0, xs, targets, e) == 1.0 <==>
      NoMiss(net, WeightsAt(net, w0, xs, targets, e), xs, targets, |xs|)
  {
    var w := WeightsAt(net, w0, xs, targets, e);
    var c := PassAfter(net, w, xs, targets, |xs|).correct;
    assert Paired(xs, targets) == |xs|;
    assert EpochAccuracy(net, w0, xs, targets, e) == c / |xs| as real;
    AllHits(net, w, xs, targets, |xs|);
    Fraction(c, |xs| as real);
  }

  /** The accuracy sum after n batches is n exactly when none of them has
      a miss: each batch adds at most 1. */
  lemma {:induction false} AllHits<W(!new), X>(net: Network<W, X>, w: W, xs: seq<X>, targets: seq<seq<int>>, n: nat)
    requires Fits(net, xs, targets) && n <= |xs| && n <= |targets|
    ensures PassAfter(net, w, xs, targets, n).correct == n as real <==> NoMiss(net, w, xs, targets, n)
  {
    if n > 0 {
      AllHits(net, w, xs, targets, n - 1);
      var c, c' := PassAfter(net, w, xs, targets, n - 1).correct, PassAfter(net, w, xs, targets, n).correct;
      NoMissAdds(net, w, xs, targets, n);
      FullSum(c, c', (n - 1) as real,
              NoMiss(net, w, xs, targets, n - 1), NoMissAt(net, w, xs, targets, n - 1), NoMiss(net, w, xs, targets, n));
    }
  }

  /** Batch n - 1 has no miss exactly when it adds 1 to the accuracy sum,
      and it never adds more. */
  lemma NoMissAdds<W(!new), X>(net: Network<W, X>, w: W, xs: seq<X>, targets: seq<seq<int>>, n: nat)
    requires Fits(net, xs, targets) && 0 < n <= |xs| && n <= |targets|
    ensures PassAfter(net, w, xs, targets, n).correct <= PassAfter(net, w, xs, targets, n - 1).correct + 1.0
    ensures NoMissAt(net, w, xs, targets, n - 1) <==>
      PassAfter(net, w, xs, targets, n).correct == PassAfter(net, w, xs, targets, n - 1).correct + 1.0
  {
    var p := PassAfter(net, w, xs, targets, n - 1);
    FitsAt(net, xs, targets, p.weights, n - 1);
    var rows := net.scores(p.weights, xs[n - 1]);
    assert PassAfter(net, w, xs, targets, n) == Next(net, p, xs[n - 1], targets[n - 1]);
    PerfectBatch(rows, targets[n - 1]);
  }

  /** A running sum that is full after m steps exactly when the earlier
      steps all succeeded, and that grows by at most 1 and by exactly 1 when
      the next step succeeds, is full after m + 1 steps exactly when all
      m + 1 steps succeeded. */
  lemma FullSum(c: real, c': real, m: real, before: bool, step: bool, all: bool)
    requires c <= m && c' <= c + 1.0
    requires c == m <==> before
    requires step <==> c' == c + 1.0
    requires all <==> before && step
    ensures c' == m + 1.0 <==> all
  {
  }

  /** When CrossEntropyLoss is non-negative, so is every recorded loss. */
  lemma {:induction false} EpochLossNonNegative<W(!new), X>(net: Network<W, X>, w0: W, xs: seq<X>, targets: seq<seq<int>>, e: nat)
    requires Fits(net, xs, targets)
    requires forall w, x, t :: net.loss(w, x, t) >= 0.0
    ensures EpochLoss(net, w0, xs, targets, e) >= 0.0
  {
    var n := Paired(xs, targets);
    if n > 0 {
      LossSumNonNegative(net, WeightsAt(net, w0, xs, targets, e), xs, targets, n);
    }
  }

  lemma {:induction false} LossSumNonNegative<W(!new), X>(net: Network<W, X>, w: W, xs: seq<X>, targets: seq<seq<int>>, n: nat)
    requires Fits(net, xs, targets) && n <= |xs| && n <= |targets|
    requires forall w, x, t :: net.loss(w, x, t) >= 0.0
    ensures PassAfter(net, w, xs, targets, n).runningLoss >= 0.0
  {
    if n > 0 {
      LossSumNonNegative(net, w, xs, targets, n - 1);
    }
  }

  /** The loss targets of every FourLayerNet label batch. */
  function ColumnTargetBatches(ys: seq<seq<int>>): (targets: seq<seq<int>>)
    ensures |targets| == |ys|
    ensures forall b :: 0 <= b < |ys| ==> targets[b] == ColumnTargets(ys[b])
  {
    seq(|ys|, b requires 0 <= b < |ys| => ColumnTargets(ys[b]))
  }

  /** The loss targets of every Conv2DNet label batch. */
  function LastColumnTargetBatches(ys: seq<seq<PixelTarget>>): (targets: seq<seq<int>>)
    ensures |targets| == |ys|
    ensures forall b :: 0 <= b < |ys| ==> targets[b] == LastColumnTargets(ys[b])
  {
    seq(|ys|, b requires 0 <= b < |ys| => LastColumnTargets(ys[b]))
  }

  /** What the epoch loop records for epoch e, in terms of its inner loop. */
  lemma EpochUnfold<W(!new), X>(net: Network<W, X>, w0: W, xs: seq<X>, targets: seq<seq<int>>, e: nat)
    requires Fits(net, xs, targets)
    ensures var p := PassAfter(net, WeightsAt(net, w0, xs, targets, e), xs, targets, Paired(xs, targets));
      WeightsAt(net, w0, xs, targets, e + 1) == p.weights &&
      (Paired(xs, targets) > 0 ==>
        EpochAccuracy(net, w0, xs, targets, e) == p.correct / |xs| as real &&
        EpochLoss(net, w0, xs, targets, e) == p.runningLoss / |xs| as real) &&
      (Paired(xs, targets) == 0 ==>
        EpochAccuracy(net, w0, xs, targets, e) == 0.0 && EpochLoss(net, w0, xs, targets, e) == 0.0)
  {
  }

  /** The accuracies recorded for epochs 0 .. n-1, in order. */
  function AccuracyLog<W(!new), X>(net: Network<W, X>, w0: W, xs: seq<X>, targets: seq<seq<int>>, n: nat): (log: seq<real>)
    requires Fits(net, xs, targets)
    ensures |log| == n
  {
    if n == 0 then []
    else AccuracyLog(net, w0, xs, targets, n - 1) + [EpochAccuracy(net, w0, xs, targets, n - 1)]
  }

  /** The losses recorded for epochs 0 .. n-1, in order. */
  function LossLog<W(!new), X>(net: Network<W, X>, w0: W, xs: seq<X>, targets: seq<seq<int>>, n: nat): (log: seq<real>)
    requires Fits(net, xs, targets)
    ensures |log| == n
  {
    if n == 0 then []
    else LossLog(net, w0, xs, targets, n - 1) + [EpochLoss(net, w0, xs, targets, n - 1)]
  }

  /** Entry e of the accuracy log is the accuracy of epoch e, and lies in [0, 1]. */
  lemma {:induction false} AccuracyLogAt<W(!new), X>(net: Network<W, X>, w0: W, xs: seq<X>, targets: seq<seq<int>>, n: nat, e: nat)
    requires Fits(net, xs, targets) && e < n
    ensures AccuracyLog(net, w0, xs, targets, n)[e] == EpochAccuracy(net, w0, xs, targets, e)
    ensures 0.0 <= AccuracyLog(net, w0, xs, targets, n)[e] <= 1.0
  {
    if e < n - 1 {
      AccuracyLogAt(net, w0, xs, targets, n - 1, e);
    }
  }

  /** Entry e of the loss log is the loss of epoch e. */
  lemma {:induction false} LossLogAt<W(!new), X>(net: Network<W, X>, w0: W, xs: seq<X>, targets: seq<seq<int>>, n: nat, e: nat)
    requires Fits(net, xs, targets) && e < n
    ensures LossLog(net, w0, xs, targets, n)[e] == EpochLoss(net, w0, xs, targets, e)
  {
    if e < n - 1 {
      LossLogAt(net, w0, xs, targets, n - 1, e);
    }
  }

  /** `np.zeros(n)` */
  function ZeroLog(n: nat): (z: seq<real>)
    ensures |z| == n && forall i :: 0 <= i < n ==> z[i] == 0.0
  {
    seq(n, _ => 0.0)
  }

  /** `np.zeros(n)` as a fresh array. */
  method Zeroed(n: nat) returns (a: array<real>)
    ensures fresh(a) && a[..] == ZeroLog(n)
  {
    a := new real[n](_ => 0.0);
  }

  /** Writing the first zero slot after the recorded ones extends the record. */
  lemma RecordNext(head: seq<real>, done: seq<real>, k: nat, v: real)
    requires k > 0
    ensures (head + done + ZeroLog(k))[|head| + |done| := v] == head + (done + [v]) + ZeroLog(k - 1)
  {
  }

  /** After epoch e's inner loop has written slot |head| + e of an accuracy
      array holding the first e accuracies and then zeros, the array holds
      the first e + 1 accuracies. */
  lemma AccuracyRecorded<W(!new), X>(net: Network<W, X>, w0: W, xs: seq<X>, targets: seq<seq<int>>, e: nat,
                                     head: seq<real>, k: nat, before: seq<real>, after: seq<real>)
    requires Fits(net, xs, targets) && k > 0
    requires before == head + AccuracyLog(net, w0, xs, targets, e) + ZeroLog(k)
    requires var n := Paired(xs, targets);
      var p := PassAfter(net, WeightsAt(net, w0, xs, targets, e), xs, targets, n);
      after == before[|head| + e := if n > 0 then p.correct / |xs| as real else before[|head| + e]]
    ensures after == head + AccuracyLog(net, w0, xs, targets, e + 1) + ZeroLog(k - 1)
  {
    EpochUnfold(net, w0, xs, targets, e);
    RecordNext(head, AccuracyLog(net, w0, xs, targets, e), k, EpochAccuracy(net, w0, xs, targets, e));
  }

  /** The same for the loss array. */
  lemma LossRecorded<W(!new), X>(net: Network<W, X>, w0: W, xs: seq<X>, targets: seq<seq<int>>, e: nat,
                                 head: seq<real>, k: nat, before: seq<real>, after: seq<real>)
    requires Fits(net, xs, targets) && k > 0
    requires before == head + LossLog(net, w0, xs, targets, e) + ZeroLog(k)
    requires var n := Paired(xs, targets);
      var p := PassAfter(net, WeightsAt(net, w0, xs, targets, e), xs, targets, n);
      after == before[|head| + e := if n > 0 then p.runningLoss / |xs| as real else before[|head| + e]]
    ensures after == head + LossLog(net, w0, xs, targets, e + 1) + ZeroLog(k - 1)
  {
    EpochUnfold(net, w0, xs, targets, e);
    RecordNext(head, LossLog(net, w0, xs, targets, e), k, EpochLoss(net, w0, xs, targets, e));
  }

  /** A record with no head and no zeros left is the log itself. */
  lemma Bare(log: seq<real>)
    ensures [] + log + ZeroLog(0) == log
  {
  }

  /** One epoch's inner loop over zip(batch_x, batch_y), starting from
      weights w and writing the epoch's slot after every batch: when zip
      yields a pair, the slot ends holding the summed loss and the summed
      batch accuracies over len(batch_x); otherwise it is never written. */
  method RunEpoch<W(!new), X>(net: Network<W, X>, w: W, xs: seq<X>, targets: seq<seq<int>>,
                              lossTrain: array<real>, accuracy: array<real>, slot: nat)
    returns (w': W)
    requires Fits(net, xs, targets)
    requires slot < lossTrain.Length && slot < accuracy.Length && lossTrain != accuracy
    modifies lossTrain, accuracy
    ensures var n := Paired(xs, targets);
      var p := PassAfter(net, w, xs, targets, n);
      w' == p.weights &&
      lossTrain[..] == old(lossTrain[..])[slot := if n > 0 then p.runningLoss / |xs| as real else old(lossTrain[slot])] &&
      accuracy[..] == old(accuracy[..])[slot := if n > 0 then p.correct / |xs| as real else old(accuracy[slot])]
  {
    var n := Paired(xs, targets);
    var p := Pass(w, 0.0, 0.0);
    ghost var loss0, acc0 := lossTrain[..], accuracy[..];
    assert loss0[slot := loss0[slot]] == loss0 && acc0[slot := acc0[slot]] == acc0;
    for b := 0 to n
      invariant PassAfter(net, w, xs, targets, b) == p
      invariant Written(lossTrain, accuracy, loss0, acc0, slot,
                        if b > 0 then p.runningLoss / |xs| as real else loss0[slot],
                        if b > 0 then p.correct / |xs| as real else acc0[slot])
    {
      FitsAt(net, xs, targets, p.weights, b);
      p := Next(net, p, xs[b], targets[b]);
      lossTrain[slot] := p.runningLoss / |xs| as real;
      accuracy[slot] := p.correct / |xs| as real;
    }
    w' := p.weights;
  }

  /** Both arrays as they were, but for slot, which holds lossV and accV. */
  ghost predicate Written(lossTrain: array<real>, accuracy: array<real>, loss0: seq<real>, acc0: seq<real>,
                          slot: nat, lossV: real, accV: real)
    reads lossTrain, accuracy
  {
    slot < |loss0| && slot < |acc0| &&
    lossTrain[..] == loss0[slot := lossV] && accuracy[..] == acc0[slot := accV]
  }

  /** The state of trainNet after e epochs: the weights after e passes,
      and both arrays holding `head`, the records of epochs 0 .. e-1 and k
      zeros still to be written. */
  ghost predicate Recorded<W(!new), X>(net: Network<W, X>, w0: W, xs: seq<X>, targets: seq<seq<int>>,
                                       head: seq<real>, e: nat, k: nat,
                                       w: W, lossTrain: array<real>, accuracy: array<real>)
    reads lossTrain, accuracy
  {
    Fits(net, xs, targets) &&
    w == WeightsAt(net, w0, xs, targets, e) &&
    accuracy[..] == head + AccuracyLog(net, w0, xs, targets, e) + ZeroLog(k) &&
    lossTrain[..] == head + LossLog(net, w0, xs, targets, e) + ZeroLog(k)
  }

  /** Epoch e of trainNet: the inner loop from the weights at the start of
      the epoch, recorded in slot |head| + e. */
  method RecordEpoch<W(!new), X>(net: Network<W, X>, w: W, xs: seq<X>, targets: seq<seq<int>>,
                                 lossTrain: array<real>, accuracy: array<real>, slot: nat,
                                 ghost w0: W, ghost head: seq<real>, ghost e: nat, ghost k: nat)
    returns (w': W)
    requires lossTrain != accuracy && k > 0 && slot == |head| + e
    requires Recorded(net, w0, xs, targets, head, e, k, w, lossTrain, accuracy)
    modifies lossTrain, accuracy
    ensures Recorded(net, w0, xs, targets, head, e + 1, k - 1, w', lossTrain, accuracy)
  {
    ghost var accBefore, lossBefore := accuracy[..], lossTrain[..];
    EpochUnfold(net, w0, xs, targets, e);
    w' := RunEpoch(net, w, xs, targets, lossTrain, accuracy, slot);
    AccuracyRecorded(net, w0, xs, targets, e, head, k, accBefore, accuracy[..]);
    LossRecorded(net, w0, xs, targets, e, head, k, lossBefore, lossTrain[..]);
  }

  /** The epoch loop of both trainNet methods: epoch e recorded in slot
      first + e of arrays holding `head`, of length first, then zeros. */
  method TrainEpochs<W(!new), X>(net: Network<W, X>, w0: W, xs: seq<X>, targets: seq<seq<int>>,
                                 lossTrain: array<real>, accuracy: array<real>, first: nat, epochs: nat,
                                 ghost head: seq<real>)
    returns (w: W)
    requires lossTrain != accuracy && first == |head|
    requires Recorded(net, w0, xs, targets, head, 0, epochs, w0, lossTrain, accuracy)
    modifies lossTrain, accuracy
    ensures Recorded(net, w0, xs, targets, head, epochs, 0, w, lossTrain, accuracy)
  {
    w := w0;
    ghost var left := epochs;
    for epoch := 0 to epochs
      invariant left == epochs - epoch
      invariant Recorded(net, w0, xs, targets, head, epoch, left, w, lossTrain, accuracy)
    {
      w := RecordEpoch(net, w, xs, targets, lossTrain, accuracy, first + epoch, w0, head, epoch, left);
      left := left - 1;
    }
  }

  /** FourLayerNet.trainNet: `for epoch in range(epochs)` over arrays of
      `epochs` zeros, epoch e recorded in slot e, targets `Y.T[0] - 1`.
      `np.zeros(epochs)` raises ValueError for a negative count. */
  method FourLayerNetTrain<W(!new), X>(net: Network<W, X>, w0: W, batchX: seq<X>, batchY: seq<seq<int>>, epochs: int)
    returns (r: Result<W, LabelArrays.InputError>, lossTrain: array<real>, accuracy: array<real>)
    requires Fits(net, batchX, ColumnTargetBatches(batchY))
    ensures epochs < 0 <==> r == Failure(LabelArrays.NegativeDimension)
    ensures epochs >= 0 ==>
      var n := epochs as nat;
      r == Success(WeightsAt(net, w0, batchX, ColumnTargetBatches(batchY), n)) &&
      accuracy[..] == AccuracyLog(net, w0, batchX, ColumnTargetBatches(batchY), n) &&
      lossTrain[..] == LossLog(net, w0, batchX, ColumnTargetBatches(batchY), n)
  {
    if epochs < 0 {
      lossTrain, accuracy := new real[0], new real[0];
      return Failure(LabelArrays.NegativeDimension), lossTrain, accuracy;
    }
    lossTrain := Zeroed(epochs);
    accuracy := Zeroed(epochs);
    assert ZeroLog(epochs) == [] + [] + ZeroLog(epochs);
    var w := TrainEpochs(net, w0, batchX, ColumnTargetBatches(batchY), lossTrain, accuracy, 0, epochs, []);
    Bare(AccuracyLog(net, w0, batchX, ColumnTargetBatches(batchY), epochs));
    Bare(LossLog(net, w0, batchX, ColumnTargetBatches(batchY), epochs));
    r := Success(w);
  }

  /** Conv2DNet.trainNet: `for epoch in range(1, epochs + 1)` over arrays of
      `epochs + 1` zeros, so slot 0 is never written and the epoch counted
      e from 0 lands in slot e + 1; targets `Y[:, -1] - 1`. `np.zeros(epochs + 1)`
      raises ValueError once epochs + 1 is negative; epochs = -1 gives two
      empty arrays and no epoch at all. */
  method Conv2DNetTrain<W(!new), X>(net: Network<W, X>, w0: W, batchX: seq<X>, batchY: seq<seq<PixelTarget>>, epochs: int)
    returns (r: Result<W, LabelArrays.InputError>, lossTrain: array<real>, accuracy: array<real>)
    requires Fits(net, batchX, LastColumnTargetBatches(batchY))
    ensures epochs < -1 <==> r == Failure(LabelArrays.NegativeDimension)
    ensures epochs == -1 ==> r == Success(w0) && accuracy[..] == [] && lossTrain[..] == []
    ensures epochs >= 0 ==>
      var n := epochs as nat;
      r == Success(WeightsAt(net, w0, batchX, LastColumnTargetBatches(batchY), n)) &&
      accuracy[..] == [0.0] + AccuracyLog(net, w0, batchX, LastColumnTargetBatches(batchY), n) &&
      lossTrain[..] == [0.0] + LossLog(net, w0, batchX, LastColumnTargetBatches(batchY), n)
  {
    if epochs < -1 {
      lossTrain, accuracy := new real[0], new real[0];
      return Failure(LabelArrays.NegativeDimension), lossTrain, accuracy;
    }
    lossTrain := Zeroed(epochs + 1);
    accuracy := Zeroed(epochs + 1);
    if epochs == -1 {
      return Success(w0), lossTrain, accuracy;
    }
    assert ZeroLog(epochs + 1) == [0.0] + [] + ZeroLog(epochs);
    var w := TrainEpochs(net, w0, batchX, LastColumnTargetBatches(batchY), lossTrain, accuracy, 1, epochs, [0.0]);
    r := Success(w);
  }
}
