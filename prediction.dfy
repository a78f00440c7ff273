/** The two `predict` methods of Libraries/nn_models.py: decode every batch
    of class scores with probs_2_label and stack the labels of all batches
    into one column, batch after batch. The network is a parameter: `scores`
    is the softmax of its forward pass, one row of class scores per element
    of the batch. */
module Prediction {
  import opened Results
  import opened Decoding

  /** An element of the Python list handed to predict. */
  datatype Element<X> = Tensor(batch: X) | NotATensor

  /** What predict receives as `batch_x`. */
  datatype BatchArg<X> = NonList | List(items: seq<Element<X>>)

  datatype PredictError =
    | NotAList          // RuntimeError: the argument is not a Python list
    | EmptyList         // RuntimeError: the list is empty
    | FirstNotATensor   // TypeError: the first element is not a tensor
    | NothingToJoin     // ValueError: np.concatenate of an empty list
    | EmptyBatch        // a batch with no rows decodes to a 1-D array; np.concatenate
                        // raises ValueError when 2-D batches are beside it, and
                        // AxisError when every batch is empty

  /** Every batch decodes: each of its score rows has a unique maximum. */
  predicate Decodable<X>(batches: seq<X>, scores: X -> seq<seq<real>>) {
    forall b, k :: 0 <= b < |batches| && 0 <= k < |scores(batches[b])| ==>
      UniqueMax(scores(batches[b])[k])
  }

  /** `np.concatenate` of the first n label batches, in list order. */
  function Concat(parts: seq<seq<int>>, n: nat): (flat: seq<int>)
    requires n <= |parts|
    ensures |flat| == Offset(parts, n)
  {
    if n == 0 then [] else Concat(parts, n - 1) + parts[n - 1]
  }

  /** Where batch n starts in the concatenation: the sizes of batches 0 .. n-1. */
  function Offset(parts: seq<seq<int>>, n: nat): nat
    requires n <= |parts|
  {
    if n == 0 then 0 else Offset(parts, n - 1) + |parts[n - 1]|
  }

  lemma OffsetMonotone(parts: seq<seq<int>>, a: nat, b: nat)
    requires a <= b <= |parts|
    ensures Offset(parts, a) <= Offset(parts, b)
    decreases b - a
  {
    if a < b {
      OffsetMonotone(parts, a, b - 1);
    }
  }

  /** Entry k of batch b sits at position Offset(b) + k of the concatenation. */
  lemma {:induction false} ConcatAt(parts: seq<seq<int>>, n: nat, b: nat, k: nat)
    requires b < n <= |parts| && k < |parts[b]|
    ensures Offset(parts, b) + k < Offset(parts, n)
    ensures Concat(parts, n)[Offset(parts, b) + k] == parts[b][k]
  {
    var prefix := Concat(parts, n - 1);
    if b < n - 1 {
      ConcatAt(parts, n - 1, b, k);
      assert (prefix + parts[n - 1])[Offset(parts, b) + k] == prefix[Offset(parts, b) + k];
    }
  }

  /** The labels of every batch, decoded batch by batch. */
  function BatchLabels<X>(batches: seq<X>, scores: X -> seq<seq<real>>): (parts: seq<seq<int>>)
    requires Decodable(batches, scores)
    ensures |parts| == |batches|
    ensures forall b :: 0 <= b < |batches| ==> parts[b] == ProbsToLabel(scores(batches[b]))
  {
    seq(|batches|, b requires 0 <= b < |batches| => ProbsToLabel(scores(batches[b])))
  }

  /** The number of score rows in batches 0 .. n-1. */
  function RowsBefore<X>(batches: seq<X>, scores: X -> seq<seq<real>>, n: nat): nat
    requires n <= |batches|
  {
    if n == 0 then 0 else RowsBefore(batches, scores, n - 1) + |scores(batches[n - 1])|
  }

  /** Each batch gives one label per row, so batch n starts after the rows
      of the batches before it. */
  lemma {:induction false} OffsetIsRowsBefore<X>(batches: seq<X>, scores: X -> seq<seq<real>>, n: nat)
    requires Decodable(batches, scores) && n <= |batches|
    ensures Offset(BatchLabels(batches, scores), n) == RowsBefore(batches, scores, n)
  {
    if n > 0 {
      OffsetIsRowsBefore(batches, scores, n - 1);
    }
  }

  /** Row k of batch b has its decoded label at position RowsBefore(b) + k. */
  predicate LabelAt<X>(labels: seq<int>, batches: seq<X>, scores: X -> seq<seq<real>>, b: nat, k: nat)
    requires Decodable(batches, scores) && b < |batches| && k < |scores(batches[b])|
  {
    RowsBefore(batches, scores, b) + k < |labels| &&
    labels[RowsBefore(batches, scores, b) + k] == DecodeRow(scores(batches[b])[k])
  }

  /** The column predict returns: one label per score row of every batch,
      and row k of batch b at position RowsBefore(b) + k with that row's
      decoded label, so batches keep their list order and rows their order
      within the batch. */
  predicate Assembled<X>(labels: seq<int>, batches: seq<X>, scores: X -> seq<seq<real>>)
    requires Decodable(batches, scores)
  {
    |labels| == RowsBefore(batches, scores, |batches|) &&
    forall b, k :: 0 <= b < |batches| && 0 <= k < |scores(batches[b])| ==> LabelAt(labels, batches, scores, b, k)
  }

  /** Row k of batch b: its decoded label sits at position RowsBefore(b) + k
      of the concatenated labels. */
  lemma AssembledAt<X>(batches: seq<X>, scores: X -> seq<seq<real>>, b: nat, k: nat)
    requires Decodable(batches, scores)
    requires b < |batches| && k < |scores(batches[b])|
    ensures LabelAt(Concat(BatchLabels(batches, scores), |batches|), batches, scores, b, k)
  {
    var parts := BatchLabels(batches, scores);
    var rows := scores(batches[b]);
    assert parts[b] == ProbsToLabel(rows);
    OffsetIsRowsBefore(batches, scores, b);
    OffsetIsRowsBefore(batches, scores, |batches|);
    ConcatAt(parts, |batches|, b, k);
  }

  /** The concatenated labels of all batches form the column predict returns. */
  lemma StackedAssembled<X>(batches: seq<X>, scores: X -> seq<seq<real>>)
    requires Decodable(batches, scores)
    ensures Assembled(Concat(BatchLabels(batches, scores), |batches|), batches, scores)
  {
    var labels := Concat(BatchLabels(batches, scores), |batches|);
    OffsetIsRowsBefore(batches, scores, |batches|);
    assert |labels| == RowsBefore(batches, scores, |batches|);
    forall b, k | 0 <= b < |batches| && 0 <= k < |scores(batches[b])|
      ensures LabelAt(labels, batches, scores, b, k)
    {
      AssembledAt(batches, scores, b, k);
    }
  }

  /** The batch loop and the final concatenation shared by both predict
      methods: one forward pass per batch, in list order, then
      `np.concatenate(pred_labels, axis = 1)` transposed into a column. */
  method PredictBatches<X>(batches: seq<X>, scores: X -> seq<seq<real>>)
    returns (r: Result<seq<int>, PredictError>)
    requires Decodable(batches, scores)
    ensures |batches| == 0 ==> r == Failure(NothingToJoin)
    ensures |batches| > 0 ==>
      (r.Success? <==> forall b :: 0 <= b < |batches| ==> |scores(batches[b])| > 0)
    ensures r.Failure? ==> r.error in {NothingToJoin, EmptyBatch}
    ensures r.Success? ==> Assembled(r.value, batches, scores)
  {
    var labels: seq<int> := [];
    var sawEmpty := false;
    for b := 0 to |batches|
      invariant labels == Concat(BatchLabels(batches, scores), b)
      invariant sawEmpty <==> exists q :: 0 <= q < b && |scores(batches[q])| == 0
    {
      var ps := scores(batches[b]);
      labels := labels + ProbsToLabel(ps);
      if |ps| == 0 {
        sawEmpty := true;
      }
    }
    if |batches| == 0 {
      r := Failure(NothingToJoin);
    } else if sawEmpty {
      r := Failure(EmptyBatch);
    } else {
      StackedAssembled(batches, scores);
      r := Success(labels);
    }
  }

  /** FourLayerNet.predict: the three input checks, then the batch loop. */
  method FourLayerNetPredict<X>(batchX: BatchArg<X>, scores: X -> seq<seq<real>>)
    returns (r: Result<seq<int>, PredictError>)
    requires batchX.List? && |batchX.items| > 0 && batchX.items[0].Tensor? ==>
      (forall b :: 0 <= b < |batchX.items| ==> batchX.items[b].Tensor?) &&
      Decodable(Batches(batchX.items), scores)
    ensures batchX.NonList? ==> r == Failure(NotAList)
    ensures batchX.List? && |batchX.items| == 0 ==> r == Failure(EmptyList)
    ensures batchX.List? && |batchX.items| > 0 && batchX.items[0].NotATensor? ==>
      r == Failure(FirstNotATensor)
    ensures r.Success? <==>
      batchX.List? && |batchX.items| > 0 && batchX.items[0].Tensor? &&
      forall b :: 0 <= b < |batchX.items| ==> |scores(batchX.items[b].batch)| > 0
    ensures r.Success? ==> Assembled(r.value, Batches(batchX.items), scores)
  {
    if batchX.NonList? {
      return Failure(NotAList);
    }
    if |batchX.items| == 0 {
      return Failure(EmptyList);
    }
    if batchX.items[0].NotATensor? {
      return Failure(FirstNotATensor);
    }
    r := PredictBatches(Batches(batchX.items), scores);
  }

  /** The tensors of a list whose elements are all tensors. */
  function Batches<X>(items: seq<Element<X>>): (batches: seq<X>)
    requires forall b :: 0 <= b < |items| ==> items[b].Tensor?
    ensures |batches| == |items|
    ensures forall b :: 0 <= b < |items| ==> batches[b] == items[b].batch
  {
    seq(|items|, b requires 0 <= b < |items| => items[b].batch)
  }

  /** Conv2DNet.predict: no input checks, the batch loop alone. */
  method Conv2DNetPredict<X>(batches: seq<X>, scores: X -> seq<seq<real>>)
    returns (r: Result<seq<int>, PredictError>)
    requires Decodable(batches, scores)
    ensures |batches| == 0 ==> r == Failure(NothingToJoin)
    ensures r.Success? <==> |batches| > 0 && forall b :: 0 <= b < |batches| ==> |scores(batches[b])| > 0
    ensures r.Success? ==> Assembled(r.value, batches, scores)
  {
    r := PredictBatches(batches, scores);
  }
}
