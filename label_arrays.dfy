/** The label arrays that get_metrics and get_classification_map
    (Libraries/metrics.py) receive, and the checks both run on them before
    touching their contents. Only ranks 1 and 2 are modelled. */
module LabelArrays {
  import opened Results

  /** A Python value passed where a numpy array of integer labels is expected. */
  datatype LabelArray =
    | NonArray                                 // any value that is not an np.ndarray
    | Vector(items: seq<int>)                  // shape (N,)
    | Matrix(rows: seq<seq<int>>, width: nat)  // shape (N, width), row by row

  /** Which argument an error is about. */
  datatype Argument = TrueLabels | PredLabels

  /** The exceptions the label checks, the counting loop and the map
      building raise. */
  datatype InputError =
    | NotAnArray(arg: Argument)  // TypeError: argument is not an np.ndarray
    | ShapeMismatch              // RuntimeError: the two shapes differ
    | NoSecondAxis               // IndexError: `shape[1]` of a one-dimensional array
    | NotColumnVectors           // RuntimeError: shape is (N, w) with w != 1
    | LabelOutOfRange            // IndexError: a label indexes outside the confusion matrix
    | NegativeDimension          // ValueError: np.zeros given a negative size
    | MissingCoordinates         // TypeError: `coordenates` left at its default None is indexed
    | MissingDims                // TypeError: `dims` left at its default None is indexed

  /** numpy keeps every row of a two-dimensional array the same width. */
  predicate WellShaped(a: LabelArray) {
    a.Matrix? ==> forall k :: 0 <= k < |a.rows| ==> |a.rows[k]| == a.width
  }

  /** The `shape` tuple of an array. */
  function Shape(a: LabelArray): seq<nat>
    requires !a.NonArray?
  {
    match a
    case Vector(items) => [|items|]
    case Matrix(rows, width) => [|rows|, width]
  }

  /** An array of shape (N, 1). */
  predicate IsColumn(a: LabelArray) {
    a.Matrix? && a.width == 1 && WellShaped(a)
  }

  /** The N labels of an (N, 1) column vector, top to bottom. */
  function Labels(a: LabelArray): (labels: seq<int>)
    requires IsColumn(a)
    ensures |labels| == |a.rows|
    ensures forall k :: 0 <= k < |labels| ==> labels[k] == a.rows[k][0]
  {
    seq(|a.rows|, k requires 0 <= k < |a.rows| => a.rows[k][0])
  }

  /** The shape checks that follow the type checks: same shape, then
      `shape[1] == 1` on both (metrics.py lines 48-53 and 171-176). */
  function ShapeCheck(t: LabelArray, p: LabelArray): (err: Option<InputError>)
    requires !t.NonArray? && !p.NonArray? && WellShaped(t) && WellShaped(p)
    ensures err.None? <==> IsColumn(t) && IsColumn(p) && |t.rows| == |p.rows|
    ensures err.Some? ==> err.value in {ShapeMismatch, NoSecondAxis, NotColumnVectors}
    ensures err == Some(NoSecondAxis) <==> t.Vector? && Shape(t) == Shape(p)
  {
    if Shape(t) != Shape(p) then Some(ShapeMismatch)
    else if |Shape(t)| < 2 then Some(NoSecondAxis)
    else if Shape(t)[1] != 1 then Some(NotColumnVectors)
    else None
  }
}
