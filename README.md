# Hyperspectral classification: metrics, maps and the network bookkeeping, in Dafny

This project models the numeric core of a hyperspectral-image classification
library:

- `get_metrics` builds a confusion matrix from two label columns and derives per-class
  and overall scores. Its private helper `__class_metrics` computes the per-class
  scores.
- `get_classification_map` scatters labels onto a raster, colours it through
  `_paletteGen`'s palette with `_convert2color`, and crops the padding.
- `probs_2_label` turns rows of class probabilities into 1-based labels.
- The two `predict` methods decode batch after batch and stack the labels into one
  column.
- The two `trainNet` methods shift the 1-based labels to 0-based loss targets. They
  record, per epoch, the mean batch loss and the mean batch accuracy.

The neural network is a parameter (`Training.Network`, or the `scores` function of
`Prediction`):

- `scores(w, X)` is the softmax of the forward pass under weights `w`;
- `loss` is CrossEntropyLoss's value;
- `step` is the weights after the backward pass and the optimiser step.

Numbers are mathematical: labels and counts are `int`, and probabilities, losses
and scores are `real`, so every division is exact. A Python exception becomes a
`Failure` of `Results.Result`. numpy's NaN from `0 / 0` becomes `None`.

The modules follow the source:

| module | file | models |
|---|---|---|
| `Results` | `results.dfy` | `Option` and `Result` |
| `LabelArrays` | `label_arrays.dfy` | the label arrays and the shape checks both metrics functions run |
| `Confusion` | `confusion.dfy` | the confusion matrix as a value (the counting run as a function), and sums over it |
| `Metrics` | `metrics.dfy` | `get_metrics` and `__class_metrics` |
| `ClassificationMap` | `classification_map.dfy` | `get_classification_map` without the figures, `_paletteGen` and `_convert2color` |
| `Decoding` | `decoding.dfy` | `probs_2_label` and the label shift |
| `Prediction` | `prediction.dfy` | both `predict` methods |
| `Training` | `training.dfy` | the epoch and batch loops of both `trainNet` methods |

Some things follow the code rather than its comments:

- **Negative indices.** `confusion_mx[true - 1, pred - 1] += 1` uses numpy's indexing.
  A label of 0 gives index -1, which is the last row, so the sample is counted as the
  last class and nothing is raised. A label below `-n + 1` or above `n` raises
  IndexError. `Confusion.AxisIndex` states the rule, and
  `Confusion.ZeroLabelCountsAsLastClass` shows it on an example.
- **Crop.** The comments on the crop speak of removing the padding at the bottom and
  right. The slice `[2p : H - 2p, 2p : W - 2p]` removes `2 * padding` rows and columns
  from all four edges. `ClassificationMap.Crop` models the slice as written, with
  Python's slice-bound normalisation. A padding too large for the image gives an
  empty image.
- **Dividing by `len(batch_x)`.** Both `trainNet` loops divide the sums by
  `len(batch_x)`, even when `zip` stops early at a shorter `batch_y`. An epoch in
  which `zip` yields nothing leaves its slot at 0. `Training.EpochAccuracy` and
  `Training.EpochLoss` keep both behaviours.
- **Slot 0 in Conv2DNet.** `Conv2DNet.trainNet` allocates `epochs + 1` slots and runs
  `range(1, epochs + 1)`, so slot 0 stays 0 and the e-th epoch lands in slot e + 1.
- **Both arrays written every batch.** The two arrays are rewritten after every
  batch, not once per epoch. `Training.RunEpoch` does the same.

## Model

| member | source | states |
|---|---|---|
| `LabelArrays.ShapeCheck` | Libraries/metrics.py:48-53 | no error exactly when both arrays are (N, 1) columns of the same N; IndexError (`NoSecondAxis`) exactly when the shapes agree and are one-dimensional; otherwise one of the two RuntimeErrors |
| `Confusion.AxisIndex` | Libraries/metrics.py:69 | an integer index resolves exactly when `-n <= i < n`, to `i` or `i + n` inside the axis; any other index raises IndexError |
| `Confusion.Zeros` | Libraries/metrics.py:59 | `np.zeros([n, n])` is n x n, all zero, so non-negative and diagonal |
| `Confusion.TotalOfZeros` | Libraries/metrics.py:59 | the zeroed matrix sums to 0 |
| `Confusion.Bump` | Libraries/metrics.py:69 | one `+= 1` adds 1 to cell (a, b) and leaves the shape and every other cell unchanged |
| `Confusion.TotalAfterBump` | Libraries/metrics.py:69 | one `+= 1` adds exactly 1 to `np.sum` of the matrix |
| `Confusion.ColumnSumsTotal` | Libraries/metrics.py:116-119 | the column sums that fp is read from add up to the same total as the row sums that fn is read from, for every matrix with rows of equal width |
| `Confusion.Counted` | Libraries/metrics.py:59-69 | the matrix after counting k samples is n x n with no negative cell |
| `Confusion.Tally` | Libraries/metrics.py:59-69 | the matrix after counting every sample is n x n with no negative cell |
| `Confusion.CountedTotal` | Libraries/metrics.py:66-69 | count conservation: the cells add up to the number of samples counted, including labels numpy wraps around |
| `Confusion.TallyBalanced` | Libraries/metrics.py:59-79 | the counted matrix balances: its row sums and its column sums each add up to the number of samples |
| `Confusion.CountedCells` | Libraries/metrics.py:66-69 | with labels in 1..n, cell (i, j) counts the samples with true label i + 1 and predicted label j + 1 |
| `Confusion.CountedRowSum` | Libraries/metrics.py:117 | with labels in 1..n, row i adds up to the number of samples of class i + 1 |
| `Confusion.CountedColumnSum` | Libraries/metrics.py:118 | with labels in 1..n, column j adds up to the number of samples predicted as class j + 1 |
| `Confusion.PerfectCounted` | Libraries/metrics.py:66-69 | when the prediction equals the truth, the matrix is diagonal and its trace is the number of samples |
| `Confusion.ZeroLabelCountsAsLastClass` | Libraries/metrics.py:69 | on an example (true [0] against predicted [1], two classes): the label 0 raises nothing and is counted in the last row; the general rule is `Confusion.AxisIndex` |
| `Confusion.TraceAtMostTotal` | Libraries/metrics.py:79 | for a non-negative matrix, 0 <= trace <= total |
| `Confusion.RowAndColumnAtMostTotal` | Libraries/metrics.py:116-119 | row i plus column i minus the diagonal cell is at most the total, so the true-negative count is never negative |
| `Metrics.OverallAccuracy` | Libraries/metrics.py:79 | NaN (None) exactly for an empty matrix; otherwise a value in [0, 1] that, multiplied by the total, gives the trace |
| `Metrics.CountsOf` | Libraries/metrics.py:116-119 | tp is the diagonal cell; tp + fn is the sum of row i; tp + fp is the sum of column i; the four counts add up to the total |
| `Metrics.Smoothed` | Libraries/metrics.py:121-124 | the quotient times (denominator + 1e-7) gives back the numerator |
| `Metrics.Sensitivity` | Libraries/metrics.py:121 | sensitivity times (tp + fn + 1e-7) is tp |
| `Metrics.Specificity` | Libraries/metrics.py:122 | specificity times (tn + fp + 1e-7) is tn |
| `Metrics.ClassAccuracy` | Libraries/metrics.py:123 | accuracy times (tn + tp + fn + fp + 1e-7) is tn + tp |
| `Metrics.Precision` | Libraries/metrics.py:124 | precision times (tp + fp + 1e-7) is tp |
| `Metrics.CountsPartitionTotal` | Libraries/metrics.py:116-119 | tp, fn, fp and tn of every class are non-negative and add up to the total |
| `Metrics.SmoothedInUnitInterval` | Libraries/metrics.py:121-124 | a part over (its whole + 1e-7) lies in [0, 1) |
| `Metrics.ScoresInUnitInterval` | Libraries/metrics.py:121-124 | every class's sensitivity, specificity, accuracy and precision lies in [0, 1) |
| `Metrics.ClassSupport` | Libraries/metrics.py:116-119 | with labels in 1..n: tp is the number of correct samples of the class; tp + fn is its number of true samples; tp + fp is its number of predicted samples; the four counts add up to the number of samples |
| `Metrics.DiagonalCounts` | Libraries/metrics.py:117-118 | in a diagonal matrix no class has false negatives or false positives |
| `Metrics.PerfectPrediction` | Libraries/metrics.py:66-81 | a perfect, non-empty prediction has overall accuracy exactly 1 and no false negative or false positive in any class |
| `Metrics.WorkedExampleMatrix` | Libraries/metrics.py:59-69 | true [1,1,2,2] against predicted [1,2,2,2] gives [[1,1],[0,2]] |
| `Metrics.WorkedExampleAccuracy` | Libraries/metrics.py:79 | the overall accuracy of [[1,1],[0,2]] is 3/4 |
| `Metrics.ClassMetrics` | Libraries/metrics.py:100-129 | four lists with one entry per class, in class order; entry i holds class i's sensitivity, specificity, accuracy and precision from its tp/fn/fp/tn with epsilon 1e-7; every entry lies in [0, 1) |
| `Metrics.ZeroMatrix` | Libraries/metrics.py:59 | `np.zeros([n, n])`: a fresh n x n array holding the zero matrix |
| `Metrics.Increment` | Libraries/metrics.py:69 | one `+= 1` leaves the array holding the matrix with that cell bumped |
| `Metrics.CountConfusion` | Libraries/metrics.py:58-69 | succeeds exactly when every label indexes the matrix, and then returns the counted matrix; otherwise raises IndexError |
| `Metrics.GetMetrics` | Libraries/metrics.py:16-81 | raises in the source's order (true labels not an array, predicted labels not an array, shape errors, ValueError from `np.zeros` for a negative `num_clases`, then IndexError while counting); succeeds exactly when both are (N, 1) columns of the same N, `num_clases` is not negative and every label indexes the matrix; the report holds the counted matrix, its overall accuracy and the four per-class lists |
| `ClassificationMap.RasterAtListed` | Libraries/metrics.py:190-197 | with distinct coordinates, the pixel of the k-th coordinate holds the k-th label |
| `ClassificationMap.RasterAtUnlisted` | Libraries/metrics.py:194 | a pixel no coordinate names keeps the 0 of `np.zeros` |
| `ClassificationMap.RasterAt` | Libraries/metrics.py:194-197 | every pixel of the scattered raster holds 0 or a label given for that pixel's coordinate |
| `ClassificationMap.PixelColour` | Libraries/metrics.py:276-300 | every channel of a pixel's colour is 0 or 255, and the colour is black exactly for raster values outside 1..6 |
| `ClassificationMap.PaletteColoursDistinct` | Libraries/metrics.py:250-272 | different classes 0..6 get different colours, every channel is 0 or 255, and only class 0 is black |
| `ClassificationMap.LookupFinds` | Libraries/metrics.py:294 | in a dict, the value found for a stored key is the one stored beside it |
| `ClassificationMap.LookupMisses` | Libraries/metrics.py:294 | a key stored nowhere is not found |
| `ClassificationMap.Assign` | Libraries/metrics.py:265-272 | `d[k] = v` keeps keys unique, makes `k` find `v` and changes no other key |
| `ClassificationMap.PaletteGen` | Libraries/metrics.py:263-274 | the dict maps 0..6 to black, green, red, blue, cyan, magenta and white at full intensity, and has no other key |
| `ClassificationMap.Scatter` | Libraries/metrics.py:190-197 | the H x W raster holds, at each pixel, the label scattered there, or 0 |
| `ClassificationMap.PaintMask` | Libraries/metrics.py:296-298 | the pixels whose raster value is the key get its colour in all three channels; every other pixel keeps its colour |
| `ClassificationMap.Convert2Color` | Libraries/metrics.py:276-300 | an H x W x 3 image where each pixel has the palette colour of its raster value, or black if the value has no entry |
| `ClassificationMap.Crop` | Libraries/metrics.py:203 | the slice keeps H - 4p rows and W - 4p columns (none when too few), and pixel (x, y) is input pixel (x + 2p, y + 2p) |
| `ClassificationMap.ColourMap` | Libraries/metrics.py:194-200 | every pixel of the coloured raster has the class colour of the label scattered there |
| `ClassificationMap.Render` | Libraries/metrics.py:194-203 | the cropped image shows at (x, y) the class colour of the label at raster pixel (x + 2p, y + 2p) |
| `ClassificationMap.GetClassificationMap` | Libraries/metrics.py:131-246 | raises in the source's order (predicted labels not an array; then, only with plot_gt, true labels not an array and the shape errors; then TypeError for `coordenates` left at None, TypeError for `dims` left at None, and ValueError from `np.zeros` for a negative dimension); succeeds exactly when none of these applies; on success renders the prediction, and renders the ground truth exactly when plot_gt |
| `Decoding.Max` | Libraries/nn_models.py:515 | `np.amax`: no score exceeds it and some score equals it |
| `Decoding.Where` | Libraries/nn_models.py:515 | `np.where(r == v)[0]`: exactly the positions holding v, in increasing order |
| `Decoding.RowLabelsAreMaxima` | Libraries/nn_models.py:515 | a row gives at least one label, in increasing order, each the 1-based position of a maximal score |
| `Decoding.RowLabelsComplete` | Libraries/nn_models.py:515 | every position holding the row's maximum appears, plus one, among its labels |
| `Decoding.ArgMax` | Libraries/nn_models.py:161 | `torch.argmax`: the first position holding the maximum |
| `Decoding.DecodeRow` | Libraries/nn_models.py:515 | with a unique maximum, the label is in 1..M and names the position of the maximum; every other score lies strictly below it |
| `Decoding.ProbsToLabel` | Libraries/nn_models.py:515 | one label per row, in row order, each the row's decoded label |
| `Decoding.UniqueRowLabel` | Libraries/nn_models.py:515 | with a unique maximum, `np.where(...)[0] + 1` yields exactly one label, the decoded one |
| `Decoding.TiesGiveSeveralLabels` | Libraries/nn_models.py:515 | a row whose maximum appears twice yields at least two labels |
| `Decoding.DecodedIsArgMaxPlusOne` | Libraries/nn_models.py:161-163 | the decoded label is torch.argmax + 1, the index training compares against |
| `Decoding.TargetRoundTrip` | Libraries/nn_models.py:147 | label shift round trip: argmax equals the training target `stored - 1` exactly when the row decodes back to `stored` |
| `Prediction.ConcatAt` | Libraries/nn_models.py:243 | entry k of part b sits at the sum of the earlier parts' lengths plus k in the concatenation |
| `Prediction.Concat` | Libraries/nn_models.py:243 | the concatenation is exactly as long as all the parts together |
| `Prediction.BatchLabels` | Libraries/nn_models.py:225-238 | one decoded label list per batch, in list order |
| `Prediction.OffsetIsRowsBefore` | Libraries/nn_models.py:238 | each batch contributes one label per score row |
| `Prediction.AssembledAt` | Libraries/nn_models.py:243 | row k of batch b has its decoded label at position (rows of earlier batches) + k of the stacked column |
| `Prediction.StackedAssembled` | Libraries/nn_models.py:225-243 | the stacked column has one label per row of every batch, batches in list order and rows in batch order |
| `Prediction.PredictBatches` | Libraries/nn_models.py:216-243 | no batches raises ValueError; a batch with no rows raises; otherwise the result is the stacked column of decoded labels |
| `Prediction.FourLayerNetPredict` | Libraries/nn_models.py:187-243 | a non-list raises, an empty list raises, a first element that is not a tensor raises; otherwise as the batch loop, succeeding exactly when every batch has rows |
| `Prediction.Conv2DNetPredict` | Libraries/nn_models.py:462-489 | no input checks; ValueError for an empty list; succeeds exactly when there is a batch and every batch has rows, with the stacked column |
| `Training.ColumnTargets` | Libraries/nn_models.py:147 | `Y.T[0] - 1`: one target per label, each the label's training target |
| `Training.LastColumnTargets` | Libraries/nn_models.py:394 | `Y[:, -1] - 1`: one target per row, from its label column |
| `Training.BatchAccuracy` | Libraries/nn_models.py:161-163 | a batch's accuracy lies in [0, 1] |
| `Training.Hits` | Libraries/nn_models.py:163 | `(predicted == targets).sum()` over n rows is at most n |
| `Training.HitsAll` | Libraries/nn_models.py:163 | the hit count equals the row count exactly when every argmax equals its target |
| `Training.PerfectBatch` | Libraries/nn_models.py:161-163 | a batch scores accuracy 1 exactly when every row's argmax is its target |
| `Training.Next` | Libraries/nn_models.py:135-165 | one batch moves the weights by one optimiser step and adds at most 1 to the accuracy sum |
| `Training.PassAfter` | Libraries/nn_models.py:127-165 | after n batches the accuracy sum lies in [0, n] |
| `Training.Paired` | Libraries/nn_models.py:127 | `zip` yields as many pairs as the shorter list |
| `Training.EpochAccuracy` | Libraries/nn_models.py:161-168 | the recorded accuracy of every epoch lies in [0, 1] |
| `Training.PerfectEpoch` | Libraries/nn_models.py:161-168 | when every batch is paired, the epoch records accuracy 1 exactly when no batch has a miss under the weights the epoch has reached at that batch |
| `Training.AllHits` | Libraries/nn_models.py:161-163 | the accuracy sum after n batches is n exactly when none of them has a miss under the weights the pass has reached at it |
| `Training.NoMissAdds` | Libraries/nn_models.py:161-163 | a batch adds at most 1 to the accuracy sum, and exactly 1 when it has no miss |
| `Training.EpochLossNonNegative` | Libraries/nn_models.py:165-167 | a non-negative loss gives a non-negative recorded epoch loss |
| `Training.LossSumNonNegative` | Libraries/nn_models.py:165 | a non-negative loss gives a non-negative running sum |
| `Training.ColumnTargetBatches` | Libraries/nn_models.py:147 | the FourLayerNet targets of every label batch |
| `Training.LastColumnTargetBatches` | Libraries/nn_models.py:394 | the Conv2DNet targets of every label batch |
| `Training.EpochUnfold` | Libraries/nn_models.py:119-168 | the next epoch's weights are those after this epoch's pass; the recorded values are the sums over `len(batch_x)`, or 0 when zip yields nothing |
| `Training.AccuracyLogAt` | Libraries/nn_models.py:168 | entry e of the accuracy log is epoch e's accuracy and lies in [0, 1] |
| `Training.LossLogAt` | Libraries/nn_models.py:167 | entry e of the loss log is epoch e's loss |
| `Training.Zeroed` | Libraries/nn_models.py:97-98 | `np.zeros(n)`: a fresh array of n zeros |
| `Training.RunEpoch` | Libraries/nn_models.py:121-168 | one epoch's inner loop: the weights after every paired batch; the slot holds the loss and accuracy sums over `len(batch_x)` when some pair was seen; every other slot of both arrays is unchanged |
| `Training.RecordEpoch` | Libraries/nn_models.py:119-168 | after epoch e, both arrays hold the logs of epochs 0..e, and the weights are those at the start of epoch e + 1 |
| `Training.TrainEpochs` | Libraries/nn_models.py:119-168 | after the epoch loop, both arrays hold the complete loss and accuracy logs after the untouched head, and the weights are those after every epoch |
| `Training.FourLayerNetTrain` | Libraries/nn_models.py:97-168 | ValueError from `np.zeros` exactly when `epochs` is negative; otherwise the loss and accuracy arrays are exactly the per-epoch logs, epoch e in slot e, and the weights are those after all epochs |
| `Training.Conv2DNetTrain` | Libraries/nn_models.py:343-415 | ValueError from `np.zeros(epochs + 1)` exactly when `epochs` is below -1; `epochs` = -1 leaves the weights alone and gives two empty arrays; otherwise the arrays are a never-written 0 followed by the per-epoch logs, epoch e in slot e + 1, and the weights are those after all epochs |

## Left out

- The forward pass, softmax, CrossEntropyLoss, backpropagation and the Adam step are
  not modelled. They are the parameters `scores`, `loss` and `step`. A value of the
  weight type `W` stands for the weights together with the optimiser's state (Adam's
  moment estimates), so that `step` can be a function. Three assumptions are made
  about these parameters: `Training.Fits` (below) for training,
  `Prediction.Decodable` (below) for prediction, and a non-negative loss in
  `Training.EpochLossNonNegative` and `Training.LossSumNonNegative`.
- Floating point is not modelled. Probabilities, losses and scores are exact reals,
  and `10e-8` is the exact rational 1e-7. The `uint8` palette values (0 and 255) fit
  that type, so nothing wraps.
- Integer width is not modelled. The int64 counts of the confusion matrix are
  unbounded integers.
- Label arrays of rank other than 1 or 2, and non-integer labels, are not modelled.
- Figures, titles, `plt.show`, `savefig`, `dpi` and `print` are left out. So are
  tqdm, `.cuda()`, `.to(device)`, `torch.no_grad`, `train()` and `eval()`. The model
  returns the images and arrays that would be plotted or saved.
- `Scatter`, `ColourMap`, `Render` and `GetClassificationMap` require distinct
  coordinates that lie inside the raster. numpy would let the last duplicate win,
  wrap negative coordinates and raise for out-of-range ones; those cases are not
  modelled.
- `GetClassificationMap` takes `dims` as a pair. A `dims` with fewer than two entries
  (IndexError) or more than two (the rest ignored) is not modelled. `padding` is a
  natural number; a negative padding is not modelled.
- `GetClassificationMap` requires the predicted labels to form a column as long as the
  coordinates. The source never checks that length, with or without `plot_gt`: the
  scatter assignment at Libraries/metrics.py:197 would broadcast a column of length 1 to every
  coordinate. Broadcasting is not modelled.
- `Prediction.Decodable` requires every score row to have a unique maximum. A row with
  a tied maximum decodes to several labels, as `Decoding.TiesGiveSeveralLabels` shows.
  `probs_2_label` then builds its array from rows of different lengths, which numpy
  rejects or turns into an object array. When every row of a batch has the same
  number of tied maxima, numpy instead builds a regular array with one row per tie.
  None of these outcomes is modelled.
- `FourLayerNetPredict` requires every list element to be a tensor once the first one
  is. The source checks only the first, and a later non-tensor fails inside torch.
- `Training.Fits` requires every paired batch to give as many score rows as targets,
  at least one row, and every target to be a class index 0..C-1 of its row. An empty
  batch divides by zero in the source, and a size mismatch raises inside
  CrossEntropyLoss.
- `FourLayerNetTrain` and `Conv2DNetTrain` do not model the exception CrossEntropyLoss
  raises for a target outside 0..C-1, that is a stored label of 0 or above the number
  of classes. `Training.Fits` excludes such labels instead. The default
  `ignore_index` of -100 (a stored label of -99, skipped by the loss) is excluded too.
- Training on the GPU versus the CPU, and the first-layer shapes of both networks, are
  not modelled.
- The cube manager, the cross-validator and the cloud-service scripts of the
  repository are not part of this model.
