/** The rasterising part of get_classification_map and its helpers
    _paletteGen and _convert2color (Libraries/metrics.py): scatter labels
    into a zero raster, colour it through a palette, and crop the padding.
    Figures, plotting and saving are not part of this model. */
module ClassificationMap {
  import opened Results
  import opened LabelArrays

  /** One RGB pixel, channel values 0..255. */
  datatype Rgb = Rgb(r: int, g: int, b: int)

  /** An H x W x 3 image, row by row, as plain values. */
  type Image = seq<seq<seq<int>>>

  /** The colour names of _paletteGen's docstring. */
  datatype ColourName = Black | Green | Red | Blue | Cyan | Magenta | White

  /** Which colour each class value 0..6 is drawn in, by name. */
  function ClassColourName(k: int): ColourName
    requires 0 <= k <= 6
  {
    [Black, Green, Red, Blue, Cyan, Magenta, White][k]
  }

  /** The RGB value of a colour name at full intensity. */
  function FullIntensity(name: ColourName): Rgb {
    match name
    case Black => Rgb(0, 0, 0)
    case Green => Rgb(0, 255, 0)
    case Red => Rgb(255, 0, 0)
    case Blue => Rgb(0, 0, 255)
    case Cyan => Rgb(0, 255, 255)
    case Magenta => Rgb(255, 0, 255)
    case White => Rgb(255, 255, 255)
  }

  /** The colour a raster value is drawn in: its class colour for 0..6, and
      black (the zeroed image left untouched) for anything else. */
  function PixelColour(v: int): (c: Rgb)
    ensures c.r in {0, 255} && c.g in {0, 255} && c.b in {0, 255}
    ensures c == Rgb(0, 0, 0) <==> !(1 <= v <= 6)
  {
    if 0 <= v <= 6 then FullIntensity(ClassColourName(v)) else Rgb(0, 0, 0)
  }

  function Channel(c: Rgb, i: nat): int
    requires i < 3
  {
    if i == 0 then c.r else if i == 1 then c.g else c.b
  }

  /** The three channels of a pixel. */
  function Channels(c: Rgb): seq<int> {
    [c.r, c.g, c.b]
  }

  /** No two coordinates are the same pixel. */
  predicate Distinct(coords: seq<(int, int)>) {
    forall a, b :: 0 <= a < b < |coords| ==> coords[a] != coords[b]
  }

  /** Every coordinate lies inside an h x w raster. */
  predicate InBounds(coords: seq<(int, int)>, h: nat, w: nat) {
    forall k :: 0 <= k < |coords| ==> 0 <= coords[k].0 < h && 0 <= coords[k].1 < w
  }

  /** The value the raster holds at (x, y) after scattering: the label given
      for that coordinate, or 0 when none is. */
  function RasterAt(labels: seq<int>, coords: seq<(int, int)>, x: int, y: int): (v: int)
    requires |labels| == |coords|
    ensures v == 0 || exists k :: 0 <= k < |coords| && coords[k] == (x, y) && labels[k] == v
  {
    if |coords| == 0 then 0
    else if coords[0] == (x, y) then labels[0]
    else RasterAt(labels[1..], coords[1..], x, y)
  }

  /** With distinct coordinates, the pixel at the k-th coordinate holds the
      k-th label. */
  lemma {:induction false} RasterAtListed(labels: seq<int>, coords: seq<(int, int)>, k: nat)
    requires |labels| == |coords| && Distinct(coords) && k < |coords|
    ensures RasterAt(labels, coords, coords[k].0, coords[k].1) == labels[k]
  {
    if k > 0 {
      assert coords[0] != coords[k];
      RasterAtListed(labels[1..], coords[1..], k - 1);
    }
  }

  /** A pixel no coordinate names stays 0. */
  lemma {:induction false} RasterAtUnlisted(labels: seq<int>, coords: seq<(int, int)>, x: int, y: int)
    requires |labels| == |coords| && (x, y) !in coords
    ensures RasterAt(labels, coords, x, y) == 0
  {
    if |coords| > 0 {
      assert (x, y) !in coords[1..];
      RasterAtUnlisted(labels[1..], coords[1..], x, y);
    }
  }

  /** Different classes are drawn in different colours, every channel is 0
      or 255, and only class 0 is black. */
  lemma PaletteColoursDistinct(a: int, b: int)
    requires 0 <= a <= 6 && 0 <= b <= 6
    ensures a != b ==> PixelColour(a) != PixelColour(b)
    ensures forall i :: 0 <= i < 3 ==> Channel(PixelColour(a), i) in {0, 255}
    ensures PixelColour(a) == Rgb(0, 0, 0) <==> a == 0
  {
  }

  // ---- the palette dictionary ----

  /** A Python dict from class value to colour: its items in insertion order. */
  type Palette = seq<(int, Rgb)>

  /** A dict never holds a key twice. */
  predicate KeysDistinct(d: Palette) {
    forall a, b :: 0 <= a < b < |d| ==> d[a].0 != d[b].0
  }

  /** `d.get(k)`. */
  function Lookup(d: Palette, k: int): Option<Rgb> {
    if |d| == 0 then None
    else if d[|d| - 1].0 == k then Some(d[|d| - 1].1)
    else Lookup(d[..|d| - 1], k)
  }

  /** Where key k sits among the items, if anywhere. */
  function KeyIndex(d: Palette, k: int): (r: Option<nat>)
    ensures r.Some? ==> r.value < |d| && d[r.value].0 == k
    ensures r.None? ==> forall i :: 0 <= i < |d| ==> d[i].0 != k
  {
    if |d| == 0 then None
    else if d[|d| - 1].0 == k then Some(|d| - 1)
    else KeyIndex(d[..|d| - 1], k)
  }

  /** In a dict, the value found for a key is the one stored beside it. */
  lemma {:induction false} LookupFinds(d: Palette, i: nat)
    requires KeysDistinct(d) && i < |d|
    ensures Lookup(d, d[i].0) == Some(d[i].1)
  {
    var last := |d| - 1;
    if i < last {
      assert d[i].0 != d[last].0;
      LookupFinds(d[..last], i);
    }
  }

  /** A key stored nowhere is not found. */
  lemma {:induction false} LookupMisses(d: Palette, k: int)
    requires forall i :: 0 <= i < |d| ==> d[i].0 != k
    ensures Lookup(d, k) == None
  {
    if |d| > 0 {
      LookupMisses(d[..|d| - 1], k);
    }
  }

  /** `d[k] = v`: overwrite the value of a key already present, in its
      place, or append a new item. */
  function Assign(d: Palette, k: int, v: Rgb): (d': Palette)
    requires KeysDistinct(d)
    ensures KeysDistinct(d')
    ensures Lookup(d', k) == Some(v)
    ensures forall j :: j != k ==> Lookup(d', j) == Lookup(d, j)
  {
    match KeyIndex(d, k)
    case Some(i) =>
      var d' := d[i := (k, v)];
      LookupFinds(d', i);
      forall j | j != k ensures Lookup(d', j) == Lookup(d, j) {
        if q :| 0 <= q < |d| && d[q].0 == j {
          LookupFinds(d, q);
          LookupFinds(d', q);
        } else {
          LookupMisses(d, j);
          LookupMisses(d', j);
        }
      }
      d'
    case None =>
      var d' := d + [(k, v)];
      assert d'[..|d|] == d;
      d'
  }

  /** _paletteGen: a dict from class value to colour, filled entry by
      entry, each colour a 0/1 vector scaled by 255. */
  method PaletteGen() returns (palette: Palette)
    ensures KeysDistinct(palette)
    ensures forall k :: Lookup(palette, k) == if 0 <= k <= 6 then Some(FullIntensity(ClassColourName(k))) else None
  {
    palette := [(0, Rgb(0, 0, 0))];
    palette := Assign(palette, 0, Rgb(0 * 255, 0 * 255, 0 * 255));
    palette := Assign(palette, 1, Rgb(0 * 255, 1 * 255, 0 * 255));
    palette := Assign(palette, 2, Rgb(1 * 255, 0 * 255, 0 * 255));
    palette := Assign(palette, 3, Rgb(0 * 255, 0 * 255, 1 * 255));
    palette := Assign(palette, 4, Rgb(0 * 255, 1 * 255, 1 * 255));
    palette := Assign(palette, 5, Rgb(1 * 255, 0 * 255, 1 * 255));
    palette := Assign(palette, 6, Rgb(1 * 255, 1 * 255, 1 * 255));
    forall k | k < 0 || k > 6 ensures Lookup(palette, k) == None {
      assert Lookup([(0, Rgb(0, 0, 0))], k) == None;
    }
  }

  /** The scatter `raw = zeros(dims); raw[x, y] = labels`: all coordinates
      are written at once, so they must be distinct. */
  method Scatter(labels: seq<int>, coords: seq<(int, int)>, h: nat, w: nat) returns (raw: array2<int>)
    requires |labels| == |coords| && InBounds(coords, h, w) && Distinct(coords)
    ensures raw.Length0 == h && raw.Length1 == w
    ensures forall x, y :: 0 <= x < h && 0 <= y < w ==> raw[x, y] == RasterAt(labels, coords, x, y)
  {
    raw := new int[h, w]((i, j) => 0);
    forall k | 0 <= k < |coords| {
      raw[coords[k].0, coords[k].1] := labels[k];
    }
    forall x, y | 0 <= x < h && 0 <= y < w ensures raw[x, y] == RasterAt(labels, coords, x, y) {
      if (x, y) in coords {
        var k :| 0 <= k < |coords| && coords[k] == (x, y);
        RasterAtListed(labels, coords, k);
      } else {
        RasterAtUnlisted(labels, coords, x, y);
      }
    }
  }

  /** `gt_color[gt_raw == key] = colour`: every pixel whose raster value is
      key gets the colour; the others keep theirs. */
  method PaintMask(raw: array2<int>, img: array3<int>, key: int, colour: Rgb)
    requires img.Length0 == raw.Length0 && img.Length1 == raw.Length1 && img.Length2 == 3
    modifies img
    ensures forall x, y, c :: 0 <= x < raw.Length0 && 0 <= y < raw.Length1 && 0 <= c < 3 ==>
      img[x, y, c] == if raw[x, y] == key then Channel(colour, c) else old(img[x, y, c])
  {
    forall x, y, c | 0 <= x < raw.Length0 && 0 <= y < raw.Length1 && 0 <= c < 3 && raw[x, y] == key {
      img[x, y, c] := Channel(colour, c);
    }
  }

  /** _convert2color: a zeroed H x W x 3 image; then, for each palette item
      in turn, the pixels whose raster value is the item's key get its
      colour. A value with no palette entry stays black. */
  method Convert2Color(raw: array2<int>, palette: Palette) returns (img: array3<int>)
    requires KeysDistinct(palette)
    ensures img.Length0 == raw.Length0 && img.Length1 == raw.Length1 && img.Length2 == 3
    ensures forall x, y, c :: 0 <= x < raw.Length0 && 0 <= y < raw.Length1 && 0 <= c < 3 ==>
      img[x, y, c] == match Lookup(palette, raw[x, y]) case Some(colour) => Channel(colour, c) case None => 0
  {
    img := new int[raw.Length0, raw.Length1, 3]((x, y, c) => 0);
    for i := 0 to |palette|
      invariant img.Length0 == raw.Length0 && img.Length1 == raw.Length1 && img.Length2 == 3
      invariant forall x, y, c :: 0 <= x < raw.Length0 && 0 <= y < raw.Length1 && 0 <= c < 3 ==>
        img[x, y, c] == match Lookup(palette[..i], raw[x, y]) case Some(colour) => Channel(colour, c) case None => 0
    {
      var (key, colour) := palette[i];
      PaintMask(raw, img, key, colour);
      assert palette[..i + 1][..i] == palette[..i];
    }
    assert palette[..|palette|] == palette;
  }

  /** Python's normalisation of one bound of a step-1 slice over an axis of
      length len: a negative bound counts from the end, then it is clamped
      to 0..len. */
  function SliceBound(i: int, len: nat): (b: nat)
    ensures b <= len
  {
    if i < 0 then (if i + len < 0 then 0 else i + len)
    else if i > len then len
    else i
  }

  /** How many rows or columns of an axis of length len survive removing
      2 * padding from each end. */
  function CroppedLength(len: nat, padding: nat): nat {
    if len >= 4 * padding then len - 4 * padding else 0
  }

  /** The slice `img[2p : H - 2p, 2p : W - 2p]`, taken with Python's slice
      rules: 2 * padding rows and columns go from every edge, top and left
      as well as bottom and right, and a padding too large for the image
      leaves it empty. */
  function Crop(img: array3<int>, padding: nat): (out: Image)
    reads img
    requires img.Length2 == 3
    ensures |out| == CroppedLength(img.Length0, padding)
    ensures forall x :: 0 <= x < |out| ==> |out[x]| == CroppedLength(img.Length1, padding)
    ensures forall x, y :: 0 <= x < |out| && 0 <= y < |out[x]| ==> |out[x][y]| == 3
    ensures forall x, y, c ::
      0 <= x < CroppedLength(img.Length0, padding) && 0 <= y < CroppedLength(img.Length1, padding) && 0 <= c < 3 ==>
      out[x][y][c] == img[x + 2 * padding, y + 2 * padding, c]
  {
    var top, bottom := SliceBound(2 * padding, img.Length0), SliceBound(img.Length0 - 2 * padding, img.Length0);
    var left, right := SliceBound(2 * padding, img.Length1), SliceBound(img.Length1 - 2 * padding, img.Length1);
    var rows := if bottom > top then bottom - top else 0;
    var cols := if right > left then right - left else 0;
    seq(rows, x requires 0 <= x < rows reads img =>
      seq(cols, y requires 0 <= y < cols reads img =>
        seq(3, c requires 0 <= c < 3 reads img => img[top + x, left + y, c])))
  }

  /** The two images get_classification_map renders: the prediction and,
      when asked for, the ground truth. */
  datatype Maps = Maps(pred: Image, gt: Option<Image>)

  /** img is the cropped colour map of the labels scattered at coords on an
      h x w raster. */
  ghost predicate RendersAs(img: Image, labels: seq<int>, coords: seq<(int, int)>, h: nat, w: nat, padding: nat)
    requires |labels| == |coords|
  {
    |img| == CroppedLength(h, padding) &&
    (forall x :: 0 <= x < |img| ==> |img[x]| == CroppedLength(w, padding)) &&
    forall x, y :: 0 <= x < |img| && 0 <= y < |img[x]| ==>
      img[x][y] == Channels(PixelColour(RasterAt(labels, coords, x + 2 * padding, y + 2 * padding)))
  }

  /** Looking a raster value up in _paletteGen's palette, black when it has
      no entry, gives the value's pixel colour. */
  lemma PaletteLookup(palette: Palette, v: int, c: nat)
    requires forall k :: Lookup(palette, k) == if 0 <= k <= 6 then Some(FullIntensity(ClassColourName(k))) else None
    requires c < 3
    ensures (match Lookup(palette, v) case Some(colour) => Channel(colour, c) case None => 0) == Channel(PixelColour(v), c)
  {
  }

  /** Scatter and colour through _paletteGen's palette: every pixel of the
      H x W x 3 image has the colour of its raster value. */
  method ColourMap(labels: seq<int>, coords: seq<(int, int)>, h: nat, w: nat) returns (colour: array3<int>)
    requires |labels| == |coords| && InBounds(coords, h, w) && Distinct(coords)
    ensures colour.Length0 == h && colour.Length1 == w && colour.Length2 == 3
    ensures forall x, y, c :: 0 <= x < h && 0 <= y < w && 0 <= c < 3 ==>
      colour[x, y, c] == Channel(PixelColour(RasterAt(labels, coords, x, y)), c)
  {
    var raw := Scatter(labels, coords, h, w);
    var palette := PaletteGen();
    colour := Convert2Color(raw, palette);
    forall x, y, c | 0 <= x < h && 0 <= y < w && 0 <= c < 3
      ensures colour[x, y, c] == Channel(PixelColour(RasterAt(labels, coords, x, y)), c)
    {
      PaletteLookup(palette, raw[x, y], c);
    }
  }

  /** The raster-to-image pipeline for one set of labels: scatter, colour
      through _paletteGen's palette, crop. */
  method Render(labels: seq<int>, coords: seq<(int, int)>, h: nat, w: nat, padding: nat) returns (img: Image)
    requires |labels| == |coords| && InBounds(coords, h, w) && Distinct(coords)
    ensures RendersAs(img, labels, coords, h, w, padding)
  {
    var colour := ColourMap(labels, coords, h, w);
    img := Crop(colour, padding);
    forall x, y | 0 <= x < |img| && 0 <= y < |img[x]|
      ensures img[x][y] == Channels(PixelColour(RasterAt(labels, coords, x + 2 * padding, y + 2 * padding)))
    {
      var v := RasterAt(labels, coords, x + 2 * padding, y + 2 * padding);
      forall c | 0 <= c < 3 ensures img[x][y][c] == Channel(PixelColour(v), c) {
        assert img[x][y][c] == colour[x + 2 * padding, y + 2 * padding, c];
      }
      assert |img[x][y]| == 3;
    }
  }

  /** The two label checks of get_classification_map passed: the
      prediction is an array and, when plotGt holds, the ground truth is an
      array of the same (N, 1) shape. */
  predicate LabelsChecked(predLabels: LabelArray, trueLabels: LabelArray, plotGt: bool)
    requires WellShaped(predLabels) && WellShaped(trueLabels)
  {
    !predLabels.NonArray? && (plotGt ==> !trueLabels.NonArray? && ShapeCheck(trueLabels, predLabels).None?)
  }

  /** get_classification_map without the figures: check the inputs, then
      render the prediction and, when plotGt holds, the ground truth.
      `coordenates` and `dims` default to None, and indexing None raises
      TypeError; a negative dimension makes np.zeros raise ValueError. */
  method GetClassificationMap(predLabels: LabelArray, trueLabels: LabelArray,
                              coordinates: Option<seq<(int, int)>>, dims: Option<(int, int)>,
                              padding: nat, plotGt: bool)
    returns (r: Result<Maps, InputError>)
    requires WellShaped(predLabels) && WellShaped(trueLabels)
    requires coordinates.Some? && dims.Some? && dims.value.0 >= 0 && dims.value.1 >= 0 ==>
      InBounds(coordinates.value, dims.value.0, dims.value.1) && Distinct(coordinates.value)
    requires !plotGt && !predLabels.NonArray? ==> IsColumn(predLabels)
    requires coordinates.Some? && IsColumn(predLabels) ==> |predLabels.rows| == |coordinates.value|
    ensures predLabels.NonArray? ==> r == Failure(NotAnArray(PredLabels))
    ensures plotGt && !predLabels.NonArray? && trueLabels.NonArray? ==> r == Failure(NotAnArray(TrueLabels))
    ensures plotGt && !predLabels.NonArray? && !trueLabels.NonArray? && ShapeCheck(trueLabels, predLabels).Some? ==>
      r == Failure(ShapeCheck(trueLabels, predLabels).value)
    ensures LabelsChecked(predLabels, trueLabels, plotGt) && coordinates.None? ==> r == Failure(MissingCoordinates)
    ensures LabelsChecked(predLabels, trueLabels, plotGt) && coordinates.Some? && dims.None? ==>
      r == Failure(MissingDims)
    ensures LabelsChecked(predLabels, trueLabels, plotGt) && coordinates.Some? && dims.Some? &&
            (dims.value.0 < 0 || dims.value.1 < 0) ==>
      r == Failure(NegativeDimension)
    ensures r.Success? <==>
      LabelsChecked(predLabels, trueLabels, plotGt) && coordinates.Some? && dims.Some? &&
      dims.value.0 >= 0 && dims.value.1 >= 0
    ensures r.Success? ==>
      coordinates.Some? && dims.Some? && dims.value.0 >= 0 && dims.value.1 >= 0 &&
      IsColumn(predLabels) &&
      RendersAs(r.value.pred, Labels(predLabels), coordinates.value, dims.value.0, dims.value.1, padding)
    ensures r.Success? ==> (r.value.gt.Some? <==> plotGt)
    ensures r.Success? && plotGt ==>
      coordinates.Some? && dims.Some? && dims.value.0 >= 0 && dims.value.1 >= 0 &&
      IsColumn(trueLabels) && |trueLabels.rows| == |coordinates.value| &&
      RendersAs(r.value.gt.value, Labels(trueLabels), coordinates.value, dims.value.0, dims.value.1, padding)
  {
    if predLabels.NonArray? {
      return Failure(NotAnArray(PredLabels));
    }
    if plotGt {
      if trueLabels.NonArray? {
        return Failure(NotAnArray(TrueLabels));
      }
      var shapeError := ShapeCheck(trueLabels, predLabels);
      if shapeError.Some? {
        return Failure(shapeError.value);
      }
    }
    if coordinates.None? {
      return Failure(MissingCoordinates);
    }
    if dims.None? {
      return Failure(MissingDims);
    }
    var coords, h, w := coordinates.value, dims.value.0, dims.value.1;
    if h < 0 || w < 0 {
      return Failure(NegativeDimension);
    }
    var predImage := Render(Labels(predLabels), coords, h, w, padding);
    var gtImage: Option<Image> := None;
    if plotGt {
      var img := Render(Labels(trueLabels), coords, h, w, padding);
      gtImage := Some(img);
    }
    return Success(Maps(predImage, gtImage));
  }
}
