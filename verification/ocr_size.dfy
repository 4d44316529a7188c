/** The region-of-interest crop prepared for the OCR detector: the source
    size read from the plate's frame-space box and the OCR input size with
    its height clamped. */
module OcrSize {
  import opened Detections
  import opened KotlinNumbers

  /** `TF_OD_API_OCR_INPUT_SIZE`: the square input of the OCR detector. */
  const OcrInputSize: int := 256
  /** `TF_OD_API_INPUT_SIZE`: the square input of the plate detector. */
  const DetectorInputSize: int := 192

  /** The arguments of `ImageUtils.getTransformationMatrix`; the matrix it
      builds is foreign code and stays abstract. */
  datatype TransformSpec = TransformSpec(
    srcWidth: int, srcHeight: int,
    dstWidth: int, dstHeight: int,
    rotation: int, maintainAspect: bool)

  /** The arguments of `Bitmap.createBitmap(source, x, y, width, height, matrix, false)`
      that cut the plate out of the camera frame. */
  datatype RegionCrop = RegionCrop(x: int, y: int, width: int, height: int, transform: TransformSpec)

  /** `Bitmap.createBitmap(source, x, y, width, height, matrix, false)` throws
      `IllegalArgumentException` when the cut is empty or leaves the source
      bitmap (a negative corner, a width or height of zero or less, or a far
      edge beyond the frame), and when the matrix scales it to a bitmap with no
      rows, as a target height of zero or less does. */
  predicate CropRejected(c: RegionCrop, frameWidth: int, frameHeight: int) {
    || c.x < 0 || c.y < 0
    || c.width <= 0 || c.height <= 0
    || c.x + c.width > frameWidth || c.y + c.height > frameHeight
    || c.transform.dstHeight <= 0
  }

  /** The OCR target height for a plate box of the given width and height:
      `min(256, (256 * height / width).toInt())`. It never exceeds 256; for a
      proper box it is the floor of the proportional height; a box at least as
      tall as it is wide is clamped to 256. A zero width follows the float
      division: +Infinity clamps to 256, NaN gives 0, -Infinity gives Int.MIN. */
  function OcrTargetHeight(width: real, height: real): (r: int)
    ensures r <= OcrInputSize
    ensures width > 0.0 && height >= 0.0 ==> 0 <= r
    ensures width > 0.0 ==> (r == OcrInputSize <==> height >= width)
    ensures width > 0.0 && 0.0 <= height < width ==>
              r as real * width <= OcrInputSize as real * height < (r + 1) as real * width
    ensures width == 0.0 && height > 0.0 ==> r == OcrInputSize
    ensures width == 0.0 && height == 0.0 ==> r == 0
    ensures width == 0.0 && height < 0.0 ==> r == IntMin
  {
    var q := Divide(OcrInputSize as real * height, width);
    var t := ToInt(q);
    if width > 0.0 && height >= 0.0 then
      ProportionalHeightBounds(width, height, q, t);
      if OcrInputSize < t then OcrInputSize else t
    else
      if OcrInputSize < t then OcrInputSize else t
  }

  /** For a positive width the truncated quotient is the floor of 256*h/w, and
      it reaches 256 exactly when the box is at least as tall as wide. */
  lemma ProportionalHeightBounds(width: real, height: real, q: FloatValue, t: int)
    requires width > 0.0 && height >= 0.0
    requires q == Divide(OcrInputSize as real * height, width)
    requires t == ToInt(q)
    ensures 0 <= t
    ensures height >= width ==> t >= OcrInputSize
    ensures height < width ==> t < OcrInputSize
    ensures height < width ==> t as real * width <= OcrInputSize as real * height < (t + 1) as real * width
  {
    var x := q.v;
    QuotientBounds(x, width, height);
    if height >= width {
      if x < IntMax as real + 1.0 {
        assert t == TruncTowardZero(x);
      }
    } else {
      assert t == TruncTowardZero(x);
      var hi := (t + 1) as real;
      assert hi == t as real + 1.0;
      assert OcrInputSize as real == 256.0;
      FloorBounds(x, width, OcrInputSize as real * height, t as real, hi);
    }
  }

  /** A box so flat that 256 times its height is less than its width gets a
      target height of zero. */
  lemma FlatBoxHasNoRows(width: real, height: real)
    requires 0.0 <= height && OcrInputSize as real * height < width
    ensures OcrTargetHeight(width, height) == 0
  {
    var t := OcrTargetHeight(width, height);
    var product := OcrInputSize as real * height;
    assert 0 <= t && t as real * width <= product < width;
    NoWholeRow(t, width, product);
  }

  /** A whole number of widths that stays below one width is zero widths. */
  lemma NoWholeRow(t: int, width: real, product: real)
    requires 0 <= t && width > 0.0
    requires t as real * width <= product < width
    ensures t == 0
  {
    if t > 0 {
      ScaleWeak(1.0, t as real, width);
    }
  }

  /** The quotient q = 256*h/w of a non-negative height by a positive width is
      non-negative, and reaches 256 exactly when h >= w. */
  lemma QuotientBounds(x: real, width: real, height: real)
    requires width > 0.0 && height >= 0.0
    requires x * width == 256.0 * height
    ensures x >= 0.0
    ensures x >= 256.0 <==> height >= width
  {
    if x < 0.0 {
      ScaleStrict(x, 0.0, width);
    }
    if x < 256.0 {
      ScaleStrict(x, 256.0, width);
    } else {
      ScaleWeak(256.0, x, width);
    }
  }

  /** Bounds on a quotient carry over to the product it came from. */
  lemma FloorBounds(x: real, width: real, product: real, lo: real, hi: real)
    requires width > 0.0
    requires x * width == product
    requires lo <= x < hi
    ensures lo * width <= product < hi * width
  {
    ScaleWeak(lo, x, width);
    ScaleStrict(x, hi, width);
  }

  lemma ScaleStrict(a: real, b: real, c: real)
    requires a < b && c > 0.0
    ensures a * c < b * c
  {}

  lemma ScaleWeak(a: real, b: real, c: real)
    requires a <= b && c > 0.0
    ensures a * c <= b * c
  {}

  /** The crop of one plate: its frame-space box truncated to integers, resized
      to the OCR input width and the clamped height, keeping the sensor
      rotation and NOT keeping the aspect ratio. */
  function RegionFor(plate: Rect, rotation: int): (c: RegionCrop)
    ensures c.width == c.transform.srcWidth && c.height == c.transform.srcHeight
    ensures c.transform.dstWidth == OcrInputSize && c.transform.dstHeight <= OcrInputSize
    ensures c.transform.dstHeight == OcrTargetHeight(plate.Width(), plate.Height())
    ensures c.transform.rotation == rotation && !c.transform.maintainAspect
    ensures plate.Width() > 0.0 && plate.Height() >= plate.Width() ==> c.transform.dstHeight == OcrInputSize
  {
    var w := ToInt(Finite(plate.Width()));
    var h := ToInt(Finite(plate.Height()));
    var spec := TransformSpec(w, h, OcrInputSize, OcrTargetHeight(plate.Width(), plate.Height()), rotation, false);
    RegionCrop(ToInt(Finite(plate.left)), ToInt(Finite(plate.top)), w, h, spec)
  }
}
