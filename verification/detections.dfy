/** Value types shared by the detection pipeline: the optional value used for
    Kotlin's nullable references, the floating-point rectangle
    (`android.graphics.RectF`) and the classifier's `Recognition` record. */
module Detections {

  /** A nullable reference: `None` stands for Kotlin's `null`. */
  datatype Option<T> = None | Some(value: T)

  /** An axis-aligned rectangle; the source's `Float` coordinates are modelled
      as exact reals. */
  datatype Rect = Rect(left: real, top: real, right: real, bottom: real) {
    /** `RectF.width()` */
    function Width(): real { right - left }
    /** `RectF.height()` */
    function Height(): real { bottom - top }
  }

  /** Moves a rectangle by (dx, dy): the four compound assignments that move an
      OCR box from region space to frame space. A pure translation keeps the
      size of the box. */
  function Offset(b: Rect, dx: real, dy: real): (r: Rect)
    ensures r.Width() == b.Width() && r.Height() == b.Height()
    ensures r.left == b.left + dx && r.top == b.top + dy
  {
    Rect(b.left + dx, b.top + dy, b.right + dx, b.bottom + dy)
  }

  /** One detection returned by a classifier. Only the three accessors the
      pipeline reads are modelled; `location` is nullable. */
  datatype Recognition = Recognition(title: string, confidence: real, location: Option<Rect>)
}
