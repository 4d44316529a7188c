/** The result assembly of one frame's background job: plate filtering,
    the OCR pass per plate, left-to-right ordering of characters, the move of
    character boxes into frame space, the recognised string, and the single
    list handed to the tracker. Geometry and both classifiers are foreign
    code and enter as the functions of `Collaborators`. */
module Assembly {
  import opened Detections
  import opened OcrSize
  import opened SeqFilter
  import opened StableSort

  /** The plate threshold written at the filter itself. */
  const PlateConfidence: real := 0.65
  /** The character threshold written at the OCR filter. */
  const CharConfidence: real := 0.6
  /** `MINIMUM_CONFIDENCE_TF_OD_API`: assigned to a local and never read. */
  const MinimumConfidence: real := 0.3

  /** The foreign calls one frame's job makes, fixed for that frame:
      `cropToFrameTransform.mapRect`, the OCR detector applied to the
      bitmap cut, resized and filtered for a region, and the inverse of a
      region's transformation matrix applied with `mapRect`; with them the
      sensor orientation and the size of the camera frame the plates are cut
      from (`previewWidth` by `previewHeight`). */
  datatype Collaborators = Collaborators(
    cropToFrame: Rect -> Rect,
    recognizeOcr: RegionCrop -> seq<Recognition>,
    invertRegion: (TransformSpec, Rect) -> Rect,
    sensorOrientation: int,
    frameWidth: int,
    frameHeight: int)

  /** The ways a job can end early: the plate cut is refused by
      `Bitmap.createBitmap`, or the OCR sort dereferences a null location. */
  datatype Failure = BitmapCropRejected | NullLocationInOcrSort

  datatype Result<T> = Ok(value: T) | Err(failure: Failure)

  /** One accepted plate with its kept characters and its recognised string. */
  datatype PlateGroup = PlateGroup(plate: Recognition, chars: seq<Recognition>, text: string)

  /** The argument of `tracker.trackResults`. */
  datatype TrackerCall = TrackerCall(detections: seq<Recognition>, timestamp: int)

  /** How one frame's background job ends: it reaches the tracker hand-off, or
      it throws before it (and before the gate is released). */
  datatype JobOutcome = Finished(call: TrackerCall, lastPlateText: string) | Crashed

  /** A plate-detector result is kept when it has a location and enough confidence. */
  predicate KeepPlate(r: Recognition) {
    r.location.Some? && r.confidence >= PlateConfidence
  }

  /** The plate test with the unused `minimumConfidence` floor added to it. */
  predicate KeepPlateAboveMinimum(r: Recognition) {
    KeepPlate(r) && r.confidence >= MinimumConfidence
  }

  /** An OCR result is placed on the tracker list when it has a location and enough confidence. */
  predicate KeepChar(r: Recognition) {
    r.location.Some? && r.confidence >= CharConfidence
  }

  predicate AllLocated(s: seq<Recognition>) {
    forall i :: 0 <= i < |s| ==> s[i].location.Some?
  }

  /** The sort key `it.location.left`; only read when every location is present. */
  function LeftKey(r: Recognition): real {
    if r.location.Some? then r.location.value.left else 0.0
  }

  /** `ocrResults.sortBy { it.location.left }`. A list of fewer than two
      results is not sorted and its selector never runs; a longer one has the
      selector run on every element, so one null location throws. */
  function SortOcrResults(ocr: seq<Recognition>): (r: Result<seq<Recognition>>)
    ensures r.Err? <==> |ocr| >= 2 && !AllLocated(ocr)
    ensures r.Ok? ==> SortedBy(r.value, LeftKey) && multiset(r.value) == multiset(ocr)
  {
    if |ocr| < 2 then
      Ok(ocr)
    else if !AllLocated(ocr) then
      Err(NullLocationInOcrSort)
    else
      Ok(SortBy(ocr, LeftKey))
  }

  /** A kept plate with its box mapped from detector-crop space into frame space. */
  function MapPlate(env: Collaborators, r: Recognition): (p: Recognition)
    requires r.location.Some?
    ensures p.title == r.title && p.confidence == r.confidence
    ensures p.location == Some(env.cropToFrame(r.location.value))
  {
    r.(location := Some(env.cropToFrame(r.location.value)))
  }

  /** A kept character with its box mapped back from OCR-input space and moved
      by the plate's frame-space origin. */
  function PlaceChar(env: Collaborators, spec: TransformSpec, plate: Rect, c: Recognition): (p: Recognition)
    requires c.location.Some?
    ensures p.title == c.title && p.confidence == c.confidence && p.location.Some?
    ensures p.location.value == Offset(env.invertRegion(spec, c.location.value), plate.left, plate.top)
  {
    c.(location := Some(Offset(env.invertRegion(spec, c.location.value), plate.left, plate.top)))
  }

  /** The characters of one plate that reach the tracker, scanning the sorted
      OCR results in order. */
  function KeptChars(env: Collaborators, spec: TransformSpec, plate: Rect, sorted: seq<Recognition>): (r: seq<Recognition>)
    ensures forall c :: c in r ==> c.confidence >= CharConfidence && c.location.Some?
  {
    if |sorted| == 0 then []
    else
      var prefix := KeptChars(env, spec, plate, sorted[..|sorted| - 1]);
      var last := sorted[|sorted| - 1];
      if KeepChar(last) then prefix + [PlaceChar(env, spec, plate, last)] else prefix
  }

  /** The recognised string: every OCR title in order, kept or not. */
  function Titles(s: seq<Recognition>): string {
    if |s| == 0 then "" else Titles(s[..|s| - 1]) + s[|s| - 1].title
  }

  /** The crop cut out of the camera frame for a kept plate. */
  function PlateRegion(env: Collaborators, r: Recognition): RegionCrop
    requires KeepPlate(r)
  {
    RegionFor(MapPlate(env, r).location.value, env.sensorOrientation)
  }

  /** The plate's crop is refused by `Bitmap.createBitmap`. */
  predicate CropFails(env: Collaborators, r: Recognition)
    requires KeepPlate(r)
  {
    CropRejected(PlateRegion(env, r), env.frameWidth, env.frameHeight)
  }

  /** The OCR output for the plate's crop makes the sort throw. */
  predicate SortFails(env: Collaborators, r: Recognition)
    requires KeepPlate(r)
  {
    var ocr := env.recognizeOcr(PlateRegion(env, r));
    |ocr| >= 2 && !AllLocated(ocr)
  }

  /** The OCR pass for one kept plate: cut the crop, run the OCR detector on
      it, sort, keep the confident characters and spell every title. */
  function RecognizePlate(env: Collaborators, r: Recognition): (g: Result<PlateGroup>)
    requires KeepPlate(r)
    ensures g.Ok? ==> g.value.plate == MapPlate(env, r) && g.value.plate.confidence >= PlateConfidence
    ensures g.Ok? ==> forall c :: c in g.value.chars ==> c.confidence >= CharConfidence && c.location.Some?
    ensures g == Err(BitmapCropRejected) <==> CropFails(env, r)
    ensures g == Err(NullLocationInOcrSort) <==> !CropFails(env, r) && SortFails(env, r)
    ensures g.Err? <==> CropFails(env, r) || SortFails(env, r)
  {
    var plate := MapPlate(env, r);
    var loc := plate.location.value;
    var region := RegionFor(loc, env.sensorOrientation);
    if CropRejected(region, env.frameWidth, env.frameHeight) then Err(BitmapCropRejected)
    else
      match SortOcrResults(env.recognizeOcr(region))
      case Err(f) => Err(f)
      case Ok(sorted) => Ok(PlateGroup(plate, KeptChars(env, region.transform, loc, sorted), Titles(sorted)))
  }

  /** The OCR passes of the kept plates in order; the first failure ends the job. */
  function AssembleKept(env: Collaborators, kept: seq<Recognition>): (r: Result<seq<PlateGroup>>)
    requires forall i :: 0 <= i < |kept| ==> KeepPlate(kept[i])
    ensures r.Ok? ==> |r.value| == |kept|
    ensures r.Ok? ==> forall i :: 0 <= i < |kept| ==> RecognizePlate(env, kept[i]) == Ok(r.value[i])
    ensures r.Err? <==> exists i :: 0 <= i < |kept| && RecognizePlate(env, kept[i]).Err?
  {
    if |kept| == 0 then Ok([])
    else
      var last := kept[|kept| - 1];
      match AssembleKept(env, kept[..|kept| - 1])
      case Err(f) => Err(f)
      case Ok(groups) =>
        match RecognizePlate(env, last)
        case Err(f) => Err(f)
        case Ok(g) => Ok(groups + [g])
  }

  /** The kept plate-detector results, in the detector's order. */
  function KeptPlates(results: seq<Recognition>): (kept: seq<Recognition>)
    ensures forall i :: 0 <= i < |kept| ==> KeepPlate(kept[i])
    ensures forall r :: r in kept <==> r in results && KeepPlate(r)
  {
    Filter(results, KeepPlate)
  }

  /** The tracker list: each plate followed by its kept characters. */
  function Flatten(groups: seq<PlateGroup>): seq<Recognition> {
    if |groups| == 0 then []
    else
      var g := groups[|groups| - 1];
      Flatten(groups[..|groups| - 1]) + [g.plate] + g.chars
  }

  /** `lastLP`: the string of the last kept plate, or empty. */
  function LastText(groups: seq<PlateGroup>): string {
    if |groups| == 0 then "" else groups[|groups| - 1].text
  }

  /** The whole background job for one frame, from the plate detector's output. */
  function FrameJob(env: Collaborators, results: seq<Recognition>, timestamp: int): JobOutcome {
    match AssembleKept(env, KeptPlates(results))
    case Err(_) => Crashed
    case Ok(groups) => Finished(TrackerCall(Flatten(groups), timestamp), LastText(groups))
  }
}
