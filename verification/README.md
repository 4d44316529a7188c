# License-plate detection pipeline — a Dafny model

This project models the per-frame pipeline of `DetectorActivity.processImage` in an
Android app that reads license plates. The app runs two YOLOv4-tiny detectors one after
the other. The first finds plates in a 192×192 crop of the camera frame. The second, the
OCR detector, finds characters in a 256-wide crop of each plate.

The model covers:

- the **drop-frame gate**: the `computingDetection` flag and the `timestamp` counter,
  stepped by two events, "a frame arrives" and "the background job ends";
- the **result assembly** of one frame's background job:
  - the plate filter (location present, confidence ≥ 0.65);
  - the OCR target size (width 256, height clamped to at most 256, with Kotlin's
    `Float.toInt()` semantics);
  - the stable left-to-right sort of OCR results;
  - the character filter (location present, confidence ≥ 0.6) and the shift of each
    character box by the plate's origin;
  - the recognised string of each plate, and `lastLP`;
  - the single list handed to `tracker.trackResults` with the frame's timestamp.

Everything geometric and every classifier call is foreign code. Each one is a function
field of `Assembly.Collaborators`:

- `cropToFrame` stands for `cropToFrameTransform.mapRect`;
- `recognizeOcr` stands for the OpenCV filtering and the OCR detector, applied to the
  bitmap cut for a `RegionCrop` that `Bitmap.createBitmap` accepts;
- `invertRegion` stands for `matrix.invert` followed by `invert.mapRect`.

The sensor orientation and the camera frame's size (`previewWidth` by `previewHeight`, the
size of `rgbFrameBitmap`) are plain fields of `Collaborators`. Whether `Bitmap.createBitmap`
accepts a cut is decided from the cut's own arguments and the frame size, by
`OcrSize.CropRejected`.

The plate detector's output for the frame is an input sequence. Floats are modelled as
exact reals.

Modules, leaf first:

- `Detections` — `Option`, `Rect` (`RectF`) and `Recognition`.
- `KotlinNumbers` — IEEE division by zero and `Float.toInt()`.
- `OcrSize` — the OCR target height and the region crop.
- `SeqFilter` — order-preserving selection.
- `StableSort` — `sortBy` as a stable insertion sort.
- `Assembly` — the functional definition of one frame's job (`FrameJob`).
- `AssemblyLaws` — what reaches the tracker, in which order, and what the string spells.
- `DetectionJob` — the job written as the source's two nested loops, proved equal to
  `FrameJob`.
- `FrameGate` — the gate as a state machine over event sequences.
- `Scenarios` — one worked frame.

Points where the code behaves in ways a reader might not expect:

- **The recognised string keeps dropped characters.** Line 232 appends the title outside
  the confidence check at lines 219-231. So OCR output A (0.8), B (0.3), C (0.7) spells
  "ABC", while the tracker gets only A and C. `Scenarios.LowConfidenceCharStillSpelled`
  proves this.
- **A degenerate plate ends the job.** Nothing checks a plate's size before the bitmap
  cut at line 195. `Bitmap.createBitmap` throws `IllegalArgumentException` when the cut's
  width or height truncates to zero or less, or when the cut leaves the camera frame. It
  also throws when the matrix scales the cut to no rows. That happens when the OCR target
  height is 0, which is when 256·h < w. The model treats all of these as a crash:
  `Assembly.RecognizePlate`, `AssemblyLaws.ThinPlateCrashes` and
  `AssemblyLaws.ShallowPlateCrashes`.
- **Nothing recovers from a failure in the job.** A job that throws never reaches line
  240, so `computingDetection` stays true. `FrameGate.StalledGateDropsEveryFrame` shows
  that the gate then stays closed and every later frame is dropped.
- **A null OCR location can throw before the null check.** This assumes that
  `Recognition.getLocation()` returns the stored box, which may be null. Under that
  reading, the OCR sort at line 215 reads `it.location.left` for every element whenever
  there are two or more results. So one null location throws before the check at line
  219 is reached. With a single result no key is read, and the null check does its work.
  `Assembly.SortOcrResults` models both cases. The write-backs at lines 186 and 229
  suggest the getter may return a copy instead. In that case a null box reads as an
  all-zero box and line 215 never throws; see "## Left out".

## Model

| member | source | states |
|---|---|---|
| `Detections.Offset` | android/app/src/main/java/org/tensorflow/lite/examples/detection/DetectorActivity.kt:225-228 | moving a character box by the plate's origin shifts its left and top by exactly that origin and keeps its width and height |
| `KotlinNumbers.Divide` | android/app/src/main/java/org/tensorflow/lite/examples/detection/DetectorActivity.kt:193 | dividing by a non-zero width gives the true quotient; dividing by zero gives an infinity signed like the dividend, or NaN for 0/0 |
| `KotlinNumbers.ToInt` | android/app/src/main/java/org/tensorflow/lite/examples/detection/DetectorActivity.kt:193 | `Float.toInt()` always lands in the 32-bit range: NaN gives 0, infinities and out-of-range values saturate, other values truncate toward zero |
| `KotlinNumbers.TruncTowardZero` | android/app/src/main/java/org/tensorflow/lite/examples/detection/DetectorActivity.kt:192-197 | the float-to-int conversion rounds toward zero: the result is within one of the value and never farther from zero |
| `OcrSize.OcrTargetHeight` | android/app/src/main/java/org/tensorflow/lite/examples/detection/DetectorActivity.kt:190-194 | the OCR target height is never above 256; for a positive width it is 256 exactly when the plate is at least as tall as wide, otherwise it is the floor of 256·h/w (r·w ≤ 256·h < (r+1)·w); a zero width gives 256, 0 or Int.MIN by the sign of the height |
| `OcrSize.ProportionalHeightBounds` | android/app/src/main/java/org/tensorflow/lite/examples/detection/DetectorActivity.kt:193 | for a positive width and non-negative height, the truncated quotient is non-negative, reaches 256 exactly when h ≥ w, and is otherwise the floor of 256·h/w |
| `OcrSize.RegionFor` | android/app/src/main/java/org/tensorflow/lite/examples/detection/DetectorActivity.kt:191-198 | the plate crop has the same size as the transform's source, targets width 256 and a height of at most 256 (exactly 256 for a plate at least as tall as wide), and keeps the sensor rotation without keeping the aspect ratio |
| `SeqFilter.Filter` | android/app/src/main/java/org/tensorflow/lite/examples/detection/DetectorActivity.kt:181-187 | an element is selected if and only if it is in the input and passes the test |
| `SeqFilter.FilterAppend` | android/app/src/main/java/org/tensorflow/lite/examples/detection/DetectorActivity.kt:181-187 | selection distributes over concatenation, so selected results keep their input order |
| `StableSort.Insert` | android/app/src/main/java/org/tensorflow/lite/examples/detection/DetectorActivity.kt:215 | inserting into a sorted sequence keeps it sorted and adds exactly the inserted element |
| `StableSort.SortBy` | android/app/src/main/java/org/tensorflow/lite/examples/detection/DetectorActivity.kt:215 | the sorted OCR list has non-decreasing keys and is a permutation of the input |
| `StableSort.SortByIsStable` | android/app/src/main/java/org/tensorflow/lite/examples/detection/DetectorActivity.kt:215 | for every key value, the elements carrying it keep their input order, as the JDK's stable sort keeps them |
| `StableSort.SortBySortedIsIdentity` | android/app/src/main/java/org/tensorflow/lite/examples/detection/DetectorActivity.kt:215 | OCR output already in left-to-right order is left unchanged |
| `StableSort.FilterKeepsSorted` | android/app/src/main/java/org/tensorflow/lite/examples/detection/DetectorActivity.kt:215-219 | the characters kept from the sorted list are still in left-to-right order |
| `Assembly.SortOcrResults` | android/app/src/main/java/org/tensorflow/lite/examples/detection/DetectorActivity.kt:215 | the sort throws exactly when there are at least two OCR results and one has a null location; otherwise it returns a left-sorted permutation of the results |
| `Assembly.MapPlate` | android/app/src/main/java/org/tensorflow/lite/examples/detection/DetectorActivity.kt:185-186 | a kept plate keeps its title and confidence, and its location becomes the crop-to-frame image of its crop-space box |
| `Assembly.PlaceChar` | android/app/src/main/java/org/tensorflow/lite/examples/detection/DetectorActivity.kt:222-229 | a kept character keeps title and confidence; its box is the inverse region mapping of its OCR box, moved by the plate's left and top |
| `Assembly.KeptChars` | android/app/src/main/java/org/tensorflow/lite/examples/detection/DetectorActivity.kt:216-231 | every character placed on the tracker list has a location and confidence at least 0.6 |
| `Assembly.RecognizePlate` | android/app/src/main/java/org/tensorflow/lite/examples/detection/DetectorActivity.kt:185-235 | a plate's group holds the plate mapped to frame space (confidence at least 0.65) and only confident, located characters; it fails with a refused cut exactly when `Bitmap.createBitmap` refuses the plate's crop, and with a null-location sort exactly when the cut is accepted and the OCR output for it has two or more results with a null location |
| `Assembly.AssembleKept` | android/app/src/main/java/org/tensorflow/lite/examples/detection/DetectorActivity.kt:181-237 | on success there is one group per kept plate, in order, each being that plate's OCR pass; the job fails exactly when some kept plate's OCR pass fails |
| `Assembly.KeptPlates` | android/app/src/main/java/org/tensorflow/lite/examples/detection/DetectorActivity.kt:181-183 | a detector result is kept if and only if it has a location and confidence at least 0.65 |
| `AssemblyLaws.OcrSortIsStable` | android/app/src/main/java/org/tensorflow/lite/examples/detection/DetectorActivity.kt:215 | characters with equal `left` stay in the order the OCR detector returned them |
| `AssemblyLaws.TitlesAppend` | android/app/src/main/java/org/tensorflow/lite/examples/detection/DetectorActivity.kt:214-232 | the string built over two consecutive runs of results is the concatenation of their strings |
| `AssemblyLaws.TitlesIgnoreConfidence` | android/app/src/main/java/org/tensorflow/lite/examples/detection/DetectorActivity.kt:219-232 | the recognised string depends only on the titles: changing confidence or location, and so which characters are kept, never changes it |
| `AssemblyLaws.KeptCharsArePlacedFilter` | android/app/src/main/java/org/tensorflow/lite/examples/detection/DetectorActivity.kt:216-231 | the characters of a plate are exactly the confident, located sorted OCR results, in sorted order, each placed in frame space |
| `AssemblyLaws.PlateReadingOrder` | android/app/src/main/java/org/tensorflow/lite/examples/detection/DetectorActivity.kt:213-232 | for a plate whose OCR pass succeeds: the OCR output is sorted by `left` as a permutation; the kept characters stay in that order and are placed one to one; the string spells every sorted result, dropped ones included |
| `AssemblyLaws.FlattenAppend` | android/app/src/main/java/org/tensorflow/lite/examples/detection/DetectorActivity.kt:179-230 | the tracker list of consecutive plate groups is the concatenation of their lists |
| `AssemblyLaws.TrackerListLayout` | android/app/src/main/java/org/tensorflow/lite/examples/detection/DetectorActivity.kt:187-230 | on the tracker list each plate is immediately followed by its own characters, between the entries of the earlier and the later plates |
| `AssemblyLaws.FlattenMembers` | android/app/src/main/java/org/tensorflow/lite/examples/detection/DetectorActivity.kt:187-230 | every tracker entry is some group's plate or one of its characters |
| `AssemblyLaws.TrackerSeesOnlyConfidentDetections` | android/app/src/main/java/org/tensorflow/lite/examples/detection/DetectorActivity.kt:181-238 | every detection handed to the tracker has a location and confidence at least 0.6 |
| `AssemblyLaws.PlatesInDetectorOrder` | android/app/src/main/java/org/tensorflow/lite/examples/detection/DetectorActivity.kt:181-238 | the tracker gets the frame's own timestamp; the plates on its list are the kept detector results, in the detector's order, each mapped to frame space |
| `AssemblyLaws.MinimumConfidenceHasNoEffect` | android/app/src/main/java/org/tensorflow/lite/examples/detection/DetectorActivity.kt:175-183 | the `minimumConfidence` computed at lines 175-177 is never read: filtering the detector's results with the 0.3 floor added to the 0.65 test keeps exactly the same plates, in the same order |
| `AssemblyLaws.LastPlateText` | android/app/src/main/java/org/tensorflow/lite/examples/detection/DetectorActivity.kt:180-235 | `lastLP` is empty when no plate is kept, and otherwise the string of the last kept plate |
| `AssemblyLaws.CrashConditions` | android/app/src/main/java/org/tensorflow/lite/examples/detection/DetectorActivity.kt:181-219 | a frame's job throws exactly when, for some kept plate, `Bitmap.createBitmap` refuses the plate's crop, or the OCR output for it has two or more results and a null location among them |
| `AssemblyLaws.KeptPlateFailureCrashes` | android/app/src/main/java/org/tensorflow/lite/examples/detection/DetectorActivity.kt:181-236 | a kept plate whose crop is refused or whose OCR sort throws ends the whole job, wherever it stands among the detector's results |
| `AssemblyLaws.ThinPlateCrashes` | android/app/src/main/java/org/tensorflow/lite/examples/detection/DetectorActivity.kt:190-198 | a kept plate less than one pixel wide in frame space gives a cut of width zero or less, and the job throws |
| `AssemblyLaws.ShallowPlateCrashes` | android/app/src/main/java/org/tensorflow/lite/examples/detection/DetectorActivity.kt:190-198 | a kept plate with 256·h < w gets an OCR target height of 0, so its scaled cut has no rows, and the job throws |
| `OcrSize.FlatBoxHasNoRows` | android/app/src/main/java/org/tensorflow/lite/examples/detection/DetectorActivity.kt:193 | a box with 0 ≤ h and 256·h < w gets an OCR target height of exactly 0 |
| `DetectionJob.ReadPlate` | android/app/src/main/java/org/tensorflow/lite/examples/detection/DetectorActivity.kt:185-235 | the inner loop over the sorted OCR results builds the same characters and string as the functional OCR pass |
| `DetectionJob.AssembleFail` | android/app/src/main/java/org/tensorflow/lite/examples/detection/DetectorActivity.kt:181-236 | a kept plate whose OCR pass fails, at the cut or at the sort, ends the whole job, whatever plates follow it |
| `DetectionJob.RunDetectionJob` | android/app/src/main/java/org/tensorflow/lite/examples/detection/DetectorActivity.kt:179-238 | the source's loop, which appends as it goes and overwrites `lastLP`, hands the tracker the same list, timestamp and last string as the functional job, and throws in the same cases |
| `FrameGate.OnFrame` | android/app/src/main/java/org/tensorflow/lite/examples/detection/DetectorActivity.kt:145-164 | every arrival advances the timestamp by one and leaves the gate closed; a busy gate drops the frame with nothing else changed; an idle gate schedules exactly one job for the new timestamp |
| `FrameGate.OnJobEnded` | android/app/src/main/java/org/tensorflow/lite/examples/detection/DetectorActivity.kt:238-240 | a job that finishes hands its frame's list and timestamp to the tracker and opens the gate; one that throws leaves the gate as it was; with no job in flight nothing happens |
| `FrameGate.StepKeepsInv` | android/app/src/main/java/org/tensorflow/lite/examples/detection/DetectorActivity.kt:150-154 | one event keeps the gate invariant: at most one job in flight, a job in flight keeps the gate closed, and every start is matched by a release, a crash or the running job |
| `FrameGate.RunKeepsInv` | android/app/src/main/java/org/tensorflow/lite/examples/detection/DetectorActivity.kt:150-240 | over any sequence of arrivals and job ends, at most one job is ever in flight, and each start is matched by exactly one release or crash, or is still running |
| `FrameGate.RunCountsArrivals` | android/app/src/main/java/org/tensorflow/lite/examples/detection/DetectorActivity.kt:145-146 | after any run the timestamp has advanced by exactly the number of frame arrivals, dropped or not |
| `FrameGate.StepRaisesFloor` | android/app/src/main/java/org/tensorflow/lite/examples/detection/DetectorActivity.kt:145-240 | no event lowers the oldest timestamp a later hand-off can carry; a hand-off lies above the old bound |
| `FrameGate.HandOffsIncrease` | android/app/src/main/java/org/tensorflow/lite/examples/detection/DetectorActivity.kt:145-238 | the timestamps the tracker receives over any run strictly increase and are newer than the bound at the start |
| `FrameGate.StalledGateDropsEveryFrame` | android/app/src/main/java/org/tensorflow/lite/examples/detection/DetectorActivity.kt:150-153 | once a job has thrown with the gate closed, the gate never opens again and every later frame is dropped |
| `FrameGate.BusyGateDropsFrames` | android/app/src/main/java/org/tensorflow/lite/examples/detection/DetectorActivity.kt:150-153 | while the gate is closed, any number of arrivals are all dropped and only move the timestamp |
| `FrameGate.RunAppend` | android/app/src/main/java/org/tensorflow/lite/examples/detection/DetectorActivity.kt:144-153 | running two event sequences in turn is the same as running their concatenation |
| `FrameGate.HandOffCarriesFrameStamp` | android/app/src/main/java/org/tensorflow/lite/examples/detection/DetectorActivity.kt:145-240 | a frame accepted by an open gate gets the next timestamp, the frames arriving during its job are dropped, and its job either hands that frame's list to the tracker with that frame's timestamp or throws and leaves the gate closed |
| `Scenarios.LowConfidenceCharStillSpelled` | android/app/src/main/java/org/tensorflow/lite/examples/detection/DetectorActivity.kt:213-235 | for one plate whose OCR returns C, A, B at confidences 0.7, 0.8 and 0.3, the tracker gets the plate and then A and C in reading order, moved by the plate's origin, and the string is "ABC" |

## Left out

- Android `Matrix` math (`getTransformationMatrix`, `invert`, `mapRect`) is floating-point
  foreign code. It is an uninterpreted function, and no round-trip law is claimed. A
  singular region matrix leaves `invert` as the identity; that case lives inside
  `invertRegion`.
- Both classifiers (`YoloV4Classifier.create`, `recognizeImage`), `setUseNNAPI` and
  `setNumThreads` are foreign code. The plate detector's output is an input of the job,
  and the OCR detector is the `recognizeOcr` function.
- The OpenCV grayscale, blur and adaptive threshold, and the pixels of every bitmap, are
  foreign image operations. They are folded into `recognizeOcr`. Only the argument checks
  of the plate cut at line 195 are modelled, by `OcrSize.CropRejected`.
- `Assembly.RecognizePlate`: its failure condition covers the refused plate cut and the
  null-location sort only. Exceptions thrown by OpenCV, by `Bitmap.createBitmap(lpBitmap)`
  at line 210, or by either classifier are not modelled. The rounding of the scaled bitmap
  size inside `Bitmap.createBitmap` is not modelled either: a cut is refused only when the
  target height is 0 or less.
- `AssemblyLaws.CrashConditions`: its "exactly when" holds only for the modelled failures
  (refused cut, null-location sort). The foreign exceptions listed for
  `Assembly.RecognizePlate` would also end the job.
- `Assembly.SortOcrResults`: assumes that `Recognition.getLocation()` returns the stored,
  possibly null, box. The `Recognition` class is not part of this model. If the getter
  returned a copy (`RectF(null)` is an all-zero box), the null checks at lines 183 and 219
  would always pass and line 215 would never throw. The model does not cover that reading.
- Rendering is not modelled: drawing on `cropCopyBitmap`, `postInvalidate`, and the UI text
  from `runOnUiThread`.
- The latency read from `SystemClock` is left out.
- Threading is not modelled. `runInBackground` and the camera callback are sequential
  events of `FrameGate`. What the runtime does with an uncaught exception in the
  background job is also out of scope; on Android it normally ends the process.
- Activity set-up is left out: `onCreate` with its OpenCV/Tesseract checks, and
  `onPreviewSizeChosen` with its camera, asset and toast/finish path. Null receivers
  (`detector!!`, `ocrDetector`, `tracker!!`) are assumed to have been initialised.
- `MultiBoxTracker` is not part of this model. Only the call `trackResults(list, timestamp)`
  is modelled, as `TrackerCall`.
- Float rounding is not modelled. The products, quotients and sums are exact reals, so the
  model does not show the effect of float rounding at the 256·h/w boundary. It also does
  not show that a confidence stored as the float nearest 0.65 lies below the double 0.65
  and is rejected.
- Signed zero and NaN coordinates are not modelled, and neither is Float's total order in
  `sortBy`.
- `KotlinNumbers.ToInt`: covers finite values and the three special values, not float
  rounding before the conversion.
- `FrameGate.OnFrame`: `timestamp` is a Kotlin `Long`; its wrap-around after 2^63 frames
  is not modelled, as no camera reaches it.
- `Recognition` keeps only `title`, `confidence` and `location`. Its other fields (id,
  detected class) are never touched by the pipeline.
- Both `ActionsActivity` screens are UI navigation only and are not part of this model.
