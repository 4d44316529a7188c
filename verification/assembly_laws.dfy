/** Properties of one frame's result assembly: what reaches the tracker, in
    which order, and what the recognised string is made of. */
module AssemblyLaws {
  import opened Detections
  import opened KotlinNumbers
  import opened OcrSize
  import opened SeqFilter
  import opened StableSort
  import opened Assembly

  /** The OCR sort is stable: characters with equal `left` keep the order the
      OCR detector returned them in. */
  lemma OcrSortIsStable(ocr: seq<Recognition>, k: real)
    requires SortOcrResults(ocr).Ok?
    ensures WithKey(SortOcrResults(ocr).value, LeftKey, k) == WithKey(ocr, LeftKey, k)
  {
    if |ocr| >= 2 {
      SortByIsStable(ocr, LeftKey, k);
    }
  }

  /** The recognised string of a concatenation is the concatenation of the strings. */
  lemma {:induction false} TitlesAppend(a: seq<Recognition>, b: seq<Recognition>)
    ensures Titles(a + b) == Titles(a) + Titles(b)
    decreases |b|
  {
    if |b| == 0 {
      assert a + b == a;
    } else {
      var b' := b[..|b| - 1];
      assert (a + b)[..|a + b| - 1] == a + b';
      TitlesAppend(a, b');
    }
  }

  /** The recognised string depends on the titles alone: confidence and
      location, and so whether a character was kept, play no part. */
  lemma {:induction false} TitlesIgnoreConfidence(a: seq<Recognition>, b: seq<Recognition>)
    requires |a| == |b|
    requires forall i :: 0 <= i < |a| ==> a[i].title == b[i].title
    ensures Titles(a) == Titles(b)
    decreases |a|
  {
    if |a| != 0 {
      TitlesIgnoreConfidence(a[..|a| - 1], b[..|b| - 1]);
    }
  }

  /** The characters kept for a plate are exactly the confident, located OCR
      results, in sorted order, each placed in frame space. */
  lemma {:induction false} KeptCharsArePlacedFilter(env: Collaborators, spec: TransformSpec, plate: Rect, sorted: seq<Recognition>)
    ensures |KeptChars(env, spec, plate, sorted)| == |Filter(sorted, KeepChar)|
    ensures forall i :: 0 <= i < |Filter(sorted, KeepChar)| ==>
      KeptChars(env, spec, plate, sorted)[i] == PlaceChar(env, spec, plate, Filter(sorted, KeepChar)[i])
    decreases |sorted|
  {
    if |sorted| != 0 {
      KeptCharsArePlacedFilter(env, spec, plate, sorted[..|sorted| - 1]);
    }
  }

  /** For a plate whose OCR pass succeeds: the OCR output is sorted left to
      right as a stable permutation; the characters on the tracker list are the
      kept ones of that order, each moved into frame space; the recognised
      string spells every sorted result, kept or dropped. */
  lemma PlateReadingOrder(env: Collaborators, r: Recognition)
    requires KeepPlate(r)
    requires RecognizePlate(env, r).Ok?
    ensures
      var g := RecognizePlate(env, r).value;
      var loc := g.plate.location.value;
      var region := RegionFor(loc, env.sensorOrientation);
      var ocr := env.recognizeOcr(region);
      var sorted := SortOcrResults(ocr).value;
      var kept := Filter(sorted, KeepChar);
      && SortedBy(sorted, LeftKey)
      && multiset(sorted) == multiset(ocr)
      && SortedBy(kept, LeftKey)
      && |g.chars| == |kept|
      && (forall i :: 0 <= i < |kept| ==> g.chars[i] == PlaceChar(env, region.transform, loc, kept[i]))
      && g.text == Titles(sorted)
  {
    var g := RecognizePlate(env, r).value;
    var loc := g.plate.location.value;
    var region := RegionFor(loc, env.sensorOrientation);
    var sorted := SortOcrResults(env.recognizeOcr(region)).value;
    FilterKeepsSorted(sorted, LeftKey, KeepChar);
    KeptCharsArePlacedFilter(env, region.transform, loc, sorted);
  }

  /** The tracker list of a concatenation of groups is the concatenation of their lists. */
  lemma {:induction false} FlattenAppend(a: seq<PlateGroup>, b: seq<PlateGroup>)
    ensures Flatten(a + b) == Flatten(a) + Flatten(b)
    decreases |b|
  {
    if |b| == 0 {
      assert a + b == a;
    } else {
      var b' := b[..|b| - 1];
      assert (a + b)[..|a + b| - 1] == a + b';
      FlattenAppend(a, b');
    }
  }

  /** Each plate is immediately followed by its own characters on the tracker
      list, between the lists of the plates before and after it. */
  lemma {:induction false} TrackerListLayout(groups: seq<PlateGroup>, i: nat)
    requires i < |groups|
    ensures Flatten(groups)
         == Flatten(groups[..i]) + [groups[i].plate] + groups[i].chars + Flatten(groups[i + 1..])
  {
    var before, g, after := groups[..i], groups[i], groups[i + 1..];
    var head := before + [g];
    assert groups == head + after;
    FlattenAppend(head, after);
    assert head[..|head| - 1] == before;
    assert Flatten(head) == Flatten(before) + [g.plate] + g.chars;
  }

  /** Every entry of the tracker list is a group's plate or one of its characters. */
  lemma {:induction false} FlattenMembers(groups: seq<PlateGroup>, x: Recognition)
    requires x in Flatten(groups)
    ensures exists i :: 0 <= i < |groups| && (x == groups[i].plate || x in groups[i].chars)
    decreases |groups|
  {
    var n := |groups| - 1;
    if x in Flatten(groups[..n]) {
      FlattenMembers(groups[..n], x);
      var i :| 0 <= i < n && (x == groups[..n][i].plate || x in groups[..n][i].chars);
      assert groups[..n][i] == groups[i];
    } else {
      assert x == groups[n].plate || x in groups[n].chars;
    }
  }

  /** Nothing below a threshold or without a location reaches the tracker:
      plates need 0.65 and characters 0.6. */
  lemma TrackerSeesOnlyConfidentDetections(env: Collaborators, results: seq<Recognition>, timestamp: int)
    requires FrameJob(env, results, timestamp).Finished?
    ensures forall x :: x in FrameJob(env, results, timestamp).call.detections ==>
      x.location.Some? && x.confidence >= CharConfidence
  {
    var kept := KeptPlates(results);
    var groups := AssembleKept(env, kept).value;
    forall x | x in Flatten(groups)
      ensures x.location.Some? && x.confidence >= CharConfidence
    {
      FlattenMembers(groups, x);
      var i :| 0 <= i < |groups| && (x == groups[i].plate || x in groups[i].chars);
      assert RecognizePlate(env, kept[i]) == Ok(groups[i]);
    }
  }

  /** The plates on the tracker list are exactly the kept detector results,
      in the detector's order, each mapped into frame space; the job hands the
      frame's own timestamp to the tracker. */
  lemma PlatesInDetectorOrder(env: Collaborators, results: seq<Recognition>, timestamp: int)
    requires FrameJob(env, results, timestamp).Finished?
    ensures FrameJob(env, results, timestamp).call.timestamp == timestamp
    ensures
      var kept := KeptPlates(results);
      var groups := AssembleKept(env, kept).value;
      && FrameJob(env, results, timestamp).call.detections == Flatten(groups)
      && |groups| == |kept|
      && forall i :: 0 <= i < |kept| ==>
           groups[i].plate == MapPlate(env, kept[i])
           && kept[i] in results && kept[i].location.Some? && kept[i].confidence >= PlateConfidence
  {
    var kept := KeptPlates(results);
    var groups := AssembleKept(env, kept).value;
    forall i | 0 <= i < |kept|
      ensures groups[i].plate == MapPlate(env, kept[i]) && kept[i] in results
    {
      assert RecognizePlate(env, kept[i]) == Ok(groups[i]);
      assert kept[i] in kept;
    }
  }

  /** `minimumConfidence` is computed and never read: filtering the detector's
      results against the 0.3 floor as well as the 0.65 test keeps exactly the
      same plates, in the same order. */
  lemma {:induction false} MinimumConfidenceHasNoEffect(results: seq<Recognition>)
    ensures KeptPlates(results) == Filter(results, KeepPlateAboveMinimum)
  {
    FilterAgreeing(results, KeepPlate, KeepPlateAboveMinimum);
  }

  /** `lastLP` is the string of the last kept plate, or empty when no plate is kept. */
  lemma LastPlateText(env: Collaborators, results: seq<Recognition>, timestamp: int)
    requires FrameJob(env, results, timestamp).Finished?
    ensures
      var kept := KeptPlates(results);
      var text := FrameJob(env, results, timestamp).lastPlateText;
      && (|kept| == 0 ==> text == "")
      && (|kept| > 0 ==> text == RecognizePlate(env, kept[|kept| - 1]).value.text)
  {
    var kept := KeptPlates(results);
    var groups := AssembleKept(env, kept).value;
    if |kept| > 0 {
      assert RecognizePlate(env, kept[|kept| - 1]) == Ok(groups[|groups| - 1]);
    }
  }

  /** A job throws exactly when, for some kept plate, `Bitmap.createBitmap`
      refuses the plate's crop, or the OCR output for it has two or more
      results with a null location among them. */
  lemma CrashConditions(env: Collaborators, results: seq<Recognition>, timestamp: int)
    ensures
      var kept := KeptPlates(results);
      FrameJob(env, results, timestamp).Crashed? <==>
        exists i :: 0 <= i < |kept| && (CropFails(env, kept[i]) || SortFails(env, kept[i]))
  {
    var kept := KeptPlates(results);
    if FrameJob(env, results, timestamp).Crashed? {
      var i :| 0 <= i < |kept| && RecognizePlate(env, kept[i]).Err?;
    }
  }

  /** A kept plate that any other plate's failure does not pre-empt crashes
      the job when its own pass fails. */
  lemma {:induction false} KeptPlateFailureCrashes(env: Collaborators, results: seq<Recognition>, timestamp: int, n: nat)
    requires n < |results| && KeepPlate(results[n])
    requires CropFails(env, results[n]) || SortFails(env, results[n])
    ensures FrameJob(env, results, timestamp).Crashed?
  {
    var kept := KeptPlates(results);
    assert results[n] in kept;
    var j :| 0 <= j < |kept| && kept[j] == results[n];
    assert RecognizePlate(env, kept[j]).Err?;
  }

  /** A kept plate less than one pixel wide in frame space truncates to a crop
      of width zero or less, which `Bitmap.createBitmap` refuses: the job throws. */
  lemma ThinPlateCrashes(env: Collaborators, results: seq<Recognition>, timestamp: int, n: nat)
    requires n < |results| && KeepPlate(results[n])
    requires MapPlate(env, results[n]).location.value.Width() < 1.0
    ensures FrameJob(env, results, timestamp).Crashed?
  {
    var w := MapPlate(env, results[n]).location.value.Width();
    assert PlateRegion(env, results[n]).width == ToInt(Finite(w));
    assert ToInt(Finite(w)) <= 0;
    KeptPlateFailureCrashes(env, results, timestamp, n);
  }

  /** A kept plate so flat that 256 times its height is less than its width
      gets an OCR target height of zero; the scaled cut has no rows and
      `Bitmap.createBitmap` refuses it: the job throws. */
  lemma ShallowPlateCrashes(env: Collaborators, results: seq<Recognition>, timestamp: int, n: nat)
    requires n < |results| && KeepPlate(results[n])
    requires
      var box := MapPlate(env, results[n]).location.value;
      0.0 <= box.Height() && OcrInputSize as real * box.Height() < box.Width()
    ensures FrameJob(env, results, timestamp).Crashed?
  {
    var box := MapPlate(env, results[n]).location.value;
    var t := OcrTargetHeight(box.Width(), box.Height());
    assert PlateRegion(env, results[n]).transform.dstHeight == t;
    FlatBoxHasNoRows(box.Width(), box.Height());
    KeptPlateFailureCrashes(env, results, timestamp, n);
  }
}
