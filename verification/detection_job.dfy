/** The background job of `processImage`, written as the loops the activity
    runs: one pass over the plate detector's results that appends to the
    tracker list as it goes, with an inner pass over the sorted OCR output. */
module DetectionJob {
  import opened Detections
  import opened OcrSize
  import opened SeqFilter
  import opened Assembly

  /** The OCR pass for one accepted plate, as the inner loop runs it: cut the
      crop, sort the OCR output, append each confident character after moving it into frame
      space, and append every title to the plate's string. */
  method ReadPlate(env: Collaborators, result: Recognition) returns (group: Result<PlateGroup>)
    requires KeepPlate(result)
    ensures group == RecognizePlate(env, result)
  {
    var location := env.cropToFrame(result.location.value);
    var plate := result.(location := Some(location));
    var region := RegionFor(location, env.sensorOrientation);
    if CropRejected(region, env.frameWidth, env.frameHeight) {
      return Err(BitmapCropRejected);
    }
    var ocrResults := env.recognizeOcr(region);
    var sortedOrFailure := SortOcrResults(ocrResults);
    if sortedOrFailure.Err? {
      return Err(sortedOrFailure.failure);
    }
    var sorted := sortedOrFailure.value;
    var chars: seq<Recognition> := [];
    var resultStr := "";
    var j := 0;
    while j < |sorted|
      invariant 0 <= j <= |sorted|
      invariant chars == KeptChars(env, region.transform, location, sorted[..j])
      invariant resultStr == Titles(sorted[..j])
    {
      var ocrResult := sorted[j];
      assert sorted[..j + 1][..j] == sorted[..j];
      if ocrResult.location.Some? && ocrResult.confidence >= CharConfidence {
        var placed := Offset(env.invertRegion(region.transform, ocrResult.location.value), location.left, location.top);
        chars := chars + [ocrResult.(location := Some(placed))];
      }
      resultStr := resultStr + ocrResult.title;
      j := j + 1;
    }
    assert sorted[..j] == sorted;
    group := Ok(PlateGroup(plate, chars, resultStr));
  }

  /** A kept plate whose OCR pass succeeds adds its group after the others. */
  lemma {:induction false} AssembleExtend(env: Collaborators, kept: seq<Recognition>, r: Recognition, groups: seq<PlateGroup>)
    requires forall i :: 0 <= i < |kept| ==> KeepPlate(kept[i])
    requires KeepPlate(r) && RecognizePlate(env, r).Ok?
    requires AssembleKept(env, kept) == Ok(groups)
    ensures AssembleKept(env, kept + [r]) == Ok(groups + [RecognizePlate(env, r).value])
    ensures Flatten(groups + [RecognizePlate(env, r).value])
         == Flatten(groups) + [RecognizePlate(env, r).value.plate] + RecognizePlate(env, r).value.chars
    ensures LastText(groups + [RecognizePlate(env, r).value]) == RecognizePlate(env, r).value.text
  {
    assert (kept + [r])[..|kept|] == kept;
    assert (groups + [RecognizePlate(env, r).value])[..|groups|] == groups;
  }

  /** A kept plate whose OCR pass fails fails the whole job, whatever follows it. */
  lemma {:induction false} AssembleFail(env: Collaborators, results: seq<Recognition>, i: nat)
    requires i < |results|
    requires KeepPlate(results[i]) && RecognizePlate(env, results[i]).Err?
    ensures AssembleKept(env, KeptPlates(results)).Err?
  {
    var all := KeptPlates(results);
    assert results[i] in all;
    var j :| 0 <= j < |all| && all[j] == results[i];
    assert RecognizePlate(env, all[j]).Err?;
  }

  /** One frame's job: each kept plate, mapped into frame space, goes on the
      tracker list followed by its confident characters; the last plate's
      string is remembered; the list goes to the tracker with the frame's
      timestamp. It returns `Crashed` where the bitmap cut or the OCR sort
      would throw. */
  method RunDetectionJob(env: Collaborators, results: seq<Recognition>, currTimestamp: int)
    returns (outcome: JobOutcome)
    ensures outcome == FrameJob(env, results, currTimestamp)
  {
    var mappedRecognitions: seq<Recognition> := [];
    var lastLP := "";
    ghost var groups: seq<PlateGroup> := [];
    ghost var kept: seq<Recognition> := [];
    var i := 0;
    while i < |results|
      invariant 0 <= i <= |results|
      invariant kept == Filter(results[..i], KeepPlate)
      invariant forall k :: 0 <= k < |kept| ==> KeepPlate(kept[k])
      invariant AssembleKept(env, kept) == Ok(groups)
      invariant mappedRecognitions == Flatten(groups)
      invariant lastLP == LastText(groups)
    {
      var result := results[i];
      FilterStep(results, i, KeepPlate);
      if result.location.Some? && result.confidence >= PlateConfidence {
        var group := ReadPlate(env, result);
        if group.Err? {
          AssembleFail(env, results, i);
          return Crashed;
        }
        var g := group.value;
        AssembleExtend(env, kept, result, groups);
        mappedRecognitions := mappedRecognitions + [g.plate] + g.chars;
        lastLP := g.text;
        groups := groups + [g];
        kept := kept + [result];
      }
      i := i + 1;
    }
    assert results[..i] == results;
    outcome := Finished(TrackerCall(mappedRecognitions, currTimestamp), lastLP);
  }
}
