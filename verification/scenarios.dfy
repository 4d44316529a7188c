/** A worked frame: one confident plate whose OCR output has three
    characters, the middle one below the character threshold. The characters
    come back from the OCR detector out of reading order. */
module Scenarios {
  import opened Detections
  import opened OcrSize
  import opened StableSort
  import opened Assembly

  const PlateBox: Rect := Rect(100.0, 200.0, 300.0, 260.0)
  const Plate: Recognition := Recognition("plate", 0.9, Some(PlateBox))
  const CharA: Recognition := Recognition("A", 0.8, Some(Rect(10.0, 5.0, 18.0, 40.0)))
  const CharB: Recognition := Recognition("B", 0.3, Some(Rect(20.0, 5.0, 28.0, 40.0)))
  const CharC: Recognition := Recognition("C", 0.7, Some(Rect(30.0, 5.0, 38.0, 40.0)))

  /** Identity geometry, a 640 by 480 frame and an OCR detector answering C, A, B. */
  function ScenarioEnv(): Collaborators {
    Collaborators(r => r, _ => [CharC, CharA, CharB], (_, r) => r, 0, 640, 480)
  }

  const PlacedA: Recognition := CharA.(location := Some(Rect(110.0, 205.0, 118.0, 240.0)))
  const PlacedC: Recognition := CharC.(location := Some(Rect(130.0, 205.0, 138.0, 240.0)))

  /** A and B are already in order. */
  lemma ScenarioSortTail()
    ensures SortBy([CharA, CharB], LeftKey) == [CharA, CharB]
  {
    assert [CharB][1..] == [];
    assert SortBy([CharB], LeftKey) == [CharB];
    assert [CharA, CharB][1..] == [CharB];
    assert LeftKey(CharA) <= LeftKey(CharB);
  }

  /** C, the rightmost, is inserted at the end. */
  lemma ScenarioInsertC()
    ensures Insert(CharC, [CharA, CharB], LeftKey) == [CharA, CharB, CharC]
  {
    assert LeftKey(CharA) < LeftKey(CharC) && LeftKey(CharB) < LeftKey(CharC);
    assert [CharA, CharB][1..] == [CharB];
    assert [CharB][1..] == [];
    assert Insert(CharC, [CharB], LeftKey) == [CharB] + [CharC];
  }

  /** Sorting by `left` puts the OCR output in reading order A, B, C. */
  lemma ScenarioSortBy()
    ensures SortBy([CharC, CharA, CharB], LeftKey) == [CharA, CharB, CharC]
  {
    var ocr := [CharC, CharA, CharB];
    assert ocr[1..] == [CharA, CharB];
    ScenarioSortTail();
    ScenarioInsertC();
  }

  /** All three characters have a location, so the sort goes ahead. */
  lemma ScenarioSort()
    ensures SortOcrResults([CharC, CharA, CharB]) == Ok([CharA, CharB, CharC])
  {
    var ocr := [CharC, CharA, CharB];
    assert AllLocated(ocr) by {
      forall i | 0 <= i < |ocr|
        ensures ocr[i].location.Some?
      {
      }
    }
    assert SortOcrResults(ocr) == Ok(SortBy(ocr, LeftKey));
    ScenarioSortBy();
  }

  /** Every title is spelled, the dropped B included. */
  lemma ScenarioTitles()
    ensures Titles([CharA, CharB, CharC]) == "ABC"
  {
    var s := [CharA, CharB, CharC];
    assert s[..2] == [CharA, CharB];
    assert s[..2][..1] == [CharA];
    assert [CharA][..0] == [];
    assert Titles([CharA]) == "A";
    assert Titles([CharA, CharB]) == "AB";
  }

  /** Only A and C are kept, each moved by the plate's origin (100, 200). */
  lemma ScenarioChars(spec: TransformSpec)
    ensures KeptChars(ScenarioEnv(), spec, PlateBox, [CharA, CharB, CharC]) == [PlacedA, PlacedC]
  {
    var env := ScenarioEnv();
    var s := [CharA, CharB, CharC];
    assert s[..2] == [CharA, CharB];
    assert s[..2][..1] == [CharA];
    assert [CharA][..0] == [];
    assert KeptChars(env, spec, PlateBox, [CharA]) == [PlacedA];
    assert KeptChars(env, spec, PlateBox, [CharA, CharB]) == [PlacedA];
  }

  /** The plate's OCR pass: A and C kept, "ABC" spelled. */
  lemma ScenarioPlate()
    ensures RecognizePlate(ScenarioEnv(), Plate) == Ok(PlateGroup(Plate, [PlacedA, PlacedC], "ABC"))
  {
    var env := ScenarioEnv();
    assert MapPlate(env, Plate) == Plate;
    var region := RegionFor(PlateBox, 0);
    assert env.recognizeOcr(region) == [CharC, CharA, CharB];
    ScenarioSort();
    ScenarioTitles();
    ScenarioChars(region.transform);
  }

  /** The tracker receives the plate and the characters A and C moved by the
      plate's origin, in reading order; the recognised string is "ABC",
      because the dropped B still contributes its title. */
  lemma LowConfidenceCharStillSpelled()
    ensures
      var outcome := FrameJob(ScenarioEnv(), [Plate], 7);
      && outcome.Finished?
      && outcome.call == TrackerCall([Plate, PlacedA, PlacedC], 7)
      && outcome.lastPlateText == "ABC"
  {
    var env := ScenarioEnv();
    assert [Plate][..0] == [];
    assert KeptPlates([Plate]) == [Plate];
    var g := PlateGroup(Plate, [PlacedA, PlacedC], "ABC");
    ScenarioPlate();
    assert AssembleKept(env, [Plate][..0]) == Ok([]);
    assert AssembleKept(env, [Plate]) == Ok([] + [g]);
    assert [g][..0] == [];
    assert Flatten([g]) == [Plate, PlacedA, PlacedC];
  }
}
