/** `DigitDetector` (src/detectors/digit_detector.py): turns the boxes a YOLO digit
    model finds in the rectified clock face into the digit class names, left to right. */
module DigitDetector {
  import opened Wrappers
  import opened Python
  import opened Vision
  import opened StableSort

  /** One row of `results[0].boxes.data`: x_min, y_min, x_max, y_max, confidence, class id. */
  datatype Box = Box(xMin: real, yMin: real, xMax: real, yMax: real, confidence: real, classId: real)

  /** One element of the list `predict` returns: the boxes found in one image. */
  datatype DigitResult = DigitResult(boxes: seq<Box>)

  datatype Loaded = Loaded(model: Model, conf: real)

  /** `self.model` and `self.conf`. When loading failed, `self.model` is None and
      `self.conf` was never assigned, so both live in one optional value. */
  datatype Detector = Detector(loaded: Option<Loaded>)

  /** `__init__`: a model that fails to load leaves a detector that finds nothing;
      the exception is swallowed. */
  function New(load: Loader, modelPath: string, confThreshold: real := 0.5): (d: Detector)
    ensures d.loaded.None? <==> load(modelPath).Failure?
    ensures d.loaded.Some? ==> d.loaded.value.model == load(modelPath).value && d.loaded.value.conf == confThreshold
  {
    match load(modelPath)
    case Success(m) => Detector(Some(Loaded(m, confThreshold)))
    case Failure(_) => Detector(None)
  }

  /** `int(box[5])`. */
  function ClassOf(b: Box): (c: int)
    ensures b.classId == b.classId.Floor as real ==> c == b.classId.Floor
    ensures b.classId != b.classId.Floor as real ==> (if b.classId < 0.0 then c == b.classId.Floor + 1 else c == b.classId.Floor)
  {
    Truncate(b.classId)
  }

  /** The list `detected_items` built by the loop over the boxes, or the KeyError the
      first box whose class id is not in `model.names` raises. */
  function Extract(boxes: seq<Box>, names: map<int, string>): (r: Result<seq<Item>, Exception>)
    ensures r.Success? <==> forall i :: 0 <= i < |boxes| ==> ClassOf(boxes[i]) in names
    ensures r.Success? ==> |r.value| == |boxes|
    ensures r.Success? ==> forall i :: 0 <= i < |boxes| ==> r.value[i] == Item(boxes[i].xMin, names[ClassOf(boxes[i])])
    ensures r.Failure? ==>
      exists i :: && 0 <= i < |boxes| && ClassOf(boxes[i]) !in names
                  && r.error == KeyError(ClassOf(boxes[i]))
                  && forall j :: 0 <= j < i ==> ClassOf(boxes[j]) in names
  {
    if boxes == [] then Success([])
    else
      var init := boxes[..|boxes| - 1];
      var last := boxes[|boxes| - 1];
      assert forall i :: 0 <= i < |init| ==> init[i] == boxes[i];
      match Extract(init, names)
      case Failure(e) => Failure(e)
      case Success(items) =>
        if ClassOf(last) in names then Success(items + [Item(last.xMin, names[ClassOf(last)])])
        else Failure(KeyError(ClassOf(last)))
  }

  /** A failure in the first i boxes is the failure of the whole loop. */
  lemma {:induction false} ExtractPrefixFailure(boxes: seq<Box>, names: map<int, string>, i: nat)
    requires i <= |boxes|
    requires Extract(boxes[..i], names).Failure?
    ensures Extract(boxes, names) == Extract(boxes[..i], names)
    decreases |boxes| - i
  {
    if i < |boxes| {
      var next := boxes[..i + 1];
      assert next[..i] == boxes[..i];
      assert Extract(next, names) == Extract(boxes[..i], names);
      ExtractPrefixFailure(boxes, names, i + 1);
    } else {
      assert boxes[..i] == boxes;
    }
  }

  /** What `detect(image)` returns (or raises) for a detector, an optional image and
      the model's prediction capability. */
  function Digits(d: Detector, image: Option<Picture>, predict: Predictor<DigitResult>): (r: Result<seq<string>, Exception>)
    ensures r.Success? && r.value != [] ==> d.loaded.Some? && image.Some?
    ensures r.Failure? ==> d.loaded.Some? && image.Some?
    ensures r.Failure? ==>
      var p := predict(d.loaded.value.model, image.value, d.loaded.value.conf);
      || (p.Failure? && r.error == p.error)
      || (&& p.Success? && |p.value| > 0
          && exists i :: && 0 <= i < |p.value[0].boxes|
                         && ClassOf(p.value[0].boxes[i]) !in d.loaded.value.model.names
                         && r.error == KeyError(ClassOf(p.value[0].boxes[i])))
  {
    if d.loaded.None? || image.None? then Success([])
    else
      var results :- predict(d.loaded.value.model, image.value, d.loaded.value.conf);
      if |results| == 0 then Success([])
      else
        var items :- Extract(results[0].boxes, d.loaded.value.model.names);
        Success(Labels(SortByX(items)))
  }

  /** `detect(image)`: the loop collecting (x_min, class name) pairs, the stable sort
      on x_min and the projection onto class names. */
  method Detect(d: Detector, image: Option<Picture>, predict: Predictor<DigitResult>)
    returns (r: Result<seq<string>, Exception>)
    ensures r == Digits(d, image, predict)
  {
    if d.loaded.None? || image.None? {
      return Success([]);
    }
    var model, conf := d.loaded.value.model, d.loaded.value.conf;
    var results := predict(model, image.value, conf);
    if results.Failure? {
      return Failure(results.error);
    }
    if |results.value| == 0 {
      return Success([]);
    }
    var boxes := results.value[0].boxes;
    var detectedItems: seq<Item> := [];
    var i := 0;
    while i < |boxes|
      invariant 0 <= i <= |boxes|
      invariant Extract(boxes[..i], model.names) == Success(detectedItems)
    {
      var box := boxes[i];
      var clsId := ClassOf(box);
      assert boxes[..i + 1][..i] == boxes[..i];
      if clsId !in model.names {
        ExtractPrefixFailure(boxes, model.names, i + 1);
        return Failure(KeyError(clsId));
      }
      detectedItems := detectedItems + [Item(box.xMin, model.names[clsId])];
      i := i + 1;
    }
    assert boxes[..i] == boxes;
    detectedItems := SortByX(detectedItems);
    r := Success(Labels(detectedItems));
  }

  /** Once prediction has returned a result, detect succeeds exactly when every
      box's class id is a key of `model.names`. */
  lemma DigitsSucceedIffNamesKnown(d: Detector, image: Option<Picture>, predict: Predictor<DigitResult>,
                                   results: seq<DigitResult>)
    requires d.loaded.Some? && image.Some?
    requires predict(d.loaded.value.model, image.value, d.loaded.value.conf) == Success(results)
    requires |results| > 0
    ensures Digits(d, image, predict).Success?
        <==> forall i :: 0 <= i < |results[0].boxes| ==> ClassOf(results[0].boxes[i]) in d.loaded.value.model.names
  {
  }

  /** `detect` has no try block: an exception raised by prediction reaches the
      caller unchanged. */
  lemma DigitsPropagatesErrors(d: Detector, image: Option<Picture>, predict: Predictor<DigitResult>)
    requires d.loaded.Some? && image.Some?
    requires predict(d.loaded.value.model, image.value, d.loaded.value.conf).Failure?
    ensures Digits(d, image, predict) == Failure(predict(d.loaded.value.model, image.value, d.loaded.value.conf).error)
  {
  }

  /** After a successful prediction, a failure is the KeyError of the first box
      whose class id is missing from `names`. */
  lemma DigitsKeyErrorIsFirstMissing(d: Detector, image: Option<Picture>, predict: Predictor<DigitResult>,
                                     results: seq<DigitResult>)
    requires d.loaded.Some? && image.Some?
    requires predict(d.loaded.value.model, image.value, d.loaded.value.conf) == Success(results)
    requires Digits(d, image, predict).Failure?
    ensures |results| > 0
    ensures exists i :: && 0 <= i < |results[0].boxes|
                        && ClassOf(results[0].boxes[i]) !in d.loaded.value.model.names
                        && Digits(d, image, predict).error == KeyError(ClassOf(results[0].boxes[i]))
                        && forall j :: 0 <= j < i ==> ClassOf(results[0].boxes[j]) in d.loaded.value.model.names
  {
    assert Digits(d, image, predict) == Extract(results[0].boxes, d.loaded.value.model.names).PropagateFailure();
  }

  /** With no model, or no image, detect returns the empty list. */
  lemma UnavailableGivesEmpty(d: Detector, image: Option<Picture>, predict: Predictor<DigitResult>)
    requires d.loaded.None? || image.None?
    ensures Digits(d, image, predict) == Success([])
  {
  }

  /** A detector whose model failed to load returns the empty list for every image. */
  lemma FailedLoadFindsNothing(load: Loader, path: string, conf: real, image: Option<Picture>, predict: Predictor<DigitResult>)
    requires load(path).Failure?
    ensures Digits(New(load, path, conf), image, predict) == Success([])
  {
  }

  /** An empty prediction gives the empty list, never None. */
  lemma NoResultsGivesEmpty(d: Detector, image: Option<Picture>, predict: Predictor<DigitResult>)
    requires d.loaded.Some? && image.Some?
    requires predict(d.loaded.value.model, image.value, d.loaded.value.conf) == Success([])
    ensures Digits(d, image, predict) == Success([])
  {
  }

  /** The class names of the boxes, in the detector's order. */
  function BoxNames(boxes: seq<Box>, names: map<int, string>): seq<string>
    requires forall i :: 0 <= i < |boxes| ==> ClassOf(boxes[i]) in names
  {
    seq(|boxes|, i requires 0 <= i < |boxes| => names[ClassOf(boxes[i])])
  }

  /** One name per box, no filtering and no deduplication: the result is a
      permutation of the boxes' class names. */
  lemma {:induction false} DigitsPermuteBoxNames(d: Detector, image: Option<Picture>, predict: Predictor<DigitResult>, results: seq<DigitResult>)
    requires d.loaded.Some? && image.Some?
    requires predict(d.loaded.value.model, image.value, d.loaded.value.conf) == Success(results)
    requires |results| > 0
    requires Digits(d, image, predict).Success?
    ensures forall i :: 0 <= i < |results[0].boxes| ==> ClassOf(results[0].boxes[i]) in d.loaded.value.model.names
    ensures |Digits(d, image, predict).value| == |results[0].boxes|
    ensures multiset(Digits(d, image, predict).value) == multiset(BoxNames(results[0].boxes, d.loaded.value.model.names))
  {
    var names := d.loaded.value.model.names;
    var boxes := results[0].boxes;
    assert Extract(boxes, names).Success?;
    var items := Extract(boxes, names).value;
    assert Digits(d, image, predict) == Success(Labels(SortByX(items)));
    SortByXPermutesLabels(items);
    var labels, boxNames := Labels(items), BoxNames(boxes, names);
    assert |labels| == |boxNames|;
    forall i | 0 <= i < |labels| ensures labels[i] == boxNames[i] {
      assert items[i] == Item(boxes[i].xMin, names[ClassOf(boxes[i])]);
    }
    assert labels == boxNames;
  }

  /** The names come out in non-decreasing order of their box's x_min, boxes with
      equal x_min in the detector's order; and this is the only such order. */
  lemma DigitsLeftToRight(d: Detector, image: Option<Picture>, predict: Predictor<DigitResult>, results: seq<DigitResult>)
    requires d.loaded.Some? && image.Some?
    requires predict(d.loaded.value.model, image.value, d.loaded.value.conf) == Success(results)
    requires |results| > 0
    requires Digits(d, image, predict).Success?
    ensures var items := Extract(results[0].boxes, d.loaded.value.model.names).value;
      && Digits(d, image, predict).value == Labels(SortByX(items))
      && SortedByX(SortByX(items))
      && KeepsTieOrder(SortByX(items), items)
  {
    SortByXKeepsTieOrder(Extract(results[0].boxes, d.loaded.value.model.names).value);
  }

  /** Boxes at x_min 50, 10 and 30 classified "3", "1" and "2" come out as "1", "2", "3". */
  lemma ThreeBoxesLeftToRight(m: Model, conf: real, image: Picture, predict: Predictor<DigitResult>)
    requires m.names == map[1 := "1", 2 := "2", 3 := "3"]
    requires predict(m, image, conf) == Success([DigitResult([
      Box(50.0, 0.0, 70.0, 40.0, 0.9, 3.0),
      Box(10.0, 0.0, 30.0, 40.0, 0.9, 1.0),
      Box(30.0, 0.0, 50.0, 40.0, 0.9, 2.0)])])
    ensures Digits(Detector(Some(Loaded(m, conf))), Some(image), predict) == Success(["1", "2", "3"])
  {
    var boxes := [Box(50.0, 0.0, 70.0, 40.0, 0.9, 3.0), Box(10.0, 0.0, 30.0, 40.0, 0.9, 1.0), Box(30.0, 0.0, 50.0, 40.0, 0.9, 2.0)];
    assert ClassOf(boxes[0]) == 3;
    assert ClassOf(boxes[1]) == 1;
    assert ClassOf(boxes[2]) == 2;
    var items := [Item(50.0, "3"), Item(10.0, "1"), Item(30.0, "2")];
    var extracted := Extract(boxes, m.names);
    assert extracted.Success?;
    assert extracted.value == items;
    SortThreeItems();
  }
}
