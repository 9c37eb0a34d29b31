/** `ClockReader` (src/services/clock_reader.py): one frame through keypoint detection,
    rectification, digit recognition and the debug overlay. */
module ClockReader {
  import opened Wrappers
  import opened Python
  import opened Vision
  import opened Keypoints
  import Geometry
  import PoseDetector
  import DigitDetector

  datatype Reader = Reader(pose: PoseDetector.Detector, digits: DigitDetector.Detector)

  /** `__init__`: the pose detector is built first and re-raises a load failure; the
      digit detector swallows its own. */
  function New(load: Loader, poseModelPath: string, digitModelPath: string,
               poseConf: real := 0.6, digitConf: real := 0.5): (r: Result<Reader, Exception>)
    ensures r.Failure? <==> load(poseModelPath).Failure?
    ensures r.Failure? ==> r.error == load(poseModelPath).error
    ensures r.Success? ==> r.value.pose == PoseDetector.Detector(load(poseModelPath).value, poseConf)
    ensures r.Success? && load(digitModelPath).Failure? ==> r.value.digits.loaded.None?
    ensures r.Success? && load(digitModelPath).Success? ==>
      r.value.digits.loaded == Some(DigitDetector.Loaded(load(digitModelPath).value, digitConf))
  {
    var pose :- PoseDetector.New(load, poseModelPath, poseConf);
    Success(Reader(pose, DigitDetector.New(load, digitModelPath, digitConf)))
  }

  /** An integer pixel position. */
  datatype Pixel = Pixel(x: int, y: int)

  /** An OpenCV colour, in blue, green, red order. */
  datatype Color = Color(b: int, g: int, r: int)

  /** One drawing call made on the debug frame. */
  datatype Mark =
    | Circle(center: Pixel, radius: int, color: Color, thickness: int)
    | Polylines(vertices: seq<Pixel>, isClosed: bool, color: Color, thickness: int)
    | PutText(text: string, origin: Pixel, fontScale: int, color: Color, thickness: int)

  const Red := Color(0, 0, 255)
  const Green := Color(0, 255, 0)
  const Yellow := Color(0, 255, 255)

  /** The value `time_text` starts with, and the one used when no digit is found. */
  const Checking := "Checking..."
  const Placeholder := "..."

  /** `frame.copy()`, the debug frame: the copied picture and what has been drawn on
      it since. The caller's frame is a value and is never drawn on. */
  class Canvas {
    const base: Picture
    var marks: seq<Mark>

    constructor Copy(frame: Picture)
      ensures base == frame && marks == []
    {
      base := frame;
      marks := [];
    }

    /** `cv2.circle`, `cv2.polylines` or `cv2.putText` on this frame. */
    method Draw(m: Mark)
      modifies this
      ensures marks == old(marks) + [m]
    {
      marks := marks + [m];
    }
  }

  /** The digit names concatenated with no separator. */
  function Join(ds: seq<string>): string {
    if ds == [] then "" else ds[0] + Join(ds[1..])
  }

  /** The time text once recognition returns: the digits joined, or "..." when there are none. */
  function TimeText(ds: seq<string>): string {
    if |ds| > 0 then Join(ds) else Placeholder
  }

  /** Joining one-character labels puts each label's character in its place, with
      no separator. */
  lemma {:induction false} JoinSingleCharacters(ds: seq<string>)
    requires forall i :: 0 <= i < |ds| ==> |ds[i]| == 1
    ensures |Join(ds)| == |ds|
    ensures forall i :: 0 <= i < |ds| ==> Join(ds)[i] == ds[i][0]
  {
    if ds != [] {
      JoinSingleCharacters(ds[1..]);
    }
  }

  /** Joining two lists of labels is joining each and concatenating: the labels
      appear in order, whatever their length, with nothing between them. */
  lemma {:induction false} JoinAppend(a: seq<string>, b: seq<string>)
    ensures Join(a + b) == Join(a) + Join(b)
  {
    if a == [] {
      assert a + b == b;
    } else {
      assert (a + b)[0] == a[0] && (a + b)[1..] == a[1..] + b;
      JoinAppend(a[1..], b);
    }
  }

  /** One label joins to itself. */
  lemma JoinSingle(d: string)
    ensures Join([d]) == d
  {
    assert [d][1..] == [];
  }

  /** No digits give "..."; otherwise the text is the labels joined without a
      separator (JoinAppend, JoinSingle), which for one-character labels is one
      character per digit, in order. */
  lemma TimeTextRule(ds: seq<string>)
    ensures ds == [] ==> TimeText(ds) == Placeholder
    ensures ds != [] ==> TimeText(ds) == ds[0] + Join(ds[1..])
    ensures ds != [] ==> TimeText(ds) == Join(ds[..|ds| - 1]) + ds[|ds| - 1]
    ensures ds != [] && (forall i :: 0 <= i < |ds| ==> |ds[i]| == 1) ==>
      |TimeText(ds)| == |ds| && forall i :: 0 <= i < |ds| ==> TimeText(ds)[i] == ds[i][0]
  {
    if ds != [] {
      var init, last := ds[..|ds| - 1], ds[|ds| - 1];
      assert ds == init + [last];
      JoinAppend(init, [last]);
      JoinSingle(last);
      if forall i :: 0 <= i < |ds| ==> |ds[i]| == 1 {
        JoinSingleCharacters(ds);
      }
    }
  }

  /** `keypoints.astype(int)` of one point. */
  function ToPixel(p: Point): Pixel {
    Pixel(Truncate(p.x), Truncate(p.y))
  }

  /** `keypoints.astype(int)`: every point truncated toward zero. */
  function Pixels(keypoints: seq<Point>): (px: seq<Pixel>)
    ensures |px| == |keypoints|
    ensures forall i :: 0 <= i < |keypoints| ==> px[i] == Pixel(Truncate(keypoints[i].x), Truncate(keypoints[i].y))
  {
    seq(|keypoints|, i requires 0 <= i < |keypoints| => ToPixel(keypoints[i]))
  }

  /** One filled red circle of radius 5 per keypoint, in order. */
  function Circles(pts: seq<Pixel>): seq<Mark> {
    if pts == [] then []
    else Circles(pts[..|pts| - 1]) + [Circle(pts[|pts| - 1], 5, Red, -1)]
  }

  /** What the try block draws on the debug frame: the keypoint circles, the closed
      green polygon through them and "Result: <time text>" 10 pixels above the first. */
  function Overlay(keypoints: seq<Point>, timeText: string): seq<Mark>
    requires |keypoints| > 0
  {
    var px := Pixels(keypoints);
    Circles(px)
      + [Polylines(px, true, Green, 2),
         PutText("Result: " + timeText, Pixel(px[0].x, px[0].y - 10), 1, Yellow, 2)]
  }

  lemma {:induction false} CirclesMarkEachPoint(pts: seq<Pixel>)
    ensures |Circles(pts)| == |pts|
    ensures forall i :: 0 <= i < |pts| ==> Circles(pts)[i] == Circle(pts[i], 5, Red, -1)
  {
    if pts != [] {
      CirclesMarkEachPoint(pts[..|pts| - 1]);
    }
  }

  /** The overlay marks every keypoint at its truncated position, then draws the
      polygon, then the time text above the first keypoint. */
  lemma OverlayMarksEveryKeypoint(keypoints: seq<Point>, timeText: string)
    requires |keypoints| > 0
    ensures var m := Overlay(keypoints, timeText);
      && |m| == |keypoints| + 2
      && (forall i :: 0 <= i < |keypoints| ==> m[i] == Circle(ToPixel(keypoints[i]), 5, Red, -1))
      && m[|keypoints|] == Polylines(Pixels(keypoints), true, Green, 2)
      && m[|m| - 1] == PutText("Result: " + timeText,
                               Pixel(Truncate(keypoints[0].x), Truncate(keypoints[0].y) - 10), 1, Yellow, 2)
  {
    CirclesMarkEachPoint(Pixels(keypoints));
  }

  /** The locals of `process_frame` when it returns: `warped_img`, `time_text`, and
      the marks drawn on `debug_frame`. */
  datatype FrameTrace = FrameTrace(warped: Option<Picture>, timeText: string, marks: seq<Mark>)

  /** What `process_frame` computes. Pose detection runs before the try block, so its
      exceptions propagate; every exception inside the try block is swallowed, keeping
      whatever was assigned before it. The rectifier gets no target size. */
  function Trace(reader: Reader, frame: Picture, posePredict: Predictor<PoseResult>,
                 digitPredict: Predictor<DigitDetector.DigitResult>, cv: Geometry.Warper)
    : (r: Result<FrameTrace, Exception>)
    ensures r.Failure? <==> PoseDetector.Detect(reader.pose, frame, posePredict).Failure?
    ensures r.Failure? ==> r.error == PoseDetector.Detect(reader.pose, frame, posePredict).error
    ensures r.Success? && r.value.warped.None? ==> r.value.timeText == Checking && r.value.marks == []
    ensures r.Success? && r.value.marks != [] ==> r.value.warped.Some?
  {
    var keypoints :- PoseDetector.Detect(reader.pose, frame, posePredict);
    if keypoints.None? then Success(FrameTrace(None, Checking, []))
    else
      match Geometry.FourPointTransform(cv, frame, keypoints.value)
      case Failure(_) => Success(FrameTrace(None, Checking, []))
      case Success(warped) =>
        match DigitDetector.Digits(reader.digits, Some(warped), digitPredict)
        case Failure(_) => Success(FrameTrace(Some(warped), Checking, []))
        case Success(digits) =>
          var text := TimeText(digits);
          Success(FrameTrace(Some(warped), text, Overlay(keypoints.value, text)))
  }

  /** The drawing at the end of the try block: a circle per keypoint, the polygon,
      then the time text. */
  method DrawOverlay(debugFrame: Canvas, keypoints: seq<Point>, timeText: string)
    requires |keypoints| > 0
    modifies debugFrame
    ensures debugFrame.marks == old(debugFrame.marks) + Overlay(keypoints, timeText)
  {
    var ptsInt := Pixels(keypoints);
    ghost var before := debugFrame.marks;
    for i := 0 to |ptsInt|
      invariant debugFrame.marks == before + Circles(ptsInt[..i])
    {
      assert ptsInt[..i + 1][..i] == ptsInt[..i];
      debugFrame.Draw(Circle(ptsInt[i], 5, Red, -1));
    }
    assert ptsInt[..|ptsInt|] == ptsInt;
    debugFrame.Draw(Polylines(ptsInt, true, Green, 2));
    var textPos := Pixel(ptsInt[0].x, ptsInt[0].y - 10);
    debugFrame.Draw(PutText("Result: " + timeText, textPos, 1, Yellow, 2));
  }

  /** `process_frame(frame)`: returns `(debug_frame, warped_img)`. */
  method ProcessFrame(reader: Reader, frame: Picture, posePredict: Predictor<PoseResult>,
                      digitPredict: Predictor<DigitDetector.DigitResult>, cv: Geometry.Warper)
    returns (r: Result<(Canvas, Option<Picture>), Exception>)
    ensures var t := Trace(reader, frame, posePredict, digitPredict, cv);
      && (t.Failure? ==> r == Failure(t.error))
      && (t.Success? ==> r.Success? && fresh(r.value.0) && r.value.0.base == frame
                         && r.value.0.marks == t.value.marks && r.value.1 == t.value.warped)
  {
    var keypoints := PoseDetector.Detect(reader.pose, frame, posePredict);
    if keypoints.Failure? {
      return Failure(keypoints.error);
    }
    var warpedImg: Option<Picture> := None;
    var timeText := Checking;
    var debugFrame := new Canvas.Copy(frame);
    if keypoints.value.Some? {
      var kpts := keypoints.value.value;
      var warped := Geometry.FourPointTransform(cv, frame, kpts);
      if warped.Success? {
        warpedImg := Some(warped.value);
        var digits := DigitDetector.Detect(reader.digits, warpedImg, digitPredict);
        if digits.Success? {
          timeText := TimeText(digits.value);
          DrawOverlay(debugFrame, kpts, timeText);
        }
      }
    }
    return Success((debugFrame, warpedImg));
  }

  /** No keypoints: no rectified image, an undrawn copy of the frame, and `time_text`
      still "Checking...". */
  lemma NoKeypointsLeavesFrameUndrawn(reader: Reader, frame: Picture, posePredict: Predictor<PoseResult>,
                                      digitPredict: Predictor<DigitDetector.DigitResult>, cv: Geometry.Warper)
    requires PoseDetector.Detect(reader.pose, frame, posePredict) == Success(None)
    ensures Trace(reader, frame, posePredict, digitPredict, cv) == Success(FrameTrace(None, Checking, []))
  {
  }

  /** The main path: keypoints are found, the warp and recognition return. The
      rectified image is kept, `time_text` is the recognised text, and the overlay
      for that text is drawn. */
  lemma RecognitionDrawsOverlay(reader: Reader, frame: Picture, posePredict: Predictor<PoseResult>,
                                digitPredict: Predictor<DigitDetector.DigitResult>, cv: Geometry.Warper,
                                kp: seq<Point>, w: Picture, ds: seq<string>)
    requires PoseDetector.Detect(reader.pose, frame, posePredict) == Success(Some(kp))
    requires Geometry.FourPointTransform(cv, frame, kp) == Success(w)
    requires DigitDetector.Digits(reader.digits, Some(w), digitPredict) == Success(ds)
    ensures |kp| == 4
    ensures Trace(reader, frame, posePredict, digitPredict, cv)
      == Success(FrameTrace(Some(w), TimeText(ds), Overlay(kp, TimeText(ds))))
  {
  }

  /** Recognition raises after a successful warp: the exception is swallowed, the
      rectified image is still returned, and nothing is drawn. */
  lemma RecognitionErrorKeepsWarp(reader: Reader, frame: Picture, posePredict: Predictor<PoseResult>,
                                  digitPredict: Predictor<DigitDetector.DigitResult>, cv: Geometry.Warper,
                                  kp: seq<Point>, w: Picture)
    requires PoseDetector.Detect(reader.pose, frame, posePredict) == Success(Some(kp))
    requires Geometry.FourPointTransform(cv, frame, kp) == Success(w)
    requires DigitDetector.Digits(reader.digits, Some(w), digitPredict).Failure?
    ensures Trace(reader, frame, posePredict, digitPredict, cv) == Success(FrameTrace(Some(w), Checking, []))
  {
  }

  /** The warp raises (wrong point count, or OpenCV): the exception is swallowed,
      there is no rectified image and nothing is drawn. */
  lemma WarpErrorGivesNothing(reader: Reader, frame: Picture, posePredict: Predictor<PoseResult>,
                              digitPredict: Predictor<DigitDetector.DigitResult>, cv: Geometry.Warper,
                              kp: seq<Point>)
    requires PoseDetector.Detect(reader.pose, frame, posePredict) == Success(Some(kp))
    requires Geometry.FourPointTransform(cv, frame, kp).Failure?
    ensures Trace(reader, frame, posePredict, digitPredict, cv) == Success(FrameTrace(None, Checking, []))
  {
  }

  /** The frame result is an exception exactly when pose detection raised, and it is
      that exception: nothing inside the try block escapes. */
  lemma OnlyPoseErrorsEscape(reader: Reader, frame: Picture, posePredict: Predictor<PoseResult>,
                             digitPredict: Predictor<DigitDetector.DigitResult>, cv: Geometry.Warper)
    ensures Trace(reader, frame, posePredict, digitPredict, cv).Failure?
        <==> PoseDetector.Detect(reader.pose, frame, posePredict).Failure?
    ensures Trace(reader, frame, posePredict, digitPredict, cv).Failure? ==>
      Trace(reader, frame, posePredict, digitPredict, cv).error == PoseDetector.Detect(reader.pose, frame, posePredict).error
  {
  }

  /** The rectified image has the size of the detected quadrilateral's edges (no
      target size is passed), whatever size is configured; when an edge size is 0,
      OpenCV returns an image of the frame's size instead. */
  lemma WarpSizeComesFromEdges(reader: Reader, frame: Picture, posePredict: Predictor<PoseResult>,
                               digitPredict: Predictor<DigitDetector.DigitResult>, cv: Geometry.Warper,
                               quad: seq<Point>)
    requires PoseDetector.Detect(reader.pose, frame, posePredict) == Success(Some(quad))
    requires Trace(reader, frame, posePredict, digitPredict, cv).Success?
    requires Trace(reader, frame, posePredict, digitPredict, cv).value.warped.Some?
    ensures |quad| == 4
    ensures var w := Trace(reader, frame, posePredict, digitPredict, cv).value.warped.value;
      var edges := Geometry.EdgeSize(quad[0], quad[1], quad[2], quad[3]);
      Geometry.Size(w.width, w.height)
        == if edges.width > 0 && edges.height > 0 then edges else Geometry.Size(frame.width, frame.height)
  {
  }

  /** `time_text` is reassigned only when digit recognition returns; then it is the
      recognised text and is drawn, after the keypoints, as the last mark. Otherwise
      it keeps "Checking..." and nothing is drawn. */
  lemma TimeTextOnlyAfterRecognition(reader: Reader, frame: Picture, posePredict: Predictor<PoseResult>,
                                     digitPredict: Predictor<DigitDetector.DigitResult>, cv: Geometry.Warper,
                                     t: FrameTrace)
    requires Trace(reader, frame, posePredict, digitPredict, cv) == Success(t)
    ensures t.marks == [] ==> t.timeText == Checking
    ensures t.marks != [] ==>
      && t.warped.Some?
      && DigitDetector.Digits(reader.digits, t.warped, digitPredict).Success?
      && t.timeText == TimeText(DigitDetector.Digits(reader.digits, t.warped, digitPredict).value)
      && t.marks[|t.marks| - 1].PutText?
      && t.marks[|t.marks| - 1].text == "Result: " + t.timeText
  {
    var kp := PoseDetector.Detect(reader.pose, frame, posePredict);
    if t.marks != [] {
      OverlayMarksEveryKeypoint(kp.value.value, t.timeText);
    }
  }

  /** All-zero keypoints from the pose model: no rectified image and nothing drawn. */
  lemma AllZeroKeypointsGiveNoWarp(reader: Reader, frame: Picture, posePredict: Predictor<PoseResult>,
                                   digitPredict: Predictor<DigitDetector.DigitResult>, cv: Geometry.Warper,
                                   results: seq<PoseResult>)
    requires posePredict(reader.pose.model, frame, reader.pose.conf) == Success(results)
    requires |results| > 0 && results[0].keypoints.Some?
    requires |results[0].keypoints.value.xy| > 0 && AllZero(results[0].keypoints.value.xy[0])
    ensures Trace(reader, frame, posePredict, digitPredict, cv) == Success(FrameTrace(None, Checking, []))
  {
  }

  /** The digits "1", "2", "3" read as the time text "123". */
  lemma DigitsJoinWithoutSeparator()
    ensures TimeText(["1", "2", "3"]) == "123"
  {
    assert Join(["3"]) == "3";
    assert Join(["2", "3"]) == "23";
  }
}
