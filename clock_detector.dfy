/** `ClockDetector` (src/detectors/clock_detector.py): the same keypoint guards as
    PoseDetector inside a try block that turns every exception into None. */
module ClockDetector {
  import opened Wrappers
  import opened Python
  import opened Vision
  import opened Keypoints
  import PoseDetector

  datatype Detector = Detector(model: Model, conf: real)

  /** `__init__`: a model that fails to load re-raises its exception. */
  function New(load: Loader, modelPath: string, confThreshold: real): (r: Result<Detector, Exception>)
    ensures r.Failure? <==> load(modelPath).Failure?
    ensures r.Failure? ==> r.error == load(modelPath).error
    ensures r.Success? ==> r.value == Detector(load(modelPath).value, confThreshold)
  {
    var model :- load(modelPath);
    Success(Detector(model, confThreshold))
  }

  /** `detect(image)`: never raises; an exception is printed and gives None. */
  function Detect(d: Detector, image: Picture, predict: Predictor<PoseResult>): (r: Option<seq<Point>>)
    ensures r.Some? ==> predict(d.model, image, d.conf).Success?
    ensures r.Some? ==> Normalize(predict(d.model, image, d.conf).value) == Success(r)
    ensures r.Some? ==> !AllZero(r.value)
  {
    match predict(d.model, image, d.conf)
    case Failure(_) => None
    case Success(results) =>
      match Normalize(results)
      case Success(kpts) => kpts
      case Failure(_) => None
  }

  /** ClockDetector.detect is PoseDetector.detect with every exception absorbed
      into None, for the same model and threshold. */
  lemma {:induction false} DetectAbsorbsPoseErrors(m: Model, conf: real, image: Picture, predict: Predictor<PoseResult>)
    ensures Detect(Detector(m, conf), image, predict) ==
      match PoseDetector.Detect(PoseDetector.Detector(m, conf), image, predict)
      case Success(kpts) => kpts
      case Failure(_) => None
  {
  }

  /** An exception in prediction, or the IndexError of an empty candidate tensor,
      gives None. */
  lemma DetectErrorGivesNone(d: Detector, image: Picture, predict: Predictor<PoseResult>)
    requires predict(d.model, image, d.conf).Failure?
      || (predict(d.model, image, d.conf).Success? && Normalize(predict(d.model, image, d.conf).value).Failure?)
    ensures Detect(d, image, predict) == None
  {
  }
}
