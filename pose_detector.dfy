/** `PoseDetector` (src/detectors/pose_detector.py): the keypoint detector the frame
    pipeline uses. Unlike ClockDetector it catches nothing. */
module PoseDetector {
  import opened Wrappers
  import opened Python
  import opened Vision
  import opened Keypoints

  datatype Detector = Detector(model: Model, conf: real)

  /** `__init__`: a model that fails to load re-raises its exception. */
  function New(load: Loader, modelPath: string, confThreshold: real := 0.4): (r: Result<Detector, Exception>)
    ensures r.Failure? <==> load(modelPath).Failure?
    ensures r.Failure? ==> r.error == load(modelPath).error
    ensures r.Success? ==> r.value == Detector(load(modelPath).value, confThreshold)
  {
    var model :- load(modelPath);
    Success(Detector(model, confThreshold))
  }

  /** `detect(image)`: the guard chain over the prediction; any exception of
      `predict` or of the chain propagates to the caller. */
  function Detect(d: Detector, image: Picture, predict: Predictor<PoseResult>): (r: Result<Option<seq<Point>>, Exception>)
    ensures r.Failure? ==>
      (predict(d.model, image, d.conf).Failure? && r.error == predict(d.model, image, d.conf).error)
      || r.error == IndexError
    ensures r.Success? && r.value.Some? ==> !AllZero(r.value.value)
  {
    var results :- predict(d.model, image, d.conf);
    Normalize(results)
  }

  /** An exception raised by prediction reaches the caller unchanged. */
  lemma DetectPropagatesErrors(d: Detector, image: Picture, predict: Predictor<PoseResult>)
    requires predict(d.model, image, d.conf).Failure?
    ensures Detect(d, image, predict) == Failure(predict(d.model, image, d.conf).error)
  {
  }

  /** A prediction with at least one result is normalised by the guard chain. */
  lemma DetectNormalizes(d: Detector, image: Picture, predict: Predictor<PoseResult>, results: seq<PoseResult>)
    requires predict(d.model, image, d.conf) == Success(results)
    ensures Detect(d, image, predict) == Normalize(results)
  {
  }
}
