/** The result structure of a YOLO pose model and the guard chain both keypoint
    detectors apply to it (src/detectors/pose_detector.py:17-30 and
    src/detectors/clock_detector.py:18-31 are the same chain). */
module Keypoints {
  import opened Wrappers
  import opened Python
  import opened Vision

  /** `result.keypoints`: `data.shape[1]` (keypoints per candidate) and `xy`, one
      row of points per candidate, best candidate first. */
  datatype KeypointTensor = KeypointTensor(perCandidate: nat, xy: seq<seq<Point>>)

  /** One element of the list `predict` returns; `keypoints` is None when the model
      produced no keypoint head output. */
  datatype PoseResult = PoseResult(keypoints: Option<KeypointTensor>)

  /** `np.all(kpts == 0)`: every coordinate is zero (true of an empty array). */
  predicate AllZero(pts: seq<Point>) {
    forall i :: 0 <= i < |pts| ==> pts[i].x == 0.0 && pts[i].y == 0.0
  }

  /** The guard chain of `detect` after the prediction: no result, no keypoints,
      zero keypoints per candidate and the all-zero sentinel give None; otherwise the
      first candidate's points. `xy[0]` of a tensor with no candidate raises IndexError. */
  function Normalize(results: seq<PoseResult>): (r: Result<Option<seq<Point>>, Exception>)
    ensures r.Failure? ==> r.error == IndexError
    ensures r.Success? && r.value.Some? ==>
      && |results| > 0 && results[0].keypoints.Some?
      && |results[0].keypoints.value.xy| > 0
      && r.value.value == results[0].keypoints.value.xy[0]
      && !AllZero(r.value.value)
  {
    if |results| == 0 then Success(None)
    else
      match results[0].keypoints
      case None => Success(None)
      case Some(k) =>
        if k.perCandidate == 0 then Success(None)
        else if |k.xy| == 0 then Failure(IndexError)
        else if AllZero(k.xy[0]) then Success(None)
        else Success(Some(k.xy[0]))
  }

  /** No result, no keypoints, or zero keypoints per candidate: None. */
  lemma NormalizeRejectsMissingKeypoints(results: seq<PoseResult>)
    requires |results| == 0 || results[0].keypoints.None? || results[0].keypoints.value.perCandidate == 0
    ensures Normalize(results) == Success(None)
  {
  }

  /** Points are returned exactly when a first candidate exists and one of its
      coordinates is nonzero; they are that candidate's points, unmodified and in
      the detector's order. */
  lemma NormalizeReturnsFirstCandidate(results: seq<PoseResult>, pts: seq<Point>)
    ensures Normalize(results) == Success(Some(pts)) <==>
      && |results| > 0
      && results[0].keypoints.Some?
      && results[0].keypoints.value.perCandidate > 0
      && |results[0].keypoints.value.xy| > 0
      && pts == results[0].keypoints.value.xy[0]
      && exists i :: 0 <= i < |pts| && (pts[i].x != 0.0 || pts[i].y != 0.0)
  {
  }

  /** The null-detection sentinel: an all-zero first candidate gives None. */
  lemma NormalizeRejectsAllZero(results: seq<PoseResult>)
    requires |results| > 0 && results[0].keypoints.Some?
    requires |results[0].keypoints.value.xy| > 0 && AllZero(results[0].keypoints.value.xy[0])
    ensures Normalize(results) == Success(None)
  {
  }

  /** The only exception the guard chain raises is the IndexError of a tensor that
      declares keypoints but holds no candidate. */
  lemma NormalizeRaisesOnlyIndexError(results: seq<PoseResult>)
    ensures Normalize(results).Failure? <==>
      && |results| > 0
      && results[0].keypoints.Some?
      && results[0].keypoints.value.perCandidate > 0
      && |results[0].keypoints.value.xy| == 0
    ensures Normalize(results).Failure? ==> Normalize(results).error == IndexError
  {
  }
}
