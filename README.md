# Digital clock reader: verified model of the frame pipeline glue

This project models, in Dafny, the deterministic logic around the two YOLO
networks of a seven-segment clock reader:

- the **digit detector** (`DigitDetector`), which turns the boxes the digit network
  finds into class names ordered left to right by each box's `x_min`, with a
  stable sort;
- the **keypoint detectors** (`PoseDetector`, `ClockDetector`), which reduce the
  pose network's raw output to either nothing or the first candidate's points;
- the **rectifier** (`four_point_transform`), which picks the output size and the
  source and destination corners of the perspective warp;
- the **frame pipeline** (`ClockReader.process_frame`), which chains detection,
  rectification, recognition and the debug overlay, and absorbs errors inside its
  try block;
- the **settings** (`Config`), typed getters over the parsed YAML file with fixed
  defaults.

The networks and OpenCV are not modelled. They are function-typed parameters:
`Loader` stands for `YOLO(path)`, `Predictor<R>` for `model.predict` and `Warper`
for `getPerspectiveTransform` followed by `warpPerspective`. A Python exception is
a `Failure` of `Result`, and Python's `None` is `Option.None`.

Modules, one per source file: `Configuration` (src/core/config.py), `Geometry`
(src/utils/geometry.py), `Keypoints`, `PoseDetector` and `ClockDetector`
(src/detectors/pose_detector.py and clock_detector.py; their shared guard chain
is `Keypoints.Normalize`), `StableSort` and `DigitDetector`
(src/detectors/digit_detector.py), and `ClockReader`
(src/services/clock_reader.py). `Wrappers`, `Python` and `Vision` hold the shared
types. `DigitDetector.Detect` (with its loop over the boxes) and
`ClockReader.ProcessFrame` (whose drawing loop is the method `ClockReader.DrawOverlay`)
are methods, as in the source. Each is proved equal to a specification function
(`DigitDetector.Digits`, `ClockReader.Trace`), and the lemmas are about those
functions. The debug frame is a `Canvas` object: a copy of the input picture plus
the drawing calls made on it. The input frame is a value, so it is never drawn on.

In several places the code does something other than what its callers, its
configuration or its comments suggest. The model follows the code:

- `process_frame` calls the rectifier without `target_size`, so the rectified
  image takes its size from the quadrilateral's edges, not from the configured
  `warp_size` (`ClockReader.WarpSizeComesFromEdges`). When an edge size comes out
  as 0 (for example four copies of one keypoint), `cv2.warpPerspective` treats the
  requested size as empty and returns an image of the frame's size. This rule is
  OpenCV's, not the repository's, and the model states it in `Geometry.OutputSize`.
- `time_text` starts as `"Checking..."`, not `"..."`. It is drawn only when
  recognition returns, and it is never returned: `process_frame` returns the pair
  `(debug_frame, warped_img)`. The caller in main.py unpacks three values from it,
  which does not match.
- The pipeline uses `PoseDetector`, which catches nothing. Pose detection runs
  before the try block, so its exceptions leave `process_frame`
  (`ClockReader.OnlyPoseErrorsEscape`). Only `ClockDetector` turns exceptions into
  `None`.
- An IndexError can arise inside the keypoint guards. It happens when the keypoint
  tensor declares keypoints per candidate but holds no candidate
  (`Keypoints.NormalizeRaisesOnlyIndexError`).
- A digit class id missing from `model.names` raises KeyError inside `detect`. The
  pipeline's try block swallows it, and the rectified image is still returned.

## Model

| member | source | states |
|---|---|---|
| `Python.Truncate` | src/detectors/digit_detector.py:28 | `int()` of a float truncates toward zero: the result is within one of the value, on the zero side |
| `StableSort.SortByX` | src/detectors/digit_detector.py:34 | the sorted list has the same length and the same items as the input, in non-decreasing `x_min` order |
| `StableSort.Insert` | src/detectors/digit_detector.py:34 | inserting one item adds exactly that item to the list |
| `StableSort.InsertKeepsSorted` | src/detectors/digit_detector.py:34 | inserting into a list sorted by `x_min` keeps it sorted |
| `StableSort.SortByXKeepsTieOrder` | src/detectors/digit_detector.py:34 | the sort is stable: items with equal `x_min` keep their original relative order |
| `StableSort.StableSortIsUnique` | src/detectors/digit_detector.py:34 | any result that is sorted by `x_min` and keeps the tie order equals `SortByX`, so `list.sort` gives exactly this list |
| `StableSort.SortByXPermutesLabels` | src/detectors/digit_detector.py:34-36 | after sorting, the projected class names are a permutation of the names before sorting |
| `StableSort.Labels` | src/detectors/digit_detector.py:36 | the projection keeps one name per item, in the items' order |
| `StableSort.SortThreeItems` | src/detectors/digit_detector.py:34-36 | items at x 50, 10, 30 named "3", "1", "2" come out as "1", "2", "3" |
| `DigitDetector.ClassOf` | src/detectors/digit_detector.py:28 | a whole-number class id maps to that integer; a fractional one is truncated toward zero |
| `DigitDetector.New` | src/detectors/digit_detector.py:4-10 | a model that fails to load leaves the detector without a model; otherwise the model and the threshold are kept |
| `DigitDetector.Extract` | src/detectors/digit_detector.py:26-32 | the loop succeeds iff every box's truncated class id is in `names`; then item i is box i's `x_min` and class name; otherwise the KeyError names the first missing class id |
| `DigitDetector.Digits` | src/detectors/digit_detector.py:12-38 | a nonempty result or an exception needs a model and an image; an exception is either the prediction's own or the KeyError of a box whose class id is missing from `names`; the other promises are the lemmas below |
| `DigitDetector.DigitsSucceedIffNamesKnown` | src/detectors/digit_detector.py:16-38 | after a prediction with results, detect succeeds exactly when every box's class id is a key of `names` |
| `DigitDetector.Detect` | src/detectors/digit_detector.py:12-38 | the method with the extraction loop returns exactly `Digits`: the guards, the propagated prediction error, the KeyError, or the sorted names |
| `DigitDetector.DigitsPropagatesErrors` | src/detectors/digit_detector.py:16 | an exception raised by prediction reaches the caller unchanged; detect has no try block |
| `DigitDetector.DigitsKeyErrorIsFirstMissing` | src/detectors/digit_detector.py:16-30 | after a successful prediction, a failure is the KeyError of the first box whose class id is missing from `names` |
| `DigitDetector.UnavailableGivesEmpty` | src/detectors/digit_detector.py:13-14 | no model, or no image, gives the empty list |
| `DigitDetector.FailedLoadFindsNothing` | src/detectors/digit_detector.py:5-14 | a detector whose model failed to load returns the empty list for every image |
| `DigitDetector.NoResultsGivesEmpty` | src/detectors/digit_detector.py:18-19 | an empty prediction gives the empty list, not None |
| `DigitDetector.DigitsPermuteBoxNames` | src/detectors/digit_detector.py:26-36 | one name per box, with no filtering and no deduplication: the output is a permutation of `names[int(box[5])]` over all boxes |
| `DigitDetector.DigitsLeftToRight` | src/detectors/digit_detector.py:34-36 | the output is the names of the items sorted by `x_min`, stably |
| `DigitDetector.ThreeBoxesLeftToRight` | src/detectors/digit_detector.py:12-38 | boxes at x_min 50, 10, 30 of classes 3, 1, 2 are read as "1", "2", "3" |
| `Keypoints.Normalize` | src/detectors/pose_detector.py:17-30 | the only exception is IndexError; returned points are the first candidate's, unmodified, and not all zero; the lemmas below give the exact conditions |
| `Keypoints.NormalizeRejectsMissingKeypoints` | src/detectors/pose_detector.py:17-23 | no result, no keypoints, or zero keypoints per candidate gives None |
| `Keypoints.NormalizeReturnsFirstCandidate` | src/detectors/pose_detector.py:20-30 | points are returned iff a first candidate exists and one of its coordinates is nonzero; they are that candidate's points, unmodified and in order |
| `Keypoints.NormalizeRejectsAllZero` | src/detectors/pose_detector.py:25-28 | an all-zero first candidate gives None |
| `Keypoints.NormalizeRaisesOnlyIndexError` | src/detectors/pose_detector.py:22-25 | the guards raise only IndexError, and only when keypoints are declared but no candidate exists |
| `PoseDetector.New` | src/detectors/pose_detector.py:5-12 | a load failure is re-raised unchanged; otherwise the model and threshold are kept |
| `PoseDetector.Detect` | src/detectors/pose_detector.py:14-30 | an exception is the prediction's own or the guards' IndexError; returned points are never all zero |
| `PoseDetector.DetectPropagatesErrors` | src/detectors/pose_detector.py:14-15 | an exception from prediction reaches the caller unchanged |
| `PoseDetector.DetectNormalizes` | src/detectors/pose_detector.py:14-30 | a successful prediction is reduced by the keypoint guards |
| `ClockDetector.New` | src/detectors/clock_detector.py:5-12 | a load failure is re-raised unchanged |
| `ClockDetector.Detect` | src/detectors/clock_detector.py:14-34 | never raises; points are returned only when prediction succeeded and the guards returned exactly those points, which are not all zero |
| `ClockDetector.DetectAbsorbsPoseErrors` | src/detectors/clock_detector.py:14-34 | ClockDetector.detect is PoseDetector.detect with every exception turned into None |
| `ClockDetector.DetectErrorGivesNone` | src/detectors/clock_detector.py:15-34 | a prediction exception or the guards' IndexError gives None |
| `Geometry.FloorSqrt` | src/utils/geometry.py:18-26 | the integer square root: r * r <= n < (r + 1) * (r + 1) |
| `Geometry.SquaredDistance` | src/utils/geometry.py:18-25 | the squared Euclidean distance under each square root is never negative |
| `Geometry.TruncatedLength` | src/utils/geometry.py:18-19 | `int(np.sqrt(d))` of a squared distance d is the r with r * r <= d < (r + 1) * (r + 1) |
| `Geometry.EdgeSize` | src/utils/geometry.py:15-26 | the width is the truncated length of the longer of the bottom and top edges, and the height that of the longer of the right and left edges |
| `Geometry.Corners` | src/utils/geometry.py:32-37 | the destination is the axis-aligned rectangle from (0,0), w-1 wide and h-1 high, listed TL, TR, BR, BL |
| `Geometry.Plan` | src/utils/geometry.py:13-39 | ValueError iff there are not exactly four points; otherwise `src` is the caller's points in order, `dst` the corners of the size, and the size is the target size when given and the edge size otherwise |
| `Geometry.OutputSize` | src/utils/geometry.py:42 | `warpPerspective` returns the requested size when both sides are positive, and the input image's size otherwise |
| `Geometry.FourPointTransform` | src/utils/geometry.py:4-44 | any point count other than four raises ValueError; with four points OpenCV gets the caller's points in order and the corners of the planned size, the transform succeeds exactly when OpenCV does, with its pixels or its exception, and the size is the planned size passed through `OutputSize` |
| `Geometry.PlanNeedsFourPoints` | src/utils/geometry.py:13 | unpacking fails with ValueError iff there are not exactly four points |
| `Geometry.PlanKeepsCallerOrder` | src/utils/geometry.py:13-39 | the source quadrilateral is the caller's points in the caller's order; the destination is the corners of the output size |
| `Geometry.PlanUsesTargetSize` | src/utils/geometry.py:28-29 | a given target size is used as it is, whatever the points |
| `Geometry.PlanUsesEdgeSize` | src/utils/geometry.py:15-26 | without a target size, width = max(int\|br-bl\|, int\|tr-tl\|) and height = max(int\|tr-br\|, int\|tl-bl\|) |
| `Geometry.TransformHasTargetSize` | src/utils/geometry.py:28-42 | with a target size (w, h) of positive sides a successful warp is w x h; with a side of 0 or less it has the input image's size |
| `Geometry.DegenerateQuadrilateralKeepsImageSize` | src/utils/geometry.py:15-42 | four copies of one point plan a 0 x 0 output, so a successful warp has the input image's size |
| `Geometry.AxisAlignedQuadrilateral` | src/utils/geometry.py:15-29 | the rectangle (0,0), (99,0), (99,49), (0,49) gives 100 x 50 with that target size, and 99 x 49 without one |
| `Configuration.Load` | src/core/config.py:5-14 | a missing file gives an empty configuration, in which every key is absent; a found file is kept as parsed |
| `Configuration.Get` | src/core/config.py:16-18 | a nested `.get` returns the default when the key or its section is absent and the configured value when present; calling it on a non-mapping raises AttributeError |
| `Configuration.PoseModelPath` | src/core/config.py:16-18 | "models/clock_pose_v1.pt" when `model.pose_path` is absent, the configured value when present |
| `Configuration.PoseConf` | src/core/config.py:20-22 | 0.5 when `model.pose_conf` is absent, the configured value when present |
| `Configuration.DigitModelPath` | src/core/config.py:24-26 | "models/digit_rec_v1.pt" when `model.digit_path` is absent, the configured value when present |
| `Configuration.DigitConf` | src/core/config.py:28-30 | 0.5 when `model.digit_conf` is absent, the configured value when present |
| `Configuration.CameraId` | src/core/config.py:32-34 | 0 when `camera.id` is absent, the configured value when present |
| `Configuration.CameraWidth` | src/core/config.py:36-38 | 640 when `camera.width` is absent, the configured value when present |
| `Configuration.CameraHeight` | src/core/config.py:40-42 | 480 when `camera.height` is absent, the configured value when present |
| `Configuration.WarpSize` | src/core/config.py:44-48 | (320, 128) when both keys are absent, both configured values when both are present; the mixed cases are in `WarpSizeComponentsIndependent` |
| `Configuration.DebugMode` | src/core/config.py:50-52 | true when `app.debug_mode` is absent, the configured value when present |
| `Configuration.MissingFileGivesDefaults` | src/core/config.py:9-11 | with no file, every getter returns its default: the two model paths, 0.5, 0.5, camera 0, 640, 480, (320, 128), debug on |
| `Configuration.WarpSizeComponentsIndependent` | src/core/config.py:44-48 | `warp_width` and `warp_height` default to 320 and 128, each on its own |
| `ClockReader.New` | src/services/clock_reader.py:7-9 | the reader fails exactly when the pose model fails to load, with that error; otherwise the pose detector holds the loaded model and `pose_conf`, and the digit detector holds the loaded digit model and `digit_conf`, or no model when that load failed |
| `ClockReader.Canvas.Copy` | src/services/clock_reader.py:16 | the debug frame starts as the input picture with nothing drawn |
| `ClockReader.Canvas.Draw` | src/services/clock_reader.py:28-36 | each drawing call appends its mark to the debug frame and changes nothing else |
| `ClockReader.JoinSingleCharacters` | src/services/clock_reader.py:24 | joining one-character labels gives one character per label, in order, with no separator |
| `ClockReader.Join` | src/services/clock_reader.py:24 | `"".join`; its meaning is fixed by `JoinAppend` and `JoinSingle` |
| `ClockReader.JoinAppend` | src/services/clock_reader.py:24 | joining two lists is joining each and concatenating, for labels of any length |
| `ClockReader.JoinSingle` | src/services/clock_reader.py:24 | one label joins to itself |
| `ClockReader.TimeText` | src/services/clock_reader.py:24 | the conditional expression for the time text; stated by `TimeTextRule` |
| `ClockReader.TimeTextRule` | src/services/clock_reader.py:24 | no digits give "..."; otherwise the text starts with the first label, ends with the last, and joins the rest with no separator; one-character labels give one character per digit, in order |
| `ClockReader.DigitsJoinWithoutSeparator` | src/services/clock_reader.py:24 | the digits "1", "2", "3" give "123" |
| `ClockReader.ToPixel` | src/services/clock_reader.py:26 | one keypoint truncated toward zero (`Python.Truncate`) |
| `ClockReader.Pixels` | src/services/clock_reader.py:26 | `keypoints.astype(int)`: one pixel per keypoint, each coordinate truncated toward zero |
| `ClockReader.Circles` | src/services/clock_reader.py:28-29 | the circles the loop draws; stated by `CirclesMarkEachPoint` |
| `ClockReader.Overlay` | src/services/clock_reader.py:26-36 | the marks the try block draws; stated by `OverlayMarksEveryKeypoint` |
| `ClockReader.CirclesMarkEachPoint` | src/services/clock_reader.py:28-29 | the drawing loop puts one filled red circle of radius 5 on each keypoint, in order |
| `ClockReader.OverlayMarksEveryKeypoint` | src/services/clock_reader.py:26-36 | the overlay marks every keypoint at its truncated position, then draws the closed green polygon through the truncated keypoints, then "Result: <time text>" 10 pixels above the first keypoint |
| `ClockReader.DrawOverlay` | src/services/clock_reader.py:26-36 | the drawing loop and the two calls after it append exactly the overlay's marks to the debug frame |
| `ClockReader.Trace` | src/services/clock_reader.py:11-41 | fails exactly when pose detection raises, with that error; no rectified image means the text is still "Checking..." and nothing is drawn; anything drawn means a rectified image exists |
| `ClockReader.ProcessFrame` | src/services/clock_reader.py:11-41 | the method returns a fresh copy of the frame with exactly the marks of `Trace` and the rectified image of `Trace`, or the pose detector's exception |
| `ClockReader.NoKeypointsLeavesFrameUndrawn` | src/services/clock_reader.py:12-18 | no keypoints: no rectified image, an undrawn copy of the frame, and the time text still "Checking..." |
| `ClockReader.RecognitionDrawsOverlay` | src/services/clock_reader.py:18-36 | keypoints found, warp and recognition return: the frame keeps the rectified image, the time text is `TimeText` of the digits, and the overlay for that text is drawn |
| `ClockReader.RecognitionErrorKeepsWarp` | src/services/clock_reader.py:19-39 | recognition raises after the warp: the rectified image is still returned, the text stays "Checking..." and nothing is drawn |
| `ClockReader.WarpErrorGivesNothing` | src/services/clock_reader.py:19-39 | the warp raises: no rectified image, the text stays "Checking..." and nothing is drawn |
| `ClockReader.OnlyPoseErrorsEscape` | src/services/clock_reader.py:12-41 | the frame fails exactly when pose detection raises, with that exception; errors in warping, recognition or drawing are swallowed |
| `ClockReader.WarpSizeComesFromEdges` | src/services/clock_reader.py:20 | the rectified image has the quadrilateral's edge size, because no target size is passed; when an edge size is 0 it has the frame's size |
| `ClockReader.TimeTextOnlyAfterRecognition` | src/services/clock_reader.py:15-35 | the time text changes from "Checking..." only when recognition returns; then it is the recognised text and is drawn as the last mark |
| `ClockReader.AllZeroKeypointsGiveNoWarp` | src/services/clock_reader.py:12-18 | all-zero keypoints give no rectified image and nothing drawn |

## Left out

- Model loading and inference (`YOLO(path)`, `model.predict`): foreign ML code, given as the `Loader` and `Predictor` parameters. The confidence threshold is passed to them and not interpreted.
- `cv2.getPerspectiveTransform` and `cv2.warpPerspective`: floating-point homography and bicubic resampling, given as the `Warper` parameter. Only the point arguments and the output size are modelled. The size includes OpenCV's rule that an empty requested size gives the input image's size.
- `cv2.circle`, `cv2.polylines` and `cv2.putText`: raster drawing, recorded as `Mark` values on the debug frame. They are assumed not to raise, and the font face is not recorded.
- Geometry.TruncatedLength: the point coordinates are exact reals, and `int(np.sqrt(d))` is the exact integer square root. float32 rounding, and the rounding of `np.sqrt` just below a perfect square, are not modelled.
- NaN and infinite coordinates are not modelled: the `Point` and `Box` values are reals.
- The `print` calls in the detectors and in `process_frame`: console output.
- `Config.__init__` path resolution (`os.path.exists`, the working-directory join) and `yaml.safe_load`: file-system and library I/O. `Configuration.Load` takes the parsed file, or nothing when no file was found. A YAML parse error is not modelled.
- The module-level `settings = Config()` instance: it reads the file system at import time.
- main.py, the scripts under scripts/ and src/core/logger.py: camera and video loops, training and evaluation wrappers, and logging setup.
