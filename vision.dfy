/** Values shared by the detectors, the rectifier and the frame pipeline, and the
    foreign capabilities (model loading, inference) they are given. */
module Vision {
  import opened Wrappers
  import opened Python

  /** A 2D image point as a detector reports it (a float32 pair). */
  datatype Point = Point(x: real, y: real)

  /** A raster: its width, its height and its pixel data, which the model never inspects. */
  datatype Picture = Picture(width: int, height: int, pixels: seq<int>)

  /** A loaded YOLO network: the file it was read from and its class-id to class-name table. */
  datatype Model = Model(path: string, names: map<int, string>)

  /** `YOLO(path)`: the loaded network, or the exception loading it raised. */
  type Loader = string -> Result<Model, Exception>

  /** `model.predict` on an image with a confidence threshold: one result of type R
      per input image, or the exception inference raised. */
  type Predictor<R> = (Model, Picture, real) -> Result<seq<R>, Exception>
}
