/** The few pieces of Python semantics the core relies on. */
module Python {

  /** The exceptions the core can raise or catch. Exceptions raised inside a
      library the model abstracts (YOLO, OpenCV) are all `Raised`. */
  datatype Exception =
    | Raised(message: string)
    | KeyError(key: int)  // a dict lookup of a missing key
    | IndexError          // indexing a tensor past its end
    | ValueError          // unpacking a point array whose length is not four
    | AttributeError      // `.get` called on a YAML value that is not a mapping

  /** `int(v)` on a float, and numpy's `astype(int)`: truncation toward zero. */
  function Truncate(v: real): (n: int)
    ensures 0.0 <= v ==> n as real <= v < n as real + 1.0
    ensures v < 0.0 ==> n as real - 1.0 < v <= n as real
  {
    if 0.0 <= v then v.Floor else -((-v).Floor)
  }
}
