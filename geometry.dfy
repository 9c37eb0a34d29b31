/** `four_point_transform` (src/utils/geometry.py): the output size and the point
    correspondences of the perspective rectification. The homography solve and the
    resampling are OpenCV's and are a parameter (Warper) of the model. */
module Geometry {
  import opened Wrappers
  import opened Python
  import opened Vision

  /** The integer square root: the largest r with r * r <= n. */
  function FloorSqrt(n: nat): (r: nat)
    ensures r * r <= n < (r + 1) * (r + 1)
  {
    if n == 0 then 0
    else
      var h := FloorSqrt(n / 4);
      FloorSqrtStep(n, h);
      if (2 * h + 1) * (2 * h + 1) <= n then 2 * h + 1 else 2 * h
  }

  /** From the root h of n / 4, one of 2h and 2h + 1 is the root of n. */
  lemma FloorSqrtStep(n: nat, h: nat)
    requires h * h <= n / 4 < (h + 1) * (h + 1)
    ensures (2 * h) * (2 * h) <= n < (2 * h + 2) * (2 * h + 2)
  {
    var q := n / 4;
    var hh := h * h;
    assert (h + 1) * (h + 1) == hh + 2 * h + 1;
    assert (2 * h) * (2 * h) == 4 * hh;
    assert (2 * h + 2) * (2 * h + 2) == 4 * hh + 8 * h + 4;
    assert 4 * q <= n < 4 * q + 4;
  }

  lemma {:induction false} SquareMonotone(a: nat, b: nat)
    requires a <= b
    ensures a * a <= b * b
    decreases b - a
  {
    if a < b {
      SquareMonotone(a, b - 1);
      var c := b - 1;
      assert b * b == c * c + 2 * c + 1;
    }
  }

  /** Only one natural number brackets n between consecutive squares. */
  lemma FloorSqrtUnique(n: nat, a: nat, b: nat)
    requires a * a <= n < (a + 1) * (a + 1)
    requires b * b <= n < (b + 1) * (b + 1)
    ensures a == b
  {
    if a < b {
      SquareMonotone(a + 1, b);
    } else if b < a {
      SquareMonotone(b + 1, a);
    }
  }

  function SquaredDistance(p: Point, q: Point): (d: real)
    ensures d >= 0.0
  {
    (p.x - q.x) * (p.x - q.x) + (p.y - q.y) * (p.y - q.y)
  }

  /** The edge length the rectifier uses: the Euclidean length of the segment pq
      truncated to an integer. */
  function TruncatedLength(p: Point, q: Point): (r: nat)
    ensures (r * r) as real <= SquaredDistance(p, q) < ((r + 1) * (r + 1)) as real
  {
    var d := SquaredDistance(p, q);
    FloorSqrt(d.Floor)
  }

  /** A longer segment never has a shorter truncated length. */
  lemma TruncatedLengthMonotone(p: Point, q: Point, u: Point, v: Point)
    requires SquaredDistance(p, q) <= SquaredDistance(u, v)
    ensures TruncatedLength(p, q) <= TruncatedLength(u, v)
  {
    var a, b := TruncatedLength(p, q), TruncatedLength(u, v);
    if b < a {
      SquareMonotone(b + 1, a);
    }
  }

  /** The larger of two truncated lengths is the truncated length of the longer segment. */
  lemma LongerEdge(p: Point, q: Point, u: Point, v: Point)
    ensures var m := Max(TruncatedLength(p, q), TruncatedLength(u, v));
      (m * m) as real <= MaxReal(SquaredDistance(p, q), SquaredDistance(u, v)) < ((m + 1) * (m + 1)) as real
  {
    if SquaredDistance(p, q) <= SquaredDistance(u, v) {
      TruncatedLengthMonotone(p, q, u, v);
    } else {
      TruncatedLengthMonotone(u, v, p, q);
    }
  }

  function Max(a: int, b: int): int {
    if a < b then b else a
  }

  function MaxReal(a: real, b: real): real {
    if a < b then b else a
  }

  /** `(maxWidth, maxHeight)`, or `target_size` when it is given. */
  datatype Size = Size(width: int, height: int)

  /** The size taken from the quadrilateral tl, tr, br, bl when no target size is
      given: each side is the truncated length of the longer of its two opposite
      edges (bottom and top for the width, right and left for the height). */
  function EdgeSize(tl: Point, tr: Point, br: Point, bl: Point): (s: Size)
    ensures s.width >= 0 && s.height >= 0
    ensures (s.width * s.width) as real <= MaxReal(SquaredDistance(br, bl), SquaredDistance(tr, tl))
      < ((s.width + 1) * (s.width + 1)) as real
    ensures (s.height * s.height) as real <= MaxReal(SquaredDistance(tr, br), SquaredDistance(tl, bl))
      < ((s.height + 1) * (s.height + 1)) as real
  {
    LongerEdge(br, bl, tr, tl);
    LongerEdge(tr, br, tl, bl);
    var maxWidth := Max(TruncatedLength(br, bl), TruncatedLength(tr, tl));
    var maxHeight := Max(TruncatedLength(tr, br), TruncatedLength(tl, bl));
    Size(maxWidth, maxHeight)
  }

  /** `dst`: the corners of the rectangle [0, w-1] x [0, h-1] in TL, TR, BR, BL order. */
  function Corners(s: Size): (c: seq<Point>)
    ensures |c| == 4
    ensures c[0] == Point(0.0, 0.0)
    ensures c[0].y == c[1].y && c[1].x == c[2].x && c[2].y == c[3].y && c[3].x == c[0].x
    ensures c[1].x - c[0].x == (s.width - 1) as real && c[3].y - c[0].y == (s.height - 1) as real
  {
    var right, bottom := (s.width - 1) as real, (s.height - 1) as real;
    [Point(0.0, 0.0), Point(right, 0.0), Point(right, bottom), Point(0.0, bottom)]
  }

  /** The arguments of the two OpenCV calls: the source quadrilateral, the
      destination rectangle and the output size. */
  datatype WarpPlan = WarpPlan(src: seq<Point>, dst: seq<Point>, size: Size)

  /** Everything `four_point_transform` computes before calling OpenCV: unpacking
      `pts` into tl, tr, br, bl (a ValueError unless there are exactly four), the
      output size, `dst` and `src`. */
  function Plan(pts: seq<Point>, targetSize: Option<Size>): (r: Result<WarpPlan, Exception>)
    ensures r.Success? <==> |pts| == 4
    ensures r.Failure? ==> r.error == ValueError
    ensures r.Success? ==> r.value.src == pts && r.value.dst == Corners(r.value.size)
    ensures r.Success? && targetSize.Some? ==> r.value.size == targetSize.value
    ensures r.Success? && targetSize.None? ==> r.value.size == EdgeSize(pts[0], pts[1], pts[2], pts[3])
  {
    if |pts| != 4 then Failure(ValueError)
    else
      var tl, tr, br, bl := pts[0], pts[1], pts[2], pts[3];
      assert [tl, tr, br, bl] == pts;
      var size := match targetSize
        case None => EdgeSize(tl, tr, br, bl)
        case Some(s) => s;
      Success(WarpPlan([tl, tr, br, bl], Corners(size), size))
  }

  /** OpenCV's homography solve followed by the warp into an image of the given size: the
      pixels of the rectified image, or the exception OpenCV raised. */
  type Warper = (Picture, seq<Point>, seq<Point>, Size) -> Result<seq<int>, Exception>

  /** The size of the image `warpPerspective` returns for a requested size: that size,
      or the input image's size when the request is empty (a side of 0 or less). */
  function OutputSize(image: Picture, dsize: Size): (s: Size)
    ensures dsize.width > 0 && dsize.height > 0 ==> s == dsize
    ensures dsize.width <= 0 || dsize.height <= 0 ==> s == Size(image.width, image.height)
  {
    if dsize.width <= 0 || dsize.height <= 0 then Size(image.width, image.height) else dsize
  }

  /** `four_point_transform(image, pts, target_size=None)`. */
  function FourPointTransform(cv: Warper, image: Picture, pts: seq<Point>, targetSize: Option<Size> := None)
    : (r: Result<Picture, Exception>)
    ensures r.Success? ==> |pts| == 4 && Plan(pts, targetSize).Success?
    ensures r.Success? ==> Size(r.value.width, r.value.height) == OutputSize(image, Plan(pts, targetSize).value.size)
    ensures |pts| != 4 ==> r == Failure(ValueError)
    ensures |pts| == 4 ==>
      var size := Plan(pts, targetSize).value.size;
      var px := cv(image, pts, Corners(size), size);
      && (r.Success? <==> px.Success?)
      && (r.Success? ==> r.value.pixels == px.value)
      && (r.Failure? ==> r.error == px.error)
  {
    var plan :- Plan(pts, targetSize);
    var pixels :- cv(image, plan.src, plan.dst, plan.size);
    var out := OutputSize(image, plan.size);
    Success(Picture(out.width, out.height, pixels))
  }

  /** Exactly four points are required; any other count raises ValueError. */
  lemma PlanNeedsFourPoints(pts: seq<Point>, targetSize: Option<Size>)
    ensures Plan(pts, targetSize).Failure? <==> |pts| != 4
    ensures Plan(pts, targetSize).Failure? ==> Plan(pts, targetSize).error == ValueError
  {
  }

  /** The source quadrilateral is the caller's points in the caller's order, and the
      destination is the output rectangle's corners in the same TL, TR, BR, BL order. */
  lemma PlanKeepsCallerOrder(pts: seq<Point>, targetSize: Option<Size>)
    requires |pts| == 4
    ensures Plan(pts, targetSize).Success?
    ensures Plan(pts, targetSize).value.src == pts
    ensures Plan(pts, targetSize).value.dst == Corners(Plan(pts, targetSize).value.size)
  {
    assert [pts[0], pts[1], pts[2], pts[3]] == pts;
  }

  /** A given target size is the output size, whatever the points. */
  lemma PlanUsesTargetSize(pts: seq<Point>, s: Size)
    requires |pts| == 4
    ensures Plan(pts, Some(s)).Success? && Plan(pts, Some(s)).value.size == s
  {
  }

  /** Without a target size the output size is the truncated length of the longer
      of each pair of opposite edges. */
  lemma PlanUsesEdgeSize(pts: seq<Point>)
    requires |pts| == 4
    ensures Plan(pts, None).Success?
    ensures Plan(pts, None).value.size.width == Max(TruncatedLength(pts[2], pts[3]), TruncatedLength(pts[1], pts[0]))
    ensures Plan(pts, None).value.size.height == Max(TruncatedLength(pts[1], pts[2]), TruncatedLength(pts[0], pts[3]))
  {
  }

  /** With a target size (w, h) of positive sides a successful transform yields a
      w x h image; with a side of 0 or less, OpenCV keeps the input image's size. */
  lemma TransformHasTargetSize(cv: Warper, image: Picture, pts: seq<Point>, s: Size)
    requires FourPointTransform(cv, image, pts, Some(s)).Success?
    ensures var w := FourPointTransform(cv, image, pts, Some(s)).value;
      Size(w.width, w.height) == if s.width > 0 && s.height > 0 then s else Size(image.width, image.height)
  {
  }

  /** Four copies of one point span no edge, so the planned size is 0 x 0 and a
      successful warp returns an image of the input's size. */
  lemma DegenerateQuadrilateralKeepsImageSize(cv: Warper, image: Picture, p: Point)
    requires FourPointTransform(cv, image, [p, p, p, p]).Success?
    ensures Plan([p, p, p, p], None).value.size == Size(0, 0)
    ensures var w := FourPointTransform(cv, image, [p, p, p, p]).value;
      w.width == image.width && w.height == image.height
  {
    assert SquaredDistance(p, p) == 0.0;
    FloorSqrtUnique(0, FloorSqrt(0), 0);
  }

  /** The axis-aligned quadrilateral (0,0), (99,0), (99,49), (0,49): a 100 x 50
      target gives a 100 x 50 plan, and without a target the plan is 99 x 49. */
  lemma AxisAlignedQuadrilateral()
    ensures var q := [Point(0.0, 0.0), Point(99.0, 0.0), Point(99.0, 49.0), Point(0.0, 49.0)];
      && Plan(q, Some(Size(100, 50))).value.size == Size(100, 50)
      && Plan(q, None).value.size == Size(99, 49)
  {
    var q := [Point(0.0, 0.0), Point(99.0, 0.0), Point(99.0, 49.0), Point(0.0, 49.0)];
    assert SquaredDistance(q[2], q[3]) == 9801.0 && SquaredDistance(q[1], q[0]) == 9801.0;
    assert SquaredDistance(q[1], q[2]) == 2401.0 && SquaredDistance(q[0], q[3]) == 2401.0;
    FloorSqrtUnique(9801, FloorSqrt(9801), 99);
    FloorSqrtUnique(2401, FloorSqrt(2401), 49);
    assert TruncatedLength(q[2], q[3]) == 99 && TruncatedLength(q[1], q[0]) == 99;
    assert TruncatedLength(q[1], q[2]) == 49 && TruncatedLength(q[0], q[3]) == 49;
    assert EdgeSize(q[0], q[1], q[2], q[3]) == Size(99, 49);
  }
}
