/** Drawing a box as a wireframe (ThreeDRenderer/renderer/cuboid.py): each corner is
    projected onto the camera's view plane along the line from the camera, expressed
    relative to the plane's point, scaled so that the limits map to the window edges,
    and the twelve edges are drawn between the projected corners. Drawing itself is
    I/O; the model returns the segments that would be drawn, in drawing order. */
module Projector {
  import opened Wrappers
  import opened VectorMath
  import opened Cuboids
  import opened Cameras
  import opened RealArith

  /** A point in window coordinates. */
  datatype Pixel = Pixel(px: real, py: real)

  /** One drawn line, between two window points. */
  datatype Segment = Segment(from: Pixel, to: Pixel)

  /** The ray from the camera's position towards a corner; it reaches the corner at t = 1. */
  function CornerRay(c: Camera, corner: Point): (r: Ray)
    ensures r.start == c.position
    ensures RayAt(r, 1.0) == corner
  {
    Ray(VectorFromTo(c.position, corner), c.position)
  }

  /** Where the line through the camera and a corner crosses the view plane, relative to
      the plane's point: plane point plus offset lies on both the plane and that line.
      ParallelError when the line runs parallel to the plane, which includes a corner
      at the camera's own position. */
  function CornerOffset(c: Camera, corner: Point): (r: Result<Vec3>)
    ensures r.Err? <==> Dot(c.viewPlane.normal, VectorFromTo(c.position, corner)) == 0.0
    ensures r.Err? ==> r.error == ParallelError
    ensures r.Ok? ==> OnPlane(c.viewPlane, Add(c.viewPlane.point, r.value))
    ensures r.Ok? ==> OnLine(CornerRay(c, corner), Add(c.viewPlane.point, r.value))
  {
    var hit :- Intersect(c.viewPlane, CornerRay(c, corner));
    assert Add(c.viewPlane.point, Sub(hit, c.viewPlane.point)) == hit;
    Ok(Sub(hit, c.viewPlane.point))
  }

  /** The offsets of a list of corners, in order; the first corner that fails stops the
      loop with its error. */
  function Offsets(c: Camera, corners: seq<Point>): (r: Result<seq<Vec3>>)
    ensures r.Err? <==> exists i :: 0 <= i < |corners| && CornerOffset(c, corners[i]).Err?
    ensures r.Err? ==> r.error == ParallelError
    ensures r.Ok? ==> |r.value| == |corners|
    ensures r.Ok? ==> forall i :: 0 <= i < |corners| ==> CornerOffset(c, corners[i]) == Ok(r.value[i])
  {
    if |corners| == 0 then Ok([])
    else
      var first :- CornerOffset(c, corners[0]);
      var rest :- Offsets(c, corners[1..]);
      assert forall i :: 1 <= i < |corners| ==> corners[i] == corners[1..][i - 1];
      Ok([first] + rest)
  }

  /** A view-plane offset in window coordinates: x and y scaled and moved to the window
      centre; z plays no part. */
  function ToPixel(o: Vec3, xScale: real, yScale: real, w: int, h: int): Pixel {
    Pixel(o.x * xScale + w as real / 2.0, o.y * yScale + h as real / 2.0)
  }

  /** The lines between window points that the last loop draws, one per entry of
      `CornerConnections`, in that order. */
  function Wireframe(points: seq<Pixel>): (r: seq<Segment>)
    requires |points| == 8
    ensures |r| == |CornerConnections|
  {
    ConnectionsInRange();
    seq(12, k requires 0 <= k < 12 => Segment(points[CornerConnections[k].0], points[CornerConnections[k].1]))
  }

  /** Every line of the wireframe joins two of the window points. */
  lemma WireframeJoinsPoints(points: seq<Pixel>)
    requires |points| == 8
    ensures forall k :: 0 <= k < |Wireframe(points)| ==>
              Wireframe(points)[k].from in points && Wireframe(points)[k].to in points
  {
    ConnectionsInRange();
  }

  /** The twelve segments the renderer draws for a box, in the order of
      `CornerConnections`, or the error it raises: ParallelError for a corner whose
      line from the camera runs parallel to the view plane, then ZeroDivisionError
      when a limit is zero. */
  function Project(c: Camera, cube: Cuboid, w: int, h: int): (r: Result<seq<Segment>>)
    ensures Offsets(c, Corners(cube)).Err? ==> r == Err(ParallelError)
    ensures Offsets(c, Corners(cube)).Ok? ==> (r.Err? <==> c.xLimit == 0.0 || c.yLimit == 0.0)
    ensures Offsets(c, Corners(cube)).Ok? && r.Err? ==> r.error == ZeroDivisionError
    ensures r.Ok? ==> |r.value| == |CornerConnections|
    ensures r.Ok? ==> forall k :: 0 <= k < |CornerConnections| ==>
              var e := CornerConnections[k];
              r.value[k] == Segment(
                ToPixel(Offsets(c, Corners(cube)).value[e.0], w as real / (2.0 * c.xLimit), h as real / (2.0 * c.yLimit), w, h),
                ToPixel(Offsets(c, Corners(cube)).value[e.1], w as real / (2.0 * c.xLimit), h as real / (2.0 * c.yLimit), w, h))
  {
    var offsets :- Offsets(c, Corners(cube));
    var xScale :- Quotient(w as real, 2.0 * c.xLimit);
    var yScale :- Quotient(h as real, 2.0 * c.yLimit);
    ConnectionsInRange();
    Ok(Wireframe(seq(8, i requires 0 <= i < 8 => ToPixel(offsets[i], xScale, yScale, w, h))))
  }

  /** The renderer's three loops (offsets, window points, lines), computing what
      `Project` specifies. */
  method Render(c: Camera, cube: Cuboid, w: int, h: int) returns (r: Result<seq<Segment>>)
    ensures r == Project(c, cube, w, h)
  {
    var corners := Corners(cube);
    var offsets: seq<Vec3> := [];
    var i := 0;
    while i < |corners|
      invariant 0 <= i <= |corners|
      invariant |offsets| == i
      invariant forall j :: 0 <= j < i ==> CornerOffset(c, corners[j]) == Ok(offsets[j])
    {
      var o := CornerOffset(c, corners[i]);
      if o.Err? {
        return Err(o.error);
      }
      offsets := offsets + [o.value];
      i := i + 1;
    }
    OffsetsAllOk(c, corners, offsets);
    if c.xLimit == 0.0 || c.yLimit == 0.0 {
      return Err(ZeroDivisionError);
    }
    var points := ScalePoints(offsets, w as real / (2.0 * c.xLimit), h as real / (2.0 * c.yLimit), w, h);
    var segments := DrawEdges(points);
    ConnectionsInRange();
    ProjectFromParts(c, cube, w, h, offsets, points, segments);
    return Ok(segments);
  }

  /** The renderer's second loop: every offset in window coordinates, in order. */
  method ScalePoints(offsets: seq<Vec3>, xScale: real, yScale: real, w: int, h: int) returns (points: seq<Pixel>)
    ensures |points| == |offsets|
    ensures forall j :: 0 <= j < |offsets| ==> points[j] == ToPixel(offsets[j], xScale, yScale, w, h)
  {
    points := [];
    var i := 0;
    while i < |offsets|
      invariant 0 <= i <= |offsets|
      invariant |points| == i
      invariant forall j :: 0 <= j < i ==> points[j] == ToPixel(offsets[j], xScale, yScale, w, h)
    {
      points := points + [ToPixel(offsets[i], xScale, yScale, w, h)];
      i := i + 1;
    }
  }

  /** The renderer's last loop: one line per entry of `CornerConnections`, between the
      window points of its two corners. */
  method DrawEdges(points: seq<Pixel>) returns (segments: seq<Segment>)
    requires |points| == 8
    ensures segments == Wireframe(points)
    ensures forall j :: 0 <= j < |CornerConnections| ==>
              segments[j] == Segment(points[CornerConnections[j].0], points[CornerConnections[j].1])
  {
    ConnectionsInRange();
    segments := [];
    var k := 0;
    while k < |CornerConnections|
      invariant 0 <= k <= |CornerConnections|
      invariant |segments| == k
      invariant forall j :: 0 <= j < k ==>
                  segments[j] == Segment(points[CornerConnections[j].0], points[CornerConnections[j].1])
    {
      var e := CornerConnections[k];
      segments := segments + [Segment(points[e.0], points[e.1])];
      k := k + 1;
    }
  }

  /** When every corner has an offset, `Offsets` returns exactly those offsets. */
  lemma OffsetsAllOk(c: Camera, corners: seq<Point>, offsets: seq<Vec3>)
    requires |offsets| == |corners|
    requires forall j :: 0 <= j < |corners| ==> CornerOffset(c, corners[j]) == Ok(offsets[j])
    ensures Offsets(c, corners) == Ok(offsets)
  {
    var r := Offsets(c, corners);
    assert r.Ok?;
    assert forall j :: 0 <= j < |corners| ==> r.value[j] == offsets[j];
    assert r.value == offsets;
  }

  /** `Project` returns the segments the last loop builds from the window points. */
  lemma ProjectFromParts(c: Camera, cube: Cuboid, w: int, h: int, offsets: seq<Vec3>, points: seq<Pixel>, segments: seq<Segment>)
    requires Offsets(c, Corners(cube)) == Ok(offsets)
    requires c.xLimit != 0.0 && c.yLimit != 0.0
    requires |points| == 8
    requires forall j :: 0 <= j < 8 ==>
               points[j] == ToPixel(offsets[j], w as real / (2.0 * c.xLimit), h as real / (2.0 * c.yLimit), w, h)
    requires |segments| == |CornerConnections|
    requires forall j :: 0 <= j < |CornerConnections| ==>
               CornerConnections[j].0 < 8 && CornerConnections[j].1 < 8 &&
               segments[j] == Segment(points[CornerConnections[j].0], points[CornerConnections[j].1])
    ensures Project(c, cube, w, h) == Ok(segments)
  {
    var xScale, yScale := w as real / (2.0 * c.xLimit), h as real / (2.0 * c.yLimit);
    var drawn := seq(8, i requires 0 <= i < 8 => ToPixel(offsets[i], xScale, yScale, w, h));
    assert drawn == points;
    var p := Project(c, cube, w, h);
    assert p == Ok(Wireframe(points));
    assert forall j :: 0 <= j < |segments| ==> Wireframe(points)[j] == segments[j];
    assert Wireframe(points) == segments;
  }

  // ---------------------------------------------------------------- lemmas

  /** A corner that already lies on the view plane projects to itself: its offset is
      its own position relative to the plane's point. */
  lemma CornerOnPlaneProjectsToItself(c: Camera, corner: Point)
    requires Dot(c.viewPlane.normal, VectorFromTo(c.position, corner)) != 0.0
    requires OnPlane(c.viewPlane, corner)
    ensures CornerOffset(c, corner) == Ok(Sub(corner, c.viewPlane.point))
  {
    IntersectUnique(c.viewPlane, CornerRay(c, corner), 1.0);
  }

  /** The offset of a projected corner lies in the view plane: it is orthogonal to the
      looking direction. */
  lemma OffsetOrthogonalToLooking(c: Camera, corner: Point)
    requires Valid(c)
    requires CornerOffset(c, corner).Ok?
    ensures Dot(c.looking, CornerOffset(c, corner).value) == 0.0
  {
    var o := CornerOffset(c, corner).value;
    var q := Add(c.viewPlane.point, o);
    OnPlaneIffOrthogonal(c.viewPlane, q);
    assert Sub(q, c.viewPlane.point) == o;
  }

  /** The view plane's own point is drawn at the centre of the window. */
  lemma PlanePointAtCentre(xScale: real, yScale: real, w: int, h: int)
    ensures ToPixel(Zero, xScale, yScale, w, h) == Pixel(w as real / 2.0, h as real / 2.0)
  {
  }

  /** With the renderer's scales, offsets at plus or minus the limits land on the window
      edges: `xLimit` on the right edge, `-xLimit` on the left, and likewise in y. */
  lemma LimitsMapToEdges(o: Vec3, xLimit: real, yLimit: real, w: int, h: int)
    requires xLimit != 0.0 && yLimit != 0.0
    ensures var p := ToPixel(o, w as real / (2.0 * xLimit), h as real / (2.0 * yLimit), w, h);
            && (o.x == xLimit ==> p.px == w as real)
            && (o.x == -xLimit ==> p.px == 0.0)
            && (o.y == yLimit ==> p.py == h as real)
            && (o.y == -yLimit ==> p.py == 0.0)
  {
    EdgeScale(xLimit, w as real);
    EdgeScale(yLimit, h as real);
  }

  lemma EdgeScale(limit: real, size: real)
    requires limit != 0.0
    ensures limit * (size / (2.0 * limit)) == size / 2.0
    ensures -limit * (size / (2.0 * limit)) == -(size / 2.0)
  {
  }

  /** With non-zero scales the window point determines the x and y of the offset:
      two offsets drawn at the same place agree in x and y (they may differ in z). */
  lemma ToPixelDeterminesXY(a: Vec3, b: Vec3, xScale: real, yScale: real, w: int, h: int)
    requires xScale != 0.0 && yScale != 0.0
    ensures ToPixel(a, xScale, yScale, w, h) == ToPixel(b, xScale, yScale, w, h) <==> a.x == b.x && a.y == b.y
  {
    if ToPixel(a, xScale, yScale, w, h) == ToPixel(b, xScale, yScale, w, h) {
      CancelFactor(a.x, b.x, xScale);
      CancelFactor(a.y, b.y, yScale);
    }
  }
}
