/** The camera (ThreeDRenderer/Camera.py): a position, a looking direction, a view
    plane ten units ahead, a yaw angle and a horizontal field of view from which the
    half-widths (`xLimit`, `yLimit`) of the visible part of the view plane follow.
    Each mutating method of the source becomes a function from the old camera to the
    new one; the source's shared looking vector (the view plane's normal is the same
    object) becomes the invariant `Aliased`. */
module Cameras {
  import opened Wrappers
  import opened Transcendental
  import opened VectorMath
  import opened RealArith

  /** How far ahead of the position the view plane sits. */
  const ViewDistance: real := 10.0

  /** The initial looking direction. */
  const Forward: Vec3 := Vec3(0.0, 0.0, 1.0)

  /** The fixed plane z = 10 and the origin that `change_x_fov_to` measures the x limit
      with, independently of where the camera is. */
  const FovPlane: Plane := MakePlane(Forward, Vec3(0.0, 0.0, ViewDistance))
  const FovPoint: Point := Zero

  datatype Camera = Camera(
    windowWidth: int,
    windowHeight: int,
    xToY: real,
    yToX: real,
    position: Point,
    looking: Vec3,
    viewPlane: Plane,
    yaw: real,
    xFov: real,
    xLimit: real,
    yLimit: real)

  /** The view plane's normal is the looking vector (one shared object in the source). */
  predicate Aliased(c: Camera) {
    c.viewPlane.normal == c.looking
  }

  /** The view plane's point is `ViewDistance` ahead of the position along the looking vector. */
  predicate Standoff(c: Camera) {
    c.viewPlane.point == Add(c.position, Scale(c.looking, ViewDistance))
  }

  /** What every camera satisfies after construction and after each operation.
      `Standoff` is not among them: `rotate_to` breaks it. */
  predicate Valid(c: Camera) {
    && c.windowWidth != 0 && c.windowHeight != 0
    && c.xToY * c.windowWidth as real == c.windowHeight as real
    && c.yToX * c.windowHeight as real == c.windowWidth as real
    && Aliased(c)
    && Consistent(c.viewPlane)
    && c.yLimit == c.xLimit * c.xToY
  }

  /** The direction at half the field of view to the right of straight ahead. */
  function HalfFovDirection(fov: real, m: Math): Vec3 {
    Vec3(m.sin(fov / 2.0), 0.0, m.cos(fov / 2.0))
  }

  /** The half-field-of-view ray runs parallel to any plane facing `Forward`. */
  predicate EdgeParallel(fov: real, m: Math) {
    m.cos(fov / 2.0) == 0.0
  }

  /** `x` is where the half-field-of-view ray from x coordinate `o` meets a plane ten
      units ahead: `x = o + 10 tan(fov / 2)`, written without the division. */
  predicate HalfWidthAt(x: real, o: real, fov: real, m: Math) {
    (x - o) * m.cos(fov / 2.0) == ViewDistance * m.sin(fov / 2.0)
  }

  /** The two window ratios, height over width and width over height; Python raises
      ZeroDivisionError for a zero width or height. */
  function Ratios(w: int, h: int): (r: Result<(real, real)>)
    ensures r.Err? <==> w == 0 || h == 0
    ensures r.Err? ==> r.error == ZeroDivisionError
    ensures r.Ok? ==> r.value.0 * w as real == h as real && r.value.1 * h as real == w as real
  {
    if w == 0 || h == 0 then Err(ZeroDivisionError)
    else Ok((h as real / w as real, w as real / h as real))
  }

  /** The view plane of a camera at `p` looking along `Forward`. */
  function InitialPlane(p: Point): (r: Plane)
    ensures r.normal == Forward && Consistent(r)
    ensures r.point == Add(p, Scale(Forward, ViewDistance))
  {
    MakePlane(Forward, Add(p, Scale(Forward, ViewDistance)))
  }

  /** The x coordinate of the point where the half-field-of-view ray from `p` meets
      the plane ten units ahead of `p`: `p.x + 10 tan(fov / 2)`, or ParallelError
      when the ray runs parallel to the plane. */
  function HalfFovHitX(p: Point, fov: real, m: Math): (r: Result<real>)
    ensures r.Err? <==> m.cos(fov / 2.0) == 0.0
    ensures r.Err? ==> r.error == ParallelError
    ensures r.Ok? ==> HalfWidthAt(r.value, p.x, fov, m)
  {
    var hit := Intersect(InitialPlane(p), Ray(HalfFovDirection(fov, m), p));
    FovHit(p, fov, m);
    if hit.Err? then Err(hit.error) else Ok(hit.value.x)
  }

  /** What `Camera.__init__` establishes whatever the limits: the invariant, a window of
      `w` by `h`, and a camera at `start` looking along `Forward` with yaw 0, field of
      view `fov` and the view plane ten units ahead. */
  predicate Initial(c: Camera, w: int, h: int, start: Point, fov: real) {
    && Valid(c) && Standoff(c)
    && c.position == start && c.looking == Forward && c.yaw == 0.0 && c.xFov == fov
    && c.windowWidth == w && c.windowHeight == h
  }

  /** The state `Camera.__init__` leaves behind, given its window ratios and x limit:
      at `start`, looking along `Forward` with yaw 0, the view plane ten units ahead. */
  function FreshCamera(w: int, h: int, ratios: (real, real), start: Point, fov: real, xLimit: real): (c: Camera)
    requires w != 0 && h != 0
    requires ratios.0 * w as real == h as real && ratios.1 * h as real == w as real
    ensures Initial(c, w, h, start, fov)
    ensures c.xLimit == xLimit && c.yLimit == xLimit * ratios.0
    ensures c.xToY == ratios.0 && c.yToX == ratios.1
  {
    Camera(w, h, ratios.0, ratios.1, start, Forward, InitialPlane(start), 0.0, fov, xLimit, xLimit * ratios.0)
  }

  /** `Camera.__init__` as written: the x limit is the absolute x coordinate of the
      half-field-of-view hit, so it includes the position's own x. The ratio printed
      at the end divides by the y limit and raises when that is zero. */
  function NewCameraAsWritten(w: int, h: int, fov: real, start: Point, m: Math): (r: Result<Camera>)
    ensures w == 0 || h == 0 ==> r == Err(ZeroDivisionError)
    ensures w != 0 && h != 0 && EdgeParallel(fov, m) ==> r == Err(ParallelError)
    ensures r.Ok? ==> Initial(r.value, w, h, start, fov) && r.value.yLimit != 0.0
    ensures r.Ok? ==> !EdgeParallel(fov, m) && HalfWidthAt(r.value.xLimit, start.x, fov, m)
    ensures r.Err? && w != 0 && h != 0 && !EdgeParallel(fov, m) ==> r.error == ZeroDivisionError
  {
    var ratios := Ratios(w, h);
    if ratios.Err? then Err(ZeroDivisionError)
    else AfterRatiosAsWritten(w, h, ratios.value, fov, start, m)
  }

  /** The rest of `Camera.__init__` as written, once the window ratios are known. */
  function AfterRatiosAsWritten(w: int, h: int, ratios: (real, real), fov: real, start: Point, m: Math): (r: Result<Camera>)
    requires w != 0 && h != 0
    requires ratios.0 * w as real == h as real && ratios.1 * h as real == w as real
    ensures EdgeParallel(fov, m) ==> r == Err(ParallelError)
    ensures r.Ok? ==> Initial(r.value, w, h, start, fov) && r.value.yLimit != 0.0
    ensures r.Ok? ==> !EdgeParallel(fov, m) && HalfWidthAt(r.value.xLimit, start.x, fov, m)
    ensures r.Err? && !EdgeParallel(fov, m) ==> r.error == ZeroDivisionError
    ensures r.Ok? <==> !EdgeParallel(fov, m) && HalfFovHitX(start, fov, m).value * ratios.0 != 0.0
  {
    var hitX := HalfFovHitX(start, fov, m);
    if hitX.Err? then Err(ParallelError)
    else FinishInit(w, h, ratios, start, fov, hitX.value)
  }

  /** `Camera.__init__` with the x limit measured from the view plane's own point, as
      `change_x_fov_to` measures it: the corrected counterpart of `NewCameraAsWritten`. */
  function NewCamera(w: int, h: int, fov: real, start: Point, m: Math): (r: Result<Camera>)
    ensures w == 0 || h == 0 ==> r == Err(ZeroDivisionError)
    ensures w != 0 && h != 0 && EdgeParallel(fov, m) ==> r == Err(ParallelError)
    ensures r.Ok? ==> Initial(r.value, w, h, start, fov) && r.value.yLimit != 0.0
    ensures r.Ok? ==> !EdgeParallel(fov, m) && HalfWidthAt(r.value.xLimit, 0.0, fov, m)
    ensures r.Err? && w != 0 && h != 0 && !EdgeParallel(fov, m) ==> r.error == ZeroDivisionError
  {
    var ratios := Ratios(w, h);
    if ratios.Err? then Err(ZeroDivisionError)
    else AfterRatios(w, h, ratios.value, fov, start, m)
  }

  /** The rest of the corrected `Camera.__init__`, once the window ratios are known. */
  function AfterRatios(w: int, h: int, ratios: (real, real), fov: real, start: Point, m: Math): (r: Result<Camera>)
    requires w != 0 && h != 0
    requires ratios.0 * w as real == h as real && ratios.1 * h as real == w as real
    ensures EdgeParallel(fov, m) ==> r == Err(ParallelError)
    ensures r.Ok? ==> Initial(r.value, w, h, start, fov) && r.value.yLimit != 0.0
    ensures r.Ok? ==> !EdgeParallel(fov, m) && HalfWidthAt(r.value.xLimit, 0.0, fov, m)
    ensures r.Err? && !EdgeParallel(fov, m) ==> r.error == ZeroDivisionError
    ensures r.Ok? <==> !EdgeParallel(fov, m) && PlaneRelative(HalfFovHitX(start, fov, m).value, start, fov, m) * ratios.0 != 0.0
  {
    var hitX := HalfFovHitX(start, fov, m);
    if hitX.Err? then Err(ParallelError)
    else FinishInit(w, h, ratios, start, fov, PlaneRelative(hitX.value, start, fov, m))
  }

  /** The corrected x limit: the hit's x coordinate measured from the initial view
      plane's point, which is the half-width itself. */
  function PlaneRelative(hitX: real, start: Point, fov: real, m: Math): (x: real)
    requires HalfWidthAt(hitX, start.x, fov, m)
    ensures HalfWidthAt(x, 0.0, fov, m)
  {
    HalfWidthShift(hitX, start.x, fov, m);
    hitX - InitialPlane(start).point.x
  }

  /** The end of `Camera.__init__` once the ratios and the x limit are known: the
      fresh camera, unless the closing print's division by the y limit raises
      ZeroDivisionError. */
  function FinishInit(w: int, h: int, ratios: (real, real), start: Point, fov: real, xLimit: real): (r: Result<Camera>)
    requires w != 0 && h != 0
    requires ratios.0 * w as real == h as real && ratios.1 * h as real == w as real
    ensures r.Ok? <==> xLimit * ratios.0 != 0.0
    ensures r.Err? ==> r == Err(ZeroDivisionError)
    ensures r.Ok? ==> Initial(r.value, w, h, start, fov) && r.value.xLimit == xLimit && r.value.yLimit != 0.0
  {
    var c := FreshCamera(w, h, ratios, start, fov, xLimit);
    if c.yLimit == 0.0 then Err(ZeroDivisionError) else Ok(c)
  }

  /** The clamp of `change_x_fov_to`: below pi/100 becomes pi/100, above 99/100 pi
      becomes 99/100 pi; both ends are allowed. */
  function ClampFov(angle: real, pi: real): (r: real)
    ensures pi > 0.0 ==> pi / 100.0 <= r <= 99.0 / 100.0 * pi
    ensures pi / 100.0 <= angle <= 99.0 / 100.0 * pi ==> r == angle
    ensures r == angle || r == pi / 100.0 || r == 99.0 / 100.0 * pi
    ensures angle < pi / 100.0 ==> r == pi / 100.0
    ensures pi / 100.0 <= angle && angle > 99.0 / 100.0 * pi ==> r == 99.0 / 100.0 * pi
  {
    if angle < pi / 100.0 then pi / 100.0
    else if angle > 99.0 / 100.0 * pi then 99.0 / 100.0 * pi
    else angle
  }

  /** The x limit for a field of view, measured on the fixed plane z = 10 from the
      origin: the half-width `10 tan(fov / 2)`, or ParallelError. The fixed plane is
      the view plane a camera at the origin starts with. */
  function FovLimit(fov: real, m: Math): (r: Result<real>)
    ensures r.Err? <==> m.cos(fov / 2.0) == 0.0
    ensures r.Err? ==> r.error == ParallelError
    ensures r.Ok? ==> HalfWidthAt(r.value, 0.0, fov, m)
  {
    var hit := Intersect(FovPlane, Ray(HalfFovDirection(fov, m), FovPoint));
    FovPlaneAtOrigin();
    FovHit(FovPoint, fov, m);
    if hit.Err? then Err(hit.error) else Ok(hit.value.x)
  }

  /** `Camera.change_x_fov_to`: clamp the angle, then recompute both limits. Nothing
      but the field of view and the limits changes. */
  function ChangeXFovTo(c: Camera, angle: real, m: Math): (r: Result<Camera>)
    ensures r.Err? <==> m.cos(ClampFov(angle, m.pi) / 2.0) == 0.0
    ensures r.Err? ==> r.error == ParallelError
    ensures r.Ok? ==> r.value.xFov == ClampFov(angle, m.pi)
    ensures r.Ok? ==> HalfWidthAt(r.value.xLimit, 0.0, r.value.xFov, m)
    ensures r.Ok? ==> r.value.yLimit == r.value.xLimit * c.xToY
    ensures r.Ok? ==> r.value == c.(xFov := r.value.xFov, xLimit := r.value.xLimit, yLimit := r.value.yLimit)
    ensures r.Ok? && Valid(c) ==> Valid(r.value)
  {
    var fov := ClampFov(angle, m.pi);
    var xLimit :- FovLimit(fov, m);
    Ok(c.(xFov := fov, xLimit := xLimit, yLimit := xLimit * c.xToY))
  }

  /** `Camera.change_x_fov_by`: widen (or narrow) the field of view by `angle`. */
  function ChangeXFovBy(c: Camera, angle: real, m: Math): (r: Result<Camera>)
    ensures r == ChangeXFovTo(c, c.xFov + angle, m)
  {
    ChangeXFovTo(c, c.xFov + angle, m)
  }

  /** `Camera.move_to`: the camera and its view plane move together. */
  function MoveTo(c: Camera, p: Point): (r: Camera)
    ensures r.position == p && Standoff(r)
    ensures Consistent(r.viewPlane) && r.viewPlane.normal == c.viewPlane.normal
    ensures r == c.(position := p, viewPlane := r.viewPlane)
    ensures Valid(c) ==> Valid(r)
  {
    c.(position := p, viewPlane := ChangePoint(c.viewPlane, Add(p, Scale(c.looking, ViewDistance))))
  }

  /** `Camera.move`: move by an offset. */
  function Move(c: Camera, d: Vec3): (r: Camera)
    ensures r.position == Add(c.position, d)
    ensures r == MoveTo(c, Add(c.position, d))
  {
    MoveTo(c, Add(d, c.position))
  }

  /** `Camera.rotate_to`: look along `(sin angle, 0, cos angle)`. The view plane turns
      with the looking vector but keeps its point, so it is not put back in front of
      the camera until the next move. */
  function RotateTo(c: Camera, angle: real, m: Math): (r: Camera)
    ensures r.looking == Vec3(m.sin(angle), 0.0, m.cos(angle)) && r.yaw == angle
    ensures Aliased(r) && Consistent(r.viewPlane)
    ensures r.viewPlane.point == c.viewPlane.point
    ensures r == c.(looking := r.looking, viewPlane := r.viewPlane, yaw := angle)
    ensures Valid(c) ==> Valid(r)
  {
    var looking := Vec3(m.sin(angle), 0.0, m.cos(angle));
    c.(looking := looking, viewPlane := UpdateConstant(c.viewPlane.(normal := looking)), yaw := angle)
  }

  /** `Camera.rotate`: turn by `delta`. */
  function Rotate(c: Camera, delta: real, m: Math): (r: Camera)
    ensures r.yaw == c.yaw + delta
    ensures r == RotateTo(c, c.yaw + delta, m)
  {
    RotateTo(c, c.yaw + delta, m)
  }

  // ---------------------------------------------------------------- lemmas

  /** The initial view plane is the plane `z = p.z + 10`. */
  lemma InitialPlaneIsAhead(p: Point)
    ensures InitialPlane(p) == Plane(Vec3(0.0, 0.0, 1.0), Vec3(p.x, p.y, p.z + 10.0), -(p.z + 10.0))
  {
  }

  /** Against the initial plane's normal only the z component of a vector counts. */
  lemma InitialPlaneFacing(p: Point, v: Vec3)
    ensures Dot(InitialPlane(p).normal, v) == v.z
  {
    InitialPlaneIsAhead(p);
  }

  /** The fixed plane of the field-of-view computation is the initial view plane of
      a camera at the origin. */
  lemma FovPlaneAtOrigin()
    ensures FovPlane == InitialPlane(FovPoint)
  {
    InitialPlaneIsAhead(FovPoint);
  }

  /** Where the half-field-of-view ray from `p` meets the plane ten units ahead. */
  lemma FovHit(p: Point, fov: real, m: Math)
    ensures var r := Intersect(InitialPlane(p), Ray(HalfFovDirection(fov, m), p));
            && (r.Err? <==> m.cos(fov / 2.0) == 0.0)
            && (r.Err? ==> r.error == ParallelError)
            && (r.Ok? ==> HalfWidthAt(r.value.x, p.x, fov, m))
  {
    var s, co := m.sin(fov / 2.0), m.cos(fov / 2.0);
    InitialPlaneFacing(p, HalfFovDirection(fov, m));
    if co != 0.0 {
      var t := ViewDistance / co;
      HitAt(p, s, co, t);
      assert RayAt(Ray(Vec3(s, 0.0, co), p), t).x == p.x + s * t;
      QuotientCancels(s, co, t);
    }
  }

  /** The ray from `p` along `(s, 0, co)` meets the plane ten units ahead at parameter `t`. */
  lemma HitAt(p: Point, s: real, co: real, t: real)
    requires co != 0.0 && co * t == ViewDistance
    ensures Intersect(InitialPlane(p), Ray(Vec3(s, 0.0, co), p)) == Ok(RayAt(Ray(Vec3(s, 0.0, co), p), t))
  {
    InitialPlaneFacing(p, Vec3(s, 0.0, co));
    HitOnPlane(p, s, co, t);
    IntersectUnique(InitialPlane(p), Ray(Vec3(s, 0.0, co), p), t);
  }

  lemma HitOnPlane(p: Point, s: real, co: real, t: real)
    requires co * t == ViewDistance
    ensures OnPlane(InitialPlane(p), RayAt(Ray(Vec3(s, 0.0, co), p), t))
  {
    var q := RayAt(Ray(Vec3(s, 0.0, co), p), t);
    assert q.z == p.z + ViewDistance;
    OnInitialPlane(p, q);
  }

  /** The initial plane of a camera at `p` holds exactly the points ten units ahead in z. */
  lemma OnInitialPlane(p: Point, q: Point)
    ensures OnPlane(InitialPlane(p), q) <==> q.z == p.z + ViewDistance
  {
    InitialPlaneIsAhead(p);
    assert Dot(Vec3(0.0, 0.0, 1.0), q) == q.z;
  }

  /** Measuring from `o` instead of from 0 shifts the half-width by `o`. */
  lemma HalfWidthShift(x: real, o: real, fov: real, m: Math)
    requires HalfWidthAt(x, o, fov, m)
    ensures HalfWidthAt(x - o, 0.0, fov, m)
  {
  }

  lemma QuotientCancels(s: real, co: real, t: real)
    requires co * t == ViewDistance
    ensures s * t * co == ViewDistance * s
  {
  }

  /** Clamping an angle that is already clamped changes nothing. */
  lemma ClampIdempotent(angle: real, pi: real)
    requires pi > 0.0
    ensures ClampFov(ClampFov(angle, pi), pi) == ClampFov(angle, pi)
  {
  }

  /** The as-written constructor fails exactly when the window has a zero side, the
      half-field-of-view ray is parallel to the view plane, or the x limit it finds
      is zero (the final ratio then divides by zero). */
  lemma NewCameraAsWrittenFailsIff(w: int, h: int, fov: real, start: Point, m: Math)
    ensures NewCameraAsWritten(w, h, fov, start, m).Ok? <==>
              w != 0 && h != 0 && m.cos(fov / 2.0) != 0.0 &&
              start.x * m.cos(fov / 2.0) + ViewDistance * m.sin(fov / 2.0) != 0.0
  {
    var hx := HalfFovHitX(start, fov, m);
    if w != 0 && h != 0 && hx.Ok? {
      var ratio := Ratios(w, h).value.0;
      assert NewCameraAsWritten(w, h, fov, start, m).Ok? <==> hx.value * ratio != 0.0;
      LimitIffAsWritten(w, h, fov, start, m);
    }
  }

  lemma LimitIffAsWritten(w: int, h: int, fov: real, start: Point, m: Math)
    requires w != 0 && h != 0 && HalfFovHitX(start, fov, m).Ok?
    ensures HalfFovHitX(start, fov, m).value * Ratios(w, h).value.0 != 0.0 <==>
              start.x * m.cos(fov / 2.0) + ViewDistance * m.sin(fov / 2.0) != 0.0
  {
    LimitNonZeroIff(HalfFovHitX(start, fov, m).value, start.x, Ratios(w, h).value.0, m.cos(fov / 2.0), m.sin(fov / 2.0), w, h);
  }

  /** The corrected constructor fails exactly when the window has a zero side or
      `cos(fov / 2)` or `sin(fov / 2)` is zero. */
  lemma NewCameraFailsIff(w: int, h: int, fov: real, start: Point, m: Math)
    ensures NewCamera(w, h, fov, start, m).Ok? <==>
              w != 0 && h != 0 && m.cos(fov / 2.0) != 0.0 && m.sin(fov / 2.0) != 0.0
  {
    var hx := HalfFovHitX(start, fov, m);
    if w != 0 && h != 0 && hx.Ok? {
      var ratio := Ratios(w, h).value.0;
      var x := hx.value - InitialPlane(start).point.x;
      assert NewCamera(w, h, fov, start, m).Ok? <==> x * ratio != 0.0;
      LimitIffCorrected(w, h, fov, start, m);
    }
  }

  lemma LimitIffCorrected(w: int, h: int, fov: real, start: Point, m: Math)
    requires w != 0 && h != 0 && HalfFovHitX(start, fov, m).Ok?
    ensures (HalfFovHitX(start, fov, m).value - InitialPlane(start).point.x) * Ratios(w, h).value.0 != 0.0 <==>
              m.sin(fov / 2.0) != 0.0
  {
    assert InitialPlane(start).point.x == start.x by { InitialPlaneIsAhead(start); }
    var x := HalfFovHitX(start, fov, m).value;
    LimitNonZeroIff(x - start.x, 0.0, Ratios(w, h).value.0, m.cos(fov / 2.0), m.sin(fov / 2.0), w, h);
  }

  /** A limit `x` with `(x - o) co == 10 s`, scaled by a window ratio, is non-zero
      exactly when `o co + 10 s` is. */
  lemma LimitNonZeroIff(x: real, o: real, ratio: real, co: real, s: real, w: int, h: int)
    requires w != 0 && h != 0 && ratio * w as real == h as real
    requires co != 0.0 && (x - o) * co == ViewDistance * s
    ensures x * ratio != 0.0 <==> o * co + ViewDistance * s != 0.0
  {
    LimitZero(x, ratio, w, h);
    LimitOffsetZero(o, x, co, s);
  }

  /** A y limit is zero exactly when its x limit is, for a valid window. */
  lemma LimitZero(xLimit: real, ratio: real, w: int, h: int)
    requires w != 0 && h != 0
    requires ratio * w as real == h as real
    ensures xLimit * ratio == 0.0 <==> xLimit == 0.0
  {
    ProductNonZero(ratio, w as real);
    if xLimit * ratio == 0.0 {
      ProductZero(xLimit, ratio);
    }
  }

  /** The limit `x` solving `(x - o) co == 10 s` is zero exactly when `o co + 10 s` is. */
  lemma LimitOffsetZero(o: real, x: real, co: real, s: real)
    requires co != 0.0
    requires (x - o) * co == ViewDistance * s
    ensures x == 0.0 <==> o * co + ViewDistance * s == 0.0
  {
    assert x * co == o * co + ViewDistance * s;
    if x * co == 0.0 {
      ProductZero(x, co);
    }
  }

  /** Recomputing the field of view at the camera's own (already clamped) angle
      changes nothing when the stored limits already fit that angle. */
  lemma FovChangeAtCurrentAngleIsIdentity(c: Camera, m: Math)
    requires m.pi / 100.0 <= c.xFov <= 99.0 / 100.0 * m.pi
    requires m.cos(c.xFov / 2.0) != 0.0
    requires HalfWidthAt(c.xLimit, 0.0, c.xFov, m)
    requires Valid(c)
    ensures ChangeXFovBy(c, 0.0, m) == Ok(c)
  {
    FovChangeMeasuresFromOrigin(c, 0.0, m);
    var r := ChangeXFovBy(c, 0.0, m).value;
    assert r.xFov == c.xFov && r.xLimit == c.xLimit && r.yLimit == c.yLimit;
    assert r == c.(xFov := c.xFov, xLimit := c.xLimit, yLimit := c.yLimit);
  }

  /** The x limit a field-of-view change computes depends on the angle alone, not on
      where the camera is or which way it looks. */
  lemma FovLimitIgnoresPose(c1: Camera, c2: Camera, angle: real, m: Math)
    ensures ChangeXFovTo(c1, angle, m).Ok? <==> ChangeXFovTo(c2, angle, m).Ok?
    ensures ChangeXFovTo(c1, angle, m).Ok? ==>
              ChangeXFovTo(c1, angle, m).value.xLimit == ChangeXFovTo(c2, angle, m).value.xLimit
  {
  }

  /** Moving by nothing is no move at all for a camera whose plane is in front of it. */
  lemma MoveZeroIsIdentity(c: Camera)
    requires Valid(c) && Standoff(c)
    ensures Move(c, Zero) == c
  {
    assert Add(Zero, c.position) == c.position;
    UpdateConstantIdempotent(c.viewPlane);
  }

  /** Two moves compose into one move by the sum of the offsets. */
  lemma MovesCompose(c: Camera, a: Vec3, b: Vec3)
    ensures Move(Move(c, a), b) == Move(c, Add(a, b))
  {
  }

  /** A rotation keeps the view plane in front of the camera exactly when it does not
      change the looking direction. */
  lemma RotateKeepsStandoffIff(c: Camera, angle: real, m: Math)
    requires Standoff(c)
    ensures Standoff(RotateTo(c, angle, m)) <==> RotateTo(c, angle, m).looking == c.looking
  {
    var l := RotateTo(c, angle, m).looking;
    if Standoff(RotateTo(c, angle, m)) {
      assert Scale(l, ViewDistance) == Scale(c.looking, ViewDistance) by {
        assert Add(c.position, Scale(l, ViewDistance)) == Add(c.position, Scale(c.looking, ViewDistance));
      }
      CancelFactor(l.x, c.looking.x, ViewDistance);
      CancelFactor(l.y, c.looking.y, ViewDistance);
      CancelFactor(l.z, c.looking.z, ViewDistance);
    }
  }

  /** Rotating away and back to the original yaw restores the camera, when its looking
      vector was the one that yaw gives. */
  lemma RotateBackRestores(c: Camera, angle: real, m: Math)
    requires Valid(c)
    requires c.looking == Vec3(m.sin(c.yaw), 0.0, m.cos(c.yaw))
    ensures RotateTo(RotateTo(c, angle, m), c.yaw, m) == c
  {
    UpdateConstantIdempotent(c.viewPlane);
  }

  /** The as-written constructor's x limit is offset by the starting x coordinate:
      recomputing the field of view at the same angle gives the limit minus `start.x`. */
  lemma InitLimitIncludesStartX(w: int, h: int, fov: real, start: Point, m: Math)
    requires m.pi / 100.0 <= fov <= 99.0 / 100.0 * m.pi
    requires NewCameraAsWritten(w, h, fov, start, m).Ok?
    ensures var c := NewCameraAsWritten(w, h, fov, start, m).value;
            ChangeXFovBy(c, 0.0, m).Ok? && ChangeXFovBy(c, 0.0, m).value.xLimit == c.xLimit - start.x
  {
    FovChangeMeasuresFromOrigin(NewCameraAsWritten(w, h, fov, start, m).value, start.x, m);
  }

  /** Recomputing the field of view at a camera's own (already clamped) angle gives
      the half-width measured from x = 0: a stored limit measured from `o` comes back
      reduced by `o`. */
  lemma FovChangeMeasuresFromOrigin(c: Camera, o: real, m: Math)
    requires m.pi / 100.0 <= c.xFov <= 99.0 / 100.0 * m.pi
    requires m.cos(c.xFov / 2.0) != 0.0
    requires HalfWidthAt(c.xLimit, o, c.xFov, m)
    ensures ChangeXFovBy(c, 0.0, m).Ok? && ChangeXFovBy(c, 0.0, m).value.xLimit == c.xLimit - o
  {
    assert c.xFov + 0.0 == c.xFov;
    assert ClampFov(c.xFov + 0.0, m.pi) == c.xFov;
    var r := ChangeXFovBy(c, 0.0, m);
    HalfWidthShift(c.xLimit, o, c.xFov, m);
    HalfWidthUnique(r.value.xLimit, c.xLimit - o, c.xFov, m);
  }

  /** For a ray that is not parallel to the plane the half-width is unique. */
  lemma HalfWidthUnique(x: real, y: real, fov: real, m: Math)
    requires m.cos(fov / 2.0) != 0.0
    requires HalfWidthAt(x, 0.0, fov, m) && HalfWidthAt(y, 0.0, fov, m)
    ensures x == y
  {
    CancelFactor(x - 0.0, y - 0.0, m.cos(fov / 2.0));
  }

  /** A concrete case: an 800 x 600 window, the default field of view pi/3 and a start
      at (5, 0, 0). The as-written constructor's x limit is 5 larger than the one a
      zero field-of-view change recomputes, so the projection scale jumps. */
  lemma InitLimitCounterexample(m: Math)
    requires m.PiPositive()
    requires m.sin(m.pi / 3.0 / 2.0) == 0.5 && m.cos(m.pi / 3.0 / 2.0) > 0.0
    ensures var r := NewCameraAsWritten(800, 600, m.pi / 3.0, Vec3(5.0, 0.0, 0.0), m);
            r.Ok? && ChangeXFovBy(r.value, 0.0, m).Ok? &&
            ChangeXFovBy(r.value, 0.0, m).value.xLimit == r.value.xLimit - 5.0
  {
    var start, fov := Vec3(5.0, 0.0, 0.0), m.pi / 3.0;
    var co, s := m.cos(fov / 2.0), m.sin(fov / 2.0);
    assert start.x * co + ViewDistance * s != 0.0 by {
      PositiveOffset(start.x, co, s);
    }
    assert m.pi / 100.0 <= fov <= 99.0 / 100.0 * m.pi;
    NewCameraAsWrittenFailsIff(800, 600, fov, start, m);
    InitLimitIncludesStartX(800, 600, fov, start, m);
  }

  lemma PositiveOffset(o: real, co: real, s: real)
    requires o == 5.0 && co > 0.0 && s == 0.5
    ensures o * co + ViewDistance * s > 0.0
  {
  }

  /** With the corrected constructor, recomputing the field of view at the angle the
      camera already has changes nothing. */
  lemma CorrectedInitAgreesWithFovChange(w: int, h: int, fov: real, start: Point, m: Math)
    requires m.pi / 100.0 <= fov <= 99.0 / 100.0 * m.pi
    requires NewCamera(w, h, fov, start, m).Ok?
    ensures ChangeXFovBy(NewCamera(w, h, fov, start, m).value, 0.0, m) == NewCamera(w, h, fov, start, m)
  {
    FovChangeAtCurrentAngleIsIdentity(NewCamera(w, h, fov, start, m).value, m);
  }
}
