/** Vectors, rays and planes (ThreeDRenderer/Vector_Math.py) over exact reals.
    Points, which the source keeps as three-element lists, are `Vec3` values too.
    Every operation returns a new value, so "the receiver is left unchanged" holds
    by construction; the in-place `reverse` is modelled as the receiver's new value. */
module VectorMath {
  import opened Wrappers
  import opened Transcendental
  import opened RealArith

  datatype Vec3 = Vec3(x: real, y: real, z: real)

  /** A position in space. */
  type Point = Vec3

  const Zero: Vec3 := Vec3(0.0, 0.0, 0.0)

  function Add(a: Vec3, b: Vec3): Vec3 {
    Vec3(a.x + b.x, a.y + b.y, a.z + b.z)
  }

  function Sub(a: Vec3, b: Vec3): Vec3 {
    Vec3(a.x - b.x, a.y - b.y, a.z - b.z)
  }

  /** `Vector.dot`. */
  function Dot(a: Vec3, b: Vec3): real {
    a.x * b.x + a.y * b.y + a.z * b.z
  }

  /** `Vector.cross`: the result is orthogonal to both arguments. */
  function Cross(a: Vec3, b: Vec3): (r: Vec3)
    ensures Dot(a, r) == 0.0
    ensures Dot(b, r) == 0.0
  {
    Vec3(a.y * b.z - a.z * b.y, -(a.x * b.z - a.z * b.x), a.x * b.y - a.y * b.x)
  }

  /** `Vector.__mul__`: a new vector with every component multiplied by `c`. */
  function Scale(v: Vec3, c: real): Vec3 {
    Vec3(v.x * c, v.y * c, v.z * c)
  }

  /** `Vector.__truediv__`: a new vector with every component divided by `c`;
      Python raises ZeroDivisionError when `c` is zero. */
  function Divide(v: Vec3, c: real): (r: Result<Vec3>)
    ensures r.Err? <==> c == 0.0
    ensures r.Err? ==> r.error == ZeroDivisionError
    ensures r.Ok? ==> Scale(r.value, c) == v
  {
    if c == 0.0 then Err(ZeroDivisionError) else Ok(Vec3(v.x / c, v.y / c, v.z / c))
  }

  /** `Vector.get_reverse`: the additive inverse. */
  function GetReverse(v: Vec3): (r: Vec3)
    ensures Add(v, r) == Zero
  {
    Vec3(-v.x, -v.y, -v.z)
  }

  /** `Vector.reverse`: the value the receiver holds after negating itself in place;
      it agrees with `get_reverse`. */
  function Reverse(v: Vec3): (r: Vec3)
    ensures r == GetReverse(v)
    ensures Add(v, r) == Zero
  {
    Vec3(-v.x, -v.y, -v.z)
  }

  /** `get_vector_from_to`: the displacement that carries `p1` to `p2`. */
  function VectorFromTo(p1: Point, p2: Point): (r: Vec3)
    ensures Add(p1, r) == p2
  {
    Vec3(p2.x - p1.x, p2.y - p1.y, p2.z - p1.z)
  }

  /** `Vector.magnitude`. */
  function Magnitude(v: Vec3, m: Math): (r: real)
    requires m.SqrtSound()
    ensures 0.0 <= r
    ensures r * r == Dot(v, v)
    ensures r == 0.0 <==> v == Zero
  {
    DotSelfZero(v);
    SqrtZeroIff(m, Dot(v, v));
    m.sqrt(Dot(v, v))
  }

  /** `Vector.dot_product`: the angle between two vectors, except that a zero dot
      product yields the sentinel 90 (a number of degrees, while the other branch
      is in radians). The cosine handed to `acos` is always within [-1, 1]. */
  function AngleBetween(a: Vec3, b: Vec3, m: Math): (r: real)
    requires m.SqrtSound()
    ensures Dot(a, b) == 0.0 ==> r == 90.0
    ensures Dot(a, b) != 0.0 ==> -1.0 <= Cosine(a, b, m) <= 1.0 && r == m.acos(Cosine(a, b, m))
  {
    if Dot(a, b) == 0.0 then 90.0
    else
      CosineInRange(a, b, m);
      m.acos(Cosine(a, b, m))
  }

  /** The cosine `a·b / (|a| |b|)` of two vectors whose dot product is non-zero. */
  function Cosine(a: Vec3, b: Vec3, m: Math): real
    requires m.SqrtSound()
    requires Dot(a, b) != 0.0
  {
    MagnitudesNonZero(a, b, m);
    Dot(a, b) / (Magnitude(a, m) * Magnitude(b, m))
  }

  /** `get_vector_from_yaw_pitch`. */
  function FromYawPitch(yaw: real, pitch: real, m: Math): Vec3 {
    Vec3(m.sin(yaw) * m.cos(pitch), m.sin(pitch), m.cos(yaw) * m.cos(pitch))
  }

  /** `Vector.change_to_yaw_pitch`: the receiver's new value, which is the
      direction `get_vector_from_yaw_pitch` gives, stretched to `magnitude`. When
      sine and cosine satisfy sin² + cos² = 1 its length is `magnitude`. */
  function ChangeToYawPitch(yaw: real, pitch: real, magnitude: real, m: Math): (r: Vec3)
    ensures r == Scale(FromYawPitch(yaw, pitch, m), magnitude)
    ensures m.Pythagorean() ==> Dot(r, r) == magnitude * magnitude
  {
    YawPitchLength(yaw, pitch, magnitude, m);
    Vec3(m.sin(yaw) * m.cos(pitch) * magnitude, m.sin(pitch) * magnitude, m.cos(yaw) * m.cos(pitch) * magnitude)
  }

  // ---------------------------------------------------------------- Ray / Plane

  /** `Ray`: the points `start + t * vector`; `t` is not restricted to be non-negative. */
  datatype Ray = Ray(vector: Vec3, start: Point)

  function RayAt(ray: Ray, t: real): Point {
    Add(ray.start, Scale(ray.vector, t))
  }

  ghost predicate OnLine(ray: Ray, p: Point) {
    exists t :: p == RayAt(ray, t)
  }

  /** `Plane`: the points `q` with `normal · q + constant == 0`. The constant is a
      cache of `-(normal · point)` that the mutators refresh. */
  datatype Plane = Plane(normal: Vec3, point: Point, constant: real)

  predicate OnPlane(pl: Plane, q: Point) {
    Dot(pl.normal, q) + pl.constant == 0.0
  }

  /** The cached constant agrees with the stored normal and point. */
  predicate Consistent(pl: Plane) {
    OnPlane(pl, pl.point)
  }

  /** `Plane.__init__`. */
  function MakePlane(normal: Vec3, point: Point): (r: Plane)
    ensures r.normal == normal && r.point == point
    ensures Consistent(r)
  {
    Plane(normal, point, -Dot(normal, point))
  }

  /** `Plane.update_constant`: recompute the cache from the current normal and point. */
  function UpdateConstant(pl: Plane): (r: Plane)
    ensures r.normal == pl.normal && r.point == pl.point
    ensures Consistent(r)
  {
    pl.(constant := -Dot(pl.normal, pl.point))
  }

  /** `Plane.change_normal`. */
  function ChangeNormal(pl: Plane, normal: Vec3): (r: Plane)
    ensures r.normal == normal && r.point == pl.point
    ensures Consistent(r)
  {
    UpdateConstant(pl.(normal := normal))
  }

  /** `Plane.change_point`. */
  function ChangePoint(pl: Plane, point: Point): (r: Plane)
    ensures r.normal == pl.normal && r.point == point
    ensures Consistent(r)
  {
    UpdateConstant(pl.(point := point))
  }

  /** `Plane.change_normal_and_point`. */
  function ChangeNormalAndPoint(pl: Plane, normal: Vec3, point: Point): (r: Plane)
    ensures r.normal == normal && r.point == point
    ensures Consistent(r)
  {
    UpdateConstant(pl.(normal := normal, point := point))
  }

  /** `Plane.get_intersect_with_ray`: ParallelError exactly when the ray's direction
      is orthogonal to the normal; otherwise a point of the ray's line that satisfies
      the plane equation (with the stored constant). `IntersectUnique` shows it is
      the only such point. */
  function Intersect(pl: Plane, ray: Ray): (r: Result<Point>)
    ensures r.Err? <==> Dot(pl.normal, ray.vector) == 0.0
    ensures r.Err? ==> r.error == ParallelError
    ensures r.Ok? ==> OnPlane(pl, r.value) && OnLine(ray, r.value)
  {
    var denominator := Dot(pl.normal, ray.vector);
    if denominator == 0.0 then Err(ParallelError)
    else
      var t := -(pl.constant + Dot(pl.normal, ray.start)) / denominator;
      DotRayAt(pl.normal, ray, t);
      assert t * denominator == -(pl.constant + Dot(pl.normal, ray.start));
      Ok(RayAt(ray, t))
  }

  /** `Plane.get_shortest_distance_to_point`: `|normal · q + constant| / |normal|`;
      Python raises ZeroDivisionError when the normal is the zero vector. */
  function Distance(pl: Plane, q: Point, m: Math): (r: Result<real>)
    requires m.SqrtSound()
    ensures r.Err? <==> pl.normal == Zero
    ensures r.Err? ==> r.error == ZeroDivisionError
    ensures r.Ok? ==> 0.0 <= r.value
  {
    var nn := Dot(pl.normal, pl.normal);
    var d := m.sqrt(nn);
    assert d == 0.0 <==> pl.normal == Zero by {
      DotSelfZero(pl.normal);
      SqrtZeroIff(m, nn);
    }
    assert 0.0 <= d;
    Quotient(Abs(Dot(pl.normal, q) + pl.constant), d)
  }

  /** `numerator / denominator` as Python evaluates it: ZeroDivisionError for a zero denominator. */
  function Quotient(numerator: real, denominator: real): (r: Result<real>)
    ensures r.Err? <==> denominator == 0.0
    ensures r.Err? ==> r.error == ZeroDivisionError
    ensures r.Ok? && 0.0 <= numerator && 0.0 <= denominator ==> 0.0 <= r.value
  {
    if denominator == 0.0 then Err(ZeroDivisionError)
    else
      QuotientNonNegative(numerator, denominator);
      Ok(numerator / denominator)
  }

  function Abs(a: real): (r: real)
    ensures 0.0 <= r
    ensures r == a || r == -a
  {
    if a < 0.0 then -a else a
  }

  // ---------------------------------------------------------------- lemmas

  /** The dot product of a vector with itself is a sum of squares: never negative,
      and zero only for the zero vector. */
  lemma DotSelfZero(v: Vec3)
    ensures 0.0 <= Dot(v, v)
    ensures Dot(v, v) == 0.0 <==> v == Zero
  {
    SquareNonNegative(v.x, v.x * v.x);
    SquareNonNegative(v.y, v.y * v.y);
    SquareNonNegative(v.z, v.z * v.z);
    if Dot(v, v) == 0.0 {
      SquareZero(v.x, v.x * v.x);
      SquareZero(v.y, v.y * v.y);
      SquareZero(v.z, v.z * v.z);
    }
  }

  /** The dot product is linear along a ray. */
  lemma DotRayAt(n: Vec3, ray: Ray, t: real)
    ensures Dot(n, RayAt(ray, t)) == Dot(n, ray.start) + t * Dot(n, ray.vector)
  {
  }

  /** Swapping the operands of `cross` negates the result. */
  lemma CrossAntiCommutative(a: Vec3, b: Vec3)
    ensures Cross(b, a) == GetReverse(Cross(a, b))
  {
  }

  /** Lagrange's identity, linking `dot` and `cross`: |a|²|b|² = (a·b)² + |a×b|². */
  lemma LagrangeIdentity(a: Vec3, b: Vec3)
    ensures Dot(a, a) * Dot(b, b) == Dot(a, b) * Dot(a, b) + Dot(Cross(a, b), Cross(a, b))
  {
  }

  /** Cauchy–Schwarz: (a·b)² <= |a|²|b|². */
  lemma CauchySchwarz(a: Vec3, b: Vec3)
    ensures Dot(a, b) * Dot(a, b) <= Dot(a, a) * Dot(b, b)
  {
    LagrangeIdentity(a, b);
    DotSelfZero(Cross(a, b));
  }

  /** Both magnitudes are non-zero when the dot product is. */
  lemma MagnitudesNonZero(a: Vec3, b: Vec3, m: Math)
    requires m.SqrtSound()
    requires Dot(a, b) != 0.0
    ensures Magnitude(a, m) * Magnitude(b, m) != 0.0
  {
    assert a != Zero && b != Zero;
  }

  /** The argument `dot_product` passes to `acos` lies in acos's domain [-1, 1],
      so in exact arithmetic the call never fails. */
  lemma CosineInRange(a: Vec3, b: Vec3, m: Math)
    requires m.SqrtSound()
    requires Dot(a, b) != 0.0
    ensures -1.0 <= Cosine(a, b, m) <= 1.0
  {
    var ma, mb := Magnitude(a, m), Magnitude(b, m);
    var d := Dot(a, b);
    MagnitudesNonZero(a, b, m);
    var big := ma * mb;
    assert 0.0 < big by {
      assert 0.0 <= ma && 0.0 <= mb;
      if ma * mb <= 0.0 {
        MulStrictMonotone(ma, 0.0, mb);
      }
    }
    assert big * big == (ma * ma) * (mb * mb);
    CauchySchwarz(a, b);
    assert d * d <= big * big;
    SquareBoundedAbove(d, big);
    assert (-d) * (-d) == d * d;
    SquareBoundedAbove(-d, big);
    QuotientBound(d, big);
  }

  lemma QuotientNonNegative(n: real, d: real)
    ensures 0.0 <= n && 0.0 < d ==> 0.0 <= n / d
  {
    if 0.0 <= n && 0.0 < d {
      var c := n / d;
      assert c * d == n;
      if c < 0.0 {
        MulStrictMonotone(d, c, 0.0);
      }
    }
  }

  /** A number whose square is at most `b * b`, for positive `b`, is at most `b`. */
  lemma SquareBoundedAbove(d: real, b: real)
    requires 0.0 < b
    requires d * d <= b * b
    ensures d <= b
  {
    if d > b {
      assert (d - b) * (d + b) == d * d - b * b;
      MulStrictMonotone(d - b, 0.0, d + b);
    }
  }

  /** -b <= d <= b with b positive gives -1 <= d / b <= 1. */
  lemma QuotientBound(d: real, b: real)
    requires 0.0 < b
    requires -b <= d <= b
    ensures -1.0 <= d / b <= 1.0
  {
    var c := d / b;
    assert c * b == d;
    if c > 1.0 {
      MulStrictMonotone(b, 1.0, c);
    } else if c < -1.0 {
      MulStrictMonotone(b, c, -1.0);
    }
  }

  /** The facts about `|a| / d` that `Distance` promises, for a positive `d` with `d * d == q`. */
  lemma DistanceFacts(a: real, d: real, q: real)
    requires 0.0 < d && d * d == q
    ensures 0.0 <= Abs(a) / d
    ensures Abs(a) / d == 0.0 <==> a == 0.0
    ensures (Abs(a) / d) * (Abs(a) / d) * q == a * a
  {
    var n := Abs(a);
    var c := n / d;
    assert c * d == n;
    if c < 0.0 {
      MulStrictMonotone(d, c, 0.0);
    }
    assert c * c * q == (c * d) * (c * d);
    assert n * n == a * a;
  }

  /** The distance is zero exactly for the points on the plane. */
  lemma DistanceZeroIffOnPlane(pl: Plane, q: Point, m: Math)
    requires m.SqrtSound()
    requires pl.normal != Zero
    ensures Distance(pl, q, m).Ok?
    ensures Distance(pl, q, m).value == 0.0 <==> OnPlane(pl, q)
  {
    var nn := Dot(pl.normal, pl.normal);
    DotSelfZero(pl.normal);
    SqrtZeroIff(m, nn);
    DistanceFacts(Dot(pl.normal, q) + pl.constant, m.sqrt(nn), nn);
  }

  /** The distance `d` satisfies d² |n|² = (n·q + constant)²: it is the residual of
      the plane equation measured in units of the normal's length. */
  lemma DistanceSquared(pl: Plane, q: Point, m: Math)
    requires m.SqrtSound()
    requires pl.normal != Zero
    ensures Distance(pl, q, m).Ok?
    ensures Distance(pl, q, m).value * Distance(pl, q, m).value * Dot(pl.normal, pl.normal)
            == (Dot(pl.normal, q) + pl.constant) * (Dot(pl.normal, q) + pl.constant)
  {
    var nn := Dot(pl.normal, pl.normal);
    DotSelfZero(pl.normal);
    SqrtZeroIff(m, nn);
    DistanceFacts(Dot(pl.normal, q) + pl.constant, m.sqrt(nn), nn);
  }

  /** Applying the in-place `reverse` twice restores the original vector. */
  lemma ReverseTwice(v: Vec3)
    ensures Reverse(Reverse(v)) == v
  {
  }

  /** Division undoes multiplication by a non-zero constant. */
  lemma DivideAfterScale(v: Vec3, c: real)
    requires c != 0.0
    ensures Divide(Scale(v, c), c) == Ok(v)
  {
    var w := Scale(v, c);
    assert w.x == v.x * c && w.y == v.y * c && w.z == v.z * c;
    assert Divide(w, c) == Ok(Vec3(w.x / c, w.y / c, w.z / c));
    assert (v.x * c) / c == v.x;
    assert (v.y * c) / c == v.y;
    assert (v.z * c) / c == v.z;
  }

  /** The plane equation of a consistent plane says exactly that the offset from its
      stored point is orthogonal to the normal. */
  lemma OnPlaneIffOrthogonal(pl: Plane, q: Point)
    requires Consistent(pl)
    ensures OnPlane(pl, q) <==> Dot(pl.normal, Sub(q, pl.point)) == 0.0
  {
  }

  /** Refreshing the constant of a plane whose constant is already current changes nothing. */
  lemma UpdateConstantIdempotent(pl: Plane)
    requires Consistent(pl)
    ensures UpdateConstant(pl) == pl
  {
  }

  /** Moving the stored point within the plane leaves the constant, and so the
      set of points on the plane, unchanged. */
  lemma ChangePointWithinPlane(pl: Plane, q: Point)
    requires Consistent(pl)
    requires OnPlane(pl, q)
    ensures ChangePoint(pl, q).constant == pl.constant
  {
  }

  /** A non-parallel ray meets the plane in exactly one point of its line:
      any point of the line on the plane is the one `Intersect` returns. */
  lemma IntersectUnique(pl: Plane, ray: Ray, t: real)
    requires Dot(pl.normal, ray.vector) != 0.0
    requires OnPlane(pl, RayAt(ray, t))
    ensures Intersect(pl, ray) == Ok(RayAt(ray, t))
  {
    var denominator := Dot(pl.normal, ray.vector);
    var s := -(pl.constant + Dot(pl.normal, ray.start)) / denominator;
    DotRayAt(pl.normal, ray, t);
    assert t * denominator == -(pl.constant + Dot(pl.normal, ray.start));
    assert s * denominator == -(pl.constant + Dot(pl.normal, ray.start));
    assert (s - t) * denominator == 0.0;
    ProductZero(s - t, denominator);
  }

  /** A non-parallel ray that starts on the plane meets it at its start (t = 0). */
  lemma IntersectAtStart(pl: Plane, ray: Ray)
    requires Dot(pl.normal, ray.vector) != 0.0
    requires OnPlane(pl, ray.start)
    ensures Intersect(pl, ray) == Ok(ray.start)
  {
    assert RayAt(ray, 0.0) == ray.start;
    IntersectUnique(pl, ray, 0.0);
  }

  /** The stretched yaw/pitch direction has squared length `magnitude²` whenever
      sin² + cos² = 1 holds. */
  lemma YawPitchLength(yaw: real, pitch: real, magnitude: real, m: Math)
    ensures m.Pythagorean() ==>
              var r := Vec3(m.sin(yaw) * m.cos(pitch) * magnitude, m.sin(pitch) * magnitude,
                            m.cos(yaw) * m.cos(pitch) * magnitude);
              Dot(r, r) == magnitude * magnitude
  {
    if m.Pythagorean() {
      SphericalNorm(m.sin(yaw), m.cos(yaw), m.sin(pitch), m.cos(pitch), magnitude);
    }
  }

  /** With a sound `sqrt` and sin² + cos² = 1, the vector `change_to_yaw_pitch`
      leaves behind has exactly the requested non-negative magnitude. */
  lemma YawPitchMagnitude(yaw: real, pitch: real, magnitude: real, m: Math)
    requires m.SqrtSound() && m.Pythagorean()
    requires 0.0 <= magnitude
    ensures Magnitude(ChangeToYawPitch(yaw, pitch, magnitude, m), m) == magnitude
  {
    SqrtOfSquare(m, magnitude);
  }

  /** Over plain reals: a direction given by two unit (sin, cos) pairs, stretched by
      `k`, has squared length `k²`. */
  lemma SphericalNorm(sy: real, cy: real, sp: real, cp: real, k: real)
    requires sy * sy + cy * cy == 1.0 && sp * sp + cp * cp == 1.0
    ensures (sy * cp * k) * (sy * cp * k) + (sp * k) * (sp * k) + (cy * cp * k) * (cy * cp * k) == k * k
  {
    var u := cp * k;
    assert (sy * cp * k) * (sy * cp * k) + (cy * cp * k) * (cy * cp * k) == (sy * sy + cy * cy) * (u * u);
    assert u * u + (sp * k) * (sp * k) == (cp * cp + sp * sp) * (k * k);
  }

  /** With a level pitch, `get_vector_from_yaw_pitch` is the yaw-only direction
      `(sin yaw, 0, cos yaw)` that the camera uses. */
  lemma LevelPitchIsYawDirection(yaw: real, pitch: real, m: Math)
    requires m.sin(pitch) == 0.0 && m.cos(pitch) == 1.0
    ensures FromYawPitch(yaw, pitch, m) == Vec3(m.sin(yaw), 0.0, m.cos(yaw))
  {
  }
}
