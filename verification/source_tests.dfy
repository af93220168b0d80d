/** The expectations of the self-test block at the end of ThreeDRenderer/Vector_Math.py,
    stated over the model, one lemma per test. Only exact expectations are here:
    the tests that compare against a rounded decimal (an angle, a distance) depend
    on `acos` and `sqrt` values the model does not compute. The tests on the plane
    z = 0 go through general lemmas about planes facing +z. */
module SourceTests {
  import opened Wrappers
  import opened Transcendental
  import opened VectorMath

  /** `dot` test 1. */
  lemma DotTest1()
    ensures Dot(Vec3(1.0, 0.0, 0.0), Vec3(0.0, 1.0, 0.0)) == 0.0
  {
  }

  /** `dot` test 2. */
  lemma DotTest2()
    ensures Dot(Vec3(1.0, 0.0, 0.0), Vec3(1.0, 1.0, 0.0)) == 1.0
  {
  }

  /** `dot` test 3. */
  lemma DotTest3()
    ensures Dot(Vec3(10.0, 5.0, 2.0), Vec3(7.0, 6.0, 9.0)) == 118.0
  {
  }

  /** The first `dot_product` test: orthogonal vectors give the sentinel 90. */
  lemma OrthogonalAngleTest(m: Math)
    requires m.SqrtSound()
    ensures AngleBetween(Vec3(1.0, 0.0, 0.0), Vec3(0.0, 1.0, 0.0), m) == 90.0
  {
  }

  /** `cross` test 1. */
  lemma CrossTest1()
    ensures Cross(Vec3(1.0, 0.0, 0.0), Vec3(0.0, 1.0, 0.0)) == Vec3(0.0, 0.0, 1.0)
  {
  }

  /** `cross` test 2. */
  lemma CrossTest2()
    ensures Cross(Vec3(1.0, 0.0, 0.0), Vec3(1.0, 1.0, 0.0)) == Vec3(0.0, 0.0, 1.0)
  {
  }

  /** `cross` test 3. */
  lemma CrossTest3()
    ensures Cross(Vec3(10.0, 5.0, 2.0), Vec3(7.0, 6.0, 9.0)) == Vec3(33.0, -76.0, 25.0)
  {
  }

  /** Ray-plane intersection test 2: the hit is the ray's point at t = 2.0. */
  lemma IntersectTest2()
    ensures Intersect(MakePlane(Vec3(2.0, 1.0, -4.0), Vec3(0.0, 0.0, -1.0)),
                      Ray(Vec3(1.0, 3.0, 1.0), Vec3(0.0, 2.0, 0.0)))
            == Ok(Vec3(2.0, 8.0, 2.0))
  {
    var ray := Ray(Vec3(1.0, 3.0, 1.0), Vec3(0.0, 2.0, 0.0));
    assert RayAt(ray, 2.0) == Vec3(2.0, 8.0, 2.0);
    IntersectUnique(MakePlane(Vec3(2.0, 1.0, -4.0), Vec3(0.0, 0.0, -1.0)), ray, 2.0);
  }

  /** Ray-plane intersection test 3: the hit is the ray's point at t = -2.0. */
  lemma IntersectTest3()
    ensures Intersect(MakePlane(Vec3(4.0, 5.0, -2.0), Vec3(4.0, 0.0, -1.0)),
                      Ray(Vec3(3.0, -4.0, 1.0), Vec3(2.0, 0.0, 5.0)))
            == Ok(Vec3(-4.0, 8.0, 3.0))
  {
    var ray := Ray(Vec3(3.0, -4.0, 1.0), Vec3(2.0, 0.0, 5.0));
    assert RayAt(ray, -2.0) == Vec3(-4.0, 8.0, 3.0);
    IntersectUnique(MakePlane(Vec3(4.0, 5.0, -2.0), Vec3(4.0, 0.0, -1.0)), ray, -2.0);
  }

  /** A ray along the z axis meets a plane facing +z at the ray's own x and y and the
      plane's z, wherever the plane's stored point lies. */
  lemma AxisHit(a: real, b: real, c: real, sx: real, sy: real, sz: real, vz: real)
    requires vz != 0.0
    ensures Intersect(MakePlane(Vec3(0.0, 0.0, 1.0), Vec3(a, b, c)), Ray(Vec3(0.0, 0.0, vz), Vec3(sx, sy, sz)))
            == Ok(Vec3(sx, sy, c))
  {
    var pl := MakePlane(Vec3(0.0, 0.0, 1.0), Vec3(a, b, c));
    var ray := Ray(Vec3(0.0, 0.0, vz), Vec3(sx, sy, sz));
    var t := (c - sz) / vz;
    assert RayAt(ray, t) == Vec3(sx, sy, c);
    IntersectUnique(pl, ray, t);
  }

  /** Ray-plane intersection test 1: the plane z = 0 and a ray straight up from
      (17, 22, -16). */
  lemma IntersectTest1()
    ensures Intersect(MakePlane(Vec3(0.0, 0.0, 1.0), Vec3(0.0, 0.0, 0.0)),
                      Ray(Vec3(0.0, 0.0, 15.0), Vec3(17.0, 22.0, -16.0)))
            == Ok(Vec3(17.0, 22.0, 0.0))
  {
    AxisHit(0.0, 0.0, 0.0, 17.0, 22.0, -16.0, 15.0);
  }

  /** The distance from a plane facing +z is the difference in z, in absolute value:
      the unit normal makes the square root in the denominator 1. */
  lemma AxisDistance(a: real, b: real, c: real, q: Point, m: Math)
    requires m.SqrtSound()
    ensures Distance(MakePlane(Vec3(0.0, 0.0, 1.0), Vec3(a, b, c)), q, m) == Ok(Abs(q.z - c))
  {
    SqrtOfSquare(m, 1.0);
    assert 1.0 * 1.0 == 1.0;
  }

  /** Distance test 1: the point (0, 0, 10) is 10 from the plane z = 0. */
  lemma DistanceTest1(m: Math)
    requires m.SqrtSound()
    ensures Distance(MakePlane(Vec3(0.0, 0.0, 1.0), Vec3(0.0, 0.0, 0.0)), Vec3(0.0, 0.0, 10.0), m)
            == Ok(10.0)
  {
    AxisDistance(0.0, 0.0, 0.0, Vec3(0.0, 0.0, 10.0), m);
  }
}
