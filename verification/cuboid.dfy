/** Axis-aligned boxes (ThreeDRenderer/Cuboid.py): the fixed corner layout, the edge
    and face tables, the face planes, the bounding sphere and the overlap test.
    A box never changes after construction, so its derived data are functions of it. */
module Cuboids {
  import opened VectorMath
  import opened Transcendental
  import opened RealArith

  /** A box with origin corner (x, y, z) and extents width (x), height (y), length (z).
      Nothing requires the extents to be positive. */
  datatype Cuboid = Cuboid(x: real, y: real, z: real, width: real, height: real, length: real)

  /** The face normals, in face order Front, Left, Right, Top, Bottom, Back. */
  const Normals: seq<Vec3> := [
    Vec3(0.0, 0.0, -1.0), Vec3(-1.0, 0.0, 0.0), Vec3(1.0, 0.0, 0.0),
    Vec3(0.0, 1.0, 0.0), Vec3(0.0, -1.0, 0.0), Vec3(0.0, 0.0, 1.0)]

  /** The twelve wireframe edges as pairs of corner indices. */
  const CornerConnections: seq<(nat, nat)> := [
    (0, 1), (0, 2), (0, 4), (1, 3), (1, 5), (2, 3),
    (2, 6), (3, 7), (4, 5), (4, 6), (5, 7), (6, 7)]

  /** The four corners of each face, listed in order around the face. */
  const SurfaceCorners: seq<seq<nat>> := [
    [0, 1, 3, 2], [0, 2, 6, 4], [1, 3, 7, 5], [2, 3, 7, 6], [0, 1, 5, 4], [4, 5, 7, 6]]

  /** The four edges (indices into `CornerConnections`) of each face. */
  const SurfaceCornerConnections: seq<seq<nat>> := [
    [0, 1, 3, 5], [1, 2, 6, 9], [3, 4, 7, 10], [5, 6, 7, 11], [0, 2, 4, 8], [8, 9, 10, 11]]

  /** The corner each face plane is built through before it is recentred. */
  const FaceAnchors: seq<nat> := [0, 0, 7, 7, 0, 7]

  function Origin(c: Cuboid): Point {
    Vec3(c.x, c.y, c.z)
  }

  /** The corner a choice of sides selects: corner `i` lies at x + width when bit 0
      of `i` is set, at y + height when bit 1 is clear, and at z + length when bit 2
      is set. */
  function CornerAt(c: Cuboid, i: nat): Point {
    Vec3(if i % 2 == 1 then c.x + c.width else c.x,
         if (i / 2) % 2 == 0 then c.y + c.height else c.y,
         if (i / 4) % 2 == 1 then c.z + c.length else c.z)
  }

  /** `Cuboid.corners`, the fixed table of the eight corners. */
  function Corners(c: Cuboid): (r: seq<Point>)
    ensures |r| == 8
  {
    [
      Vec3(c.x, c.y + c.height, c.z),
      Vec3(c.x + c.width, c.y + c.height, c.z),
      Vec3(c.x, c.y, c.z),
      Vec3(c.x + c.width, c.y, c.z),
      Vec3(c.x, c.y + c.height, c.z + c.length),
      Vec3(c.x + c.width, c.y + c.height, c.z + c.length),
      Vec3(c.x, c.y, c.z + c.length),
      Vec3(c.x + c.width, c.y, c.z + c.length)
    ]
  }

  /** The average of four points. */
  function Centroid(ps: seq<Point>): Point
    requires |ps| == 4
  {
    Vec3((ps[0].x + ps[1].x + ps[2].x + ps[3].x) / 4.0,
         (ps[0].y + ps[1].y + ps[2].y + ps[3].y) / 4.0,
         (ps[0].z + ps[1].z + ps[2].z + ps[3].z) / 4.0)
  }

  /** The four corners of face `i`, in table order. */
  function SurfacePoints(c: Cuboid, i: nat): (r: seq<Point>)
    requires i < 6
    ensures |r| == 4
  {
    var cs := Corners(c);
    var ks := SurfaceCorners[i];
    [cs[ks[0]], cs[ks[1]], cs[ks[2]], cs[ks[3]]]
  }

  /** Face `i` of `Cuboid.faces`: it is first the plane with normal `Normals[i]` through
      its anchor corner, then its point is moved to the centroid of the face. */
  function Face(c: Cuboid, i: nat): (r: Plane)
    requires i < 6
    ensures r.normal == Normals[i] && r.point == Centroid(SurfacePoints(c, i))
    ensures Consistent(r)
  {
    ChangePoint(MakePlane(Normals[i], Corners(c)[FaceAnchors[i]]), Centroid(SurfacePoints(c, i)))
  }

  /** All six face planes, in face order. */
  function Faces(c: Cuboid): (r: seq<Plane>)
    ensures |r| == 6
    ensures forall i :: 0 <= i < 6 ==> r[i] == Face(c, i)
  {
    seq(6, i requires 0 <= i < 6 => Face(c, i))
  }

  /** `Cuboid.center`. */
  function Center(c: Cuboid): Point {
    Vec3(c.x + c.width / 2.0, c.y + c.height / 2.0, c.z + c.length / 2.0)
  }

  function Midpoint(a: Point, b: Point): Point {
    Vec3((a.x + b.x) / 2.0, (a.y + b.y) / 2.0, (a.z + b.z) / 2.0)
  }

  /** The squared Euclidean distance between two points. */
  function SquaredDistance(a: Point, b: Point): real {
    Dot(Sub(a, b), Sub(a, b))
  }

  /** `Cuboid.radius`: the distance from the centre to corner 0. Its square is a
      quarter of the squared diagonal. */
  function Radius(c: Cuboid, m: Math): (r: real)
    requires m.SqrtSound()
    ensures 0.0 <= r
    ensures r * r == (c.width * c.width + c.height * c.height + c.length * c.length) / 4.0
  {
    var d := SquaredDistance(Center(c), Corners(c)[0]);
    assert d == (c.width * c.width + c.height * c.height + c.length * c.length) / 4.0;
    DotSelfZero(Sub(Center(c), Corners(c)[0]));
    m.sqrt(d)
  }

  /** `Cuboid.collides_with`: strict overlap of the extents on all three axes. */
  predicate CollidesWith(a: Cuboid, b: Cuboid) {
    && a.x < b.x + b.width && a.x + a.width > b.x
    && a.y < b.y + b.height && a.y + a.height > b.y
    && a.z < b.z + b.length && a.z + a.length > b.z
  }

  /** A point strictly inside the box. */
  predicate StrictlyInside(c: Cuboid, p: Point) {
    && c.x < p.x < c.x + c.width
    && c.y < p.y < c.y + c.height
    && c.z < p.z < c.z + c.length
  }

  /** A point in the closed box spanned by the corners (empty if an extent is negative). */
  predicate InBox(c: Cuboid, p: Point) {
    && c.x <= p.x <= c.x + c.width
    && c.y <= p.y <= c.y + c.height
    && c.z <= p.z <= c.z + c.length
  }

  // ---------------------------------------------------------------- lemmas

  /** The corners the layout names: corner 2 is the origin, corner 5 the opposite
      corner, and corner 7 is (x + width, y, z + length). */
  lemma CornerLayout(c: Cuboid)
    ensures Corners(c)[2] == Origin(c)
    ensures Corners(c)[5] == Vec3(c.x + c.width, c.y + c.height, c.z + c.length)
    ensures Corners(c)[7] == Vec3(c.x + c.width, c.y, c.z + c.length)
  {
  }

  /** The corner table follows the bit encoding of `CornerAt`. */
  lemma CornersFollowBits(c: Cuboid, i: nat)
    requires i < 8
    ensures Corners(c)[i] == CornerAt(c, i)
  {
    if i == 0 {} else if i == 1 {} else if i == 2 {} else if i == 3 {}
    else if i == 4 {} else if i == 5 {} else if i == 6 {} else {}
  }

  /** Both ends of every edge are corner indices. */
  lemma ConnectionsInRange()
    ensures forall k :: 0 <= k < |CornerConnections| ==> CornerConnections[k].0 < 8 && CornerConnections[k].1 < 8
  {
  }

  /** Every edge runs along one axis: its second corner is its first one moved by
      +width in x, by -height in y, or by +length in z, and nothing else. */
  lemma EdgesAxisAligned(c: Cuboid, k: nat)
    requires k < 12
    ensures CornerConnections[k].0 < 8 && CornerConnections[k].1 < 8
    ensures var d := Sub(Corners(c)[CornerConnections[k].1], Corners(c)[CornerConnections[k].0]);
            d == Vec3(c.width, 0.0, 0.0) || d == Vec3(0.0, -c.height, 0.0) || d == Vec3(0.0, 0.0, c.length)
  {
  }

  /** Each face's edges join corners of that face. */
  lemma SurfaceEdgesJoinSurfaceCorners(s: nat, k: nat)
    requires s < 6 && k < 4
    ensures SurfaceCornerConnections[s][k] < 12
    ensures CornerConnections[SurfaceCornerConnections[s][k]].0 in SurfaceCorners[s]
    ensures CornerConnections[SurfaceCornerConnections[s][k]].1 in SurfaceCorners[s]
  {
  }

  /** Consecutive corners of a face (cyclically) are joined by one of that face's edges. */
  lemma SurfaceCornersFormCycle(s: nat, k: nat)
    requires s < 6 && k < 4
    ensures var a, b := SurfaceCorners[s][k], SurfaceCorners[s][(k + 1) % 4];
            (a, b) in SurfaceEdges(s) || (b, a) in SurfaceEdges(s)
  {
  }

  /** The edges of face `s` as corner pairs. */
  function SurfaceEdges(s: nat): seq<(nat, nat)>
    requires s < 6
  {
    var ks := SurfaceCornerConnections[s];
    [CornerConnections[ks[0]], CornerConnections[ks[1]], CornerConnections[ks[2]], CornerConnections[ks[3]]]
  }

  /** All four corners of face `i` satisfy face `i`'s plane equation. */
  lemma FacesContainTheirCorners(c: Cuboid, i: nat, k: nat)
    requires i < 6 && k < 4
    ensures OnPlane(Face(c, i), SurfacePoints(c, i)[k])
  {
    if i == 0 {} else if i == 1 {} else if i == 2 {} else if i == 3 {} else if i == 4 {} else {}
  }

  /** Moving each face's point from its anchor corner to its centroid does not change
      the plane's constant. */
  lemma RecentringKeepsConstant(c: Cuboid, i: nat)
    requires i < 6
    ensures Face(c, i).constant == MakePlane(Normals[i], Corners(c)[FaceAnchors[i]]).constant
  {
    if i == 0 {} else if i == 1 {} else if i == 2 {} else if i == 3 {} else if i == 4 {} else {}
  }

  /** Measured from the centre, the normals of faces Front, Left, Right and Back point
      away from the box, but those of faces Top and Bottom point into it. */
  lemma FaceNormalOrientation(c: Cuboid, i: nat)
    requires c.width > 0.0 && c.height > 0.0 && c.length > 0.0
    requires i < 6
    ensures i != 3 && i != 4 ==> Dot(Face(c, i).normal, Center(c)) + Face(c, i).constant < 0.0
    ensures i == 3 || i == 4 ==> Dot(Face(c, i).normal, Center(c)) + Face(c, i).constant > 0.0
  {
    if i == 0 {} else if i == 1 {} else if i == 2 {} else if i == 3 {} else if i == 4 {} else {}
  }

  /** The centre is the midpoint of every pair of opposite corners `i` and `7 - i`. */
  lemma CenterIsMidpoint(c: Cuboid, i: nat)
    requires i < 8
    ensures Center(c) == Midpoint(Corners(c)[i], Corners(c)[7 - i])
  {
  }

  /** Every corner, not only corner 0, lies exactly on the bounding sphere. */
  lemma RadiusReachesEveryCorner(c: Cuboid, m: Math, i: nat)
    requires m.SqrtSound()
    requires i < 8
    ensures SquaredDistance(Center(c), Corners(c)[i]) == Radius(c, m) * Radius(c, m)
  {
  }

  /** The bounding sphere contains every point of the box. */
  lemma BoundingSphereContainsBox(c: Cuboid, m: Math, p: Point)
    requires m.SqrtSound()
    requires InBox(c, p)
    ensures SquaredDistance(Center(c), p) <= Radius(c, m) * Radius(c, m)
  {
    var ctr := Center(c);
    SquareBound(ctr.x - p.x, c.width / 2.0);
    SquareBound(ctr.y - p.y, c.height / 2.0);
    SquareBound(ctr.z - p.z, c.length / 2.0);
  }

  lemma CollidesSymmetric(a: Cuboid, b: Cuboid)
    ensures CollidesWith(a, b) <==> CollidesWith(b, a)
  {
  }

  /** A box collides with itself exactly when all its extents are positive. */
  lemma CollidesWithSelfIff(c: Cuboid)
    ensures CollidesWith(c, c) <==> c.width > 0.0 && c.height > 0.0 && c.length > 0.0
  {
  }

  /** Boxes that only touch along a face perpendicular to x do not collide. */
  lemma TouchingBoxesDoNotCollide(a: Cuboid, b: Cuboid)
    requires b.x == a.x + a.width
    ensures !CollidesWith(a, b)
  {
  }

  /** For boxes with positive extents, colliding means sharing an interior point. */
  lemma CollidesIffCommonInteriorPoint(a: Cuboid, b: Cuboid)
    requires a.width > 0.0 && a.height > 0.0 && a.length > 0.0
    requires b.width > 0.0 && b.height > 0.0 && b.length > 0.0
    ensures CollidesWith(a, b) <==> exists p :: StrictlyInside(a, p) && StrictlyInside(b, p)
  {
    if CollidesWith(a, b) {
      var p := Vec3(
        (Max(a.x, b.x) + Min(a.x + a.width, b.x + b.width)) / 2.0,
        (Max(a.y, b.y) + Min(a.y + a.height, b.y + b.height)) / 2.0,
        (Max(a.z, b.z) + Min(a.z + a.length, b.z + b.length)) / 2.0);
      assert StrictlyInside(a, p) && StrictlyInside(b, p);
    }
  }

  function Max(a: real, b: real): real {
    if a < b then b else a
  }

  function Min(a: real, b: real): real {
    if a < b then a else b
  }
}
