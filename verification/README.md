# ThreeDRendering core in Dafny

This is a model of the small Python 3D wireframe renderer ThreeDRendering. It covers four parts:

- **Vector and plane algebra.** `Vector`, `Ray`, `Plane` and two helper functions, from `ThreeDRenderer/Vector_Math.py`.
- **Boxes.** Axis-aligned boxes, with their corner, edge and face tables, face planes, bounding sphere and overlap test, from `ThreeDRenderer/Cuboid.py`.
- **The camera.** Its position, looking vector, a view plane ten units ahead, yaw, horizontal field of view, and the x/y limits derived from it, from `ThreeDRenderer/Camera.py`.
- **The box renderer.** It projects each corner onto the view plane, scales the result to the window, and draws the twelve edges, from `ThreeDRenderer/renderer/cuboid.py`.

The model uses exact real arithmetic. Each mutating method becomes a function from the old value to the new one. Python exceptions become the `Err` arm of `Result`: `ParallelError` for a ray parallel to a plane, `ZeroDivisionError` for a division by zero. `sin`, `cos`, `sqrt`, `acos` and `pi` come from `math` and are not computed. They are fields of a `Math` record passed as a parameter. Proofs assume only what three predicates of `Math` state: `sqrt` returns the non-negative root (`SqrtSound`), `pi` is positive (`PiPositive`), and sin² + cos² = 1 at every angle (`Pythagorean`). Each lemma requires only the ones it uses. In addition, `Cameras.InitLimitCounterexample` assumes two concrete values: sin(pi/6) = 0.5 and cos(pi/6) > 0.

The files, one module each:

| file | module | contents |
|---|---|---|
| `wrappers.dfy` | `Wrappers` | `Result` and the two error kinds |
| `real_arith.dfy` | `RealArith` | small facts about products and squares of reals |
| `transcendental.dfy` | `Transcendental` | the `Math` record, its three predicates, and the facts about `sqrt` |
| `vector_math.dfy` | `VectorMath` | vectors, rays, planes, intersection, distance |
| `cuboid.dfy` | `Cuboids` | boxes |
| `camera.dfy` | `Cameras` | the camera |
| `projector.dfy` | `Projector` | projecting and drawing a box |
| `source_tests.dfy` | `SourceTests` | the exact expectations of the self-tests in `Vector_Math.py` |

The camera's looking vector and its view plane's normal are one shared object in the source. The model keeps them as two fields and states that they are equal as the invariant `Cameras.Aliased`. `rotate_to` updates both. `Cameras.Valid` is the invariant every constructed camera keeps under `move_to`, `move`, `rotate_to`, `rotate` and `change_x_fov_to`. It holds that:

- the window sides are non-zero and the ratios are their quotients;
- the looking vector and plane normal are aliased;
- the plane constant is current;
- `y_limit = x_limit * x_to_y_ratio`.

## Model

| member | source | states |
|---|---|---|
| VectorMath.Cross | ThreeDRenderer/Vector_Math.py:74-79 | the cross product is orthogonal to both operands |
| VectorMath.CrossAntiCommutative | ThreeDRenderer/Vector_Math.py:74-79 | swapping the operands of `cross` gives the reverse of the result |
| VectorMath.LagrangeIdentity | ThreeDRenderer/Vector_Math.py:63-79 | `dot` and `cross` are related by \|a\|²\|b\|² = (a·b)² + \|a×b\|² |
| VectorMath.CauchySchwarz | ThreeDRenderer/Vector_Math.py:63-64 | (a·b)² never exceeds (a·a)(b·b) |
| VectorMath.DotSelfZero | ThreeDRenderer/Vector_Math.py:63-64 | v·v is non-negative and zero only for the zero vector |
| VectorMath.Divide | ThreeDRenderer/Vector_Math.py:27-32 | dividing by zero raises ZeroDivisionError and nothing else does; otherwise multiplying the result by the divisor gives back the vector |
| VectorMath.DivideAfterScale | ThreeDRenderer/Vector_Math.py:20-32 | `/ c` undoes `* c` for every non-zero c |
| VectorMath.GetReverse | ThreeDRenderer/Vector_Math.py:86-91 | the reverse is the additive inverse |
| VectorMath.Reverse | ThreeDRenderer/Vector_Math.py:81-84 | the value left by the in-place reverse is the one `get_reverse` returns, the additive inverse |
| VectorMath.ReverseTwice | ThreeDRenderer/Vector_Math.py:81-84 | reversing twice restores the vector |
| VectorMath.VectorFromTo | ThreeDRenderer/Vector_Math.py:160-166 | the displacement carries the first point onto the second |
| VectorMath.Magnitude | ThreeDRenderer/Vector_Math.py:43-45 | the magnitude is non-negative, squares to v·v, and is zero exactly for the zero vector |
| VectorMath.AngleBetween | ThreeDRenderer/Vector_Math.py:66-72 | a zero dot product gives the sentinel 90; otherwise the result is `acos` of the cosine, and that argument lies in [-1, 1] |
| VectorMath.CosineInRange | ThreeDRenderer/Vector_Math.py:66-72 | the value passed to `acos` is always in its domain |
| VectorMath.ChangeToYawPitch | ThreeDRenderer/Vector_Math.py:93-99 | the receiver's new value is the direction `get_vector_from_yaw_pitch` gives, scaled by the magnitude; when sin² + cos² = 1 its squared length is magnitude² |
| VectorMath.YawPitchMagnitude | ThreeDRenderer/Vector_Math.py:93-99 | with a sound `sqrt` and sin² + cos² = 1, `magnitude()` of the new value is the requested non-negative magnitude, whatever the yaw and pitch |
| VectorMath.LevelPitchIsYawDirection | ThreeDRenderer/Vector_Math.py:169-178 | at a level pitch the yaw/pitch direction is the camera's `(sin yaw, 0, cos yaw)` |
| VectorMath.MakePlane | ThreeDRenderer/Vector_Math.py:116-119 | the new plane keeps the given normal and point, and its constant makes the point satisfy the plane equation |
| VectorMath.UpdateConstant | ThreeDRenderer/Vector_Math.py:124-125 | normal and point are unchanged and the constant is brought up to date |
| VectorMath.UpdateConstantIdempotent | ThreeDRenderer/Vector_Math.py:124-125 | refreshing an up-to-date constant changes nothing |
| VectorMath.ChangeNormal | ThreeDRenderer/Vector_Math.py:127-129 | the normal is replaced, the point kept, and the constant is current |
| VectorMath.ChangePoint | ThreeDRenderer/Vector_Math.py:131-133 | the point is replaced, the normal kept, and the constant is current |
| VectorMath.ChangePointWithinPlane | ThreeDRenderer/Vector_Math.py:131-133 | moving the point to another point of the plane keeps the constant, and so the plane itself |
| VectorMath.ChangeNormalAndPoint | ThreeDRenderer/Vector_Math.py:135-140 | both are replaced and the constant is current |
| VectorMath.OnPlaneIffOrthogonal | ThreeDRenderer/Vector_Math.py:116-125 | with a current constant, a point is on the plane exactly when its offset from the stored point is orthogonal to the normal |
| VectorMath.Intersect | ThreeDRenderer/Vector_Math.py:142-150 | ParallelError exactly when the ray's direction is orthogonal to the normal; otherwise the result is on both the plane and the ray's line |
| VectorMath.IntersectUnique | ThreeDRenderer/Vector_Math.py:142-150 | any point of the line that lies on the plane is the one the intersection returns |
| VectorMath.IntersectAtStart | ThreeDRenderer/Vector_Math.py:142-150 | a ray starting on the plane hits it at its start |
| VectorMath.Distance | ThreeDRenderer/Vector_Math.py:152-157 | ZeroDivisionError exactly for a zero normal; otherwise the distance is non-negative |
| VectorMath.DistanceZeroIffOnPlane | ThreeDRenderer/Vector_Math.py:152-157 | the distance is zero exactly for points on the plane |
| VectorMath.DistanceSquared | ThreeDRenderer/Vector_Math.py:152-157 | distance² · \|n\|² equals the squared residual of the plane equation |
| VectorMath.Quotient | ThreeDRenderer/Vector_Math.py:157 | Python's `/` raises ZeroDivisionError exactly for a zero denominator; a quotient of non-negatives is non-negative |
| Cuboids.CornerLayout | ThreeDRenderer/Cuboid.py:64-73 | corner 2 is the origin corner, corner 5 the far corner, and corner 7 is (x + width, y, z + length) |
| Cuboids.CornersFollowBits | ThreeDRenderer/Cuboid.py:64-73 | the corner table is the encoding bit 0 → +width, bit 1 clear → +height, bit 2 → +length |
| Cuboids.EdgesAxisAligned | ThreeDRenderer/Cuboid.py:18-31 | every edge joins two corners that differ along exactly one axis, by the box's extent on it |
| Cuboids.SurfaceEdgesJoinSurfaceCorners | ThreeDRenderer/Cuboid.py:34-51 | each face's four edges join corners of that same face |
| Cuboids.SurfaceCornersFormCycle | ThreeDRenderer/Cuboid.py:34-51 | consecutive corners of a face, cyclically, are joined by one of that face's edges |
| Cuboids.Face | ThreeDRenderer/Cuboid.py:76-89 | face i has normal `normals[i]`, its point is the centroid of its four corners, and its constant is current |
| Cuboids.FacesContainTheirCorners | ThreeDRenderer/Cuboid.py:76-89 | all four corners of each face lie on that face's plane |
| Cuboids.RecentringKeepsConstant | ThreeDRenderer/Cuboid.py:85-89 | moving each face's point to the centroid leaves its constant unchanged |
| Cuboids.FaceNormalOrientation | ThreeDRenderer/Cuboid.py:8-15 | for a box with positive extents, seen from the centre, the normals of faces 0, 1, 2 and 5 point outwards and those of faces 3 and 4 point inwards |
| Cuboids.CenterIsMidpoint | ThreeDRenderer/Cuboid.py:92-96 | the centre is the midpoint of each pair of opposite corners i and 7 - i |
| Cuboids.Radius | ThreeDRenderer/Cuboid.py:97 | the radius is non-negative and its square is a quarter of the squared diagonal |
| Cuboids.RadiusReachesEveryCorner | ThreeDRenderer/Cuboid.py:97 | every corner, not only corner 0, is exactly one radius from the centre |
| Cuboids.BoundingSphereContainsBox | ThreeDRenderer/Cuboid.py:91-97 | every point of the box is within one radius of the centre |
| Cuboids.CollidesSymmetric | ThreeDRenderer/Cuboid.py:102-107 | a collides with b exactly when b collides with a |
| Cuboids.CollidesWithSelfIff | ThreeDRenderer/Cuboid.py:102-107 | a box collides with itself exactly when all its extents are positive |
| Cuboids.TouchingBoxesDoNotCollide | ThreeDRenderer/Cuboid.py:102-107 | a box that begins along x exactly where another ends does not collide with it, since the comparisons are strict |
| Cuboids.CollidesIffCommonInteriorPoint | ThreeDRenderer/Cuboid.py:102-107 | for positive extents, colliding is the same as sharing a point strictly inside both |
| Cameras.Ratios | ThreeDRenderer/Camera.py:25-26 | ZeroDivisionError exactly for a zero side; otherwise each ratio times its denominator gives the other side |
| Cameras.InitialPlane | ThreeDRenderer/Camera.py:32-38 | the first view plane faces +z, passes ten units ahead of the position, and has a current constant |
| Cameras.OnInitialPlane | ThreeDRenderer/Camera.py:35-38 | a point is on the first view plane exactly when it is ten units ahead in z |
| Cameras.HalfFovHitX | ThreeDRenderer/Camera.py:49-55 | ParallelError exactly when cos(fov/2) = 0; otherwise the hit lies 10·tan(fov/2) to the side of the position |
| Cameras.FovHit | ThreeDRenderer/Camera.py:49-55 | the half-field-of-view ray from p meets the plane ten units ahead exactly when cos(fov/2) ≠ 0, at x = p.x + 10·tan(fov/2) |
| Cameras.FreshCamera | ThreeDRenderer/Camera.py:22-58 | a just-built camera keeps the given window size and ratios, satisfies the invariant, and has its view plane ten units ahead |
| Cameras.NewCameraAsWritten | ThreeDRenderer/Camera.py:15-62 | a zero window side raises ZeroDivisionError, a parallel half-field ray raises ParallelError, and any other failure is the ZeroDivisionError of the final ratio for a zero y limit; a built camera keeps the given window size, is valid, is at the start, looks along +z, has a non-zero y limit, and its x limit is start.x + 10·tan(fov/2) |
| Cameras.AfterRatiosAsWritten | ThreeDRenderer/Camera.py:29-62 | once the ratios are known: ParallelError when the half-field ray is parallel, otherwise ZeroDivisionError; it succeeds exactly when the ray is not parallel and the hit's x times the x-to-y ratio (the y limit) is non-zero, and then gives a valid camera whose x limit includes start.x |
| Cameras.FinishInit | ThreeDRenderer/Camera.py:57-62 | the y limit's zero test: it succeeds exactly when x limit times the x-to-y ratio is non-zero, a failure is always ZeroDivisionError, and a returned camera is valid, keeps the given x limit and has a non-zero y limit |
| Cameras.NewCameraAsWrittenFailsIff | ThreeDRenderer/Camera.py:15-62 | construction succeeds exactly when both sides and cos(fov/2) are non-zero and start.x·cos + 10·sin ≠ 0 |
| Cameras.NewCamera | ThreeDRenderer/Camera.py:15-62 | the constructor with the x limit measured from the plane's point: the same three error cases with the same kinds, the same window and pose, and its x limit is 10·tan(fov/2) |
| Cameras.AfterRatios | ThreeDRenderer/Camera.py:29-62 | the corrected remainder: ParallelError when the half-field ray is parallel, otherwise ZeroDivisionError; it succeeds exactly when the ray is not parallel and the plane-relative x limit times the ratio is non-zero, and then gives a valid camera whose x limit is 10·tan(fov/2) |
| Cameras.PlaneRelative | ThreeDRenderer/Camera.py:54-55 | the hit's x coordinate measured from the initial view plane's point is the half-width 10·tan(fov/2) |
| Cameras.NewCameraFailsIff | ThreeDRenderer/Camera.py:15-62 | the corrected constructor succeeds exactly when both sides, cos(fov/2) and sin(fov/2) are non-zero |
| Cameras.ClampFov | ThreeDRenderer/Camera.py:97-101 | the clamped angle lies in [pi/100, 99pi/100] and equals the input inside that range; an angle below pi/100 becomes pi/100 and one above 99pi/100 becomes 99pi/100 |
| Cameras.ClampIdempotent | ThreeDRenderer/Camera.py:97-101 | clamping twice is clamping once |
| Cameras.FovPlaneAtOrigin | ThreeDRenderer/Camera.py:9-13 | the fixed field-of-view plane is the first view plane of a camera at the origin |
| Cameras.FovLimit | ThreeDRenderer/Camera.py:105-111 | ParallelError exactly when cos(fov/2) = 0; otherwise the limit is 10·tan(fov/2) |
| Cameras.ChangeXFovTo | ThreeDRenderer/Camera.py:91-113 | ParallelError exactly when the cosine at the clamped angle is zero; otherwise x_fov is the clamped angle, the x limit is 10·tan of half of it, the y limit follows by the ratio, nothing else changes, and the invariant is kept |
| Cameras.FovChangeMeasuresFromOrigin | ThreeDRenderer/Camera.py:105-120 | re-applying the current angle turns a limit measured from x = o into the same limit minus o |
| Cameras.FovChangeAtCurrentAngleIsIdentity | ThreeDRenderer/Camera.py:115-120 | `change_x_fov_by(0)` leaves a valid camera unchanged when its limit already fits its angle |
| Cameras.FovLimitIgnoresPose | ThreeDRenderer/Camera.py:105-113 | the x limit a field-of-view change computes does not depend on the camera's position or direction |
| Cameras.MoveTo | ThreeDRenderer/Camera.py:64-76 | the camera is at the new position with its view plane ten units ahead along the looking vector; nothing else changes and the invariant is kept |
| Cameras.MoveZeroIsIdentity | ThreeDRenderer/Camera.py:78-89 | moving by zero changes nothing for a camera with its plane in front |
| Cameras.MovesCompose | ThreeDRenderer/Camera.py:78-89 | two moves equal one move by the sum of the offsets |
| Cameras.RotateTo | ThreeDRenderer/Camera.py:122-136 | the looking vector becomes (sin a, 0, cos a) and is shared with the plane; the plane's point stays where it was; the constant is current and the invariant is kept |
| Cameras.RotateKeepsStandoffIff | ThreeDRenderer/Camera.py:122-136 | after a rotation the plane is still ten units ahead exactly when the looking vector did not change |
| Cameras.RotateBackRestores | ThreeDRenderer/Camera.py:122-145 | rotating away and back to the original yaw restores the camera |
| Cameras.InitLimitIncludesStartX | ThreeDRenderer/Camera.py:49-58 | for the constructor as written, `change_x_fov_by(0)` changes the x limit by -start.x |
| Cameras.InitLimitCounterexample | ThreeDRenderer/Camera.py:49-58 | for an 800 x 600 window, fov pi/3 and start (5, 0, 0), the constructor's x limit differs from the recomputed one by 5 |
| Cameras.CorrectedInitAgreesWithFovChange | ThreeDRenderer/Camera.py:49-58 | with the corrected constructor, `change_x_fov_by(0)` changes nothing |
| Projector.CornerRay | ThreeDRenderer/renderer/cuboid.py:12 | the ray starts at the camera and reaches the corner at t = 1 |
| Projector.CornerOffset | ThreeDRenderer/renderer/cuboid.py:11-16 | ParallelError exactly when the line of sight to the corner is parallel to the view plane; otherwise plane point plus offset lies both on the view plane and on the line from the camera through the corner |
| Projector.Offsets | ThreeDRenderer/renderer/cuboid.py:9-18 | the loop fails, with ParallelError, exactly when some corner does; otherwise it keeps every corner's offset, in order |
| Projector.Project | ThreeDRenderer/renderer/cuboid.py:7-51 | ParallelError before anything else; then ZeroDivisionError exactly when a limit is zero; otherwise twelve segments, one per edge, between the corners' scaled and centred offsets |
| Projector.Render | ThreeDRenderer/renderer/cuboid.py:7-51 | the renderer's three loops compute exactly what `Project` specifies, including its errors |
| Projector.ScalePoints | ThreeDRenderer/renderer/cuboid.py:24-31 | the second loop yields one window point per offset, in order, each the offset's x and y scaled and moved to the window centre |
| Projector.Wireframe | ThreeDRenderer/renderer/cuboid.py:40-51 | one segment per corner connection, twelve in all |
| Projector.WireframeJoinsPoints | ThreeDRenderer/renderer/cuboid.py:40-51 | every line drawn joins two of the eight window points |
| Projector.DrawEdges | ThreeDRenderer/renderer/cuboid.py:40-51 | the third loop draws exactly `Wireframe`'s segments: the k-th joins the window points of the k-th corner connection |
| Projector.CornerOnPlaneProjectsToItself | ThreeDRenderer/renderer/cuboid.py:11-16 | a corner already on the view plane projects to its own offset from the plane's point |
| Projector.OffsetOrthogonalToLooking | ThreeDRenderer/renderer/cuboid.py:14-16 | for a valid camera, every offset is orthogonal to the looking vector |
| Projector.PlanePointAtCentre | ThreeDRenderer/renderer/cuboid.py:25-31 | the view plane's point is drawn at the window centre |
| Projector.LimitsMapToEdges | ThreeDRenderer/renderer/cuboid.py:21-31 | offsets at ± the x and y limits land on the window edges |
| Projector.ToPixelDeterminesXY | ThreeDRenderer/renderer/cuboid.py:25-31 | with non-zero scales, two offsets are drawn at the same place exactly when they agree in x and y |
| SourceTests.DotTest1 | ThreeDRenderer/Vector_Math.py:206-220 | (1,0,0)·(0,1,0) = 0 |
| SourceTests.DotTest2 | ThreeDRenderer/Vector_Math.py:222-236 | (1,0,0)·(1,1,0) = 1 |
| SourceTests.DotTest3 | ThreeDRenderer/Vector_Math.py:238-252 | (10,5,2)·(7,6,9) = 118 |
| SourceTests.OrthogonalAngleTest | ThreeDRenderer/Vector_Math.py:257-271 | the angle between orthogonal axes is the sentinel 90 |
| SourceTests.CrossTest1 | ThreeDRenderer/Vector_Math.py:308-322 | (1,0,0)×(0,1,0) = (0,0,1) |
| SourceTests.CrossTest2 | ThreeDRenderer/Vector_Math.py:324-338 | (1,0,0)×(1,1,0) = (0,0,1) |
| SourceTests.CrossTest3 | ThreeDRenderer/Vector_Math.py:340-354 | (10,5,2)×(7,6,9) = (33,-76,25) |
| SourceTests.IntersectTest2 | ThreeDRenderer/Vector_Math.py:375-389 | the plane 2x + y - 4z = 4 meets the ray (0,2,0) + t(1,3,1) at (2,8,2) |
| SourceTests.IntersectTest3 | ThreeDRenderer/Vector_Math.py:391-405 | the plane 4x + 5y - 2z = 18 meets the ray (2,0,5) + t(3,-4,1) at (-4,8,3) |
| SourceTests.AxisHit | ThreeDRenderer/Vector_Math.py:142-150 | a ray along z meets a plane facing +z at the ray's x and y and the plane's z |
| SourceTests.IntersectTest1 | ThreeDRenderer/Vector_Math.py:359-373 | the plane z = 0 meets the ray (17,22,-16) + t(0,0,15) at (17,22,0) |
| SourceTests.AxisDistance | ThreeDRenderer/Vector_Math.py:152-157 | the distance to a plane facing +z is the absolute difference in z |
| SourceTests.DistanceTest1 | ThreeDRenderer/Vector_Math.py:410-424 | the point (0,0,10) is at distance 10 from the plane z = 0 |

## Behaviour as coded

These points follow the code, which is what the model does:

- Corner 7 is (x + width, y, z + length). The corner opposite the origin corner 2 is corner 5, not corner 7.
- The radius is the distance from the centre to corner 0. Every corner is at exactly that distance, so the sphere is the circumscribed sphere of the box, not a looser bound.
- The centre is the midpoint of corners 2 and 5, the two opposite corners, and of every other pair i and 7 - i. It is not the midpoint of corners 2 and 7.
- The "Top" face (index 3) lies at the box's lower y. Its normal (0, 1, 0) points into the box, and so does the "Bottom" face's (index 4). The other four normals point outwards.
- The field-of-view clamp allows both end points, pi/100 and 99pi/100.
- `rotate_to` does not move the view plane's point back in front of the camera. The next `move_to` does.

## Findings

| source | as written | input that shows it | evidently intended | confidence | as-written member | corrected member |
|---|---|---|---|---|---|---|
| ThreeDRenderer/Camera.py:54-55 | `__init__` stores the absolute x coordinate of the half-field-of-view hit as `x_limit`. That value includes the start position's own x. `change_x_fov_to` stores the half-width measured from x = 0, and the renderer uses `x_limit` as a half-width around the view plane's point. | An 800 x 600 window, x_fov = pi/3, start (5, 0, 0). `x_limit` is 5 + 10·tan(pi/6). `change_x_fov_by(0)` then sets it to 10·tan(pi/6), so the drawing scale jumps although nothing changed. | `x_limit` = hit x minus the view plane's point x, that is 10·tan(x_fov/2) | medium, not executed | Cameras.InitLimitCounterexample | Cameras.CorrectedInitAgreesWithFovChange |

`Cameras.NewCameraAsWritten` is the constructor as written, and `Cameras.InitLimitIncludesStartX` states the offset in general. `Cameras.NewCamera` is the corrected constructor.

## Left out

- `main.py` and `ThreeDRenderer/Frustum.py` are not part of this model. They are the pygame loop and unused culling code.
- Drawing with pygame, the prints in `Camera.__init__` and the `__str__` methods are left out, because they are I/O or plain formatting. The final print's division is modelled, because it can raise.
- `Vector.from_instance`, `Vector.from_iterable` and the `vector` property only copy components. Points and vectors are one type here.
- The model uses exact reals, not floating point. Rounding, including an `acos` argument that rounding pushes just past 1, is not modelled.
- `sin`, `cos`, `sqrt`, `acos` and `pi` are parameters, not computed. Only `SqrtSound`, `PiPositive` and `Pythagorean` are assumed, plus sin(pi/6) = 0.5 and cos(pi/6) > 0 in `Cameras.InitLimitCounterexample`.
- Default arguments are not modelled, and callers pass every argument. The defaults are the camera's `x_fov = pi/3`, the camera's missing start position meaning the origin, and `change_to_yaw_pitch`'s `magnitude = 1`.
- Object identity and in-place mutation are not modelled. Operations return new values. The one aliasing that matters, the looking vector shared with the view plane, is the invariant `Cameras.Aliased`.
- Cameras.ChangeXFovTo: when the intersection raises, the source has already stored the clamped angle in `x_fov`. The model returns only the error.
- VectorMath.Dot: no contract of its own. Its properties are stated by `VectorMath.DotSelfZero`, `VectorMath.CauchySchwarz`, `VectorMath.LagrangeIdentity`, `VectorMath.OnPlaneIffOrthogonal` and `SourceTests.DotTest1` to `SourceTests.DotTest3`.
- VectorMath.Scale: no contract of its own. `VectorMath.Divide` and `VectorMath.DivideAfterScale` state that `/` undoes it.
- VectorMath.FromYawPitch: no contract of its own. `VectorMath.LevelPitchIsYawDirection`, `VectorMath.ChangeToYawPitch` and `VectorMath.YawPitchMagnitude` state its properties.
- Cuboids.CollidesWith: a predicate with no contract. `Cuboids.CollidesSymmetric`, `Cuboids.CollidesWithSelfIff`, `Cuboids.TouchingBoxesDoNotCollide` and `Cuboids.CollidesIffCommonInteriorPoint` state its properties.
- Cuboids.Center: no contract of its own. `Cuboids.CenterIsMidpoint`, `Cuboids.RadiusReachesEveryCorner` and `Cuboids.BoundingSphereContainsBox` state its properties.
- Projector.ToPixel: no contract of its own. `Projector.PlanePointAtCentre`, `Projector.LimitsMapToEdges` and `Projector.ToPixelDeterminesXY` state its properties.
- `Vector.__eq__` is Dafny's equality on `Vec3`, which is exact componentwise equality, as in the source. The source returns `False` for an argument that is not a `Vector`. That case has no counterpart, because points and vectors are one type here.
- Cuboids.Corners: its own contract gives only the length. The contents are stated by `Cuboids.CornersFollowBits` and `Cuboids.CornerLayout`.
- Cameras.ChangeXFovBy, Cameras.Move, Cameras.Rotate and Cuboids.Faces: their contracts only relate them to the operation they delegate to. Their properties are carried by the delegate and by the lemmas above.
- SourceTests: the tests that compare against rounded decimals are not restated, because they need actual `acos` and `sqrt` values. Those are the angles in `dot_product` tests 2 and 3 and the distances in distance tests 2 and 3.
- The renderer takes the window size from the drawing surface. Here it is a pair of parameters.
