/**
 * The cases of the unit test (test.cpp, testIntersects) for the plane
 * x = 0, the boxes [1,2]^3, [-2,-1]^3 and [-1,1]^3 and the spheres of radius
 * 0.5 at (1,1,1), (-1,-1,-1) and the origin, stated lane by lane; and a box
 * wholly in front of an offset plane that intersectPlaneAABB reports as
 * straddling it.
 */
module IntersectsTests {
  import GenericMath
  import opened GenericVecmath
  import Vector3
  import Planes
  import Boxes
  import Spheres
  import opened Intersects

  /** The plane x = 0 with normal +x. */
  predicate IsPlane1(p: Planes.Plane)
  {
    p.data.x == 1.0 && p.data.y == 0.0 && p.data.z == 0.0 && p.data.w == 0.0
  }

  /** The box [v, w]^3. */
  predicate IsCube(a: Boxes.AABB, v: real, w: real)
  {
    a.minExtents.vec.x == v && a.minExtents.vec.y == v && a.minExtents.vec.z == v &&
    a.maxExtents.vec.x == w && a.maxExtents.vec.y == w && a.maxExtents.vec.z == w
  }

  /** The sphere of radius 0.5 at (v, v, v). */
  predicate IsBall(s: Spheres.Sphere, v: real)
  {
    s.data.x == v && s.data.y == v && s.data.z == v && s.data.w == 0.5
  }

  /** The distance of the cube's center from x = 0, and its half-width along +x. */
  lemma CubeFacts(plane1: Planes.Plane, a: Boxes.AABB, v: real, w: real)
    requires IsPlane1(plane1) && IsCube(a, v, w)
    ensures Planes.Dot(plane1, Boxes.Center(a)) == (w + v) * 0.5
    ensures Spread(a, plane1) == (w - v) * 0.5
  {
    Boxes.CenterLanes(a);
  }

  /** The distance of the ball's center from x = 0, and its radius. */
  lemma BallFacts(plane1: Planes.Plane, s: Spheres.Sphere, v: real)
    requires IsPlane1(plane1) && IsBall(s, v)
    ensures Planes.Dot(plane1, Spheres.Center(s)) == v && Spheres.Radius(s) == 0.5
  {
  }

  /** [1,2]^3 is fully and partially in front of x = 0. */
  lemma PlaneBoxInFront(plane1: Planes.Plane, aabb1: Boxes.AABB)
    requires IsPlane1(plane1) && IsCube(aabb1, 1.0, 2.0)
    ensures PlaneAABBSides(aabb1, plane1) == Sides(true, true)
    ensures !IntersectPlaneAABB(aabb1, plane1)
  {
    SidesValues(aabb1, plane1);
    CubeFacts(plane1, aabb1, 1.0, 2.0);
  }

  /** [-2,-1]^3 is neither fully nor partially in front of x = 0. */
  lemma PlaneBoxBehind(plane1: Planes.Plane, aabb2: Boxes.AABB)
    requires IsPlane1(plane1) && IsCube(aabb2, -2.0, -1.0)
    ensures PlaneAABBSides(aabb2, plane1) == Sides(false, false)
    ensures !IntersectPlaneAABB(aabb2, plane1)
  {
    SidesValues(aabb2, plane1);
    CubeFacts(plane1, aabb2, -2.0, -1.0);
  }

  /** [-1,1]^3 is partially but not fully in front of x = 0: it straddles the plane. */
  lemma PlaneBoxAcross(plane1: Planes.Plane, aabb3: Boxes.AABB)
    requires IsPlane1(plane1) && IsCube(aabb3, -1.0, 1.0)
    ensures PlaneAABBSides(aabb3, plane1) == Sides(false, true)
    ensures IntersectPlaneAABB(aabb3, plane1)
  {
    SidesValues(aabb3, plane1);
    CubeFacts(plane1, aabb3, -1.0, 1.0);
  }

  /** The sphere at (1,1,1) is fully and partially in front of x = 0. */
  lemma PlaneSphereInFront(plane1: Planes.Plane, sphere1: Spheres.Sphere)
    requires IsPlane1(plane1) && IsBall(sphere1, 1.0)
    ensures PlaneSphereSides(sphere1, plane1) == Sides(true, true)
    ensures !IntersectPlaneSphere(sphere1, plane1)
  {
    SphereSidesValues(sphere1, plane1);
    BallFacts(plane1, sphere1, 1.0);
  }

  /** The sphere at (-1,-1,-1) is neither. */
  lemma PlaneSphereBehind(plane1: Planes.Plane, sphere2: Spheres.Sphere)
    requires IsPlane1(plane1) && IsBall(sphere2, -1.0)
    ensures PlaneSphereSides(sphere2, plane1) == Sides(false, false)
    ensures !IntersectPlaneSphere(sphere2, plane1)
  {
    SphereSidesValues(sphere2, plane1);
    BallFacts(plane1, sphere2, -1.0);
  }

  /** The sphere at the origin straddles x = 0. */
  lemma PlaneSphereAcross(plane1: Planes.Plane, sphere3: Spheres.Sphere)
    requires IsPlane1(plane1) && IsBall(sphere3, 0.0)
    ensures PlaneSphereSides(sphere3, plane1) == Sides(false, true)
    ensures IntersectPlaneSphere(sphere3, plane1)
  {
    SphereSidesValues(sphere3, plane1);
    BallFacts(plane1, sphere3, 0.0);
  }

  /** The sphere at (1,1,1) touches [1,2]^3 at its minimum corner. */
  lemma SphereOneBoxInFront(sphere1: Spheres.Sphere, aabb1: Boxes.AABB)
    requires IsBall(sphere1, 1.0) && IsCube(aabb1, 1.0, 2.0)
    ensures IntersectSphereAABB(sphere1, aabb1)
  {
    NearBox(sphere1, aabb1, 0.0, 0.0, 0.0);
  }

  /** The sphere at (1,1,1) misses [-2,-1]^3. */
  lemma SphereOneBoxBehind(sphere1: Spheres.Sphere, aabb2: Boxes.AABB)
    requires IsBall(sphere1, 1.0) && IsCube(aabb2, -2.0, -1.0)
    ensures !IntersectSphereAABB(sphere1, aabb2)
  {
    FarFromBox(sphere1, aabb2, 2.0, 2.0, 2.0);
  }

  /** The sphere at (1,1,1) touches [-1,1]^3 at its maximum corner. */
  lemma SphereOneBoxAcross(sphere1: Spheres.Sphere, aabb3: Boxes.AABB)
    requires IsBall(sphere1, 1.0) && IsCube(aabb3, -1.0, 1.0)
    ensures IntersectSphereAABB(sphere1, aabb3)
  {
    NearBox(sphere1, aabb3, 0.0, 0.0, 0.0);
  }

  /** The sphere at (-1,-1,-1) misses [1,2]^3. */
  lemma SphereTwoBoxInFront(sphere2: Spheres.Sphere, aabb1: Boxes.AABB)
    requires IsBall(sphere2, -1.0) && IsCube(aabb1, 1.0, 2.0)
    ensures !IntersectSphereAABB(sphere2, aabb1)
  {
    FarFromBox(sphere2, aabb1, -2.0, -2.0, -2.0);
  }

  /** The sphere at (-1,-1,-1) touches [-2,-1]^3. */
  lemma SphereTwoBoxBehind(sphere2: Spheres.Sphere, aabb2: Boxes.AABB)
    requires IsBall(sphere2, -1.0) && IsCube(aabb2, -2.0, -1.0)
    ensures IntersectSphereAABB(sphere2, aabb2)
  {
    NearBox(sphere2, aabb2, 0.0, 0.0, 0.0);
  }

  /** The sphere at (-1,-1,-1) touches [-1,1]^3. */
  lemma SphereTwoBoxAcross(sphere2: Spheres.Sphere, aabb3: Boxes.AABB)
    requires IsBall(sphere2, -1.0) && IsCube(aabb3, -1.0, 1.0)
    ensures IntersectSphereAABB(sphere2, aabb3)
  {
    NearBox(sphere2, aabb3, 0.0, 0.0, 0.0);
  }

  /** The sphere at the origin misses [1,2]^3. */
  lemma SphereThreeBoxInFront(sphere3: Spheres.Sphere, aabb1: Boxes.AABB)
    requires IsBall(sphere3, 0.0) && IsCube(aabb1, 1.0, 2.0)
    ensures !IntersectSphereAABB(sphere3, aabb1)
  {
    FarFromBox(sphere3, aabb1, -1.0, -1.0, -1.0);
  }

  /** The sphere at the origin misses [-2,-1]^3. */
  lemma SphereThreeBoxBehind(sphere3: Spheres.Sphere, aabb2: Boxes.AABB)
    requires IsBall(sphere3, 0.0) && IsCube(aabb2, -2.0, -1.0)
    ensures !IntersectSphereAABB(sphere3, aabb2)
  {
    FarFromBox(sphere3, aabb2, 1.0, 1.0, 1.0);
  }

  /** The sphere at the origin lies inside [-1,1]^3. */
  lemma SphereThreeBoxAcross(sphere3: Spheres.Sphere, aabb3: Boxes.AABB)
    requires IsBall(sphere3, 0.0) && IsCube(aabb3, -1.0, 1.0)
    ensures IntersectSphereAABB(sphere3, aabb3)
  {
    NearBox(sphere3, aabb3, 0.0, 0.0, 0.0);
  }

  /** A sphere whose squared overshoot is below r^2 meets the box. */
  lemma NearBox(s: Spheres.Sphere, a: Boxes.AABB, ox: real, oy: real, oz: real)
    requires ox == AxisOvershoot(s.data.x, a.minExtents.vec.x, a.maxExtents.vec.x)
    requires oy == AxisOvershoot(s.data.y, a.minExtents.vec.y, a.maxExtents.vec.y)
    requires oz == AxisOvershoot(s.data.z, a.minExtents.vec.z, a.maxExtents.vec.z)
    requires ox * ox + oy * oy + oz * oz < RadiusSq(s)
    ensures IntersectSphereAABB(s, a)
  {
    SphereAABBLanes(s, a, ox, oy, oz);
  }

  /** A sphere whose squared overshoot reaches r^2 misses the box. */
  lemma FarFromBox(s: Spheres.Sphere, a: Boxes.AABB, ox: real, oy: real, oz: real)
    requires ox == AxisOvershoot(s.data.x, a.minExtents.vec.x, a.maxExtents.vec.x)
    requires oy == AxisOvershoot(s.data.y, a.minExtents.vec.y, a.maxExtents.vec.y)
    requires oz == AxisOvershoot(s.data.z, a.minExtents.vec.z, a.maxExtents.vec.z)
    requires RadiusSq(s) <= ox * ox + oy * oy + oz * oz
    ensures !IntersectSphereAABB(s, a)
  {
    SphereAABBLanes(s, a, ox, oy, oz);
  }

  /** The sphere at (0,1.2,0) misses the box from (-100,0.3,0.2) to (0.5,0.6,0.5): 0.6^2 + 0.2^2 >= 0.5^2. */
  lemma SphereFourMissesBoxFour(sphere4: Spheres.Sphere, aabb4: Boxes.AABB)
    requires sphere4.data.x == 0.0 && sphere4.data.y == 1.2 && sphere4.data.z == 0.0 && sphere4.data.w == 0.5
    requires aabb4.minExtents.vec.x == -100.0 && aabb4.minExtents.vec.y == 0.3 && aabb4.minExtents.vec.z == 0.2
    requires aabb4.maxExtents.vec.x == 0.5 && aabb4.maxExtents.vec.y == 0.6 && aabb4.maxExtents.vec.z == 0.5
    ensures !IntersectSphereAABB(sphere4, aabb4)
  {
    FarFromBox(sphere4, aabb4, 0.0, 0.6, -0.2);
  }

  /**
   * The plane x = 5 and the box [6,7]^3: every point of the box is strictly
   * in front of the plane, yet intersectPlaneAABB reports the box as
   * straddling it, because r picks up |plane.w| = 5. With the intended
   * half-width the box is classified fully inside.
   */
  lemma OffsetPlaneStraddlesDistantBox(plane: Planes.Plane, a: Boxes.AABB)
    requires plane.data.x == 1.0 && plane.data.y == 0.0 && plane.data.z == 0.0 && plane.data.w == -5.0
    requires IsCube(a, 6.0, 7.0)
    ensures IntersectPlaneAABB(a, plane)
    ensures !IntersectPlaneAABBIntended(a, plane) && PlaneAABBSidesIntended(a, plane).isFullyInside
    ensures forall p :: Boxes.Encloses(a, p) ==> 0.0 < Planes.Dot(plane, p)
  {
    OffsetCubeFacts(plane, a);
    SidesValues(a, plane);
    IntendedSidesValues(a, plane);
    forall p | Boxes.Encloses(a, p)
      ensures 0.0 < Planes.Dot(plane, p)
    {
      BoxDotRange(a, plane, p);
    }
  }

  /** The center of [6,7]^3 is at 1.5 from x = 5, its half-width along +x is 0.5 and |plane.w| is 5. */
  lemma OffsetCubeFacts(plane: Planes.Plane, a: Boxes.AABB)
    requires plane.data.x == 1.0 && plane.data.y == 0.0 && plane.data.z == 0.0 && plane.data.w == -5.0
    requires IsCube(a, 6.0, 7.0)
    ensures Planes.Dot(plane, Boxes.Center(a)) == 1.5 && Spread(a, plane) == 0.5
    ensures GenericMath.Abs(plane.data.w) == 5.0
  {
    Boxes.CenterLanes(a);
  }
}
