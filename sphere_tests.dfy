/**
 * The sphere cases of the unit test (test.cpp, testSphere), stated on
 * spheres and points given lane by lane, one case per lemma.
 */
module SphereTests {
  import opened GenericVecmath
  import Vector3
  import opened Spheres

  /** Unit spheres at the origin and at (0,3,0) do not intersect, even with the default margin. */
  lemma ApartSpheres(sphere1: Sphere, sphere2: Sphere)
    requires sphere1.data.x == 0.0 && sphere1.data.y == 0.0 && sphere1.data.z == 0.0 && sphere1.data.w == 1.0
    requires sphere2.data.x == 0.0 && sphere2.data.y == 3.0 && sphere2.data.z == 0.0 && sphere2.data.w == 1.0
    ensures !Intersects(sphere1, sphere2, DEFAULT_MARGIN)
  {
  }

  /** Unit spheres at the origin and at (0,0,2) touch: without a margin they do not intersect... */
  lemma TouchingSpheresWithoutMargin(sphere1: Sphere, sphere3: Sphere, noMargin: real)
    requires sphere1.data.x == 0.0 && sphere1.data.y == 0.0 && sphere1.data.z == 0.0 && sphere1.data.w == 1.0
    requires sphere3.data.x == 0.0 && sphere3.data.y == 0.0 && sphere3.data.z == 2.0 && sphere3.data.w == 1.0
    requires noMargin == 0.0
    ensures !Intersects(sphere1, sphere3, noMargin)
  {
  }

  /** ... and with the default margin they do. */
  lemma TouchingSpheres(sphere1: Sphere, sphere3: Sphere)
    requires sphere1.data.x == 0.0 && sphere1.data.y == 0.0 && sphere1.data.z == 0.0 && sphere1.data.w == 1.0
    requires sphere3.data.x == 0.0 && sphere3.data.y == 0.0 && sphere3.data.z == 2.0 && sphere3.data.w == 1.0
    ensures Intersects(sphere1, sphere3, DEFAULT_MARGIN)
  {
  }

  /** The unit sphere at the origin intersects the unit sphere centered at (1,0,0)... */
  lemma OverlappingSpheres(sphere1: Sphere, sphere4: Sphere)
    requires sphere1.data.x == 0.0 && sphere1.data.y == 0.0 && sphere1.data.z == 0.0 && sphere1.data.w == 1.0
    requires sphere4.data.x == 1.0 && sphere4.data.y == 0.0 && sphere4.data.z == 0.0 && sphere4.data.w == 1.0
    ensures Intersects(sphere1, sphere4, DEFAULT_MARGIN)
  {
  }

  /** ... and the sphere of radius 2 centered there. */
  lemma OverlappingLargerSphere(sphere1: Sphere, sphere5: Sphere)
    requires sphere1.data.x == 0.0 && sphere1.data.y == 0.0 && sphere1.data.z == 0.0 && sphere1.data.w == 1.0
    requires sphere5.data.x == 1.0 && sphere5.data.y == 0.0 && sphere5.data.z == 0.0 && sphere5.data.w == 2.0
    ensures Intersects(sphere1, sphere5, DEFAULT_MARGIN)
  {
  }

  /** The sphere of radius 2 at (1,0,0) contains the unit sphere at the origin... */
  lemma NestedSpheres(sphere1: Sphere, sphere5: Sphere)
    requires sphere1.data.x == 0.0 && sphere1.data.y == 0.0 && sphere1.data.z == 0.0 && sphere1.data.w == 1.0
    requires sphere5.data.x == 1.0 && sphere5.data.y == 0.0 && sphere5.data.z == 0.0 && sphere5.data.w == 2.0
    ensures ContainsSphere(sphere5, sphere1, DEFAULT_MARGIN)
  {
  }

  /** ... and not the other way round. */
  lemma NestedSpheresConverse(sphere1: Sphere, sphere5: Sphere)
    requires sphere1.data.x == 0.0 && sphere1.data.y == 0.0 && sphere1.data.z == 0.0 && sphere1.data.w == 1.0
    requires sphere5.data.x == 1.0 && sphere5.data.y == 0.0 && sphere5.data.z == 0.0 && sphere5.data.w == 2.0
    ensures !ContainsSphere(sphere1, sphere5, DEFAULT_MARGIN)
  {
  }

  /** (0,1,0) lies on the unit sphere at the origin and counts as contained. */
  lemma PointOnUnitSphere(sphere1: Sphere, p: Vector3.Vector3f)
    requires sphere1.data.x == 0.0 && sphere1.data.y == 0.0 && sphere1.data.z == 0.0 && sphere1.data.w == 1.0
    requires p.vec.x == 0.0 && p.vec.y == 1.0 && p.vec.z == 0.0
    ensures ContainsPoint(sphere1, p, DEFAULT_MARGIN)
  {
  }

  /** (-1.1,0,0) lies outside the unit sphere at the origin. */
  lemma PointOutsideUnitSphere(sphere1: Sphere, q: Vector3.Vector3f)
    requires sphere1.data.x == 0.0 && sphere1.data.y == 0.0 && sphere1.data.z == 0.0 && sphere1.data.w == 1.0
    requires q.vec.x == -1.1 && q.vec.y == 0.0 && q.vec.z == 0.0
    ensures !ContainsPoint(sphere1, q, DEFAULT_MARGIN)
  {
  }

  /** Moved to (-1,0,0), the unit sphere contains (-1.1,0,0). */
  lemma PointOfMovedSphere(sphere1: Sphere, q: Vector3.Vector3f, c: Vector3.Vector3f)
    requires sphere1.data.x == 0.0 && sphere1.data.y == 0.0 && sphere1.data.z == 0.0 && sphere1.data.w == 1.0
    requires q.vec.x == -1.1 && q.vec.y == 0.0 && q.vec.z == 0.0
    requires c.vec.x == -1.0 && c.vec.y == 0.0 && c.vec.z == 0.0
    ensures ContainsPoint(MoveTo(sphere1, c), q, DEFAULT_MARGIN)
  {
  }
}
