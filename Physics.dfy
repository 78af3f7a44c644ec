/**
 * The raycast query the controller makes of the physics engine. The engine
 * itself is not modelled: a scene is an oracle that, for an origin, a
 * direction and a layer mask, reports the nearest collider surface along the
 * unbounded ray, if there is one. Geometry is static, so the same oracle
 * answers every probe of every tick.
 */
module Physics {
  import opened Geometry

  datatype Option<T> = None | Some(value: T)

  /** A Unity LayerMask: a bit set of collider layers, passed through to the engine. */
  type LayerMask = int

  /**
   * A RaycastHit as far as the controller reads it: how far along the ray the
   * surface was met, the surface normal there, and the point of the collider's
   * bounding box closest to the hit point (ClosestPointOnBounds(hit.point)).
   */
  datatype Hit = Hit(distance: real, normal: Vec3, boundsPoint: Vec3)

  type Raycast = (Vec3, Vec3, LayerMask) -> Option<Hit>

  /**
   * Physics.Raycast(origin, direction, out hit, maxDistance, mask): the scene's
   * nearest surface is reported only when it lies within maxDistance of the
   * origin; a ray of negative length finds nothing.
   */
  function Cast(scene: Raycast, origin: Vec3, direction: Vec3, maxDistance: real, mask: LayerMask): (r: Option<Hit>)
    ensures r.Some? <==>
              scene(origin, direction, mask).Some? &&
              0.0 <= scene(origin, direction, mask).value.distance <= maxDistance
    ensures r.Some? ==> r == scene(origin, direction, mask)
  {
    match scene(origin, direction, mask)
    case Some(h) => if 0.0 <= h.distance <= maxDistance then Some(h) else None
    case None => None
  }
}
