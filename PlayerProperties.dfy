/** The gameplay tuning asset the controller reads; it has no behaviour of its own. */
module Properties {
  import opened Geometry
  import opened Physics

  /**
   * groundCheckDistance is part of the asset but the controller never reads
   * it: each probe recomputes its distance from characterSize.
   */
  datatype PlayerProperties = PlayerProperties(
    moveSpeed: real,
    jumpForce: real,
    gravity: real,
    groundCheckDistance: real,
    groundLayer: LayerMask,
    solidGroundLayer: LayerMask,
    maxJumps: int,
    characterSize: Vec3)

  /** The asset's default values, for the given layer masks. */
  function Defaults(groundLayer: LayerMask, solidGroundLayer: LayerMask): PlayerProperties {
    PlayerProperties(10.0, 10.0, 9.81, 0.5, groundLayer, solidGroundLayer, 1, Vec3(1.0, 1.0, 1.0))
  }
}
