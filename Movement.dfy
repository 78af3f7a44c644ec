/**
 * The per-tick movement state machine of PlayerController as pure functions
 * over a snapshot of its private fields. The class in Controller is proved to
 * update its fields exactly as these functions say.
 */
module Movement {
  import opened Geometry
  import opened Physics
  import opened Properties

  /** The private fields that FixedUpdate, PlayerCollisionCheck and Update write. */
  datatype State = State(
    isGrounded: bool,
    jumpsRemaining: int,
    velocity: Vec3,
    currentVelocity: Vec3,     // the displacement of the last tick, velocity * deltaTime
    nextWantedPosition: Vec3,  // the logical position the transform is interpolated towards
    didRequestJump: bool)

  /** The field initialisers, with the position Start copies from the transform. */
  function Initial(startPosition: Vec3): State {
    State(false, 0, Zero, Zero, startPosition, false)
  }

  /** Update's jump latch: a press since the last tick is OR-ed in. */
  function LatchJump(s: State, jumpPressed: bool): State {
    s.(didRequestJump := s.didRequestJump || jumpPressed)
  }

  /** The latch after a series of Update frames between two ticks. */
  function Presses(s: State, jumpPresses: seq<bool>): State
    decreases |jumpPresses|
  {
    if jumpPresses == [] then s else Presses(LatchJump(s, jumpPresses[0]), jumpPresses[1..])
  }

  // ----- Steps 1 to 4 of FixedUpdate -----

  /** Horizontal input takes over velocity.x when grounded, when it is strong, or when falling. */
  predicate Steers(s: State, horizontalInput: real) {
    s.isGrounded || Abs(horizontalInput) > 0.5 || s.velocity.y < 0.0
  }

  function HorizontalStep(s: State, props: PlayerProperties, horizontalInput: real): State {
    if Steers(s, horizontalInput) then s.(velocity := s.velocity.(x := horizontalInput * props.moveSpeed)) else s
  }

  predicate JumpFires(s: State) {
    s.didRequestJump && (s.isGrounded || s.jumpsRemaining > 0)
  }

  function JumpStep(s: State, props: PlayerProperties): State {
    var fired :=
      if JumpFires(s) then s.(velocity := s.velocity.(y := props.jumpForce), jumpsRemaining := s.jumpsRemaining - 1)
      else s;
    fired.(didRequestJump := false)
  }

  /** velocity += Vector3.down * gravity, once per tick, not scaled by deltaTime. */
  function GravityStep(s: State, props: PlayerProperties): State {
    if !s.isGrounded then s.(velocity := Add(s.velocity, Scale(Down, props.gravity))) else s
  }

  function IntegrateStep(s: State, deltaTime: real): State {
    var displacement := Scale(s.velocity, deltaTime);
    s.(currentVelocity := displacement, nextWantedPosition := Add(s.nextWantedPosition, displacement))
  }

  /** Everything FixedUpdate does before its four probes. */
  function Advance(s: State, props: PlayerProperties, horizontalInput: real, deltaTime: real): State {
    IntegrateStep(GravityStep(JumpStep(HorizontalStep(s, props, horizontalInput), props), props), deltaTime)
  }

  // ----- PlayerCollisionCheck -----

  /** Half the character's extent along the probe direction. */
  function HalfExtent(direction: Vec3, characterSize: Vec3): (r: real)
    ensures 0.0 <= r
    ensures r == Abs(Dot(direction, characterSize)) / 2.0
  {
    Abs(Dot(direction, characterSize) * 0.5)
  }

  /**
   * Velocity whose component along the probe direction is negative (moving away
   * from that side) shortens the ray by one tick of it.
   */
  function LookaheadBias(direction: Vec3, velocity: Vec3, deltaTime: real): (r: real)
    ensures 0.0 <= deltaTime ==> r <= 0.0
    ensures 0.0 <= Dot(direction, velocity) ==> r == 0.0
  {
    var velocityInDirection := Dot(direction, velocity);
    if velocityInDirection < 0.0 then velocityInDirection * deltaTime else 0.0
  }

  function RayDistance(direction: Vec3, velocity: Vec3, characterSize: Vec3, deltaTime: real): (r: real)
    ensures 0.0 <= deltaTime ==> r <= HalfExtent(direction, characterSize)
    ensures 0.0 <= Dot(direction, velocity) || deltaTime == 0.0 ==> r == HalfExtent(direction, characterSize)
    ensures Dot(direction, velocity) < 0.0 ==>
              r == HalfExtent(direction, characterSize) + Dot(direction, velocity) * deltaTime
  {
    HalfExtent(direction, characterSize) + LookaheadBias(direction, velocity, deltaTime)
  }

  /** The sign of the normal's x differs from the sign of the direction's x, with "> 0" as the sign test. */
  predicate HorizontalBlocking(normal: Vec3, direction: Vec3) {
    (normal.x > 0.0) != (direction.x > 0.0)
  }

  predicate VerticalBlocking(normal: Vec3, direction: Vec3) {
    (normal.y > 0.0) != (direction.y > 0.0)
  }

  /** What the raycast of one probe reports from the current candidate position. */
  function ProbeHit(s: State, props: PlayerProperties, direction: Vec3, mask: LayerMask, deltaTime: real, scene: Raycast): Option<Hit> {
    Cast(scene, s.nextWantedPosition, direction,
         RayDistance(direction, s.velocity, props.characterSize, deltaTime), mask)
  }

  /** A reported hit that is horizontal- or vertical-blocking; any other hit is a graze. */
  predicate Blocks(hit: Option<Hit>, direction: Vec3) {
    hit.Some? && (HorizontalBlocking(hit.value.normal, direction) || VerticalBlocking(hit.value.normal, direction))
  }

  /** One directional probe and the correction it makes. */
  function Probe(s: State, props: PlayerProperties, direction: Vec3, mask: LayerMask, deltaTime: real, scene: Raycast): (r: State)
    ensures r.isGrounded <==> Blocks(ProbeHit(s, props, direction, mask, deltaTime, scene), direction) && direction.y < 0.0
    ensures r.jumpsRemaining == if r.isGrounded then props.maxJumps else s.jumpsRemaining
    ensures r.velocity.x == s.velocity.x && r.velocity.z == s.velocity.z
    ensures r.velocity.y == s.velocity.y || r.velocity.y == 0.0
    ensures r.nextWantedPosition.z == s.nextWantedPosition.z
    ensures r.currentVelocity == s.currentVelocity && r.didRequestJump == s.didRequestJump
  {
    var hit := ProbeHit(s, props, direction, mask, deltaTime, scene);
    if Blocks(hit, direction) then
      var normal := hit.value.normal;
      var bounds := hit.value.boundsPoint;
      var halfExtent := HalfExtent(direction, props.characterSize);
      var horizontal := HorizontalBlocking(normal, direction);
      var vertical := VerticalBlocking(normal, direction);
      var grounded := direction.y < 0.0;
      var p := s.nextWantedPosition;
      var x := if horizontal then bounds.x + -direction.x * halfExtent else p.x;
      var y := if vertical then bounds.y + -direction.y * halfExtent else p.y;
      s.(isGrounded := grounded,
         jumpsRemaining := if grounded then props.maxJumps else s.jumpsRemaining,
         nextWantedPosition := Vec3(x, y, p.z),
         velocity := if vertical then s.velocity.(y := 0.0) else s.velocity)
    else
      s.(isGrounded := false)
  }

  /** The up, left and right probes, against the solid-ground layers. */
  function SideProbes(s: State, props: PlayerProperties, deltaTime: real, scene: Raycast): State {
    var up := Probe(s, props, Up, props.solidGroundLayer, deltaTime, scene);
    var left := Probe(up, props, Left, props.solidGroundLayer, deltaTime, scene);
    Probe(left, props, Right, props.solidGroundLayer, deltaTime, scene)
  }

  /** The state the down probe starts from. */
  function BeforeDownProbe(s: State, props: PlayerProperties, horizontalInput: real, deltaTime: real, scene: Raycast): State {
    SideProbes(Advance(s, props, horizontalInput, deltaTime), props, deltaTime, scene)
  }

  /** One FixedUpdate: advance, then probe up, left, right and finally down against the ground layers. */
  function Tick(s: State, props: PlayerProperties, horizontalInput: real, deltaTime: real, scene: Raycast): (r: State)
    ensures !r.didRequestJump
    ensures r.isGrounded ==> r.jumpsRemaining == props.maxJumps
    ensures r.velocity.z == s.velocity.z
    ensures r.nextWantedPosition.z == s.nextWantedPosition.z + s.velocity.z * deltaTime
  {
    Probe(BeforeDownProbe(s, props, horizontalInput, deltaTime, scene), props, Down, props.groundLayer, deltaTime, scene)
  }

  /** The jump counter stays within [0, maxJumps] and is full whenever the player is grounded. */
  predicate JumpInvariant(s: State, props: PlayerProperties) {
    0 <= s.jumpsRemaining <= props.maxJumps && (s.isGrounded ==> s.jumpsRemaining == props.maxJumps)
  }

  /**
   * Between two ticks: the jump presses of the Update frames, then the tick,
   * with the geometry the raycasts see during that tick.
   */
  datatype Frame = Frame(jumpPresses: seq<bool>, horizontalInput: real, deltaTime: real, scene: Raycast)

  /** Update and FixedUpdate interleaved: each frame's presses are latched, then the tick runs. */
  function Run(s: State, props: PlayerProperties, frames: seq<Frame>): State
    decreases |frames|
  {
    if frames == [] then s
    else
      var f := frames[0];
      Run(Tick(Presses(s, f.jumpPresses), props, f.horizontalInput, f.deltaTime, f.scene), props, frames[1..])
  }
}
