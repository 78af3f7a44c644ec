/** What the movement state machine guarantees, step by step and over whole runs. */
module MovementProperties {
  import opened Geometry
  import opened Physics
  import opened Properties
  import opened Movement

  // ----- The jump latch -----

  /** Any number of presses between ticks collapse into one OR-ed flag; nothing else changes. */
  lemma {:induction false} PressesLatch(s: State, jumpPresses: seq<bool>)
    ensures Presses(s, jumpPresses).didRequestJump == (s.didRequestJump || true in jumpPresses)
    ensures Presses(s, jumpPresses) == s.(didRequestJump := s.didRequestJump || true in jumpPresses)
    decreases |jumpPresses|
  {
    if jumpPresses != [] {
      PressesLatch(LatchJump(s, jumpPresses[0]), jumpPresses[1..]);
      assert jumpPresses == [jumpPresses[0]] + jumpPresses[1..];
    }
  }

  // ----- Steps 1 to 4 -----

  lemma HorizontalStepEffect(s: State, props: PlayerProperties, horizontalInput: real)
    ensures HorizontalStep(s, props, horizontalInput).velocity.x ==
              if s.isGrounded || Abs(horizontalInput) > 0.5 || s.velocity.y < 0.0
              then horizontalInput * props.moveSpeed else s.velocity.x
    ensures HorizontalStep(s, props, horizontalInput) == s.(velocity := s.velocity.(x := HorizontalStep(s, props, horizontalInput).velocity.x))
  {
  }

  lemma JumpStepEffect(s: State, props: PlayerProperties)
    ensures var r := JumpStep(s, props);
      && !r.didRequestJump
      && r.velocity.y == (if s.didRequestJump && (s.isGrounded || s.jumpsRemaining > 0) then props.jumpForce else s.velocity.y)
      && r.jumpsRemaining == (if s.didRequestJump && (s.isGrounded || s.jumpsRemaining > 0) then s.jumpsRemaining - 1 else s.jumpsRemaining)
      && r == s.(didRequestJump := false, jumpsRemaining := r.jumpsRemaining, velocity := s.velocity.(y := r.velocity.y))
  {
  }

  /** A request made in the air with no jumps left is dropped, not queued. */
  lemma JumpDroppedWhenExhausted(s: State, props: PlayerProperties)
    requires !s.isGrounded && s.jumpsRemaining == 0
    ensures JumpStep(s, props) == s.(didRequestJump := false)
  {
  }

  /** Gravity is a fixed per-tick decrement of velocity.y, applied only in the air. */
  lemma GravityStepEffect(s: State, props: PlayerProperties)
    ensures var r := GravityStep(s, props);
      && r.velocity.y == (if s.isGrounded then s.velocity.y else s.velocity.y - props.gravity)
      && r == s.(velocity := s.velocity.(y := r.velocity.y))
  {
  }

  lemma IntegrateStepEffect(s: State, deltaTime: real)
    ensures var r := IntegrateStep(s, deltaTime);
      && r.nextWantedPosition.x == s.nextWantedPosition.x + s.velocity.x * deltaTime
      && r.nextWantedPosition.y == s.nextWantedPosition.y + s.velocity.y * deltaTime
      && r.nextWantedPosition.z == s.nextWantedPosition.z + s.velocity.z * deltaTime
      && r.currentVelocity == Scale(s.velocity, deltaTime)
      && r.velocity == s.velocity && r.isGrounded == s.isGrounded
      && r.jumpsRemaining == s.jumpsRemaining && r.didRequestJump == s.didRequestJump
  {
  }

  /** A grounded player at rest with no input and no jump request does not move before probing. */
  lemma AtRestStaysAtRest(s: State, props: PlayerProperties, deltaTime: real)
    requires s.isGrounded && !s.didRequestJump && s.velocity == Zero
    ensures Advance(s, props, 0.0, deltaTime).velocity == Zero
    ensures Advance(s, props, 0.0, deltaTime).nextWantedPosition == s.nextWantedPosition
  {
  }

  /** With deltaTime zero the candidate position does not move and every ray is the bare half extent. */
  lemma ZeroDeltaTime(s: State, props: PlayerProperties, horizontalInput: real, direction: Vec3)
    ensures Advance(s, props, horizontalInput, 0.0).nextWantedPosition == s.nextWantedPosition
    ensures RayDistance(direction, s.velocity, props.characterSize, 0.0) == HalfExtent(direction, props.characterSize)
  {
  }

  // ----- Probe classification and correction -----

  /** The strict "> 0" sign tests, spelled out for the four probe directions. */
  lemma DirectionClassification(normal: Vec3)
    ensures HorizontalBlocking(normal, Up) <==> normal.x > 0.0
    ensures VerticalBlocking(normal, Up) <==> normal.y <= 0.0
    ensures HorizontalBlocking(normal, Down) <==> normal.x > 0.0
    ensures VerticalBlocking(normal, Down) <==> normal.y > 0.0
    ensures HorizontalBlocking(normal, Left) <==> normal.x > 0.0
    ensures VerticalBlocking(normal, Left) <==> normal.y > 0.0
    ensures HorizontalBlocking(normal, Right) <==> normal.x <= 0.0
    ensures VerticalBlocking(normal, Right) <==> normal.y > 0.0
  {
  }

  /** A blocking hit snaps x only if horizontal-blocking, y only if vertical-blocking, and zeroes velocity.y iff vertical. */
  lemma ProbeBlockingEffect(s: State, props: PlayerProperties, direction: Vec3, mask: LayerMask, deltaTime: real, scene: Raycast)
    requires Blocks(ProbeHit(s, props, direction, mask, deltaTime, scene), direction)
    ensures var h := ProbeHit(s, props, direction, mask, deltaTime, scene).value;
      var halfExtent := HalfExtent(direction, props.characterSize);
      var r := Probe(s, props, direction, mask, deltaTime, scene);
      && r.nextWantedPosition.x == (if HorizontalBlocking(h.normal, direction) then h.boundsPoint.x - direction.x * halfExtent else s.nextWantedPosition.x)
      && r.nextWantedPosition.y == (if VerticalBlocking(h.normal, direction) then h.boundsPoint.y - direction.y * halfExtent else s.nextWantedPosition.y)
      && r.velocity.y == (if VerticalBlocking(h.normal, direction) then 0.0 else s.velocity.y)
      && r.isGrounded == (direction.y < 0.0)
  {
  }

  /** No hit within the ray, or a graze, only clears the grounded flag, whichever the direction. */
  lemma ProbeMissEffect(s: State, props: PlayerProperties, direction: Vec3, mask: LayerMask, deltaTime: real, scene: Raycast)
    requires !Blocks(ProbeHit(s, props, direction, mask, deltaTime, scene), direction)
    ensures Probe(s, props, direction, mask, deltaTime, scene) == s.(isGrounded := false)
  {
  }

  /**
   * An up or down probe meeting a surface whose normal has positive x counts as
   * horizontal-blocking, and since such a direction has no x part, x is set to the
   * bounds point itself with no half-extent offset.
   */
  lemma VerticalProbeSnapsXOntoBounds(s: State, props: PlayerProperties, direction: Vec3, mask: LayerMask, deltaTime: real, scene: Raycast)
    requires direction == Up || direction == Down
    requires ProbeHit(s, props, direction, mask, deltaTime, scene).Some?
    requires ProbeHit(s, props, direction, mask, deltaTime, scene).value.normal.x > 0.0
    ensures Probe(s, props, direction, mask, deltaTime, scene).nextWantedPosition.x ==
              ProbeHit(s, props, direction, mask, deltaTime, scene).value.boundsPoint.x
  {
  }

  /** A side probe meeting a surface with positive normal y counts as vertical-blocking and stops vertical motion. */
  lemma SideProbeStopsVerticalMotion(s: State, props: PlayerProperties, direction: Vec3, mask: LayerMask, deltaTime: real, scene: Raycast)
    requires direction == Left || direction == Right
    requires ProbeHit(s, props, direction, mask, deltaTime, scene).Some?
    requires ProbeHit(s, props, direction, mask, deltaTime, scene).value.normal.y > 0.0
    ensures Probe(s, props, direction, mask, deltaTime, scene).velocity.y == 0.0
    ensures !Probe(s, props, direction, mask, deltaTime, scene).isGrounded
  {
  }

  /** A right probe against a wall facing left snaps x one half extent short of the wall and leaves velocity.y alone. */
  lemma RightWallScenario(s: State, props: PlayerProperties, mask: LayerMask, deltaTime: real, scene: Raycast)
    requires ProbeHit(s, props, Right, mask, deltaTime, scene).Some?
    requires ProbeHit(s, props, Right, mask, deltaTime, scene).value.normal == Vec3(-1.0, 0.0, 0.0)
    ensures var r := Probe(s, props, Right, mask, deltaTime, scene);
      && r.nextWantedPosition.x ==
           ProbeHit(s, props, Right, mask, deltaTime, scene).value.boundsPoint.x - HalfExtent(Right, props.characterSize)
      && r.nextWantedPosition.y == s.nextWantedPosition.y
      && r.velocity == s.velocity
  {
  }

  // ----- Whole ticks -----

  /** The down probe runs last and decides the grounded flag alone. */
  lemma TickGroundedIffDownBlocks(s: State, props: PlayerProperties, horizontalInput: real, deltaTime: real, scene: Raycast)
    ensures var before := BeforeDownProbe(s, props, horizontalInput, deltaTime, scene);
      Tick(s, props, horizontalInput, deltaTime, scene).isGrounded <==>
        Blocks(ProbeHit(before, props, Down, props.groundLayer, deltaTime, scene), Down)
  {
  }

  /**
   * The counter moves by the one jump this tick may fire, unless the player
   * landed, when it is refilled; it never grows otherwise.
   */
  lemma TickJumpAccounting(s: State, props: PlayerProperties, horizontalInput: real, deltaTime: real, scene: Raycast)
    ensures var r := Tick(s, props, horizontalInput, deltaTime, scene);
      && (r.isGrounded ==> r.jumpsRemaining == props.maxJumps)
      && (!r.isGrounded ==> r.jumpsRemaining == if JumpFires(s) then s.jumpsRemaining - 1 else s.jumpsRemaining)
  {
  }

  /** Probes never touch velocity.x: it is what the horizontal step left. */
  lemma TickVelocityX(s: State, props: PlayerProperties, horizontalInput: real, deltaTime: real, scene: Raycast)
    ensures Tick(s, props, horizontalInput, deltaTime, scene).velocity.x ==
              if s.isGrounded || Abs(horizontalInput) > 0.5 || s.velocity.y < 0.0
              then horizontalInput * props.moveSpeed else s.velocity.x
  {
  }

  lemma TickPreservesJumpInvariant(s: State, props: PlayerProperties, horizontalInput: real, deltaTime: real, scene: Raycast)
    requires props.maxJumps >= 1 && JumpInvariant(s, props)
    ensures JumpInvariant(Tick(s, props, horizontalInput, deltaTime, scene), props)
  {
  }

  /** Starting from any state that keeps the invariant, so does every run of ticks and jump presses. */
  lemma {:induction false} RunKeepsJumpInvariant(s: State, props: PlayerProperties, frames: seq<Frame>)
    requires props.maxJumps >= 1 && JumpInvariant(s, props)
    ensures JumpInvariant(Run(s, props, frames), props)
    decreases |frames|
  {
    if frames != [] {
      var f := frames[0];
      var pressed := Presses(s, f.jumpPresses);
      PressesLatch(s, f.jumpPresses);
      TickPreservesJumpInvariant(pressed, props, f.horizontalInput, f.deltaTime, f.scene);
      RunKeepsJumpInvariant(Tick(pressed, props, f.horizontalInput, f.deltaTime, f.scene), props, frames[1..]);
    }
  }

  /** From the initial state the counter stays in [0, maxJumps] for ever. */
  lemma JumpsStayInBounds(startPosition: Vec3, props: PlayerProperties, frames: seq<Frame>)
    requires props.maxJumps >= 1
    ensures 0 <= Run(Initial(startPosition), props, frames).jumpsRemaining <= props.maxJumps
  {
    RunKeepsJumpInvariant(Initial(startPosition), props, frames);
  }

  /** With the asset's default values (one jump) the counter is always 0 or 1. */
  lemma DefaultAssetJumpsStayInBounds(startPosition: Vec3, groundLayer: LayerMask, solidGroundLayer: LayerMask, frames: seq<Frame>)
    ensures var r := Run(Initial(startPosition), Defaults(groundLayer, solidGroundLayer), frames);
      r.jumpsRemaining == 0 || r.jumpsRemaining == 1
  {
    JumpsStayInBounds(startPosition, Defaults(groundLayer, solidGroundLayer), frames);
  }

  /** velocity.z is never changed by any press or tick, whatever geometry each tick meets. */
  lemma {:induction false} RunKeepsVelocityZ(s: State, props: PlayerProperties, frames: seq<Frame>)
    ensures Run(s, props, frames).velocity.z == s.velocity.z
    decreases |frames|
  {
    if frames != [] {
      var f := frames[0];
      PressesLatch(s, f.jumpPresses);
      RunKeepsVelocityZ(Tick(Presses(s, f.jumpPresses), props, f.horizontalInput, f.deltaTime, f.scene), props, frames[1..]);
    }
  }

  /**
   * Jumping off the ground into open space: the jump fires, spends one jump,
   * gravity is skipped for this tick, and nothing is there to ground the player.
   */
  lemma JumpFromGroundScenario(s: State, props: PlayerProperties, horizontalInput: real, deltaTime: real)
    requires s.isGrounded && s.didRequestJump && s.jumpsRemaining == props.maxJumps
    ensures var r := Tick(s, props, horizontalInput, deltaTime, (origin, direction, mask) => None);
      && !r.isGrounded && !r.didRequestJump
      && r.velocity.y == props.jumpForce
      && r.jumpsRemaining == props.maxJumps - 1
  {
  }

  /**
   * Falling onto a floor: airborne at velocity.y = -5 with gravity 1, nothing
   * above or beside, and the floor (normal up) within the down ray.
   */
  lemma LandingScenario(s: State, props: PlayerProperties, deltaTime: real, floor: Hit)
    requires !s.isGrounded && !s.didRequestJump && s.velocity.y == -5.0 && props.gravity == 1.0
    requires floor.normal == Vec3(0.0, 1.0, 0.0) && 0.0 <= floor.distance
    requires floor.distance <= HalfExtent(Down, props.characterSize)
    ensures var scene: Raycast := (origin, direction, mask) => if direction == Down then Some(floor) else None;
      var r := Tick(s, props, 0.0, deltaTime, scene);
      r.isGrounded && r.velocity.y == 0.0 && r.jumpsRemaining == props.maxJumps
  {
  }
}
