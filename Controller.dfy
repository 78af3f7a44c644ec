/**
 * PlayerController's state and its per-tick update, in place, as the source
 * does it. Each method is proved to leave the fields exactly as the matching
 * function of Movement describes; what those functions guarantee is proved in
 * MovementProperties.
 */
module Controller {
  import opened Geometry
  import opened Physics
  import opened Properties
  import opened Movement
  import opened MovementProperties

  class PlayerController {
    const playerProperties: PlayerProperties

    var isGrounded: bool
    var jumpsRemaining: int
    var velocity: Vec3
    var currentVelocity: Vec3
    var nextWantedPosition: Vec3
    var didRequestJump: bool

    /** The fields as a Movement.State value. */
    function Snapshot(): State
      reads this
    {
      State(isGrounded, jumpsRemaining, velocity, currentVelocity, nextWantedPosition, didRequestJump)
    }

    /** The field initialisers, then Start taking the transform's position as the wanted position. */
    constructor (playerProperties: PlayerProperties, startPosition: Vec3)
      ensures this.playerProperties == playerProperties
      ensures Snapshot() == Initial(startPosition)
      ensures !isGrounded && jumpsRemaining == 0 && !didRequestJump
    {
      this.playerProperties := playerProperties;
      isGrounded := false;
      jumpsRemaining := 0;
      velocity := Zero;
      currentVelocity := Zero;
      nextWantedPosition := startPosition;
      didRequestJump := false;
    }

    /** The jump latch of Update: a press is remembered until the next tick consumes it. */
    method LatchJumpPress(jumpPressed: bool)
      modifies this
      ensures Snapshot() == LatchJump(old(Snapshot()), jumpPressed)
      ensures didRequestJump == (old(didRequestJump) || jumpPressed)
    {
      didRequestJump := didRequestJump || jumpPressed;
    }

    /** FixedUpdate, with the input axis, Time.deltaTime and the scene's raycasts as parameters. */
    method FixedUpdate(horizontalInput: real, deltaTime: real, scene: Raycast)
      modifies this
      ensures Snapshot() == Tick(old(Snapshot()), playerProperties, horizontalInput, deltaTime, scene)
      ensures !didRequestJump
      ensures isGrounded ==> jumpsRemaining == playerProperties.maxJumps
      ensures old(JumpInvariant(Snapshot(), playerProperties)) && playerProperties.maxJumps >= 1 ==>
                JumpInvariant(Snapshot(), playerProperties)
    {
      ghost var s0 := Snapshot();
      if isGrounded || Abs(horizontalInput) > 0.5 || velocity.y < 0.0 {
        velocity := velocity.(x := horizontalInput * playerProperties.moveSpeed);
      }
      if didRequestJump && (isGrounded || jumpsRemaining > 0) {
        velocity := velocity.(y := playerProperties.jumpForce);
        jumpsRemaining := jumpsRemaining - 1;
      }
      didRequestJump := false;
      if !isGrounded {
        velocity := Add(velocity, Scale(Down, playerProperties.gravity));
      }
      currentVelocity := Scale(velocity, deltaTime);
      nextWantedPosition := Add(nextWantedPosition, currentVelocity);
      assert Snapshot() == Advance(s0, playerProperties, horizontalInput, deltaTime);
      PlayerCollisionCheck(Up, playerProperties.solidGroundLayer, deltaTime, scene);
      PlayerCollisionCheck(Left, playerProperties.solidGroundLayer, deltaTime, scene);
      PlayerCollisionCheck(Right, playerProperties.solidGroundLayer, deltaTime, scene);
      assert Snapshot() == BeforeDownProbe(s0, playerProperties, horizontalInput, deltaTime, scene);
      PlayerCollisionCheck(Down, playerProperties.groundLayer, deltaTime, scene);
      if JumpInvariant(s0, playerProperties) && playerProperties.maxJumps >= 1 {
        TickPreservesJumpInvariant(s0, playerProperties, horizontalInput, deltaTime, scene);
      }
    }

    /** One directional probe: cast a ray, and on a blocking hit snap the position and stop vertical motion. */
    method PlayerCollisionCheck(direction: Vec3, collisionLayerMask: LayerMask, deltaTime: real, scene: Raycast)
      modifies this
      ensures Snapshot() == Probe(old(Snapshot()), playerProperties, direction, collisionLayerMask, deltaTime, scene)
    {
      var groundCheckDistance := HalfExtent(direction, playerProperties.characterSize);
      var rayDistance := groundCheckDistance + LookaheadBias(direction, velocity, deltaTime);
      var hit := Cast(scene, nextWantedPosition, direction, rayDistance, collisionLayerMask);
      if hit.Some? {
        var hitHorizontal := HorizontalBlocking(hit.value.normal, direction);
        var hitVertical := VerticalBlocking(hit.value.normal, direction);
        if hitHorizontal || hitVertical {
          isGrounded := direction.y < 0.0;
          if isGrounded {
            jumpsRemaining := playerProperties.maxJumps;
          }
          var position := nextWantedPosition;
          var nextX := if hitHorizontal then hit.value.boundsPoint.x + -direction.x * groundCheckDistance else position.x;
          var nextY := if hitVertical then hit.value.boundsPoint.y + -direction.y * groundCheckDistance else position.y;
          nextWantedPosition := Vec3(nextX, nextY, position.z);
          if hitVertical {
            velocity := velocity.(y := 0.0);
          }
        } else {
          isGrounded := false;
        }
      } else {
        isGrounded := false;
      }
    }
  }
}
