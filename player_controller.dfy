/**
 * The player controller's per-frame state: the jump counter, facing and scale, the gravity and
 * the wall-slide clamps, the wall-jump timer, and the gate that disables control after a kick.
 * Physics queries (ground and wall overlaps) and the frame time are arguments; velocity is a
 * plain field.
 */
module Player {
  import opened Base

  /** The phase of the jump input callback. */
  datatype InputPhase = Started | Performed | Canceled

  function RMax(a: real, b: real): real
  {
    if a >= b then a else b
  }

  class PlayerController {
    const hasRigidbody: bool
    const speed: real
    const jumpPower: real
    const maxJumps: int
    const fallMultiplier: real
    const originalGravityScale: real
    const maxFallSpeed: real
    const wallSlideSpeed: real
    const wallJumpTime: real
    const wallJumpPower: Vec2

    var isFacingRight: bool
    /** transform.localScale.x */
    var scaleX: real
    var directionX: real
    var playerControlEnabled: bool
    var jumpsRemaining: int
    var isGrounded: bool
    var velocity: Vec2
    var gravityScale: real
    var isWallSliding: bool
    var isWallJumping: bool
    var wallJumpDirection: real
    var wallJumpTimer: real

    /** The facing flag and the sign of the horizontal scale agree, and the jump counter stays within [0, maxJumps]. */
    predicate Valid()
      reads this
    {
      && (isFacingRight <==> scaleX > 0.0) && scaleX != 0.0
      && (maxJumps >= 0 ==> 0 <= jumpsRemaining <= maxJumps)
    }

    /**
     * The wall jump is disarmed: its timer is not positive and no wall jump is in progress.
     * Nothing in the controller as written ever leaves this state.
     */
    predicate WallJumpDisarmed()
      reads this
    {
      wallJumpTimer <= 0.0 && !isWallJumping
    }

    /** Awake with the inspector defaults: facing right, all jumps available, original gravity. */
    constructor (rigidbody: bool, jumps: int, scale: real)
      requires scale > 0.0
      ensures hasRigidbody == rigidbody && maxJumps == jumps && jumpsRemaining == jumps
      ensures speed == 8.0 && jumpPower == 10.0 && fallMultiplier == 2.5 && originalGravityScale == 3.0
      ensures maxFallSpeed == 18.0 && wallSlideSpeed == 2.0 && wallJumpTime == 0.5 && wallJumpPower == Vec2(5.0, 10.0)
      ensures isFacingRight && scaleX == scale && playerControlEnabled && directionX == 0.0
      ensures wallJumpTimer == 0.0 && !isWallJumping && !isWallSliding
      ensures rigidbody ==> gravityScale == 3.0
      ensures Valid() && WallJumpDisarmed()
    {
      hasRigidbody := rigidbody;
      speed := 8.0;
      jumpPower := 10.0;
      maxJumps := jumps;
      fallMultiplier := 2.5;
      originalGravityScale := 3.0;
      maxFallSpeed := 18.0;
      wallSlideSpeed := 2.0;
      wallJumpTime := 0.5;
      wallJumpPower := Vec2(5.0, 10.0);
      isFacingRight := true;
      scaleX := scale;
      directionX := 0.0;
      playerControlEnabled := true;
      jumpsRemaining := jumps;
      isGrounded := false;
      velocity := Vec2(0.0, 0.0);
      gravityScale := if rigidbody then 3.0 else 0.0;
      isWallSliding := false;
      isWallJumping := false;
      wallJumpDirection := 0.0;
      wallJumpTimer := 0.0;
    }

    /**
     * The jump callback: a performed press jumps and a released press cuts the rise, each using
     * up a jump only when one is left; a performed press while the wall-jump timer runs also
     * jumps off the wall, facing away from it.
     */
    method OnJump(phase: InputPhase)
      modifies this`velocity, this`jumpsRemaining, this`isWallJumping, this`wallJumpTimer, this`isFacingRight, this`scaleX
      ensures !hasRigidbody ==> unchanged(this)
      ensures phase == Started ==> unchanged(this)
      ensures phase == Canceled && old(jumpsRemaining) <= 0 ==> unchanged(this)
      ensures phase == Performed && old(jumpsRemaining) <= 0 && old(wallJumpTimer) <= 0.0 ==> unchanged(this)
      ensures jumpsRemaining == old(jumpsRemaining) || (old(jumpsRemaining) > 0 && jumpsRemaining == old(jumpsRemaining) - 1)
      ensures hasRigidbody && phase != Started && old(jumpsRemaining) > 0 ==> jumpsRemaining == old(jumpsRemaining) - 1
      ensures hasRigidbody && phase == Performed && old(jumpsRemaining) > 0 && old(wallJumpTimer) <= 0.0 ==>
        velocity == Vec2(old(velocity).x, jumpPower)
      ensures hasRigidbody && phase == Canceled && old(jumpsRemaining) > 0 ==>
        velocity == Vec2(old(velocity).x, old(velocity).y * 0.5)
      ensures hasRigidbody && phase == Performed && old(wallJumpTimer) > 0.0 ==>
        isWallJumping && wallJumpTimer == 0.0
        && velocity == Vec2(wallJumpDirection * wallJumpPower.x, wallJumpPower.y)
        && (old(scaleX) != wallJumpDirection <==> isFacingRight != old(isFacingRight))
      ensures old(Valid()) ==> Valid()
      ensures old(WallJumpDisarmed()) ==> WallJumpDisarmed()
    {
      if !hasRigidbody {
        return;
      }
      if phase == Performed && jumpsRemaining > 0 {
        velocity := Vec2(velocity.x, jumpPower);
        jumpsRemaining := jumpsRemaining - 1;
      } else if phase == Canceled && jumpsRemaining > 0 {
        velocity := Vec2(velocity.x, velocity.y * 0.5);
        jumpsRemaining := jumpsRemaining - 1;
      }
      if phase == Performed && wallJumpTimer > 0.0 {
        isWallJumping := true;
        velocity := Vec2(wallJumpDirection * wallJumpPower.x, wallJumpPower.y);
        wallJumpTimer := 0.0;
        if scaleX != wallJumpDirection {
          MakeFlip();
        }
      }
    }

    /** The scheduled end of a wall jump. */
    method CancelWallJump()
      modifies this`isWallJumping
      ensures !isWallJumping
    {
      isWallJumping := false;
    }

    /** The movement callback records the horizontal input. */
    method OnMoving(inputX: real)
      modifies this`directionX
      ensures directionX == inputX
    {
      directionX := inputX;
    }

    /**
     * One frame: nothing while control is disabled; otherwise the ground check, gravity, wall
     * slide and wall-jump timer, then movement and facing unless a wall jump is in progress.
     * Without a rigidbody the frame stops at gravity's first read of the velocity, which throws
     * a null reference: only the ground check has run.
     */
    method Update(grounded: bool, onWall: bool, dt: real)
      modifies this
      ensures !old(playerControlEnabled) ==> unchanged(this)
      ensures old(playerControlEnabled) && !hasRigidbody ==>
        && isGrounded == grounded
        && jumpsRemaining == (if grounded then maxJumps else old(jumpsRemaining))
        && unchanged(this`isFacingRight, this`scaleX, this`directionX, this`playerControlEnabled, this`velocity,
                     this`gravityScale, this`isWallSliding, this`isWallJumping, this`wallJumpDirection, this`wallJumpTimer)
      ensures old(playerControlEnabled) && hasRigidbody ==>
        && isGrounded == grounded
        && directionX == old(directionX)
        && (isWallSliding <==> !grounded && onWall && directionX != 0.0)
        && (grounded ==> jumpsRemaining == maxJumps)
        && (!grounded ==> jumpsRemaining == old(jumpsRemaining))
        && !isWallJumping
        && velocity.x == directionX * speed
        && (directionX < 0.0 ==> !isFacingRight)
        && (directionX > 0.0 ==> isFacingRight)
      ensures old(Valid()) ==> Valid()
      ensures old(WallJumpDisarmed()) ==> WallJumpDisarmed()
    {
      if playerControlEnabled {
        IsOnGround(grounded);
        if !hasRigidbody {
          return;
        }
        Gravity();
        ProcessWallSlide(onWall);
        ProcessWallJump(dt);
        if !isWallJumping {
          ApplyMovement();
          Flip();
        }
      }
    }

    method ApplyMovement()
      modifies this`velocity
      ensures velocity == Vec2(directionX * speed, old(velocity).y)
    {
      velocity := Vec2(directionX * speed, velocity.y);
    }

    /**
     * While falling, gravity is the original scale times the fall multiplier and the fall speed
     * is capped at MaxFallSpeed; otherwise gravity is the original scale.
     */
    method Gravity()
      modifies this`gravityScale, this`velocity
      ensures old(velocity).y < 0.0 ==>
        gravityScale == originalGravityScale * fallMultiplier
        && velocity == Vec2(old(velocity).x, RMax(old(velocity).y, -maxFallSpeed))
        && velocity.y >= -maxFallSpeed && velocity.y >= old(velocity).y
      ensures old(velocity).y >= 0.0 ==> gravityScale == originalGravityScale && velocity == old(velocity)
    {
      if velocity.y < 0.0 {
        gravityScale := originalGravityScale * fallMultiplier;
        velocity := Vec2(velocity.x, RMax(velocity.y, -maxFallSpeed));
      } else {
        gravityScale := originalGravityScale;
      }
    }

    /** Slides (capping the fall at wallSlideSpeed) only in the air, against a wall, with horizontal input. */
    method ProcessWallSlide(onWall: bool)
      modifies this`isWallSliding, this`velocity
      ensures isWallSliding <==> !isGrounded && onWall && directionX != 0.0
      ensures isWallSliding ==>
        velocity == Vec2(old(velocity).x, RMax(old(velocity).y, -wallSlideSpeed)) && velocity.y >= -wallSlideSpeed
      ensures !isWallSliding ==> velocity == old(velocity)
    {
      if !isGrounded && onWall && directionX != 0.0 {
        isWallSliding := true;
        velocity := Vec2(velocity.x, RMax(velocity.y, -wallSlideSpeed));
      } else {
        isWallSliding := false;
      }
    }

    /**
     * ProcessWallJump as written: the timer is armed only while a wall jump is already in
     * progress; otherwise a running timer counts down by the frame time.
     */
    method ProcessWallJump(dt: real)
      modifies this`isWallJumping, this`wallJumpDirection, this`wallJumpTimer
      ensures old(isWallJumping) ==> !isWallJumping && wallJumpDirection == -scaleX && wallJumpTimer == wallJumpTime
      ensures !old(isWallJumping) ==>
        !isWallJumping && wallJumpDirection == old(wallJumpDirection)
        && wallJumpTimer == (if old(wallJumpTimer) > 0.0 then old(wallJumpTimer) - dt else old(wallJumpTimer))
      ensures old(WallJumpDisarmed()) ==> WallJumpDisarmed()
    {
      if isWallJumping {
        isWallJumping := false;
        wallJumpDirection := -scaleX;
        wallJumpTimer := wallJumpTime;
      } else if wallJumpTimer > 0.0 {
        wallJumpTimer := wallJumpTimer - dt;
      }
    }

    /**
     * ProcessWallJump as intended: sliding on a wall arms the timer, so a jump pressed while
     * sliding, or within wallJumpTime after, pushes off the wall.
     */
    method ProcessWallJumpCorrected(dt: real)
      modifies this`isWallJumping, this`wallJumpDirection, this`wallJumpTimer
      ensures old(isWallSliding) ==> !isWallJumping && wallJumpDirection == -scaleX && wallJumpTimer == wallJumpTime
      ensures !old(isWallSliding) ==>
        isWallJumping == old(isWallJumping) && wallJumpDirection == old(wallJumpDirection)
        && wallJumpTimer == (if old(wallJumpTimer) > 0.0 then old(wallJumpTimer) - dt else old(wallJumpTimer))
    {
      if isWallSliding {
        isWallJumping := false;
        wallJumpDirection := -scaleX;
        wallJumpTimer := wallJumpTime;
      } else if wallJumpTimer > 0.0 {
        wallJumpTimer := wallJumpTimer - dt;
      }
    }

    /** The ground check: grounded restores all jumps. */
    method IsOnGround(grounded: bool)
      modifies this`isGrounded, this`jumpsRemaining
      ensures isGrounded == grounded
      ensures jumpsRemaining == if grounded then maxJumps else old(jumpsRemaining)
    {
      if grounded {
        isGrounded := true;
        jumpsRemaining := maxJumps;
        return;
      }
      isGrounded := false;
    }

    /** Turns round only when the input points against the facing. */
    method Flip()
      modifies this`isFacingRight, this`scaleX
      ensures (old(isFacingRight) && directionX < 0.0) || (!old(isFacingRight) && directionX > 0.0) ==>
        isFacingRight == !old(isFacingRight) && scaleX == -old(scaleX)
      ensures !((old(isFacingRight) && directionX < 0.0) || (!old(isFacingRight) && directionX > 0.0)) ==>
        isFacingRight == old(isFacingRight) && scaleX == old(scaleX)
      ensures directionX < 0.0 ==> !isFacingRight
      ensures directionX > 0.0 ==> isFacingRight
    {
      if (isFacingRight && directionX < 0.0) || (!isFacingRight && directionX > 0.0) {
        MakeFlip();
      }
    }

    /** Turns round: the facing toggles and the horizontal scale changes sign. */
    method MakeFlip()
      modifies this`isFacingRight, this`scaleX
      ensures isFacingRight == !old(isFacingRight) && scaleX == -old(scaleX)
      ensures old(Valid()) ==> (isFacingRight <==> scaleX > 0.0) && scaleX != 0.0
    {
      isFacingRight := !isFacingRight;
      scaleX := scaleX * -1.0;
    }

    /** A kick takes control away (the push itself is physics); control returns after the wait. */
    method GetKickDamage()
      modifies this`playerControlEnabled
      ensures !playerControlEnabled
    {
      if playerControlEnabled {
        playerControlEnabled := false;
      }
    }

    /** The end of the wait that follows a kick. */
    method ControlsRestored()
      modifies this`playerControlEnabled
      ensures playerControlEnabled
    {
      playerControlEnabled := true;
    }
  }

  /**
   * As written, a player that slides down a wall and presses jump gets an ordinary jump and
   * never the wall jump: the wall-jump timer is never armed.
   */
  method WallJumpNeverFires() returns (wallJumped: bool, sliding: bool)
    ensures sliding && !wallJumped
  {
    var p := new PlayerController(true, 2, 1.0);
    p.OnMoving(1.0);
    p.Update(false, true, 0.02);
    sliding := p.isWallSliding;
    p.OnJump(Performed);
    wallJumped := p.isWallJumping;
  }

  /** With the timer armed by sliding, the same input produces the wall jump, away from the wall. */
  method WallJumpFiresWhenCorrected() returns (wallJumped: bool, velocity: Vec2, facingRight: bool)
    ensures wallJumped && velocity == Vec2(-5.0, 10.0) && !facingRight
  {
    var p := new PlayerController(true, 2, 1.0);
    p.OnMoving(1.0);
    p.IsOnGround(false);
    p.Gravity();
    p.ProcessWallSlide(true);
    p.ProcessWallJumpCorrected(0.02);
    p.OnJump(Performed);
    wallJumped := p.isWallJumping;
    velocity := p.velocity;
    facingRight := p.isFacingRight;
  }
}
