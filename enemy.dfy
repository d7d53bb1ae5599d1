/**
 * The enemy's mode flags and timers. Coroutines become explicit steps: one vision tick, one
 * frame of the alert countdown, one run of the patrol walk over a list of observed frames.
 * Raycasts, ground checks and positions are inputs.
 */
module Enemy {
  import opened Base
  import opened DuckChain
  import Player

  /** What a vision ray hit: a wall or ground tile, the player, or anything else. */
  datatype HitKind = Obstacle | PlayerHit | OtherHit
  datatype Hit = Hit(kind: HitKind, distance: real)

  /**
   * The state of the alert coroutine: not running, counting down, finishing its last frame,
   * or stopped by StopAllCoroutines with its handle still set.
   */
  datatype AlertPhase = Idle | Counting(timer: real) | Closing | Halted

  datatype Decision = Aggressive | Passive

  /** One frame seen by the countdown: the frame time and whether the reset condition held. */
  datatype CountFrame = CountFrame(dt: real, reset: bool)

  /**
   * One frame of the patrol walk, as observed after the engine moved the body; `dirX` is the
   * horizontal part of the direction to the target at that frame.
   */
  datatype MoveFrame = MoveFrame(grounded: bool, falling: bool, arrived: bool, stuck: bool, dirX: real)

  datatype MoveOutcome = Fell | Arrived | Stuck | LeftGround | StillMoving

  const BaseJumpDistance: real := 1.5
  const ChaseForceFactor: real := 1.5
  const FlipThreshold: real := 0.01
  /** A walk is stuck after more than this many frames without moving. */
  const StuckLimit: nat := 20

  function Clamp01(v: real): (r: real)
    ensures 0.0 <= r <= 1.0
    ensures 0.0 <= v <= 1.0 ==> r == v
    ensures v < 0.0 ==> r == 0.0
    ensures v > 1.0 ==> r == 1.0
  {
    if v < 0.0 then 0.0 else if v > 1.0 then 1.0 else v
  }

  /**
   * clamp01(moveForce / defaultForce) in single-precision semantics: a zero default gives an
   * infinite quotient (clamped to 1 or 0) or, for 0/0, NaN, which is None here.
   */
  function SpeedMultiplier(moveForce: real, defaultForce: real): (r: Option<real>)
    ensures r.Some? ==> 0.0 <= r.value <= 1.0
    ensures r.None? <==> defaultForce == 0.0 && moveForce == 0.0
    ensures defaultForce != 0.0 && moveForce / defaultForce >= 1.0 ==> r == Some(1.0)
  {
    if defaultForce == 0.0 then
      if moveForce > 0.0 then Some(1.0) else if moveForce < 0.0 then Some(0.0) else None
    else Some(Clamp01(moveForce / defaultForce))
  }

  /** The distance to an obstacle under which a chasing enemy starts a jump. */
  function AdaptiveDistance(moveForce: real, defaultForce: real): (r: Option<real>)
    ensures r.Some? ==> BaseJumpDistance <= r.value <= 2.0 * BaseJumpDistance
    ensures r.None? <==> SpeedMultiplier(moveForce, defaultForce).None?
  {
    var s := SpeedMultiplier(moveForce, defaultForce);
    if s.Some? then Some(BaseJumpDistance * (1.0 + s.value)) else None
  }

  /** A comparison with NaN is false, so a NaN distance never starts a jump. */
  predicate ShouldStartJumpingAdaptive(distance: real, moveForce: real, defaultForce: real)
  {
    var a := AdaptiveDistance(moveForce, defaultForce);
    a.Some? && distance < a.value
  }

  /** The two forces an enemy ever moves with: its default one, and 1.5 times that while chasing. */
  predicate ModeForce(moveForce: real, defaultForce: real)
  {
    moveForce == defaultForce || moveForce == defaultForce * ChaseForceFactor
  }

  /**
   * With either mode force the threshold is always 3: the quotient is 1 or 1.5 and clamps to 1.
   * With a zero default both forces are zero, the quotient is NaN, and no jump ever starts.
   */
  lemma JumpThresholdIsThree(distance: real, moveForce: real, defaultForce: real)
    requires ModeForce(moveForce, defaultForce)
    ensures defaultForce != 0.0 ==> (ShouldStartJumpingAdaptive(distance, moveForce, defaultForce) <==> distance < 3.0)
    ensures defaultForce == 0.0 ==> !ShouldStartJumpingAdaptive(distance, moveForce, defaultForce)
  {
    if defaultForce != 0.0 {
      if moveForce == defaultForce {
        assert moveForce / defaultForce == 1.0;
      } else {
        assert moveForce / defaultForce == ChaseForceFactor;
      }
    }
  }

  /** The vision tick turns aggressive exactly when the player is in view or the alert is on. */
  function VisionDecision(playerInView: bool, alertTimerActive: bool): (d: Decision)
    ensures d == Aggressive <==> playerInView || alertTimerActive
  {
    if playerInView || alertTimerActive then Aggressive else Passive
  }

  // ---- The countdown with reset ----

  /** One pass of the countdown loop: back to `delay` when the reset condition holds, then minus the frame time. */
  function CountStep(timer: real, delay: real, f: CountFrame): real
  {
    (if f.reset then delay else timer) - f.dt
  }

  /** The timer after the loop has run once per frame of `frames`, starting from `delay`. */
  function CountAfter(delay: real, frames: seq<CountFrame>): real
  {
    if |frames| == 0 then delay
    else CountStep(CountAfter(delay, frames[..|frames| - 1]), delay, frames[|frames| - 1])
  }

  function SumDt(frames: seq<CountFrame>): real
  {
    if |frames| == 0 then 0.0 else SumDt(frames[..|frames| - 1]) + frames[|frames| - 1].dt
  }

  /**
   * The countdown loop: starts at `delay`, runs one pass per frame while the timer is positive,
   * and reports whether it expired (the point where the false-callback runs). Frames left over
   * once it expires are not consumed; running out of frames leaves it still counting.
   */
  method ResetCountDown(delay: real, frames: seq<CountFrame>) returns (timer: real, used: nat, expired: bool)
    ensures used <= |frames| && timer == CountAfter(delay, frames[..used])
    ensures forall j :: 0 <= j < used ==> CountAfter(delay, frames[..j]) > 0.0
    ensures expired <==> timer <= 0.0
    ensures !expired ==> used == |frames|
  {
    timer := delay;
    used := 0;
    while used < |frames| && timer > 0.0
      invariant used <= |frames| && timer == CountAfter(delay, frames[..used])
      invariant forall j :: 0 <= j < used ==> CountAfter(delay, frames[..j]) > 0.0
      decreases |frames| - used
    {
      if frames[used].reset {
        timer := delay;
      }
      timer := timer - frames[used].dt;
      assert frames[..used + 1][..used] == frames[..used];
      used := used + 1;
    }
    expired := timer <= 0.0;
  }

  /** Without resets the countdown is the delay minus the elapsed time. */
  lemma {:induction false} CountAfterWithoutReset(delay: real, frames: seq<CountFrame>)
    requires forall j :: 0 <= j < |frames| ==> !frames[j].reset
    ensures CountAfter(delay, frames) == delay - SumDt(frames)
  {
    if |frames| > 0 {
      CountAfterWithoutReset(delay, frames[..|frames| - 1]);
    }
  }

  /**
   * A reset on every frame pins the timer at `delay` minus the last frame time: as long as the
   * reset condition keeps holding and frames are shorter than the delay, the countdown never expires.
   */
  lemma CountAfterAlwaysReset(delay: real, frames: seq<CountFrame>)
    requires delay > 0.0
    requires forall j :: 0 <= j < |frames| ==> frames[j].reset && 0.0 <= frames[j].dt < delay
    ensures CountAfter(delay, frames) > 0.0
  {
  }

  // ---- The patrol walk ----

  /** A frame in which the walk neither ends nor moves the body. */
  predicate PlainStuck(f: MoveFrame)
  {
    f.grounded && !f.falling && !f.arrived && f.stuck
  }

  /** The outcome of the walk loop from frame `i` with `stuckFrames` consecutive stuck frames behind it, and the frames it consumed. */
  function MoveRun(frames: seq<MoveFrame>, i: nat, stuckFrames: nat): (r: (MoveOutcome, nat))
    requires i <= |frames|
    ensures i <= r.1 <= |frames|
    decreases |frames| - i
  {
    if i == |frames| then (StillMoving, i)
    else if !frames[i].grounded then (LeftGround, i)
    else if frames[i].falling then (Fell, i)
    else if frames[i].arrived then (Arrived, i + 1)
    else if frames[i].stuck then
      if stuckFrames + 1 > StuckLimit then (Stuck, i + 1) else MoveRun(frames, i + 1, stuckFrames + 1)
    else MoveRun(frames, i + 1, 0)
  }

  /** The walk only declares itself stuck after StuckLimit + 1 consecutive frames without moving. */
  lemma {:induction false} StuckNeedsConsecutiveFrames(frames: seq<MoveFrame>, i: nat, stuckFrames: nat)
    requires i <= |frames| && stuckFrames <= i && stuckFrames <= StuckLimit
    requires forall k :: i - stuckFrames <= k < i ==> PlainStuck(frames[k])
    requires MoveRun(frames, i, stuckFrames).0 == Stuck
    ensures var used := MoveRun(frames, i, stuckFrames).1;
      used >= StuckLimit + 1 && forall k :: used - (StuckLimit + 1) <= k < used ==> PlainStuck(frames[k])
    decreases |frames| - i
  {
    var f := frames[i];
    if f.stuck && stuckFrames + 1 <= StuckLimit {
      StuckNeedsConsecutiveFrames(frames, i + 1, stuckFrames + 1);
    } else if !f.stuck {
      StuckNeedsConsecutiveFrames(frames, i + 1, 0);
    }
  }

  /** Conversely, StuckLimit + 1 stuck frames in a row end the walk as stuck. */
  lemma {:induction false} ConsecutiveStuckFramesStop(frames: seq<MoveFrame>, i: nat, stuckFrames: nat)
    requires i <= |frames| && stuckFrames <= StuckLimit
    requires i + (StuckLimit + 1 - stuckFrames) <= |frames|
    requires forall k :: i <= k < i + (StuckLimit + 1 - stuckFrames) ==> PlainStuck(frames[k])
    ensures MoveRun(frames, i, stuckFrames) == (Stuck, i + (StuckLimit + 1 - stuckFrames))
    decreases StuckLimit - stuckFrames
  {
    if stuckFrames < StuckLimit {
      ConsecutiveStuckFramesStop(frames, i + 1, stuckFrames + 1);
    }
  }

  /** The facing after UpdateSpriteFlip with horizontal direction `dirX`: left is `true`. */
  function FlipFor(dirX: real, flipX: bool): (r: bool)
  {
    if (if dirX < 0.0 then -dirX else dirX) > FlipThreshold then dirX < 0.0 else flipX
  }

  /** The facing after the first `n` frames of a walk each turned the sprite, from `flipX`. */
  function FacingAfter(frames: seq<MoveFrame>, n: nat, flipX: bool): bool
    requires n <= |frames|
  {
    if n == 0 then flipX else FlipFor(frames[n - 1].dirX, FacingAfter(frames, n - 1, flipX))
  }

  /** Frames whose directions all stay within the flip threshold keep the facing. */
  lemma {:induction false} SmallDirectionsKeepFacing(frames: seq<MoveFrame>, n: nat, flipX: bool)
    requires n <= |frames|
    requires forall k :: 0 <= k < n ==> -FlipThreshold <= frames[k].dirX <= FlipThreshold
    ensures FacingAfter(frames, n, flipX) == flipX
  {
    if n > 0 {
      SmallDirectionsKeepFacing(frames, n - 1, flipX);
    }
  }

  /** After a frame with a clear horizontal direction, the enemy faces that way, whatever came before. */
  lemma LastClearDirectionDecides(frames: seq<MoveFrame>, n: nat, flipX: bool)
    requires 0 < n <= |frames|
    requires frames[n - 1].dirX < -FlipThreshold || frames[n - 1].dirX > FlipThreshold
    ensures FacingAfter(frames, n, flipX) == (frames[n - 1].dirX < 0.0)
  {
  }

  // ---- The line-of-sight scan ----

  /** A hit that ends the scan: the player, or an obstacle close enough to start an armed jump. */
  predicate StopsScan(h: Hit, jumpArmed: bool, moveForce: real, defaultForce: real)
  {
    h.kind == PlayerHit || (h.kind == Obstacle && jumpArmed && ShouldStartJumpingAdaptive(h.distance, moveForce, defaultForce))
  }

  /** The index of the first hit that ends the scan, or the number of hits when none does. */
  function ScanStop(hits: seq<Hit>, jumpArmed: bool, moveForce: real, defaultForce: real): (k: nat)
    ensures k <= |hits|
    ensures forall j :: 0 <= j < k ==> !StopsScan(hits[j], jumpArmed, moveForce, defaultForce)
    ensures k < |hits| ==> StopsScan(hits[k], jumpArmed, moveForce, defaultForce)
  {
    if |hits| == 0 then 0
    else if StopsScan(hits[0], jumpArmed, moveForce, defaultForce) then 0
    else 1 + ScanStop(hits[1..], jumpArmed, moveForce, defaultForce)
  }

  function CountObstacles(hits: seq<Hit>): nat
  {
    if |hits| == 0 then 0
    else CountObstacles(hits[..|hits| - 1]) + (if hits[|hits| - 1].kind == Obstacle then 1 else 0)
  }

  /** Whether a scan of `hits` meets the player before anything ends it. */
  ghost predicate MeetsPlayer(hits: seq<Hit>, jumpArmed: bool, moveForce: real, defaultForce: real)
  {
    var stop := ScanStop(hits, jumpArmed, moveForce, defaultForce);
    stop < |hits| && hits[stop].kind == PlayerHit
  }

  class EnemyController {
    var isPatrolling: bool
    var isChasing: bool
    var isAttacking: bool
    var isPlayerInView: bool
    var alertTimerActive: bool
    /** The alert coroutine (`_maintainAlert`); Idle when it is null. */
    var alert: AlertPhase
    var startJumping: bool
    var canMove: bool
    var isGrounded: bool
    var moveForce: real
    var defaultMoveForce: real
    var alertedSec: real
    var flipX: bool
    /** Whether the patrol coroutine's handle (`_mainCoroutine`) is set. */
    var patrolRunning: bool
    /** The elapsed time of the chase coroutine while it runs; None when it is not running. */
    var chase: Option<real>

    /**
     * The mode invariant: never chasing and patrolling at once, never attacking, and moving
     * with one of the two mode forces.
     */
    ghost predicate ModeInv()
      reads this
    {
      !(isChasing && isPatrolling) && !isAttacking && ModeForce(moveForce, defaultMoveForce)
    }

    /** Whether a close obstacle would start a jump: chasing on the ground with the alert on. */
    ghost predicate JumpArmed()
      reads this
    {
      isChasing && isGrounded && alertTimerActive && !startJumping
    }

    /** Where a scan of `hits` from the current state stops. */
    ghost function Stop(hits: seq<Hit>): nat
      reads this
    {
      ScanStop(hits, JumpArmed(), moveForce, defaultMoveForce)
    }

    /** Whether a scan of `hits` from the current state meets the player before anything ends it. */
    ghost predicate SeesPlayer(hits: seq<Hit>)
      reads this
    {
      MeetsPlayer(hits, JumpArmed(), moveForce, defaultMoveForce)
    }

    /**
     * Awake up to its last statement: settings reset and the current force recorded as the
     * default. AwakeStartPatrol is that last statement.
     */
    constructor (force: real, alertSeconds: real)
      ensures !isPatrolling && !isChasing && !isAttacking && !startJumping && canMove
      ensures !isPlayerInView && !alertTimerActive && alert == Idle && !isGrounded
      ensures !patrolRunning && chase.None?
      ensures moveForce == force && defaultMoveForce == force && alertedSec == alertSeconds
      ensures ModeInv()
    {
      isPatrolling := false;
      isChasing := false;
      isAttacking := false;
      startJumping := false;
      canMove := true;
      isPlayerInView := false;
      alertTimerActive := false;
      alert := Idle;
      isGrounded := false;
      moveForce := force;
      defaultMoveForce := force;
      alertedSec := alertSeconds;
      flipX := false;
      patrolRunning := false;
      chase := None;
    }

    method InitSettings()
      modifies this`isPatrolling, this`isChasing, this`isAttacking, this`startJumping, this`canMove
      ensures !isPatrolling && !isChasing && !isAttacking && !startJumping && canMove
    {
      isPatrolling := false;
      isChasing := false;
      isAttacking := false;
      startJumping := false;
      canMove := true;
    }

    /** Faces the movement direction once its horizontal part is above the flip threshold. */
    method UpdateSpriteFlip(dirX: real)
      modifies this`flipX
      ensures (if dirX < 0.0 then -dirX else dirX) > FlipThreshold ==> flipX == (dirX < 0.0)
      ensures (if dirX < 0.0 then -dirX else dirX) <= FlipThreshold ==> flipX == old(flipX)
    {
      var absX := if dirX < 0.0 then -dirX else dirX;
      if absX > FlipThreshold {
        if flipX != (dirX < 0.0) {
          flipX := dirX < 0.0;
        }
      }
    }

    /** `toPlayerX` is the player's x minus the enemy's x, or None without a player reference. */
    method UpdateSpriteFlipTowardsPlayer(toPlayerX: Option<real>)
      modifies this`flipX
      ensures toPlayerX.Some? && (if toPlayerX.value < 0.0 then -toPlayerX.value else toPlayerX.value) > FlipThreshold ==>
        flipX == (toPlayerX.value < 0.0)
      ensures toPlayerX.None? || (if toPlayerX.value < 0.0 then -toPlayerX.value else toPlayerX.value) <= FlipThreshold ==>
        flipX == old(flipX)
    {
      if toPlayerX.Some? {
        var d := toPlayerX.value;
        var absD := if d < 0.0 then -d else d;
        if absD > FlipThreshold {
          var shouldFlipLeft := d < 0.0;
          if flipX != shouldFlipLeft {
            flipX := shouldFlipLeft;
          }
        }
      }
    }

    /** Starts chasing at 1.5 times the default force; a no-op while already chasing. */
    method SwitchToAggressive(toPlayerX: Option<real>)
      modifies this`moveForce, this`isChasing, this`isPatrolling, this`flipX
      ensures isChasing
      ensures old(isChasing) ==> unchanged(this)
      ensures !old(isChasing) ==> !isPatrolling && moveForce == defaultMoveForce * ChaseForceFactor
      ensures old(ModeInv()) ==> ModeInv()
    {
      if !isChasing {
        moveForce := defaultMoveForce * ChaseForceFactor;
        isChasing := true;
        isPatrolling := false;
        UpdateSpriteFlipTowardsPlayer(toPlayerX);
      }
    }

    /** Goes back to patrolling at the default force; a no-op while already patrolling. */
    method SwitchToPassive()
      modifies this`moveForce, this`isChasing, this`isPatrolling, this`canMove
      ensures isPatrolling
      ensures old(isPatrolling) ==> unchanged(this)
      ensures !old(isPatrolling) ==> !isChasing && canMove && moveForce == defaultMoveForce
      ensures old(ModeInv()) ==> ModeInv()
    {
      if !isPatrolling {
        moveForce := defaultMoveForce;
        isChasing := false;
        isPatrolling := true;
        canMove := true;
      }
    }

    /** Stops the alert coroutine and clears every alert flag and the chase. */
    method CancelAlertness()
      modifies this`alert, this`isPlayerInView, this`alertTimerActive, this`isChasing
      ensures alert == Idle && !isPlayerInView && !alertTimerActive && !isChasing
      ensures old(ModeInv()) ==> ModeInv()
    {
      if alert != Idle {
        alert := Idle;
      }
      isPlayerInView := false;
      alertTimerActive := false;
      isChasing := false;
    }

    /**
     * Starting the alert coroutine runs it up to its first yield: the timer starts at the
     * alert time, the player is marked in view, and the first countdown pass runs with `dt`.
     */
    method StartAlert(dt: real)
      modifies this`alert, this`isPlayerInView
      ensures alertedSec > 0.0 ==>
        isPlayerInView && alert == Counting(CountStep(alertedSec, alertedSec, CountFrame(dt, alertTimerActive)))
      ensures alertedSec <= 0.0 ==> !isPlayerInView && alert == Closing
    {
      var timer := alertedSec;
      isPlayerInView := true;
      if timer > 0.0 {
        timer := CountStep(timer, alertedSec, CountFrame(dt, alertTimerActive));
        alert := Counting(timer);
      } else {
        isPlayerInView := false;
        alert := Closing;
      }
    }

    /**
     * One frame of the alert coroutine. The reset condition is the alert flag itself, so while
     * the flag is set a positive timer is put back to the alert time on every frame.
     */
    method AlertTick(dt: real)
      modifies this`alert, this`isPlayerInView, this`alertTimerActive
      ensures old(alert) == Idle || old(alert) == Halted ==> unchanged(this)
      ensures old(alert).Counting? && old(alert).timer > 0.0 ==>
        alert == Counting(CountStep(old(alert).timer, alertedSec, CountFrame(dt, alertTimerActive)))
        && isPlayerInView == old(isPlayerInView) && alertTimerActive == old(alertTimerActive)
      ensures old(alert).Counting? && old(alert).timer <= 0.0 ==>
        alert == Closing && !isPlayerInView && alertTimerActive == old(alertTimerActive)
      ensures old(alert) == Closing ==> alert == Idle && !alertTimerActive && isPlayerInView == old(isPlayerInView)
      ensures old(alertTimerActive && alert.Counting? && alert.timer > 0.0) && 0.0 <= dt < alertedSec ==>
        alert.Counting? && alert.timer > 0.0
    {
      match alert {
        case Idle =>
        case Counting(t) =>
          if t > 0.0 {
            alert := Counting(CountStep(t, alertedSec, CountFrame(dt, alertTimerActive)));
          } else {
            isPlayerInView := false;
            alert := Closing;
          }
        case Closing =>
          alertTimerActive := false;
          alert := Idle;
        case Halted =>
      }
    }

    /** The player was hit by the vision ray: face it, arm a jump over obstacles, keep the alert on. */
    method PlayerAhead(obstaclesInFront: bool, toPlayerX: Option<real>, dt: real)
      modifies this`flipX, this`startJumping, this`alertTimerActive, this`alert, this`isPlayerInView
      ensures alert != Idle && alertTimerActive
      ensures startJumping == (old(startJumping) || obstaclesInFront)
      ensures old(alert) != Idle ==> alert == old(alert) && isPlayerInView == old(isPlayerInView)
      ensures old(alert) == Idle && alertedSec > 0.0 ==>
        isPlayerInView && alert == Counting(alertedSec - dt)
    {
      UpdateSpriteFlipTowardsPlayer(toPlayerX);
      if obstaclesInFront {
        if !startJumping {
          startJumping := true;
        }
      }
      if alert == Idle {
        alertTimerActive := false;
        StartAlert(dt);
      }
      if alert != Idle && !alertTimerActive {
        alertTimerActive := true;
      }
    }

    /**
     * Walks the ray's hits in order. An obstacle close enough starts an armed jump and ends the
     * scan; the player ends it too. Without the player, and with no alert running, the alert is
     * cancelled. Returns whether the player was met.
     */
    method CheckLineOfSight(hits: seq<Hit>, toPlayerX: Option<real>, dt: real) returns (meetPlayer: bool)
      modifies this`flipX, this`startJumping, this`alertTimerActive, this`alert, this`isPlayerInView, this`isChasing
      ensures var armed := old(isChasing && isGrounded && alertTimerActive && !startJumping);
        var stop := ScanStop(hits, armed, moveForce, defaultMoveForce);
        && (meetPlayer <==> stop < |hits| && hits[stop].kind == PlayerHit)
        && meetPlayer == old(SeesPlayer(hits))
        && (meetPlayer ==> alert != Idle && alertTimerActive
                           && startJumping == (old(startJumping) || CountObstacles(hits[..stop]) > 0))
        && (!meetPlayer && stop < |hits| ==> startJumping)
        && (!meetPlayer && stop == |hits| ==> startJumping == old(startJumping))
      ensures !meetPlayer && old(alert) == Idle ==> alert == Idle && !isPlayerInView && !alertTimerActive && !isChasing
      ensures !meetPlayer && old(alert) != Idle ==>
        alert == old(alert) && isChasing == old(isChasing) && alertTimerActive == old(alertTimerActive)
      ensures isPatrolling == old(isPatrolling) && (isChasing ==> old(isChasing))
      ensures old(ModeInv()) ==> ModeInv()
    {
      ghost var armed := isChasing && isGrounded && alertTimerActive && !startJumping;
      ghost var stop := ScanStop(hits, armed, moveForce, defaultMoveForce);
      var obstaclesCounter := 0;
      meetPlayer := false;
      var i := 0;
      while i < |hits|
        invariant i <= stop
        invariant obstaclesCounter == CountObstacles(hits[..i])
        invariant !meetPlayer && startJumping == old(startJumping)
        invariant unchanged(this)
        decreases |hits| - i
      {
        var hit := hits[i];
        assert hits[..i + 1][..i] == hits[..i];
        if hit.kind == Obstacle {
          obstaclesCounter := obstaclesCounter + 1;
          var isNearObstacles := ShouldStartJumpingAdaptive(hit.distance, moveForce, defaultMoveForce);
          if isChasing && isGrounded && isNearObstacles && alertTimerActive {
            if !startJumping {
              startJumping := true;
              break;
            }
          }
        } else if hit.kind == PlayerHit {
          meetPlayer := true;
          PlayerAhead(obstaclesCounter > 0, toPlayerX, dt);
          break;
        }
        i := i + 1;
      }
      if !meetPlayer && alert == Idle {
        CancelAlertness();
      }
    }

    /** One pass of the vision coroutine: look, then switch mode on what was seen. */
    method VisionTick(hits: seq<Hit>, toPlayerX: Option<real>, dt: real)
      modifies this
      ensures VisionDecision(isPlayerInView, alertTimerActive) == Aggressive ==> isChasing
      ensures VisionDecision(isPlayerInView, alertTimerActive) == Passive ==> isPatrolling
      ensures old(SeesPlayer(hits)) ==> alertTimerActive && isChasing && alert != Idle
      ensures old(SeesPlayer(hits)) ==> startJumping == (old(startJumping) || CountObstacles(hits[..old(Stop(hits))]) > 0)
      ensures !old(SeesPlayer(hits)) && old(Stop(hits)) < |hits| ==> startJumping
      ensures old(alert != Idle && alertTimerActive) ==> isChasing
      ensures old(!(isChasing && isPatrolling)) ==> !(isChasing && isPatrolling)
      ensures defaultMoveForce == old(defaultMoveForce) && alertedSec == old(alertedSec) && isGrounded == old(isGrounded)
      ensures patrolRunning == old(patrolRunning) && chase == old(chase)
      ensures old(ModeInv()) ==> ModeInv()
    {
      var _ := CheckLineOfSight(hits, toPlayerX, dt);
      if VisionDecision(isPlayerInView, alertTimerActive) == Aggressive {
        SwitchToAggressive(toPlayerX);
      } else {
        SwitchToPassive();
      }
    }

    /**
     * The synchronous start of the patrol coroutine as written, from the state InitSettings
     * leaves: the vision coroutine's first pass runs before the patrol flag is set, so an enemy
     * that sees the player right away ends up both chasing and patrolling.
     */
    method StartPatrol(hits: seq<Hit>, toPlayerX: Option<real>, onGround: bool, dt: real)
      requires !isChasing && !isPatrolling
      modifies this
      ensures isPatrolling && isGrounded == onGround
      ensures VisionDecision(isPlayerInView, alertTimerActive) == Aggressive ==> isChasing
      ensures old(SeesPlayer(hits)) ==> isChasing && isPatrolling
      ensures defaultMoveForce == old(defaultMoveForce) && alertedSec == old(alertedSec)
      ensures patrolRunning == old(patrolRunning) && chase == old(chase)
    {
      VisionTick(hits, toPlayerX, dt);
      var _ := IsOnGround(onGround);
      isPatrolling := true;
    }

    /** The start with the patrol flag set before the first vision pass: the modes stay exclusive. */
    method StartPatrolCorrected(hits: seq<Hit>, toPlayerX: Option<real>, onGround: bool, dt: real)
      requires !isChasing && !isPatrolling
      modifies this
      ensures isGrounded == onGround
      ensures VisionDecision(isPlayerInView, alertTimerActive) == Aggressive ==> isChasing && !isPatrolling
      ensures VisionDecision(isPlayerInView, alertTimerActive) == Passive ==> isPatrolling && !isChasing
      ensures old(SeesPlayer(hits)) ==> isChasing && !isPatrolling
      ensures old(ModeInv()) ==> ModeInv()
      ensures defaultMoveForce == old(defaultMoveForce) && alertedSec == old(alertedSec)
      ensures patrolRunning == old(patrolRunning) && chase == old(chase)
    {
      isPatrolling := true;
      VisionTick(hits, toPlayerX, dt);
      var _ := IsOnGround(onGround);
    }

    /** The ground probe: the box overlap with the ground layer, given as `onGround`, is recorded. */
    method IsOnGround(onGround: bool) returns (r: bool)
      modifies this`isGrounded
      ensures r == onGround && isGrounded == onGround
    {
      isGrounded := onGround;
      r := isGrounded;
    }

    /** One pass of the ground checker coroutine; the gravity scale it picks is physics. */
    method GroundTick(onGround: bool)
      modifies this`isGrounded
      ensures isGrounded == onGround
    {
      var _ := IsOnGround(onGround);
    }

    /** Awake's last statement: InitSettings ran earlier in Awake, then the patrol coroutine starts. */
    method AwakeStartPatrol(hits: seq<Hit>, toPlayerX: Option<real>, onGround: bool, dt: real)
      modifies this
      ensures patrolRunning && isPatrolling && isGrounded == onGround
      ensures defaultMoveForce == old(defaultMoveForce) && alertedSec == old(alertedSec)
      ensures MeetsPlayer(hits, false, old(moveForce), old(defaultMoveForce)) ==> isChasing && isPatrolling
    {
      InitSettings();
      StartPatrol(hits, toPlayerX, onGround, dt);
      patrolRunning := true;
    }

    /**
     * OnEnable as written: the settings are reset, and the patrol coroutine starts again only
     * when its handle was cleared, with the patrol flag set after the first vision pass.
     */
    method OnEnable(hits: seq<Hit>, toPlayerX: Option<real>, onGround: bool, dt: real)
      modifies this
      ensures patrolRunning && defaultMoveForce == old(defaultMoveForce) && alertedSec == old(alertedSec)
      ensures old(patrolRunning) ==>
        !isPatrolling && !isChasing && !isAttacking && !startJumping && canMove
        && moveForce == old(moveForce) && alert == old(alert) && chase == old(chase)
      ensures !old(patrolRunning) ==> isPatrolling && isGrounded == onGround
      ensures !old(patrolRunning) && MeetsPlayer(hits, false, old(moveForce), old(defaultMoveForce)) ==>
        isChasing && isPatrolling
    {
      InitSettings();
      if !patrolRunning {
        StartPatrol(hits, toPlayerX, onGround, dt);
        patrolRunning := true;
      }
    }

    /** OnEnable with the corrected patrol start: the modes stay exclusive. */
    method OnEnableCorrected(hits: seq<Hit>, toPlayerX: Option<real>, onGround: bool, dt: real)
      modifies this
      ensures patrolRunning && defaultMoveForce == old(defaultMoveForce) && alertedSec == old(alertedSec)
      ensures old(patrolRunning) ==>
        !isPatrolling && !isChasing && !isAttacking && !startJumping && canMove
        && moveForce == old(moveForce) && alert == old(alert) && chase == old(chase)
      ensures !old(patrolRunning) && MeetsPlayer(hits, false, old(moveForce), old(defaultMoveForce)) ==>
        isChasing && !isPatrolling
      ensures old(ModeInv()) ==> ModeInv()
    {
      InitSettings();
      if !patrolRunning {
        StartPatrolCorrected(hits, toPlayerX, onGround, dt);
        patrolRunning := true;
      }
    }

    /**
     * OnDisable: every coroutine stops and the patrol handle is cleared. The alert handle is
     * not cleared, so a running countdown is left Halted.
     */
    method OnDisable()
      modifies this`patrolRunning, this`chase, this`alert
      ensures !patrolRunning && chase.None?
      ensures old(alert) == Idle ==> alert == Idle
      ensures old(alert) != Idle ==> alert == Halted
    {
      chase := None;
      if alert != Idle {
        alert := Halted;
      }
      patrolRunning := false;
    }

    /**
     * The loop test of the chase coroutine at elapsed time `t`: while chasing and under the
     * alert time, one more fixed frame is counted; otherwise the alert is cancelled and the
     * enemy stops.
     */
    method ChaseLoopTest(t: real, dt: real)
      modifies this`chase, this`canMove, this`alert, this`isPlayerInView, this`alertTimerActive, this`isChasing
      ensures old(isChasing) && t < alertedSec ==>
        isChasing && chase == Some(t + dt)
        && unchanged(this`alert, this`isPlayerInView, this`alertTimerActive, this`canMove)
      ensures !(old(isChasing) && t < alertedSec) ==>
        chase.None? && !canMove && alert == Idle && !isPlayerInView && !alertTimerActive && !isChasing
      ensures old(ModeInv()) ==> ModeInv()
    {
      if isChasing && t < alertedSec {
        chase := Some(t + dt);
      } else {
        CancelAlertness();
        canMove := false;
        chase := None;
      }
    }

    /** The start of the chase coroutine: the enemy may move, and the loop test runs at time 0. */
    method KeepChasing(dt: real)
      modifies this`chase, this`canMove, this`alert, this`isPlayerInView, this`alertTimerActive, this`isChasing
      ensures old(isChasing) && 0.0 < alertedSec ==>
        canMove && chase == Some(dt) && isChasing && alert == old(alert) && alertTimerActive == old(alertTimerActive)
      ensures !(old(isChasing) && 0.0 < alertedSec) ==>
        chase.None? && !canMove && alert == Idle && !isPlayerInView && !alertTimerActive && !isChasing
      ensures old(ModeInv()) ==> ModeInv()
    {
      canMove := true;
      ChaseLoopTest(0.0, dt);
    }

    /** One fixed frame of the chase coroutine; a no-op when it is not running. */
    method ChaseTick(dt: real)
      modifies this`chase, this`canMove, this`alert, this`isPlayerInView, this`alertTimerActive, this`isChasing
      ensures old(chase).None? ==> unchanged(this)
      ensures old(chase).Some? && old(isChasing) && old(chase).value < alertedSec ==>
        chase == Some(old(chase).value + dt) && isChasing && canMove == old(canMove) && alert == old(alert)
      ensures old(chase).Some? && !(old(isChasing) && old(chase).value < alertedSec) ==>
        chase.None? && !canMove && alert == Idle && !isPlayerInView && !alertTimerActive && !isChasing
      ensures old(ModeInv()) ==> ModeInv()
    {
      if chase.Some? {
        ChaseLoopTest(chase.value, dt);
      }
    }

    /**
     * The patrol walk over the observed frames: it ends when the enemy leaves the ground, falls
     * (leaving `canMove` set), arrives, or is stuck for more than StuckLimit frames. Every frame
     * the loop body starts turns the sprite toward the target, the falling frame included.
     */
    method Move(frames: seq<MoveFrame>) returns (outcome: MoveOutcome, used: nat)
      modifies this`canMove, this`flipX
      ensures (outcome, used) == MoveRun(frames, 0, 0)
      ensures canMove <==> outcome == Fell || outcome == StillMoving
      ensures outcome == Fell ==> used < |frames| && flipX == FacingAfter(frames, used + 1, old(flipX))
      ensures outcome != Fell ==> flipX == FacingAfter(frames, used, old(flipX))
    {
      var stuckFrames: nat := 0;
      canMove := true;
      var i := 0;
      outcome := StillMoving;
      while canMove && i < |frames| && frames[i].grounded
        invariant i <= |frames| && stuckFrames <= StuckLimit
        invariant canMove && outcome == StillMoving
        invariant MoveRun(frames, i, stuckFrames) == MoveRun(frames, 0, 0)
        invariant flipX == FacingAfter(frames, i, old(flipX))
        decreases |frames| - i
      {
        UpdateSpriteFlip(frames[i].dirX);
        if frames[i].falling {
          return Fell, i;
        }
        if frames[i].arrived {
          outcome := Arrived;
          i := i + 1;
          break;
        }
        if frames[i].stuck {
          stuckFrames := stuckFrames + 1;
          if stuckFrames > StuckLimit {
            canMove := false;
            outcome := Stuck;
            i := i + 1;
            break;
          }
        } else {
          stuckFrames := 0;
        }
        i := i + 1;
      }
      used := i;
      if outcome == StillMoving && i == |frames| {
        return;
      }
      if outcome == StillMoving {
        outcome := LeftGround;
      }
      canMove := false;
    }

    /** A following duck that touches the enemy makes its player drop the last duck of the line. */
    method OnDuckCollision(duck: DuckController?)
      modifies if duck != null then {duck.plAttach, LastDC(duck.plAttach), ParentDuck(LastDC(duck.plAttach))} else {}
      ensures duck != null && !old(duck.isFollowing) ==> var p := old(duck.plAttach); p != null ==> unchanged(p)
      ensures duck != null && old(duck.isFollowing) ==>
        var p := old(duck.plAttach);
        old(p != null && p.Valid()) ==>
          p.Valid() && (old(p.Chain) != [] ==> p.Chain == old(p.Chain[..|p.Chain| - 1]))
    {
      if duck != null && duck.isFollowing {
        duck.Detach();
      }
    }

    /**
     * Touching the player kicks it, which takes its control away, then puts it in view and starts
     * the chase. `player` is the player reference after the lookup on the collision, null when
     * none was found; the camera shake and the kick's impulse are left out.
     */
    method OnPlayerCollision(toPlayerX: Option<real>, player: Player.PlayerController?)
      modifies this`isPlayerInView, this`moveForce, this`isChasing, this`isPatrolling, this`flipX
      modifies if player != null then {player} else {}
      ensures isPlayerInView && isChasing
      ensures old(ModeInv()) ==> ModeInv() && !isPatrolling
      ensures player != null ==> !player.playerControlEnabled
    {
      if player != null {
        player.GetKickDamage();
      }
      isPlayerInView := true;
      SwitchToAggressive(toPlayerX);
    }
  }

  /**
   * A culled enemy re-enabled with the player in its first vision ray: OnDisable cleared the
   * patrol handle, so OnEnable restarts the patrol as written, and the enemy ends up chasing and
   * patrolling at once. Neither mode switch fires again until the alert is cancelled.
   */
  method StartPatrolSeesPlayerOnReEnable() returns (chasing: bool, patrolling: bool, consistent: bool)
    ensures chasing && patrolling && !consistent
  {
    var e := new EnemyController(5.0, 10.0);
    e.AwakeStartPatrol([], None, true, 0.02);
    e.OnEnable([], None, true, 0.02);
    e.OnDisable();
    e.OnEnable([Hit(PlayerHit, 4.0)], Some(4.0), true, 0.02);
    chasing, patrolling := e.isChasing, e.isPatrolling;
    consistent := !(chasing && patrolling);
  }

  /** The same re-enable with the corrected start: the enemy chases and does not patrol. */
  method StartPatrolCorrectedSeesPlayerOnReEnable() returns (chasing: bool, patrolling: bool)
    ensures chasing && !patrolling
  {
    var e := new EnemyController(5.0, 10.0);
    e.AwakeStartPatrol([], None, true, 0.02);
    e.OnEnableCorrected([], None, true, 0.02);
    e.OnDisable();
    e.OnEnableCorrected([Hit(PlayerHit, 4.0)], Some(4.0), true, 0.02);
    chasing, patrolling := e.isChasing, e.isPatrolling;
  }

  /**
   * At spawn the pass that Awake's patrol start makes is undone: the OnEnable that follows
   * Awake finds the handle set, only resets the settings, and the modes are exclusive.
   */
  method SpawnSeesPlayerConsistent() returns (chasing: bool, patrolling: bool)
    ensures !chasing && !patrolling
  {
    var e := new EnemyController(5.0, 10.0);
    e.AwakeStartPatrol([Hit(PlayerHit, 4.0)], Some(4.0), true, 0.02);
    e.OnEnable([Hit(PlayerHit, 4.0)], Some(4.0), true, 0.02);
    chasing, patrolling := e.isChasing, e.isPatrolling;
  }

  /**
   * A grounded chasing enemy with its alert on sees a close obstacle before the player: the
   * armed jump fires, the scan ends there, and the chase goes on.
   */
  method GroundedChaserJumps() returns (jumping: bool, chasing: bool)
    ensures jumping && chasing
  {
    var e := new EnemyController(5.0, 10.0);
    e.AwakeStartPatrol([], None, true, 0.02);
    e.VisionTick([Hit(PlayerHit, 4.0)], Some(4.0), 0.02);
    e.VisionTick([Hit(Obstacle, 1.0), Hit(PlayerHit, 4.0)], Some(4.0), 0.02);
    jumping, chasing := e.startJumping, e.isChasing;
  }

  /**
   * The chase coroutine ends the alert even while the player stays in view: with an alert time
   * of 0.05 and fixed frames of 0.02, the third tick after the start cancels the alert and stops
   * the enemy.
   */
  method ChaseTimesOut() returns (chasing: bool, alertOn: bool, moving: bool, running: bool)
    ensures !chasing && !alertOn && !moving && !running
  {
    var e := new EnemyController(5.0, 0.05);
    e.AwakeStartPatrol([], None, true, 0.02);
    e.VisionTick([Hit(PlayerHit, 4.0)], Some(4.0), 0.02);
    e.KeepChasing(0.02);
    e.ChaseTick(0.02);
    e.ChaseTick(0.02);
    e.ChaseTick(0.02);
    chasing, alertOn, moving, running := e.isChasing, e.alertTimerActive, e.canMove, e.chase.Some?;
  }
}
