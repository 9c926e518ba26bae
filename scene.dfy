/**
 * `GameScene` as an object whose methods update its fields and those of the
 * player's sprite node and physics body in place, step by step as the scene does.
 * The physics engine is reached only through a `World` (what `atPoint` and
 * `enumerateBodies` answer); impulses and forces handed to it are recorded.
 */
module Scene {
  import opened Optional
  import opened NodeNames
  import opened Controller
  import Camera

  datatype Point = Point(x: real, y: real)
  datatype Vector = Vector(dx: real, dy: real)

  /** A push handed to the physics engine: a one-shot impulse or a continuous force. */
  datatype Push = Impulse(v: Vector) | Force(v: Vector)

  /** One body met by the downward ray: the name of its node and the node's y position. */
  datatype RayHit = RayHit(name: Option<string>, nodeY: real)

  /**
   * The physics world as the scene queries it: the name of the node found at a point
   * of the scene, and the bodies met along a ray from one point to another.
   */
  datatype World = World(nameAt: Point -> Option<string>, bodiesAlong: (Point, Point) -> seq<RayHit>)

  const PhysicsRadius: real := 14.0
  const PlayerAcceleration: real := 20.0
  const PlayerMaxVelocity: real := 250.0
  const JumpForce: real := 18.0
  const GroundTimerLimit: real := 0.1
  const Damping: real := 0.85
  /** How far above a floating floor node, and a ground node, their top surfaces lie. */
  const FloorTopOffset: real := 10.5
  const GroundTopOffset: real := 120.0
  /** Horizontal speed from which the walk animation plays three times faster. */
  const FastWalkSpeed: real := 200.0

  function Abs(r: real): real { if r < 0.0 then -r else r }

  /** The ray rule's test on one hit: the player's y lies strictly within one radius above the hit surface's top. */
  predicate OnTop(hit: RayHit, y: real) {
    (hit.name == Some(RawValue(Floor)) &&
      hit.nodeY + FloorTopOffset < y < hit.nodeY + FloorTopOffset + PhysicsRadius) ||
    (hit.name == Some(RawValue(Ground)) &&
      hit.nodeY + GroundTopOffset < y < hit.nodeY + GroundTopOffset + PhysicsRadius)
  }

  /** Some of the first `n` hits passes the ray rule's test. */
  predicate OnTopAmong(hits: seq<RayHit>, n: nat, y: real)
    requires n <= |hits|
  {
    exists j :: 0 <= j < n && OnTop(hits[j], y)
  }

  /** The player's sprite node together with its physics body. */
  class PlayerNode {
    var position: Point
    var velocity: Vector
    const categoryBitMask: bv32
    var collisionBitMask: bv32
    var contactTestBitMask: bv32
    /** Frames of the running texture animation; [] when none runs. */
    var animation: seq<string>
    var texture: string
    /** Playback speed of the node's actions. */
    var speed: real
    /** Every impulse and force handed to the physics engine, oldest first. */
    var pushes: seq<Push>

    /** The player as the level loader sets it up: it collides with the ground frame and asks for no contact notifications. */
    constructor (spawn: Point, initialTexture: string)
      ensures position == spawn && velocity == Vector(0.0, 0.0)
      ensures categoryBitMask == Category(Player)
      ensures collisionBitMask == Category(FrameGround) && contactTestBitMask == 0
      ensures animation == [] && texture == initialTexture && speed == 1.0 && pushes == []
    {
      position := spawn;
      velocity := Vector(0.0, 0.0);
      categoryBitMask := Category(Player);
      collisionBitMask := Category(FrameGround);
      contactTestBitMask := 0;
      animation := [];
      texture := initialTexture;
      speed := 1.0;
      pushes := [];
    }

    method ApplyImpulse(v: Vector)
      modifies this`pushes
      ensures pushes == old(pushes) + [Impulse(v)]
    {
      pushes := pushes + [Impulse(v)];
    }

    method ApplyForce(v: Vector)
      modifies this`pushes
      ensures pushes == old(pushes) + [Force(v)]
    {
      pushes := pushes + [Force(v)];
    }
  }

  class GameScene {
    const player: PlayerNode
    /** The scene's size, which is also one screen. */
    const screenWidth: real
    const screenHeight: real
    /** The whole level; its height is the screen's. */
    const allWidth: real
    const allHeight: real
    /** Where on the screen the camera keeps the player: its centre. */
    const charXOffset: real
    const charYOffset: real

    var playerDirection: Direction
    var moving: bool
    var jumping: bool
    var falling: bool
    var isGround: bool

    var delta: real
    var lastUpdateTime: real
    /** The forced-ground timer: its count, and whether it runs. */
    var timeSinceIsGround: real
    var groundTimerArmed: bool

    /** Positions of the world layer and of the background layer, and the player's last position in scene coordinates. */
    var basePosition: Point
    var backPosition: Point
    var playerPt: Point

    /** The scene's flags with the player's masks and look, as one value. */
    function Status(): Controller.Status
      reads this`moving, this`playerDirection, this`jumping, this`falling, this`isGround
      reads player`collisionBitMask, player`contactTestBitMask, player`animation, player`texture
    {
      Controller.Status(moving, playerDirection, jumping, falling, isGround,
        player.collisionBitMask, player.contactTestBitMask, player.animation, player.texture)
    }

    ghost predicate Valid()
      reads this`moving, this`playerDirection, this`jumping, this`falling, this`isGround
      reads this`timeSinceIsGround, this`groundTimerArmed
      reads player`collisionBitMask, player`contactTestBitMask, player`animation, player`texture
    {
      Status().Valid() &&
      (groundTimerArmed ==> timeSinceIsGround < GroundTimerLimit) &&
      player.categoryBitMask == Category(NodeName.Player) &&
      allHeight == screenHeight
    }

    /** `convert(_:from: baseNode)`: from world-layer coordinates to scene coordinates. */
    function ToScene(p: Point): Point
      reads this`basePosition
    {
      Point(p.x + basePosition.x, p.y + basePosition.y)
    }

    /** The point one radius below the player's origin, where the scene asks what lies beneath. */
    function ProbePoint(): Point
      reads this`basePosition, player`position
    {
      ToScene(Point(player.position.x, player.position.y - PhysicsRadius))
    }

    /** The two ends of the vertical ray, one radius above and one below the player. */
    function RayStart(): Point
      reads this`basePosition, player`position
    {
      var p := ToScene(player.position);
      Point(p.x, p.y + PhysicsRadius)
    }

    function RayEnd(): Point
      reads this`basePosition, player`position
    {
      var p := ToScene(player.position);
      Point(p.x, p.y - PhysicsRadius)
    }

    /** Where `didBegin` looks for the surface: under the player, 10 points below the contact. */
    function ContactProbePoint(contactY: real): Point
      reads this`basePosition, player`position
    {
      ToScene(Point(player.position.x, contactY - 10.0))
    }

    /**
     * The scene once the level has loaded (`didMove`): grounded, facing right, standing,
     * no timer running, both layers at the origin.
     */
    constructor (width: real, height: real, levelWidth: real, spawn: Point, initialTexture: string)
      ensures Valid()
      ensures fresh(player)
      ensures Status() == Initial(initialTexture)
      ensures screenWidth == width && screenHeight == height
      ensures allWidth == levelWidth && allHeight == height
      ensures charXOffset == width * 0.5 && charYOffset == height * 0.5
      ensures player.position == spawn && player.velocity == Vector(0.0, 0.0) && player.pushes == []
      ensures delta == 0.0 && lastUpdateTime == 0.0
      ensures timeSinceIsGround == 0.0 && !groundTimerArmed
      ensures basePosition == Point(0.0, 0.0) && backPosition == Point(0.0, 0.0)
    {
      screenWidth := width;
      screenHeight := height;
      allWidth := levelWidth;
      allHeight := height;
      charXOffset := width * 0.5;
      charYOffset := height * 0.5;
      player := new PlayerNode(spawn, initialTexture);
      playerDirection := Right;
      moving := false;
      jumping := false;
      falling := false;
      isGround := true;
      delta := 0.0;
      lastUpdateTime := 0.0;
      timeSinceIsGround := 0.0;
      groundTimerArmed := false;
      basePosition := Point(0.0, 0.0);
      backPosition := Point(0.0, 0.0);
      playerPt := Point(0.0, 0.0);
    }

    // -----------------------------------------------------------------
    // Texture animation (only the resulting display state)
    // -----------------------------------------------------------------

    method StartTextureAnimation(node: PlayerNode, names: seq<string>)
      modifies node`animation
      ensures node.animation == names
    {
      node.animation := names;
    }

    method StopTextureAnimation(node: PlayerNode, name: string)
      modifies node`animation, node`texture
      ensures node.animation == [] && node.texture == name
    {
      node.animation := [];
      node.texture := name;
    }

    // -----------------------------------------------------------------
    // Player actions
    // -----------------------------------------------------------------

    method MoveToRight()
      modifies this`moving, this`playerDirection, player`animation, player`texture
      ensures Status() == MoveTo(old(Status()), Right)
      ensures old(Valid()) ==> Valid()
    {
      moving := true;
      playerDirection := Right;
      if isGround {
        StartTextureAnimation(player, WalkFrames(Right));
      } else if !falling {
        player.texture := JumpTexture(Right);
      }
    }

    method MoveToLeft()
      modifies this`moving, this`playerDirection, player`animation, player`texture
      ensures Status() == MoveTo(old(Status()), Left)
      ensures old(Valid()) ==> Valid()
    {
      moving := true;
      playerDirection := Left;
      if isGround {
        StartTextureAnimation(player, WalkFrames(Left));
      } else if !falling {
        player.texture := JumpTexture(Left);
      }
    }

    method MoveStop()
      modifies this`moving, player`animation, player`texture
      ensures Status() == Controller.MoveStop(old(Status()))
      ensures old(Valid()) ==> Valid()
    {
      moving := false;
      if isGround {
        var name: string;
        if playerDirection == Right {
          name := "m_right1";
        } else {
          name := "m_left1";
        }
        StopTextureAnimation(player, name);
      }
    }

    /** The jump button. The impulse is the same whichever way the player faces. */
    method JumpingAction()
      modifies this`moving, this`jumping, this`isGround
      modifies player`collisionBitMask, player`contactTestBitMask, player`animation, player`texture, player`pushes
      ensures Status() == Controller.JumpingAction(old(Status()))
      ensures player.pushes == old(player.pushes) + (if old(isGround) then [Impulse(Vector(0.0, JumpForce))] else [])
      ensures old(Valid()) ==> Valid()
    {
      if isGround {
        moving := false;
        jumping := true;
        isGround := false;
        // while jumping the player passes through floating floors from below
        player.collisionBitMask := Category(FrameGround);
        player.contactTestBitMask := Category(FrameFloor) | Category(FrameGround);
        if playerDirection == Left {
          StopTextureAnimation(player, "m_left_jump1");
          player.ApplyImpulse(Vector(0.0, JumpForce));
        } else {
          StopTextureAnimation(player, "m_right_jump1");
          player.ApplyImpulse(Vector(0.0, JumpForce));
        }
      }
    }

    method FallingAction()
      modifies this`jumping, this`falling, this`isGround, player`animation, player`texture
      ensures Status() == Controller.FallingAction(old(Status()))
      ensures old(Valid()) ==> Valid()
    {
      jumping := false;
      falling := true;
      isGround := false;
      if playerDirection == Left {
        StopTextureAnimation(player, "m_left_jump1");
      } else {
        StopTextureAnimation(player, "m_right_jump1");
      }
    }

    // -----------------------------------------------------------------
    // Touches (the swipe angle is computed by the caller)
    // -----------------------------------------------------------------

    /** A swipe at `angle` degrees from the touch-down point. */
    method TouchesMoved(angle: real)
      modifies this`moving, this`playerDirection, player`animation, player`texture
      ensures Status() == Swipe(old(Status()), angle)
      ensures old(Valid()) ==> Valid()
    {
      if angle > -90.0 && angle < 90.0 {
        if !moving || playerDirection != Right {
          MoveToRight();
        }
      } else {
        if !moving || playerDirection != Left {
          MoveToLeft();
        }
      }
    }

    method TouchesEnded()
      modifies this`moving, player`animation, player`texture
      ensures Status() == Controller.MoveStop(old(Status()))
      ensures old(Valid()) ==> Valid()
    {
      MoveStop();
    }

    // -----------------------------------------------------------------
    // Forced-ground timer
    // -----------------------------------------------------------------

    /**
     * Advance the timer by `delta`; once it reaches the limit, stop it and land the
     * player, re-issuing the current intent. The masks are not touched.
     */
    method IsGroundUpdate()
      modifies this`timeSinceIsGround, this`groundTimerArmed
      modifies this`jumping, this`falling, this`isGround, this`moving, this`playerDirection
      modifies player`animation, player`texture
      ensures timeSinceIsGround == old(timeSinceIsGround) + delta
      ensures var expired := timeSinceIsGround >= GroundTimerLimit;
        groundTimerArmed == (old(groundTimerArmed) && !expired) &&
        Status() == (if expired then ForcedLanding(old(Status())) else old(Status()))
      ensures old(Valid()) ==> Valid()
      ensures old(Valid()) && old(groundTimerArmed) && !groundTimerArmed ==>
        GroundTimerLimit <= timeSinceIsGround < GroundTimerLimit + delta
    {
      timeSinceIsGround := timeSinceIsGround + delta;
      if timeSinceIsGround >= GroundTimerLimit {
        groundTimerArmed := false;
        jumping := false;
        falling := false;
        isGround := true;
        if moving {
          if playerDirection == Right {
            MoveToRight();
          } else {
            MoveToLeft();
          }
        } else {
          MoveStop();
        }
      }
    }

    /** Once per frame, before physics: the frame's delta time (0 on the first frame), then the timer. */
    method Update(currentTime: real)
      modifies this`delta, this`lastUpdateTime
      modifies this`timeSinceIsGround, this`groundTimerArmed
      modifies this`jumping, this`falling, this`isGround, this`moving, this`playerDirection
      modifies player`animation, player`texture
      ensures delta == (if old(lastUpdateTime) == 0.0 then 0.0 else currentTime - old(lastUpdateTime))
      ensures lastUpdateTime == currentTime
      ensures !old(groundTimerArmed) ==>
        timeSinceIsGround == old(timeSinceIsGround) && !groundTimerArmed && Status() == old(Status())
      ensures old(groundTimerArmed) ==>
        var expired := old(timeSinceIsGround) + delta >= GroundTimerLimit;
        timeSinceIsGround == old(timeSinceIsGround) + delta &&
        groundTimerArmed == !expired &&
        Status() == (if expired then ForcedLanding(old(Status())) else old(Status()))
      ensures old(Valid()) ==> Valid()
      ensures old(Valid()) && old(groundTimerArmed) && !groundTimerArmed ==>
        GroundTimerLimit <= timeSinceIsGround < GroundTimerLimit + delta
    {
      if lastUpdateTime == 0.0 {
        delta := 0.0;
      } else {
        delta := currentTime - lastUpdateTime;
      }
      lastUpdateTime := currentTime;
      if groundTimerArmed {
        IsGroundUpdate();
      }
    }

    // -----------------------------------------------------------------
    // The post-physics pass, step by step
    // -----------------------------------------------------------------

    /**
     * Start the forced-ground timer, from 0, when it is not running, the player is
     * airborne, barely moves vertically and the probe beneath finds ground or floor.
     */
    method ArmGroundTimer(probe: Option<string>)
      requires Valid()
      modifies this`groundTimerArmed, this`timeSinceIsGround
      ensures groundTimerArmed == (old(groundTimerArmed) ||
        ((jumping || falling) && Abs(player.velocity.dy) < FallThreshold && IsSurface(probe)))
      ensures timeSinceIsGround == (if !old(groundTimerArmed) && groundTimerArmed then 0.0 else old(timeSinceIsGround))
      ensures Valid()
    {
      if !groundTimerArmed && (jumping || falling) && Abs(player.velocity.dy) < FallThreshold
        && (probe == Some(RawValue(Ground)) || probe == Some(RawValue(Floor)))
      {
        groundTimerArmed := true;
        timeSinceIsGround := 0.0;
      }
    }

    /** Walking on ground or floor, vertical motion is cancelled so the player does not bounce off seams. */
    method HoldOnGround(probe: Option<string>)
      modifies player`velocity
      ensures player.velocity ==
        if isGround && moving && IsSurface(probe) then old(player.velocity).(dy := 0.0) else old(player.velocity)
    {
      if isGround && moving && (probe == Some(RawValue(Ground)) || probe == Some(RawValue(Floor))) {
        player.velocity := player.velocity.(dy := 0.0);
      }
    }

    /** Fall once the player sinks faster than the threshold, unless it is already falling. */
    method CheckFalling()
      requires Valid()
      modifies this`jumping, this`falling, this`isGround, player`animation, player`texture
      ensures Status() == FallCheck(old(Status()), player.velocity.dy)
      ensures Valid()
    {
      if player.velocity.dy < -FallThreshold && !falling {
        FallingAction();
      }
    }

    /**
     * The ray rule over the bodies met by the vertical ray, in the order the engine
     * reports them: a falling player just above the top of a floor or ground body
     * collides with, and is notified of, both layers.
     */
    method ScanRay(hits: seq<RayHit>)
      requires Valid()
      modifies player`collisionBitMask, player`contactTestBitMask
      ensures Status() == RayCheck(old(Status()), OnTopAmong(hits, |hits|, player.position.y))
      ensures Valid()
    {
      var i := 0;
      while i < |hits|
        invariant 0 <= i <= |hits|
        invariant Status() == RayCheck(old(Status()), OnTopAmong(hits, i, player.position.y))
      {
        var hit := hits[i];
        if hit.name == Some(RawValue(Floor)) {
          var floorTop := hit.nodeY + FloorTopOffset;
          if falling && player.position.y > floorTop && player.position.y < floorTop + PhysicsRadius {
            player.collisionBitMask := Category(FrameGround) | Category(FrameFloor);
            player.contactTestBitMask := Category(FrameGround) | Category(FrameFloor);
          }
        }
        if hit.name == Some(RawValue(Ground)) {
          var groundTop := hit.nodeY + GroundTopOffset;
          if falling && player.position.y > groundTop && player.position.y < groundTop + PhysicsRadius {
            player.collisionBitMask := Category(FrameGround) | Category(FrameFloor);
            player.contactTestBitMask := Category(FrameGround) | Category(FrameFloor);
          }
        }
        assert OnTopAmong(hits, i + 1, player.position.y) <==>
          OnTopAmong(hits, i, player.position.y) || OnTop(hits[i], player.position.y);
        i := i + 1;
      }
    }

    /**
     * One horizontal cap for every phase; a sink faster than 2.5 times the cap is
     * reset to the cap itself.
     */
    method ClampVelocity()
      modifies player`velocity
      ensures -PlayerMaxVelocity <= player.velocity.dx <= PlayerMaxVelocity
      ensures player.velocity.dy >= -(PlayerMaxVelocity * 2.5)
      ensures -PlayerMaxVelocity <= old(player.velocity.dx) <= PlayerMaxVelocity ==>
        player.velocity.dx == old(player.velocity.dx)
      ensures old(player.velocity.dx) > PlayerMaxVelocity ==> player.velocity.dx == PlayerMaxVelocity
      ensures old(player.velocity.dx) < -PlayerMaxVelocity ==> player.velocity.dx == -PlayerMaxVelocity
      ensures player.velocity.dy ==
        if old(player.velocity.dy) < -(PlayerMaxVelocity * 2.5) then -(PlayerMaxVelocity * 1.0) else old(player.velocity.dy)
    {
      if player.velocity.dx > PlayerMaxVelocity {
        player.velocity := player.velocity.(dx := PlayerMaxVelocity);
      } else if player.velocity.dx < -PlayerMaxVelocity {
        player.velocity := player.velocity.(dx := -PlayerMaxVelocity);
      }
      if player.velocity.dy < -(PlayerMaxVelocity * 2.5) {
        player.velocity := player.velocity.(dy := -(PlayerMaxVelocity * 1.0));
      }
    }

    /** A grounded player with no move intent glides to a stop: 0.85 of its horizontal speed per frame. */
    method Damp()
      modifies player`velocity
      ensures player.velocity.dy == old(player.velocity.dy)
      ensures player.velocity.dx ==
        if isGround && !moving && old(player.velocity.dx) != 0.0 then old(player.velocity.dx) * Damping
        else old(player.velocity.dx)
      ensures Abs(player.velocity.dx) <= Abs(old(player.velocity.dx))
      ensures old(player.velocity.dx) > 0.0 ==> player.velocity.dx > 0.0
      ensures old(player.velocity.dx) < 0.0 ==> player.velocity.dx < 0.0
    {
      if isGround && !moving {
        if player.velocity.dx != 0.0 {
          player.velocity := player.velocity.(dx := player.velocity.dx * Damping);
        }
      }
    }

    /** While moving, push the player towards its facing; walk faster from 200 points/s on. */
    method Propel()
      modifies player`pushes, player`speed
      ensures player.pushes == old(player.pushes) +
        if moving then [Force(Vector(if playerDirection == Right then PlayerAcceleration else -PlayerAcceleration, 0.0))]
        else []
      ensures player.speed ==
        if !moving then old(player.speed)
        else if Abs(player.velocity.dx) >= FastWalkSpeed then 3.0 else 1.0
    {
      if moving {
        var dx := 0.0;
        var dy := 0.0;
        if playerDirection == Right {
          dx := PlayerAcceleration;
          dy := 0.0;
        } else if playerDirection == Left {
          dx := -PlayerAcceleration;
          dy := 0.0;
        }
        player.ApplyForce(Vector(dx, dy));
        if Abs(player.velocity.dx) >= FastWalkSpeed {
          player.speed := 3.0;
        } else {
          player.speed := 1.0;
        }
      }
    }

    /**
     * Keep the player at the screen's centre, but never show anything outside the
     * level; the background follows at half the horizontal offset.
     */
    method ScrollCamera()
      requires allHeight == screenHeight
      modifies this`basePosition, this`backPosition, this`playerPt
      ensures playerPt == old(ToScene(player.position))
      ensures basePosition.x <= 0.0
      ensures screenWidth <= allWidth ==> -(allWidth - screenWidth) <= basePosition.x
      ensures allWidth <= screenWidth ==> basePosition.x == 0.0
      // the centring offset, kept when inside the level and saturated at either end
      ensures -(allWidth - screenWidth) <= charXOffset - player.position.x <= 0.0 ==>
        basePosition.x == charXOffset - player.position.x
      ensures charXOffset - player.position.x > 0.0 ==> basePosition.x == 0.0
      ensures charXOffset - player.position.x <= -(allWidth - screenWidth) ==>
        basePosition.x == if screenWidth <= allWidth then -(allWidth - screenWidth) else 0.0
      ensures basePosition.y == 0.0
      ensures backPosition == Point(basePosition.x / 2.0, basePosition.y)
    {
      playerPt := ToScene(player.position);
      var x := basePosition.x - playerPt.x + charXOffset;
      var y := basePosition.y - playerPt.y + charYOffset;
      x := Camera.ClampOffset(x, allWidth, screenWidth);
      y := Camera.ClampOffset(y, allHeight, screenHeight);
      basePosition := Point(x, y);
      backPosition := Point(x / 2.0, y);
    }

    /**
     * The first half of the post-physics pass, on the probe's answer beneath the
     * player and the bodies met by the vertical ray: the forced-ground timer, the
     * vertical hold while walking, the fall trigger, the ray rule.
     */
    method SettlePhase(probe: Option<string>, hits: seq<RayHit>)
      requires Valid()
      modifies this`groundTimerArmed, this`timeSinceIsGround, this`jumping, this`falling, this`isGround
      modifies player`velocity, player`collisionBitMask, player`contactTestBitMask, player`animation, player`texture
      ensures Valid()
      ensures groundTimerArmed == (old(groundTimerArmed) ||
        ((old(jumping) || old(falling)) && Abs(old(player.velocity.dy)) < FallThreshold && IsSurface(probe)))
      ensures timeSinceIsGround ==
        if !old(groundTimerArmed) && groundTimerArmed then 0.0 else old(timeSinceIsGround)
      ensures player.velocity ==
        if old(isGround) && old(moving) && IsSurface(probe) then old(player.velocity).(dy := 0.0) else old(player.velocity)
      ensures Status() == RayCheck(FallCheck(old(Status()), player.velocity.dy), OnTopAmong(hits, |hits|, player.position.y))
    {
      ArmGroundTimer(probe);
      HoldOnGround(probe);
      CheckFalling();
      ScanRay(hits);
    }

    /**
     * The second half of the post-physics pass: the velocity caps, the grounded
     * damping, the locomotion force and the camera.
     */
    method SettleMotion()
      requires Valid()
      modifies this`basePosition, this`backPosition, this`playerPt
      modifies player`velocity, player`speed, player`pushes
      ensures Valid() && Status() == old(Status())
      ensures -PlayerMaxVelocity <= player.velocity.dx <= PlayerMaxVelocity
      ensures player.velocity.dy >= -(PlayerMaxVelocity * 2.5)
      ensures player.velocity.dy ==
        if old(player.velocity.dy) < -(PlayerMaxVelocity * 2.5) then -(PlayerMaxVelocity * 1.0) else old(player.velocity.dy)
      ensures var capped :=
          if old(player.velocity.dx) > PlayerMaxVelocity then PlayerMaxVelocity
          else if old(player.velocity.dx) < -PlayerMaxVelocity then -PlayerMaxVelocity
          else old(player.velocity.dx);
        player.velocity.dx == if isGround && !moving && capped != 0.0 then capped * Damping else capped
      ensures player.speed ==
        if !moving then old(player.speed)
        else if Abs(player.velocity.dx) >= FastWalkSpeed then 3.0 else 1.0
      ensures player.pushes == old(player.pushes) +
        if moving then [Force(Vector(if playerDirection == Right then PlayerAcceleration else -PlayerAcceleration, 0.0))]
        else []
      ensures playerPt == old(ToScene(player.position))
      ensures basePosition.x <= 0.0
      ensures screenWidth <= allWidth ==> -(allWidth - screenWidth) <= basePosition.x
      ensures allWidth <= screenWidth ==> basePosition.x == 0.0
      // the centring offset, kept when inside the level and saturated at either end
      ensures -(allWidth - screenWidth) <= charXOffset - player.position.x <= 0.0 ==>
        basePosition.x == charXOffset - player.position.x
      ensures charXOffset - player.position.x > 0.0 ==> basePosition.x == 0.0
      ensures charXOffset - player.position.x <= -(allWidth - screenWidth) ==>
        basePosition.x == if screenWidth <= allWidth then -(allWidth - screenWidth) else 0.0
      ensures basePosition.y == 0.0
      ensures backPosition == Point(basePosition.x / 2.0, basePosition.y)
    {
      ClampVelocity();
      Damp();
      Propel();
      ScrollCamera();
    }

    /** Everything the scene does after the physics engine has stepped, in the scene's order. */
    method DidSimulatePhysics(world: World)
      requires Valid()
      modifies this`groundTimerArmed, this`timeSinceIsGround, this`jumping, this`falling, this`isGround
      modifies this`basePosition, this`backPosition, this`playerPt
      modifies player`velocity, player`collisionBitMask, player`contactTestBitMask
      modifies player`animation, player`texture, player`speed, player`pushes
      ensures Valid()
      // the forced-ground timer
      ensures var probe := world.nameAt(old(ProbePoint()));
        groundTimerArmed == (old(groundTimerArmed) ||
          ((old(jumping) || old(falling)) && Abs(old(player.velocity.dy)) < FallThreshold && IsSurface(probe)))
      ensures timeSinceIsGround ==
        if !old(groundTimerArmed) && groundTimerArmed then 0.0 else old(timeSinceIsGround)
      // the fall trigger, then the ray rule
      ensures var probe := world.nameAt(old(ProbePoint()));
        var held := if old(isGround) && old(moving) && IsSurface(probe) then 0.0 else old(player.velocity.dy);
        var hits := world.bodiesAlong(old(RayStart()), old(RayEnd()));
        Status() == RayCheck(FallCheck(old(Status()), held), OnTopAmong(hits, |hits|, player.position.y))
      ensures falling && !old(falling) ==> old(player.velocity.dy) < -FallThreshold
      // velocity bounds
      ensures -PlayerMaxVelocity <= player.velocity.dx <= PlayerMaxVelocity
      ensures player.velocity.dy >= -(PlayerMaxVelocity * 2.5)
      // locomotion force
      ensures player.pushes == old(player.pushes) +
        if moving then [Force(Vector(if playerDirection == Right then PlayerAcceleration else -PlayerAcceleration, 0.0))]
        else []
      // camera
      ensures playerPt == old(ToScene(player.position))
      ensures basePosition.x <= 0.0
      ensures screenWidth <= allWidth ==> -(allWidth - screenWidth) <= basePosition.x
      ensures allWidth <= screenWidth ==> basePosition.x == 0.0
      // the centring offset, kept when inside the level and saturated at either end
      ensures -(allWidth - screenWidth) <= charXOffset - player.position.x <= 0.0 ==>
        basePosition.x == charXOffset - player.position.x
      ensures charXOffset - player.position.x > 0.0 ==> basePosition.x == 0.0
      ensures charXOffset - player.position.x <= -(allWidth - screenWidth) ==>
        basePosition.x == if screenWidth <= allWidth then -(allWidth - screenWidth) else 0.0
      ensures basePosition.y == 0.0
      ensures backPosition == Point(basePosition.x / 2.0, basePosition.y)
    {
      var probe := world.nameAt(ProbePoint());
      // the ray is cast from the player's position, which the timer arming, the vertical hold and the fall trigger do not move
      var hits := world.bodiesAlong(RayStart(), RayEnd());
      SettlePhase(probe, hits);
      SettleMotion();
    }

    // -----------------------------------------------------------------
    // Contact callback
    // -----------------------------------------------------------------

    /**
     * The landing `didBegin` performs once it has found ground or floor beneath the
     * contact: notifications off, grounded, the current intent re-issued.
     */
    method LandOnContact()
      modifies this`jumping, this`falling, this`isGround, this`moving, this`playerDirection
      modifies player`contactTestBitMask, player`animation, player`texture
      ensures Status() == ForcedLanding(old(Status()).(contactMask := 0))
      ensures old(Valid()) ==> Valid()
    {
      player.contactTestBitMask := 0;
      jumping := false;
      falling := false;
      isGround := true;
      assert Status() == old(Status()).(contactMask := 0, jumping := false, falling := false, isGround := true);
      if moving {
        if playerDirection == Right {
          MoveToRight();
        } else {
          MoveToLeft();
        }
      } else {
        MoveStop();
      }
    }

    /**
     * A contact began at height `contactY`: the player lands when the node found
     * under it, 10 points below the contact, is ground or floor.
     */
    method DidBegin(world: World, contactY: real)
      modifies this`jumping, this`falling, this`isGround, this`moving, this`playerDirection
      modifies player`contactTestBitMask, player`animation, player`texture
      ensures Status() == ContactLanding(old(Status()), world.nameAt(ContactProbePoint(contactY)))
      ensures old(Valid()) ==> Valid()
    {
      var probePoint := ToScene(Point(player.position.x, contactY - 10.0));
      if world.nameAt(probePoint) == Some(RawValue(Ground)) {
        LandOnContact();
      }
      if world.nameAt(probePoint) == Some(RawValue(Floor)) {
        LandOnContact();
      }
    }
  }
}
