/**
 * The player's discrete movement state in `GameScene`: the three vertical flags
 * (`isGround`, `jumping`, `falling`), the orthogonal `moving` flag and facing,
 * the two collision masks of the player's physics body, and what the sprite shows.
 * Every function here is the specification of one scene method that changes this
 * state in place; the scene's methods are proved to follow them.
 */
module Controller {
  import opened Optional
  import opened NodeNames

  /** `Direction`: which way the player faces and walks. */
  datatype Direction = Right | Left

  /** The three vertical phases the flags encode when exactly one of them holds. */
  datatype Phase = Grounded | Jumping | Falling

  /** Collision mask that lets only the ground frame block the player. */
  function GroundOnly(): bv32 { Category(FrameGround) }

  /** Mask naming both the ground frame and the floating-floor frame. */
  function GroundAndFloor(): bv32 { Category(FrameFloor) | Category(FrameGround) }

  /** The three-frame walk animation started on a grounded move. */
  function WalkFrames(d: Direction): seq<string> {
    match d
    case Right => ["m_right2", "m_right3", "m_right4"]
    case Left => ["m_left2", "m_left3", "m_left4"]
  }

  /** The standing still texture shown after a grounded stop. */
  function StillTexture(d: Direction): string {
    if d == Right then "m_right1" else "m_left1"
  }

  /** The still shown while jumping, and (with the facing at the moment of the fall) while falling. */
  function JumpTexture(d: Direction): string {
    if d == Left then "m_left_jump1" else "m_right_jump1"
  }

  /**
   * The flag state of the scene together with the player's masks and look.
   * `animation` is the frame list of the running texture animation ([] when none runs);
   * `texture` is the texture last set directly on the sprite.
   */
  datatype Status = Status(
    moving: bool,
    direction: Direction,
    jumping: bool,
    falling: bool,
    isGround: bool,
    collisionMask: bv32,
    contactMask: bv32,
    animation: seq<string>,
    texture: string)
  {
    /** Exactly one of `isGround`, `jumping`, `falling` holds. */
    predicate OnePhase() {
      (isGround && !jumping && !falling) ||
      (!isGround && jumping && !falling) ||
      (!isGround && !jumping && falling)
    }

    function Phase(): Phase
      requires OnePhase()
    {
      if isGround then Grounded else if jumping then Jumping else Falling
    }

    /**
     * The player always collides with the ground frame, and floating floors only
     * after the ray rule widened the mask; contact notifications are off or cover both layers.
     */
    predicate MasksWellFormed() {
      (collisionMask == GroundOnly() || collisionMask == GroundAndFloor()) &&
      (contactMask == 0 || contactMask == GroundAndFloor())
    }

    /**
     * The walk animation runs exactly while grounded and moving; a jumping player
     * shows the jump still of its facing, a falling one some jump still.
     */
    predicate LookConsistent() {
      animation == (if isGround && moving then WalkFrames(direction) else []) &&
      (jumping ==> texture == JumpTexture(direction)) &&
      (falling ==> texture == JumpTexture(Right) || texture == JumpTexture(Left))
    }

    predicate Valid() {
      OnePhase() && MasksWellFormed() && LookConsistent()
    }
  }

  /** The state right after the level has loaded: grounded, facing right, standing, no notifications. */
  function Initial(texture: string): (s: Status)
    ensures s.Valid() && s.Phase() == Grounded && !s.moving && s.contactMask == 0
    ensures s.direction == Right && s.collisionMask == GroundOnly()
  {
    Status(false, Right, false, false, true, GroundOnly(), 0, [], texture)
  }

  /**
   * `moveToRight` / `moveToLeft`: always moving and facing `d`; the walk animation
   * starts only when grounded, a jumping player gets the jump still of `d`, and a
   * falling player keeps its texture. Phase and masks are untouched.
   */
  function MoveTo(s: Status, d: Direction): (r: Status)
    ensures r.moving && r.direction == d
    ensures r.isGround == s.isGround && r.jumping == s.jumping && r.falling == s.falling
    ensures r.collisionMask == s.collisionMask && r.contactMask == s.contactMask
    ensures s.isGround ==> r.animation == WalkFrames(d) && r.texture == s.texture
    ensures !s.isGround ==> r.animation == s.animation
    ensures s.falling ==> r.texture == s.texture
    ensures s.Valid() ==> r.Valid()
  {
    var t := s.(moving := true, direction := d);
    if s.isGround then t.(animation := WalkFrames(d))
    else if !s.falling then t.(texture := JumpTexture(d))
    else t
  }

  /**
   * `moveStop`: never moving afterwards; the sprite changes, to the still of the
   * current facing, only when grounded. Facing, phase and masks are untouched.
   */
  function MoveStop(s: Status): (r: Status)
    ensures !r.moving && r.direction == s.direction
    ensures r.isGround == s.isGround && r.jumping == s.jumping && r.falling == s.falling
    ensures r.collisionMask == s.collisionMask && r.contactMask == s.contactMask
    ensures s.isGround ==> r.animation == [] && r.texture == StillTexture(s.direction)
    ensures !s.isGround ==> r.animation == s.animation && r.texture == s.texture
    ensures s.Valid() ==> r.Valid()
  {
    var t := s.(moving := false);
    if s.isGround then t.(animation := [], texture := StillTexture(s.direction)) else t
  }

  /**
   * `jumpingAction`: a no-op unless grounded. From the ground the player is jumping,
   * not moving, collides with the ground frame only (so it passes up through floating
   * floors) and is notified of contacts with both layers.
   */
  function JumpingAction(s: Status): (r: Status)
    ensures !s.isGround ==> r == s
    ensures s.isGround && s.OnePhase() ==> r.OnePhase() && r.Phase() == Jumping
    ensures s.isGround ==> !r.moving && r.direction == s.direction
    ensures s.isGround ==> r.collisionMask == Category(FrameGround)
    ensures s.isGround ==> r.contactMask == Category(FrameGround) | Category(FrameFloor)
    ensures s.isGround ==> r.animation == [] && r.texture == JumpTexture(s.direction)
    ensures s.Valid() ==> r.Valid()
  {
    if !s.isGround then s
    else
      s.(moving := false, jumping := true, isGround := false,
         collisionMask := GroundOnly(), contactMask := GroundAndFloor(),
         animation := [], texture := JumpTexture(s.direction))
  }

  /**
   * `fallingAction`: unconditionally falling, with the animation stopped on the jump
   * still of the current facing; `moving`, facing and masks are untouched.
   */
  function FallingAction(s: Status): (r: Status)
    ensures r.OnePhase() && r.Phase() == Falling
    ensures r.moving == s.moving && r.direction == s.direction
    ensures r.collisionMask == s.collisionMask && r.contactMask == s.contactMask
    ensures r.animation == [] && r.texture == JumpTexture(s.direction)
    ensures s.MasksWellFormed() ==> r.Valid()
  {
    s.(jumping := false, falling := true, isGround := false,
       animation := [], texture := JumpTexture(s.direction))
  }

  /** Re-issue the current intent: move on in the current facing, or stop. */
  function Resume(s: Status): (r: Status)
    ensures r.moving == s.moving && r.direction == s.direction
    ensures r.isGround == s.isGround && r.jumping == s.jumping && r.falling == s.falling
    ensures r.collisionMask == s.collisionMask && r.contactMask == s.contactMask
    ensures s.Valid() ==> r.Valid()
  {
    if s.moving then MoveTo(s, s.direction) else MoveStop(s)
  }

  /**
   * Landing as the forced-ground timer does it: grounded, then the current intent
   * re-issued. The masks are left as they were.
   */
  function ForcedLanding(s: Status): (r: Status)
    ensures r.OnePhase() && r.Phase() == Grounded
    ensures r.moving == s.moving && r.direction == s.direction
    ensures r.collisionMask == s.collisionMask && r.contactMask == s.contactMask
    ensures r.animation == (if s.moving then WalkFrames(s.direction) else [])
    ensures !s.moving ==> r.texture == StillTexture(s.direction)
    ensures s.MasksWellFormed() ==> r.Valid()
  {
    Resume(s.(jumping := false, falling := false, isGround := true))
  }

  /**
   * `didBegin`: when the name found 10 points below the contact is "ground" or
   * "floor", contact notifications are switched off and the player lands; otherwise
   * nothing changes.
   */
  function ContactLanding(s: Status, probe: Option<string>): (r: Status)
    ensures !IsSurface(probe) ==> r == s
    ensures IsSurface(probe) ==> r.OnePhase() && r.Phase() == Grounded && r.contactMask == 0
    ensures r.moving == s.moving && r.direction == s.direction
    ensures r.collisionMask == s.collisionMask
    ensures s.Valid() ==> r.Valid()
  {
    if IsSurface(probe) then ForcedLanding(s.(contactMask := 0)) else s
  }

  /** The ray rule's mask change: collide with and be notified of both layers. */
  function WidenMasks(s: Status): (r: Status)
    ensures r.collisionMask == Category(FrameGround) | Category(FrameFloor)
    ensures r.contactMask == Category(FrameGround) | Category(FrameFloor)
    ensures r.(collisionMask := s.collisionMask, contactMask := s.contactMask) == s
    ensures s.Valid() ==> r.Valid()
  {
    s.(collisionMask := GroundAndFloor(), contactMask := GroundAndFloor())
  }

  /** Downward speed beyond which the post-physics pass declares a fall. */
  const FallThreshold: real := 9.8

  /** The fall trigger of the post-physics pass, for the vertical velocity `dy` it sees. */
  function FallCheck(s: Status, dy: real): (r: Status)
    ensures dy < -FallThreshold && !s.falling ==> r == FallingAction(s)
    ensures dy >= -FallThreshold || s.falling ==> r == s
    ensures r.falling <==> s.falling || dy < -FallThreshold
  {
    if dy < -FallThreshold && !s.falling then FallingAction(s) else s
  }

  /** The ray rule of the post-physics pass: widen only while falling and above a surface top. */
  function RayCheck(s: Status, onTop: bool): (r: Status)
    ensures s.falling && onTop ==> r == WidenMasks(s)
    ensures s.falling && onTop ==> r.collisionMask == GroundAndFloor() && r.contactMask == GroundAndFloor()
    ensures !(s.falling && onTop) ==> r == s
  {
    if s.falling && onTop then WidenMasks(s) else s
  }

  /** `touchesMoved`: a swipe strictly between -90 and 90 degrees points right, any other angle left. */
  function SwipeDirection(angle: real): (d: Direction)
    ensures d == Right <==> -90.0 < angle < 90.0
  {
    if angle > -90.0 && angle < 90.0 then Right else Left
  }

  /** A swipe re-issues a move only when not already moving in the swiped direction. */
  function Swipe(s: Status, angle: real): (r: Status)
    ensures s.moving && s.direction == SwipeDirection(angle) ==> r == s
    ensures !(s.moving && s.direction == SwipeDirection(angle)) ==> r == MoveTo(s, SwipeDirection(angle))
    ensures r.moving && r.direction == SwipeDirection(angle)
  {
    var d := SwipeDirection(angle);
    if !s.moving || s.direction != d then MoveTo(s, d) else s
  }

  // ---------------------------------------------------------------------
  // Properties relating several transitions
  // ---------------------------------------------------------------------

  /** A second jump request while airborne is ignored: jumping is not double-triggerable. */
  lemma JumpNotRepeatable(s: Status)
    ensures JumpingAction(JumpingAction(s)) == JumpingAction(s)
  {
  }

  /** Landing on a contact twice gives the same state as landing once. */
  lemma ContactLandingIdempotent(s: Status, probe: Option<string>)
    ensures ContactLanding(ContactLanding(s, probe), probe) == ContactLanding(s, probe)
  {
  }

  /**
   * The two landing paths agree on everything but the contact mask: contact landing
   * switches notifications off, the timer path keeps the mask it found.
   */
  lemma LandingPathsAgree(s: Status, probe: Option<string>)
    requires IsSurface(probe)
    ensures ContactLanding(s, probe) == ForcedLanding(s).(contactMask := 0)
    ensures ForcedLanding(s).contactMask == s.contactMask
  {
  }

  /** A repeated swipe in the same direction changes nothing. */
  lemma SwipeIdempotent(s: Status, angle: real)
    ensures Swipe(Swipe(s, angle), angle) == Swipe(s, angle)
  {
  }

  /**
   * A jump followed by a timer landing leaves the player grounded with contact
   * notifications still on: the watchdog path does not restore the resting masks.
   */
  lemma TimerLandingKeepsNotifications(t: string)
    ensures var r := ForcedLanding(JumpingAction(Initial(t)));
      r.isGround && r.contactMask == GroundAndFloor() && r.contactMask != 0
  {
  }

  /**
   * A contact landing leaves a running forced-ground timer armed. If the player
   * jumps again before it expires, the timer lands the player in mid-air, and
   * from there a second jump is accepted.
   */
  lemma StaleTimerAllowsSecondJump(s: Status)
    requires s.Valid()
    ensures var airborne := JumpingAction(ContactLanding(s, Some("ground")));
      var stale := ForcedLanding(airborne);
      airborne.jumping && stale.isGround && !stale.jumping &&
      JumpingAction(stale).jumping && JumpingAction(stale) != stale
  {
  }

  // ---------------------------------------------------------------------
  // Sequences of callbacks
  // ---------------------------------------------------------------------

  /** One callback the scene receives, reduced to what it does to `Status`. */
  datatype Event =
    | MoveRight                         // `moveToRight`
    | MoveLeft                          // `moveToLeft`
    | Stop                              // `moveStop` (touch ended)
    | JumpPressed                       // jump button: `jumpingAction`
    | FallSeen(dy: real)                // fall trigger of the post-physics pass
    | ContactBegin(probe: Option<string>) // `didBegin`, with the name found below the contact
    | TimerExpired                      // forced-ground timer reaching its limit
    | RayOnTop                          // ray rule found the player just above a surface top
    | SwipeAt(angle: real)              // `touchesMoved`
  {
    predicate IsLocomotion() { MoveRight? || MoveLeft? || Stop? }
  }

  function Step(s: Status, e: Event): Status {
    match e
    case MoveRight => MoveTo(s, Right)
    case MoveLeft => MoveTo(s, Left)
    case Stop => MoveStop(s)
    case JumpPressed => JumpingAction(s)
    case FallSeen(dy) => FallCheck(s, dy)
    case ContactBegin(probe) => ContactLanding(s, probe)
    case TimerExpired => ForcedLanding(s)
    case RayOnTop => RayCheck(s, true)
    case SwipeAt(angle) => Swipe(s, angle)
  }

  function Run(s: Status, events: seq<Event>): Status
    decreases |events|
  {
    if events == [] then s else Run(Step(s, events[0]), events[1..])
  }

  /**
   * The fall trigger does not touch the masks, so a player who walks off an edge
   * falls with the contact mask it had on the ground, while a jump's descent keeps
   * the notifications the jump switched on.
   */
  lemma EdgeFallKeepsContactMask(t: string, dy: real)
    requires dy < -FallThreshold
    ensures var edge := Run(Initial(t), [MoveRight, FallSeen(dy)]);
      edge.falling && edge.contactMask == 0
    ensures var descent := Run(Initial(t), [JumpPressed, FallSeen(dy)]);
      descent.falling && descent.contactMask == GroundAndFloor()
  {
    RunTwo(Initial(t), MoveRight, FallSeen(dy));
    RunTwo(Initial(t), JumpPressed, FallSeen(dy));
  }

  /** Running two callbacks is stepping through them in order. */
  lemma RunTwo(s: Status, e1: Event, e2: Event)
    ensures Run(s, [e1, e2]) == Step(Step(s, e1), e2)
  {
    assert [e1, e2][1..] == [e2];
    assert Run(s, [e1, e2]) == Run(Step(s, e1), [e2]);
    assert [e2][1..] == [];
    assert Run(Step(s, e1), [e2]) == Run(Step(Step(s, e1), e2), []);
  }

  lemma StepKeepsValid(s: Status, e: Event)
    requires s.Valid()
    ensures Step(s, e).Valid()
  {
  }

  /** Exactly one of grounded/jumping/falling holds, and the masks and look stay consistent, after any sequence of callbacks. */
  lemma {:induction false} RunKeepsValid(s: Status, events: seq<Event>)
    requires s.Valid()
    ensures Run(s, events).Valid()
    decreases |events|
  {
    if events != [] {
      StepKeepsValid(s, events[0]);
      RunKeepsValid(Step(s, events[0]), events[1..]);
    }
  }

  /**
   * Without the timer path, a grounded player never has contact notifications on:
   * every landing that the contact callback performs switches them off.
   */
  lemma {:induction false} GroundedQuietWithoutTimer(s: Status, events: seq<Event>)
    requires s.Valid() && (s.isGround ==> s.contactMask == 0)
    requires forall i :: 0 <= i < |events| ==> !events[i].TimerExpired?
    ensures var r := Run(s, events); r.isGround ==> r.contactMask == 0
    decreases |events|
  {
    if events != [] {
      var t := Step(s, events[0]);
      StepKeepsValid(s, events[0]);
      assert t.isGround ==> t.contactMask == 0;
      GroundedQuietWithoutTimer(t, events[1..]);
    }
  }

  /**
   * While grounded, after any non-empty series of move/stop intents the player faces
   * and shows what the last intent asked for: a walk in its direction, or the still
   * of the current facing after a stop.
   */
  lemma {:induction false} LastIntentWins(s: Status, events: seq<Event>)
    requires s.isGround && |events| > 0
    requires forall i :: 0 <= i < |events| ==> events[i].IsLocomotion()
    ensures var r := Run(s, events); var last := events[|events| - 1];
      r.isGround &&
      (last.MoveRight? ==> r.moving && r.direction == Right && r.animation == WalkFrames(Right)) &&
      (last.MoveLeft? ==> r.moving && r.direction == Left && r.animation == WalkFrames(Left)) &&
      (last.Stop? ==> !r.moving && r.animation == [] && r.texture == StillTexture(r.direction))
    decreases |events|
  {
    var t := Step(s, events[0]);
    if |events| > 1 {
      LastIntentWins(t, events[1..]);
      assert events[1..][|events[1..]| - 1] == events[|events| - 1];
    }
  }
}
