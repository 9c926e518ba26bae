# GameScene movement controller

This project models the player movement controller of the `GameScene` SpriteKit scene
in GameApp_proto (`GameApp_proto/GameScene.swift`). The scene decides on every frame
whether the player stands, jumps or falls. It switches the collision and contact
masks of the player's physics body to match. It steps in when the engine misses a
landing, keeps velocities within caps, and scrolls the camera without leaving the level.

Modules:

- `NodeNames` (node_names.dfy): the `NodeName` enum, its raw string values and the
  collision category bit of each layer.
- `Controller` (controller.dfy): the scene's flags (`isGround`, `jumping`, `falling`,
  `moving`, facing) with the player's two masks and what the sprite shows, as one value
  `Status`. It holds one function per transition, and lemmas over single transitions
  and over any sequence of callbacks (`Run`).
- `Camera` (camera.dfy): the clamp that keeps the camera offset inside the level.
- `Scene` (scene.dfy): the classes `PlayerNode` (sprite plus physics body) and
  `GameScene`. Their methods update fields in place, step by step as the Swift code
  does. Each method that changes the flags is proved to move `Status()` exactly as the
  matching `Controller` function says.
- `Optional` (optional.dfy): an `Option` type standing for Swift optionals.

Physics-engine queries are inputs. `World.nameAt` answers `atPoint(...).name` for a
point in scene coordinates. `World.bodiesAlong` answers `enumerateBodies(alongRayStart:end:)`
as a list of (node name, node y). `convert(_:from: baseNode)` adds the world layer's
position. Impulses and forces handed to the engine are appended to `PlayerNode.pushes`.

## Model

| member | source | states |
|---|---|---|
| NodeNames.Category | GameApp_proto/GameScene.swift:28-41 | a layer gets a nonzero category exactly when it is frame_ground, frame_floor, player or isGround, and every category has at most one bit set |
| NodeNames.CategoryValues | GameApp_proto/GameScene.swift:28-41 | the four categories are 1, 2, 4 and 8; backGround, ground and floor get 0 |
| NodeNames.CategoriesDisjoint | GameApp_proto/GameScene.swift:28-41 | two different layers never share a category bit |
| NodeNames.RawValueInjective | GameApp_proto/GameScene.swift:18-25 | distinct layers have distinct node names |
| Controller.Initial | GameApp_proto/GameScene.swift:54-65 | the starting state is grounded, facing right, not moving, with contact notifications off, and satisfies the state invariant |
| Controller.MoveTo | GameApp_proto/GameScene.swift:243-270 | a move always sets moving and the facing and keeps phase and masks; it starts the walk only when grounded; a jumping player gets the jump still; a falling player keeps its texture; the invariant is kept |
| Controller.MoveStop | GameApp_proto/GameScene.swift:273-287 | a stop clears moving and keeps the facing; only a grounded player's display changes, to the still of its facing; the invariant is kept |
| Controller.JumpingAction | GameApp_proto/GameScene.swift:290-311 | a no-op unless grounded; from the ground the player is jumping and not moving, collides with frame_ground only and is notified of frame_ground and frame_floor, and shows the jump still of its facing |
| Controller.FallingAction | GameApp_proto/GameScene.swift:314-327 | afterwards exactly falling holds, with moving, facing and masks unchanged and the jump still of the facing shown |
| Controller.Resume | GameApp_proto/GameScene.swift:378-388 | re-issuing the current intent keeps moving, facing, phase and masks |
| Controller.ForcedLanding | GameApp_proto/GameScene.swift:369-390 | the timer landing leaves the player grounded with moving, facing and both masks unchanged, walking if it was moving and otherwise standing still in its facing |
| Controller.ContactLanding | GameApp_proto/GameScene.swift:554-600 | when the probe finds ground or floor, the player is grounded with contact notifications off and keeps its intent and collision mask; otherwise nothing changes |
| Controller.WidenMasks | GameApp_proto/GameScene.swift:451-452 | both masks become frame_ground and frame_floor and nothing else changes |
| Controller.FallCheck | GameApp_proto/GameScene.swift:433-437 | the fall happens exactly when the vertical velocity is below -9.8 and the player is not already falling; otherwise nothing changes |
| Controller.RayCheck | GameApp_proto/GameScene.swift:445-465 | exactly when the player is falling and above a surface top, both the collision and the contact mask become frame_ground and frame_floor; otherwise nothing changes |
| Controller.SwipeDirection | GameApp_proto/GameScene.swift:348 | an angle strictly between -90 and 90 selects right; any other angle, ±90 included, selects left |
| Controller.Swipe | GameApp_proto/GameScene.swift:348-360 | a swipe in the current direction while moving is a no-op; otherwise it is the move in the swiped direction; afterwards the player moves in that direction |
| Controller.JumpNotRepeatable | GameApp_proto/GameScene.swift:290-311 | a second jump request changes nothing |
| Controller.ContactLandingIdempotent | GameApp_proto/GameScene.swift:554-600 | landing twice on the same contact gives the same state as landing once |
| Controller.LandingPathsAgree | GameApp_proto/GameScene.swift:369-390 | the timer landing and the contact landing agree on everything except the contact mask, which the timer path keeps |
| Controller.TimerLandingKeepsNotifications | GameApp_proto/GameScene.swift:369-390 | a jump followed by a timer landing leaves the player grounded with contact notifications still on |
| Controller.StaleTimerAllowsSecondJump | GameApp_proto/GameScene.swift:290-311 | after a contact landing and a new jump, a timer still running from before lands the player in mid-air, and a second jump is then accepted |
| Controller.EdgeFallKeepsContactMask | GameApp_proto/GameScene.swift:314-327 | walking off an edge from the initial state falls with contact notifications off, while falling after a jump keeps frame_ground and frame_floor notifications on |
| Controller.SwipeIdempotent | GameApp_proto/GameScene.swift:346-360 | repeating a swipe at the same angle changes nothing |
| Controller.StepKeepsValid | GameApp_proto/GameScene.swift:243-327 | every callback keeps exactly one of isGround, jumping and falling, well-formed masks and a consistent display |
| Controller.RunKeepsValid | GameApp_proto/GameScene.swift:62-65 | after any sequence of callbacks, exactly one of isGround, jumping and falling holds, and masks and display stay consistent |
| Controller.GroundedQuietWithoutTimer | GameApp_proto/GameScene.swift:560 | on every sequence of callbacks without a timer landing, a grounded player has contact notifications off |
| Controller.LastIntentWins | GameApp_proto/GameScene.swift:243-287 | while grounded, after any series of move and stop intents, the facing and display follow the last intent |
| Camera.ClampOffset | GameApp_proto/GameScene.swift:521-536 | the offset is at most 0, at least -(level - screen) when the level is wider than the screen, exactly 0 when it is not, and untouched when already inside those bounds |
| Scene.PlayerNode.constructor | GameApp_proto/GameScene.swift:217-224 | the loaded player has category player, collides with frame_ground and asks for no contact notifications |
| Scene.PlayerNode.ApplyImpulse | GameApp_proto/GameScene.swift:304 | the impulse is appended to the record of pushes |
| Scene.PlayerNode.ApplyForce | GameApp_proto/GameScene.swift:504 | the force is appended to the record of pushes |
| Scene.GameScene.constructor | GameApp_proto/GameScene.swift:186-225 | after loading, the scene satisfies its invariant, is in the initial state, has the level as wide as the level file and as high as the screen, and keeps the player at the screen centre |
| Scene.GameScene.StartTextureAnimation | GameApp_proto/GameScene.swift:609-620 | the running animation becomes the given frames |
| Scene.GameScene.StopTextureAnimation | GameApp_proto/GameScene.swift:623-626 | no animation runs and the texture is the given still |
| Scene.GameScene.MoveToRight | GameApp_proto/GameScene.swift:243-255 | the state moves as MoveTo right says, nothing else changes, and the invariant is kept |
| Scene.GameScene.MoveToLeft | GameApp_proto/GameScene.swift:258-270 | the state moves as MoveTo left says, nothing else changes, and the invariant is kept |
| Scene.GameScene.MoveStop | GameApp_proto/GameScene.swift:273-287 | the state moves as MoveStop says, and the invariant is kept |
| Scene.GameScene.JumpingAction | GameApp_proto/GameScene.swift:290-311 | the state moves as JumpingAction says; exactly one impulse (0, 18) is pushed, the same for either facing, and only when grounded |
| Scene.GameScene.FallingAction | GameApp_proto/GameScene.swift:314-327 | the state moves as FallingAction says, and the invariant is kept |
| Scene.GameScene.TouchesMoved | GameApp_proto/GameScene.swift:340-361 | the state moves as Swipe says for the swipe angle |
| Scene.GameScene.TouchesEnded | GameApp_proto/GameScene.swift:364-366 | a lifted finger stops the player |
| Scene.GameScene.IsGroundUpdate | GameApp_proto/GameScene.swift:369-390 | the count grows by delta; once it reaches 0.1 the timer stops and the player lands as ForcedLanding says, at a count below 0.1 plus that frame's delta |
| Scene.GameScene.Update | GameApp_proto/GameScene.swift:393-408 | delta is 0 on the first frame and otherwise the time since the last frame; the timer advances only while it runs |
| Scene.GameScene.ArmGroundTimer | GameApp_proto/GameScene.swift:417-425 | the timer starts, from 0, exactly when it was not running, the player is jumping or falling, abs(dy) < 9.8 and ground or floor lies beneath |
| Scene.GameScene.HoldOnGround | GameApp_proto/GameScene.swift:427-430 | the vertical velocity is zeroed exactly when grounded, moving and on ground or floor |
| Scene.GameScene.CheckFalling | GameApp_proto/GameScene.swift:432-437 | the state moves as FallCheck says for the current vertical velocity |
| Scene.GameScene.ScanRay | GameApp_proto/GameScene.swift:439-465 | after the loop over the ray's bodies, the masks are widened exactly when the player is falling and some hit is a floor or ground top just below it |
| Scene.GameScene.ClampVelocity | GameApp_proto/GameScene.swift:467-479 | afterwards abs(dx) <= 250, dx is unchanged when already within the cap, and a dy below -625 becomes -250 |
| Scene.GameScene.Damp | GameApp_proto/GameScene.swift:481-486 | a grounded player with no move intent keeps 0.85 of dx, so abs(dx) does not grow and its sign is kept |
| Scene.GameScene.Propel | GameApp_proto/GameScene.swift:488-512 | while moving exactly one force (±20, 0) towards the facing is pushed, and the walk plays at speed 3 from abs(dx) >= 200 on, else at speed 1 |
| Scene.GameScene.ScrollCamera | GameApp_proto/GameScene.swift:514-538 | the world layer's x is the centring offset when that lies inside the level, 0 when it is past the near end or the level is no wider than the screen, and -(level - screen) when it is past the far end; y is always 0; the background sits at (x/2, y) |
| Scene.GameScene.SettlePhase | GameApp_proto/GameScene.swift:413-465 | the timer, the vertical hold, the fall trigger and the ray rule, in that order, keeping the invariant |
| Scene.GameScene.SettleMotion | GameApp_proto/GameScene.swift:467-538 | the final dx is the capped and then damped dx, the final dy is the clamped dy, the walk speed and force are set, the world layer's x is the centring offset or the level end it is clamped to, and the flags are untouched |
| Scene.GameScene.DidSimulatePhysics | GameApp_proto/GameScene.swift:411-540 | after the pass, the invariant holds, abs(dx) <= 250 and dy >= -625, the timer arming and the fall and ray rules held, the force matches the intent, and the world layer's x is the centring offset or the level end it is clamped to |
| Scene.GameScene.LandOnContact | GameApp_proto/GameScene.swift:560-576 | contact notifications are off, the player is grounded and the current intent is re-issued |
| Scene.GameScene.DidBegin | GameApp_proto/GameScene.swift:543-601 | the state moves as ContactLanding says for the name found 10 points below the contact, under the player; the timer is not touched |

## Behaviour of note

- One horizontal cap of 250 applies in every phase, grounded or airborne.
- The horizontal cap is applied before the grounded damping. `Damp` proves the damping
  cannot break the cap.
- The timer landing does not touch the masks. A player who jumped and then landed by the
  timer is grounded with contact notifications still on (`TimerLandingKeepsNotifications`).
  "Grounded implies no notifications" holds only on runs without a timer landing
  (`GroundedQuietWithoutTimer`).
- Neither a contact landing nor a jump stops a running forced-ground timer. A player who
  lands by contact and jumps again before that timer expires is put back on the ground in mid-air when
  the timer expires, and can then jump a second time (`StaleTimerAllowsSecondJump`).
- The fall trigger fires from any phase but falling. Walking off an edge takes the same
  flag transition as a jump's descent, but the player keeps the contact mask it had on the
  ground: 0 at spawn or after a contact landing, so it falls with contact notifications
  off, while a jump's descent falls with them on (`EdgeFallKeepsContactMask`).

## Left out

- Level loading, tile-map physics bodies and the wall frame (GameScene.swift:80-239) are
  left out. Only their result is kept: the screen and level sizes, the camera offsets and
  the player's masks, set by the constructors.
- SpriteKit actions are not modelled: frame timing (0.2 s), endless repetition and resizing.
  The model keeps only the running frame list or the still texture name.
- `atan2` and the radian-to-degree conversion are left out. `TouchesMoved` takes the angle
  as input, so `touchesBegan` and its `tapPoint` have nothing left to do.
- Physics-engine calls are inputs or records. `atPoint` and `enumerateBodies` come from
  `World`; impulses and forces are recorded, not integrated. The ray enumeration's `stop`
  flag is never set by the scene and is not modelled.
- `CGFloat` and `TimeInterval` arithmetic is modelled with exact reals, without rounding.
- The `print` debugging calls are left out.
- `didEnd` is empty in the source, so it is left out.
- The view controllers, `GmaeView` and `Util` are UI wiring, so they are left out. The
  jump button only calls `jumpingAction`.
- `screenSpeed` and `screenSpeedScale` are never used by the core, so they are left out.
  `tapPoint` only feeds the angle computation of `touchesMoved`, which is left out (see above). Fields the scene never reassigns are constants: `physicsRadius`,
  `playerAcceleration`, `playerMaxVelocity`, `jumpForce` and `timeSinceIsGroundLimit`.
- In `DidSimulatePhysics` the ray's end points are computed before the timer arming, the
  vertical hold and the fall trigger run. Those steps do not move the player or the world
  layer, so the ray is the same.
- Scene.GameScene.DidSimulatePhysics: gives the final velocity only as bounds, and does not
  state the walk speed. `SettleMotion` states both exactly.
