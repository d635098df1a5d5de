/**
 * The physics of the falling cube in script.js, as values.
 *
 * A Body is a snapshot of every field the step reads or writes on a Box:
 * its extents, its centre, its velocity, the six bound fields and its
 * gravity. Each function below is one piece of the per-frame step; the
 * class Script.Box runs the same pieces by assigning its fields and is
 * proved against these functions.
 *
 * Quantities are real numbers: the browser's doubles and their rounding are
 * not modelled.
 */
module Physics {

  /** Gravity every Box is constructed with, in units per frame squared. */
  const Gravity: real := -0.005

  /** Horizontal speed while a movement key is held. */
  const MoveSpeed: real := 0.05

  /** Factor the vertical speed is scaled by on ground contact. */
  const Damping: real := 0.8

  /** A body off the platform that drops below this height is reset. */
  const FallLimit: real := -10.0

  function Abs(x: real): real {
    if x < 0.0 then -x else x
  }

  datatype Vec3 = Vec3(x: real, y: real, z: real)

  const Origin: Vec3 := Vec3(0.0, 0.0, 0.0)

  /** Whether the A (move left) and D (move right) keys are held this frame. */
  datatype Keys = Keys(a: bool, d: bool)

  const NoKeys: Keys := Keys(false, false)

  datatype Body = Body(
    width: real, height: real, depth: real,
    position: Vec3,
    velocity: Vec3,
    right: real, left: real,
    bottom: real, top: real,
    front: real, back: real,
    gravity: real)

  /** The bounds span exactly the extents, centred on the position. */
  predicate Centred(b: Body) {
    && b.right - b.left == b.width
    && b.top - b.bottom == b.height
    && b.front - b.back == b.depth
    && b.left + b.right == 2.0 * b.position.x
    && b.bottom + b.top == 2.0 * b.position.y
    && b.back + b.front == 2.0 * b.position.z
  }

  /** r differs from b at most in the six bound fields. */
  predicate SameExceptSides(b: Body, r: Body) {
    && r.width == b.width && r.height == b.height && r.depth == b.depth
    && r.position == b.position && r.velocity == b.velocity
    && r.gravity == b.gravity
  }

  /** r differs from b at most in its height and its vertical speed. */
  predicate SameExceptVertical(b: Body, r: Body) {
    r == b.(position := b.position.(y := r.position.y), velocity := b.velocity.(y := r.velocity.y))
  }

  /** r differs from b at most in its position and velocity along x and y. */
  predicate SameExceptMotion(b: Body, r: Body) {
    && r.width == b.width && r.height == b.height && r.depth == b.depth
    && r.position.z == b.position.z && r.velocity.z == b.velocity.z
    && r.gravity == b.gravity
  }

  /** updateSides: the six bounds recomputed from the position and the extents. */
  function WithSides(b: Body): (r: Body)
    ensures Centred(r) && SameExceptSides(b, r)
  {
    b.(right := b.position.x + b.width / 2.0,
       left := b.position.x - b.width / 2.0,
       bottom := b.position.y - b.height / 2.0,
       top := b.position.y + b.height / 2.0,
       front := b.position.z + b.depth / 2.0,
       back := b.position.z - b.depth / 2.0)
  }

  /** The horizontal speed the input block of animate chooses: A wins over D. */
  function InputVelocityX(keys: Keys): (vx: real)
    ensures vx == -MoveSpeed || vx == 0.0 || vx == MoveSpeed
    ensures vx < 0.0 <==> keys.a
    ensures vx > 0.0 <==> !keys.a && keys.d
  {
    if keys.a then -MoveSpeed else if keys.d then MoveSpeed else 0.0
  }

  /** The input block of animate: velocity.x is overwritten from the keys. */
  function Steered(b: Body, keys: Keys): Body {
    b.(velocity := b.velocity.(x := InputVelocityX(keys)))
  }

  /** The horizontal move of update; the bounds are not refreshed. */
  function MovedX(b: Body): Body {
    b.(position := b.position.(x := b.position.x + b.velocity.x))
  }

  /** The platform test of update: the x-intervals of the bounds meet. */
  predicate Overlaps(b: Body, ground: Body) {
    b.right >= ground.left && b.left <= ground.right
  }

  /**
   * The same test stated on the body's position before the frame's x move,
   * which is where the bound fields stand when update reads them.
   */
  predicate OverPlatform(b: Body, ground: Body) {
    b.position.x + b.width / 2.0 >= ground.left && b.position.x - b.width / 2.0 <= ground.right
  }

  /** resetCube as its comment intends: position and velocity at the origin. */
  function AfterReset(b: Body): (r: Body)
    ensures r.position == Origin && r.velocity == Origin
    ensures r.(position := b.position, velocity := b.velocity) == b
  {
    b.(position := Origin, velocity := Origin)
  }

  /**
   * resetCube as written: the position is zeroed, then `velocity.set` is
   * called on a plain object that has no such method. The exception ends
   * the frame, so the velocity keeps the value it had.
   */
  function AfterResetAsWritten(b: Body): (r: Body)
    ensures r.position == Origin && r.velocity == b.velocity
    ensures r.(position := b.position) == b
  {
    b.(position := Origin)
  }

  /** The gravity step shared by both branches: vy gains gravity. */
  function FallSpeed(b: Body): real {
    b.velocity.y + b.gravity
  }

  /** The free fall of the off-platform branch: vy gains gravity, then y gains vy. */
  function Fallen(b: Body): (r: Body)
    ensures SameExceptVertical(b, r)
    ensures r.velocity.y - b.velocity.y == b.gravity
    ensures r.position.y - b.position.y == r.velocity.y
  {
    var vy := FallSpeed(b);
    b.(velocity := b.velocity.(y := vy), position := b.position.(y := b.position.y + vy))
  }

  /** Whether the off-platform branch resets the body: the fall ends below FallLimit. */
  predicate FallsOut(b: Body) {
    b.position.y + FallSpeed(b) < FallLimit
  }

  /** Off the platform: free fall, then a reset below FallLimit. */
  function OffEdge(b: Body): (r: Body)
    ensures FallsOut(b) ==> r.position == Origin && r.velocity == Origin
    ensures !FallsOut(b) ==> r == Fallen(b) && r.position.y >= FallLimit
  {
    var fallen := Fallen(b);
    if fallen.position.y < FallLimit then AfterReset(fallen) else fallen
  }

  /** Whether applyGravity predicts the bottom to reach the ground's top. */
  predicate Contact(b: Body, ground: Body) {
    b.bottom + FallSpeed(b) <= ground.top
  }

  /**
   * applyGravity: vy gains gravity; on predicted contact vy is damped and
   * reversed and the body stays put, otherwise the body moves by vy.
   */
  function AfterGravity(b: Body, ground: Body): (r: Body)
    ensures SameExceptVertical(b, r)
    ensures Contact(b, ground) ==> r.position == b.position && r.velocity.y == -Damping * FallSpeed(b)
    ensures !Contact(b, ground) ==>
      && r.velocity.y == FallSpeed(b)
      && r.position.y - b.position.y == r.velocity.y
      && b.bottom + r.velocity.y > ground.top
  {
    var vy := FallSpeed(b);
    if b.bottom + vy <= ground.top then
      b.(velocity := b.velocity.(y := -(vy * Damping)))
    else
      b.(velocity := b.velocity.(y := vy), position := b.position.(y := b.position.y + vy))
  }

  /** update: bounds, x move, platform test on the pre-move bounds, one branch. */
  function Updated(b: Body, ground: Body): Body {
    var moved := MovedX(WithSides(b));
    if !Overlaps(moved, ground) then OffEdge(moved) else AfterGravity(moved, ground)
  }

  /** Whether update takes the off-platform branch and resets the body. */
  predicate ResetFires(b: Body, ground: Body) {
    !OverPlatform(b, ground) && FallsOut(b)
  }

  /** One call of animate: the input block, then update. */
  function Frame(b: Body, ground: Body, keys: Keys): Body {
    Updated(Steered(b, keys), ground)
  }

  /** Successive calls of animate, one per element of frames. */
  function Run(b: Body, ground: Body, frames: seq<Keys>): Body
    decreases |frames|
  {
    if frames == [] then b else Run(Frame(b, ground, frames[0]), ground, frames[1..])
  }
}
