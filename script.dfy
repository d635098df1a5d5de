/**
 * The Box class of script.js with its per-frame methods, resetCube, and the
 * physics part of animate. Each method assigns the fields the way the
 * JavaScript does and is proved to leave the state the corresponding
 * Physics function describes.
 *
 * Three.js is not modelled: a Box keeps its position as a value of its own
 * rather than the inherited Vector3, and the mesh, material and colour are
 * gone.
 */
module Script {
  import opened Physics
  import Properties

  class Box {
    var width: real
    var height: real
    var depth: real

    var position: Vec3
    var velocity: Vec3

    var right: real
    var left: real
    var bottom: real
    var top: real
    var front: real
    var back: real

    var gravity: real

    /** Every field the physics reads or writes, as one value. */
    function State(): Body
      reads this
    {
      Body(width, height, depth, position, velocity, right, left, bottom, top, front, back, gravity)
    }

    /**
     * new Box({width, height, depth, velocity, position}): the extents, the
     * position and the velocity as given, bounds centred on the position,
     * and the common gravity.
     */
    constructor (width: real, height: real, depth: real, velocity: Vec3, position: Vec3)
      ensures this.width == width && this.height == height && this.depth == depth
      ensures this.position == position && this.velocity == velocity
      ensures gravity == Gravity
      ensures Centred(State())
    {
      this.width := width;
      this.height := height;
      this.depth := depth;
      this.position := position;
      right := position.x + width / 2.0;
      left := position.x - width / 2.0;
      bottom := position.y - height / 2.0;
      top := position.y + height / 2.0;
      front := position.z + depth / 2.0;
      back := position.z - depth / 2.0;
      this.velocity := velocity;
      gravity := Gravity;
    }

    /** updateSides: the bounds are recomputed, nothing else changes. */
    method UpdateSides()
      modifies this
      ensures State() == WithSides(old(State()))
      ensures Centred(State())
    {
      right := position.x + width / 2.0;
      left := position.x - width / 2.0;
      bottom := position.y - height / 2.0;
      top := position.y + height / 2.0;
      front := position.z + depth / 2.0;
      back := position.z - depth / 2.0;
    }

    /**
     * update(ground): bounds first, then the x move, then the platform test
     * on the bounds computed before that move. Off the platform the body
     * falls and is reset below FallLimit; over it, applyGravity runs.
     */
    method Update(ground: Box)
      requires ground != this
      modifies this
      ensures State() == Updated(old(State()), ground.State())
    {
      UpdateSides();
      position := position.(x := position.x + velocity.x);

      var isColliding := right >= ground.left && left <= ground.right;

      if !isColliding {
        velocity := velocity.(y := velocity.y + gravity);
        position := position.(y := position.y + velocity.y);
        if position.y < FallLimit {
          ResetCube(this);
        }
      } else {
        ApplyGravity(ground);
      }
    }

    /**
     * applyGravity: vy gains gravity; when the bottom moved by vy would
     * reach the ground's top, vy is damped and reversed and the body stays,
     * otherwise it moves by vy. The source reads the global ground here,
     * the same object update is given.
     */
    method ApplyGravity(ground: Box)
      requires ground != this
      modifies this
      ensures State() == AfterGravity(old(State()), ground.State())
    {
      velocity := velocity.(y := velocity.y + gravity);

      if bottom + velocity.y <= ground.top {
        velocity := velocity.(y := velocity.y * Damping);
        velocity := velocity.(y := -velocity.y);
      } else {
        position := position.(y := position.y + velocity.y);
      }
    }
  }

  /**
   * resetCube, as its comment intends: position and velocity at the origin.
   * The bounds are not recomputed.
   *
   * The source's second line calls `velocity.set(0, 0, 0)`, but the cube's
   * velocity is the plain object literal it was constructed with, which has
   * no `set`: that call throws after the position is zeroed, and the
   * velocity is never reset. Physics.AfterResetAsWritten describes that
   * outcome; this method follows the intent.
   */
  method ResetCube(cube: Box)
    modifies cube
    ensures cube.State() == AfterReset(old(cube.State()))
  {
    cube.position := Origin;
    cube.velocity := Origin;
  }

  /**
   * One call of animate, without the rendering and the rescheduling: the
   * keys overwrite velocity.x, then the cube is updated against the ground,
   * which stays as it was.
   */
  method Animate(cube: Box, ground: Box, keys: Keys)
    requires cube != ground
    modifies cube
    ensures cube.State() == Frame(old(cube.State()), ground.State(), keys)
    ensures unchanged(ground)
  {
    cube.velocity := cube.velocity.(x := 0.0);
    if keys.a {
      cube.velocity := cube.velocity.(x := -MoveSpeed);
    } else if keys.d {
      cube.velocity := cube.velocity.(x := MoveSpeed);
    }

    cube.Update(ground);
  }

  /**
   * The page's cube and ground, built as script.js builds them, and the first
   * frame with no key held: the cube falls freely to y = -0.015.
   */
  method FirstFrame() returns (position: Vec3, velocity: Vec3)
    ensures position == Vec3(0.0, -0.015, 0.0)
    ensures velocity == Vec3(0.0, -0.015, 0.0)
  {
    var cube := new Box(1.0, 1.0, 1.0, Vec3(0.0, -0.01, 0.0), Origin);
    var ground := new Box(5.0, 0.5, 10.0, Origin, Vec3(0.0, -2.0, 0.0));

    ghost var c, g := cube.State(), ground.State();
    assert c == WithSides(Body(1.0, 1.0, 1.0, Origin, Vec3(0.0, -0.01, 0.0),
                               0.0, 0.0, 0.0, 0.0, 0.0, 0.0, Gravity)) by {
      Properties.CentredIffSides(c);
    }
    assert g == WithSides(Body(5.0, 0.5, 10.0, Vec3(0.0, -2.0, 0.0), Origin,
                               0.0, 0.0, 0.0, 0.0, 0.0, 0.0, Gravity)) by {
      Properties.CentredIffSides(g);
    }
    Properties.FirstFrameFallsFreely(c, g);

    Animate(cube, ground, NoKeys);
    position, velocity := cube.position, cube.velocity;
  }
}
