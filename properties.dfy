/**
 * What the per-frame step of script.js guarantees, proved about the value
 * model in Physics: one frame at a time, and over runs of frames.
 */
module Properties {
  import opened Physics

  // ---------------------------------------------------------------------
  // Bounds

  /** Centred pins the bounds down: they are exactly the ones updateSides computes. */
  lemma CentredIffSides(b: Body)
    ensures Centred(b) <==> b == WithSides(b)
  {
  }

  // ---------------------------------------------------------------------
  // Input

  /**
   * The input block overwrites velocity.x; the old value never matters.
   * A alone or together with D moves left, D alone moves right, no key stops.
   */
  lemma InputOverwrites(b: Body, b': Body, keys: Keys)
    ensures Steered(b, keys).velocity.x == Steered(b', keys).velocity.x
    ensures keys.a ==> Steered(b, keys).velocity.x == -MoveSpeed
    ensures !keys.a && keys.d ==> Steered(b, keys).velocity.x == MoveSpeed
    ensures !keys.a && !keys.d ==> Steered(b, keys).velocity.x == 0.0
    ensures Steered(b, keys) == b.(velocity := b.velocity.(x := Steered(b, keys).velocity.x))
  {
  }

  // ---------------------------------------------------------------------
  // The platform test

  predicate Within(x: real, lo: real, hi: real) {
    lo <= x <= hi
  }

  /** For boxes of non-negative width, the test holds iff the two x-intervals share a point. */
  lemma OverlapIsIntersection(b: Body, ground: Body)
    requires b.left <= b.right && ground.left <= ground.right
    ensures Overlaps(b, ground) <==>
      exists x :: Within(x, b.left, b.right) && Within(x, ground.left, ground.right)
  {
    if Overlaps(b, ground) {
      var x := if b.left < ground.left then ground.left else b.left;
      assert Within(x, b.left, b.right) && Within(x, ground.left, ground.right);
    }
  }

  /** The test reads the left and right bounds only: height, depth and z play no part. */
  lemma OverlapIgnoresOtherAxes(b: Body, b': Body, ground: Body, ground': Body)
    requires b'.left == b.left && b'.right == b.right
    requires ground'.left == ground.left && ground'.right == ground.right
    ensures Overlaps(b', ground') == Overlaps(b, ground)
  {
  }

  /** update decides on the bounds of the position before the frame's x move. */
  lemma DecisionUsesPreMoveX(b: Body, ground: Body)
    ensures Overlaps(MovedX(WithSides(b)), ground) <==> OverPlatform(b, ground)
    ensures MovedX(WithSides(b)).position.x == b.position.x + b.velocity.x
  {
  }

  /**
   * A body at the ground's right edge with D held moves wholly past that
   * edge in the frame, yet the frame still takes the over-platform branch,
   * because the test sees the old x.
   */
  lemma StaleDecisionExample(b: Body, ground: Body)
    requires ground == WithSides(Body(5.0, 0.5, 10.0, Vec3(0.0, -2.0, 0.0), Origin,
                                      0.0, 0.0, 0.0, 0.0, 0.0, 0.0, Gravity))
    requires b == WithSides(Body(1.0, 1.0, 1.0, Vec3(3.0, 0.0, 0.0), Origin,
                                 0.0, 0.0, 0.0, 0.0, 0.0, 0.0, Gravity))
    ensures Frame(b, ground, Keys(false, true)).position.x - b.width / 2.0 > ground.right
    ensures OverPlatform(b, ground)
    ensures Frame(b, ground, Keys(false, true)) ==
            AfterGravity(MovedX(WithSides(Steered(b, Keys(false, true)))), ground)
  {
    var moved := MovedX(WithSides(Steered(b, Keys(false, true))));
    assert moved.position.x == 3.05 && moved.left == 2.5 && moved.right == 3.5;
    assert Overlaps(moved, ground);
    assert Frame(b, ground, Keys(false, true)) == AfterGravity(moved, ground);
  }

  // ---------------------------------------------------------------------
  // update over the platform

  /**
   * Over the platform vy first gains gravity; on predicted contact it is
   * scaled by -Damping and the height stays, otherwise the body moves by
   * the new vy.
   */
  lemma UpdateOverPlatform(b: Body, ground: Body)
    requires OverPlatform(b, ground)
    ensures var r := Updated(b, ground);
            var vy := b.velocity.y + b.gravity;
            && r.position.x == b.position.x + b.velocity.x
            && r.velocity.x == b.velocity.x
            && (b.position.y - b.height / 2.0 + vy <= ground.top ==>
                  r.velocity.y == -Damping * vy && r.position.y == b.position.y)
            && (b.position.y - b.height / 2.0 + vy > ground.top ==>
                  r.velocity.y == vy && r.position.y == b.position.y + vy)
            && SameExceptMotion(b, r)
  {
  }

  /** A bounce keeps exactly Damping of the speed and reverses its direction. */
  lemma BounceDamps(b: Body, ground: Body)
    requires OverPlatform(b, ground)
    requires b.position.y - b.height / 2.0 + FallSpeed(b) <= ground.top
    ensures Abs(Updated(b, ground).velocity.y) == Damping * Abs(FallSpeed(b))
    ensures Updated(b, ground).velocity.y * FallSpeed(b) <= 0.0
    ensures Abs(Updated(b, ground).velocity.y) <= Abs(FallSpeed(b))
  {
    var v := FallSpeed(b);
    assert Updated(b, ground).velocity.y == -Damping * v;
    assert -Damping * v * v == -Damping * (v * v);
  }

  /** Over the platform, a bottom above the ground's top stays above it. */
  lemma StaysAbovePlatform(b: Body, ground: Body)
    requires OverPlatform(b, ground)
    requires b.position.y - b.height / 2.0 > ground.top
    ensures WithSides(Updated(b, ground)).bottom > ground.top
  {
  }

  // ---------------------------------------------------------------------
  // update off the platform

  /**
   * Off the platform vy gains gravity and y gains vy; the body is reset to
   * the origin exactly when that takes y below FallLimit.
   */
  lemma UpdateOffEdge(b: Body, ground: Body)
    requires !OverPlatform(b, ground)
    ensures var r := Updated(b, ground);
            var vy := b.velocity.y + b.gravity;
            var y := b.position.y + vy;
            && (y < FallLimit <==> ResetFires(b, ground))
            && (y < FallLimit ==> r.position == Origin && r.velocity == Origin)
            && (y >= FallLimit ==>
                  && r.position == b.position.(x := b.position.x + b.velocity.x, y := y)
                  && r.velocity == b.velocity.(y := vy))
  {
  }

  // ---------------------------------------------------------------------
  // One frame

  /**
   * A frame changes the motion along x and y and the bounds, and nothing
   * else, except that a reset also zeroes z and its speed. The bounds it
   * leaves are those of the position the frame started from, and
   * velocity.x is the input's unless a reset zeroed it.
   */
  lemma FrameChangesOnlyMotion(b: Body, ground: Body, keys: Keys)
    ensures var r := Frame(b, ground, keys);
            && r.width == b.width && r.height == b.height && r.depth == b.depth
            && r.gravity == b.gravity
            && (!ResetFires(b, ground) ==> SameExceptMotion(b, r))
            && (ResetFires(b, ground) ==> r.position.z == 0.0 && r.velocity.z == 0.0)
            && r.velocity.x == (if ResetFires(b, ground) then 0.0 else InputVelocityX(keys))
            && r.left == b.position.x - b.width / 2.0 && r.right == b.position.x + b.width / 2.0
            && r.bottom == b.position.y - b.height / 2.0 && r.top == b.position.y + b.height / 2.0
            && r.back == b.position.z - b.depth / 2.0 && r.front == b.position.z + b.depth / 2.0
  {
  }

  /**
   * A body with no depth-wise position or speed, such as the page's cube,
   * keeps both at zero however many frames run, resets included.
   */
  lemma {:induction false} RunKeepsZ(b: Body, ground: Body, frames: seq<Keys>)
    requires b.position.z == 0.0 && b.velocity.z == 0.0
    ensures Run(b, ground, frames).position.z == 0.0
    ensures Run(b, ground, frames).velocity.z == 0.0
    decreases |frames|
  {
    if frames != [] {
      var b1 := Frame(b, ground, frames[0]);
      FrameChangesOnlyMotion(b, ground, frames[0]);
      RunKeepsZ(b1, ground, frames[1..]);
    }
  }

  /** The first frame of the page: the cube at the origin falls freely by 0.015. */
  lemma FirstFrameFallsFreely(cube: Body, ground: Body)
    requires ground == WithSides(Body(5.0, 0.5, 10.0, Vec3(0.0, -2.0, 0.0), Origin,
                                      0.0, 0.0, 0.0, 0.0, 0.0, 0.0, Gravity))
    requires cube == WithSides(Body(1.0, 1.0, 1.0, Origin, Vec3(0.0, -0.01, 0.0),
                                    0.0, 0.0, 0.0, 0.0, 0.0, 0.0, Gravity))
    ensures OverPlatform(cube, ground)
    ensures Frame(cube, ground, NoKeys).position == Vec3(0.0, -0.015, 0.0)
    ensures Frame(cube, ground, NoKeys).velocity == Vec3(0.0, -0.015, 0.0)
  {
    var moved := MovedX(WithSides(Steered(cube, NoKeys)));
    assert moved.position == Origin && moved.velocity == Vec3(0.0, -0.01, 0.0);
    assert moved.bottom == -0.5 && moved.left == -0.5 && moved.right == 0.5 && moved.gravity == Gravity;
    assert Overlaps(moved, ground) && !Contact(moved, ground);
    assert Frame(cube, ground, NoKeys) == AfterGravity(moved, ground);
  }

  // ---------------------------------------------------------------------
  // Runs of frames

  /**
   * With no key held, a body over the platform whose bottom is above the
   * ground's top keeps its x, stays over the platform, never falls through
   * it and is never reset, however many frames run.
   */
  lemma {:induction false} RestingStaysOnPlatform(b: Body, ground: Body, frames: seq<Keys>)
    requires forall i :: 0 <= i < |frames| ==> frames[i] == NoKeys
    requires OverPlatform(b, ground)
    requires b.position.y - b.height / 2.0 > ground.top
    ensures var r := Run(b, ground, frames);
            && r.position.x == b.position.x
            && SameExceptMotion(b, r)
            && OverPlatform(r, ground)
            && r.position.y - r.height / 2.0 > ground.top
    decreases |frames|
  {
    if frames != [] {
      var b1 := Frame(b, ground, frames[0]);
      StaysAbovePlatform(Steered(b, frames[0]), ground);
      assert b1.position.x == b.position.x;
      RestingStaysOnPlatform(b1, ground, frames[1..]);
    }
  }

  /** The height of n frames of free fall, frame by frame: each adds gravity to vy, then vy to y. */
  function StepHeight(y0: real, v0: real, g: real, n: nat): real
    decreases n
  {
    if n == 0 then y0 else StepHeight(y0 + v0 + g, v0 + g, g, n - 1)
  }

  /** The vertical speed after n frames of free fall, frame by frame. */
  function StepSpeed(v0: real, g: real, n: nat): real
    decreases n
  {
    if n == 0 then v0 else StepSpeed(v0 + g, g, n - 1)
  }

  /** The height after n frames of free fall in closed form. */
  function FallHeight(y0: real, v0: real, g: real, n: nat): real {
    var k := n as real;
    y0 + k * v0 + g * k * (k + 1.0) / 2.0
  }

  /** One frame of free fall followed by n more is n + 1 frames from the start. */
  lemma FallHeightShift(y0: real, v0: real, g: real, n: nat)
    ensures FallHeight(y0 + v0 + g, v0 + g, g, n) == FallHeight(y0, v0, g, n + 1)
  {
    var k := n as real;
    assert (n + 1) as real == k + 1.0;
    assert k * (v0 + g) == k * v0 + k * g;
    assert g * (k + 1.0) * (k + 2.0) == g * k * (k + 1.0) + 2.0 * g * (k + 1.0);
    assert (k + 1.0) * v0 == k * v0 + v0;
  }

  /** Frame-by-frame free fall agrees with the closed forms. */
  lemma {:induction false} StepClosedForm(y0: real, v0: real, g: real, n: nat)
    ensures StepHeight(y0, v0, g, n) == FallHeight(y0, v0, g, n)
    ensures StepSpeed(v0, g, n) == v0 + (n as real) * g
    decreases n
  {
    if n == 0 {
      assert FallHeight(y0, v0, g, 0) == y0;
    } else {
      StepClosedForm(y0 + v0 + g, v0 + g, g, n - 1);
      FallHeightShift(y0, v0, g, n - 1);
      var m := (n - 1) as real;
      assert n as real == m + 1.0;
      assert (v0 + g) + m * g == v0 + (m + 1.0) * g;
    }
  }

  /** One frame of free fall with no key held, when it does not end below FallLimit. */
  lemma FreeFallStep(b: Body, ground: Body)
    requires !OverPlatform(b, ground)
    requires !FallsOut(b)
    ensures var r := Frame(b, ground, NoKeys);
            && r.velocity.y == b.velocity.y + b.gravity
            && r.position.y == b.position.y + b.velocity.y + b.gravity
            && r.position.x == b.position.x
            && SameExceptMotion(b, r)
            && !OverPlatform(r, ground)
  {
  }

  /**
   * With no key held, a body off the platform falls freely: after n frames
   * its height and speed are StepHeight and StepSpeed of its start, which
   * StepClosedForm puts in closed form, as long as no frame took it below
   * FallLimit. It keeps its x and stays off the platform.
   */
  lemma {:induction false} FreeFallRun(b: Body, ground: Body, frames: seq<Keys>)
    requires forall i :: 0 <= i < |frames| ==> frames[i] == NoKeys
    requires !OverPlatform(b, ground)
    requires forall k :: 1 <= k <= |frames| ==>
      StepHeight(b.position.y, b.velocity.y, b.gravity, k) >= FallLimit
    ensures var r := Run(b, ground, frames);
            && r.velocity.y == StepSpeed(b.velocity.y, b.gravity, |frames|)
            && r.position.y == StepHeight(b.position.y, b.velocity.y, b.gravity, |frames|)
            && r.position.x == b.position.x
            && SameExceptMotion(b, r)
            && !OverPlatform(r, ground)
    decreases |frames|
  {
    if frames != [] {
      var y0, v0, g := b.position.y, b.velocity.y, b.gravity;
      assert StepHeight(y0, v0, g, 1) == y0 + v0 + g;
      FreeFallStep(b, ground);
      var b1 := Frame(b, ground, NoKeys);
      forall k | 1 <= k <= |frames| - 1
        ensures StepHeight(b1.position.y, b1.velocity.y, b1.gravity, k) >= FallLimit
      {
        assert StepHeight(y0, v0, g, k + 1) == StepHeight(b1.position.y, b1.velocity.y, b1.gravity, k);
      }
      FreeFallRun(b1, ground, frames[1..]);
      assert Run(b, ground, frames) == Run(b1, ground, frames[1..]);
    }
  }

  // ---------------------------------------------------------------------
  // The reset of script.js:172-175, as written and as intended

  /**
   * A reset fires only on a frame that ends moving down; the intended reset
   * stops the body, while the code as written, whose velocity.set call
   * throws, leaves it falling at that speed.
   */
  lemma ResetAsWrittenKeepsFallSpeed(b: Body)
    requires b.position.y >= FallLimit && FallsOut(b)
    ensures AfterResetAsWritten(Fallen(b)).velocity.y < 0.0
    ensures AfterReset(Fallen(b)).velocity.y == 0.0
    ensures AfterResetAsWritten(Fallen(b)) != AfterReset(Fallen(b))
  {
  }

  /**
   * A concrete fall off the right edge of the page's ground: update takes
   * the off-platform branch and resets, and as written the cube keeps
   * vy = -0.205 while the intended reset stops it.
   */
  lemma ResetAsWrittenExample()
    ensures var ground := WithSides(Body(5.0, 0.5, 10.0, Vec3(0.0, -2.0, 0.0), Origin,
                                         0.0, 0.0, 0.0, 0.0, 0.0, 0.0, Gravity));
            var b := Body(1.0, 1.0, 1.0, Vec3(3.5, -9.9, 0.0), Vec3(0.0, -0.2, 0.0),
                          0.0, 0.0, 0.0, 0.0, 0.0, 0.0, Gravity);
            var fallen := Fallen(MovedX(WithSides(b)));
            && !OverPlatform(b, ground)
            && ResetFires(b, ground)
            && AfterResetAsWritten(fallen).velocity == Vec3(0.0, -0.205, 0.0)
            && Updated(b, ground) == AfterReset(fallen)
            && Updated(b, ground).velocity == Origin
  {
  }

  /** The reset the model uses puts position and velocity at the origin and touches nothing else. */
  lemma ResetRestoresOrigin(b: Body, ground: Body)
    requires ResetFires(b, ground)
    ensures Updated(b, ground).position == Origin && Updated(b, ground).velocity == Origin
    ensures Updated(b, ground) == AfterReset(MovedX(WithSides(b)))
  {
  }
}
