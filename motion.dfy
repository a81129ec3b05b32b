/** One frame of the demo's movement: the raw axes derived from the four flags, their
    normalisation, the optional damping, the directional impulse on the persistent velocity,
    and the two signed distances handed to the pointer-lock controls. */
module Motion {
  import opened Input

  /** walkSpeed, never reassigned. */
  const WalkSpeed: real := 5.0
  /** The fixed frame-time factor delta. */
  const Delta: real := 0.1
  /** The damping coefficient of the grounded branch. */
  const Damping: real := 10.0

  /** The planar (x, z) part of a three.js vector; its y component is never read. */
  datatype Vec = Vec(x: real, z: real)

  const Zero := Vec(0.0, 0.0)

  /** A call on the pointer-lock controls, with its signed distance. */
  datatype CameraCall = MoveRight(distance: real) | MoveForward(distance: real)

  /** JavaScript's Number(b) on a boolean. */
  function Number(b: bool): (n: int)
    ensures n == 0 || n == 1
    ensures n == 1 <==> b
  {
    if b then 1 else 0
  }

  /** A raw axis value: Number(pos) - Number(neg). */
  function RawAxis(pos: bool, neg: bool): (a: int)
    ensures -1 <= a <= 1
    ensures a == 0 <==> pos == neg
    ensures a == 1 <==> pos && !neg
    ensures a == -1 <==> neg && !pos
  {
    Number(pos) - Number(neg)
  }

  /** direction.x: left minus right. */
  function AxisX(k: Keys): (a: int)
    ensures -1 <= a <= 1
  {
    RawAxis(k.left, k.right)
  }

  /** direction.z: forward minus backward. */
  function AxisZ(k: Keys): (a: int)
    ensures -1 <= a <= 1
  {
    RawAxis(k.forward, k.backward)
  }

  /** The library's value of the square root of two is what the normalisation needs of the
      square root: this is the only irrational length a raw pair can have. */
  predicate IsRootTwo(root2: real) {
    root2 > 0.0 && root2 * root2 == 2.0
  }

  /** The Euclidean length of a raw pair (x, z) with both in {-1, 0, 1}. */
  function Length(x: int, z: int, root2: real): real
    requires -1 <= x <= 1 && -1 <= z <= 1
  {
    if x == 0 && z == 0 then 0.0
    else if x == 0 || z == 0 then 1.0
    else root2
  }

  /** The length computed above is the Euclidean length. */
  lemma LengthIsEuclidean(x: int, z: int, root2: real)
    requires -1 <= x <= 1 && -1 <= z <= 1
    requires IsRootTwo(root2)
    ensures Length(x, z, root2) >= 0.0
    ensures Length(x, z, root2) * Length(x, z, root2) == (x * x + z * z) as real
  {
  }

  /** direction.normalize() on a raw pair: divide by the length, or by 1 when the length
      is 0, so the zero vector stays zero. The result keeps each component's sign and zero
      pattern and points the same way as the raw pair. */
  function Normalize(x: int, z: int, root2: real): (d: Vec)
    requires -1 <= x <= 1 && -1 <= z <= 1
    requires root2 > 0.0
    ensures d.x == 0.0 <==> x == 0
    ensures d.z == 0.0 <==> z == 0
    ensures d.x > 0.0 <==> x > 0
    ensures d.z > 0.0 <==> z > 0
    ensures d.x * z as real == d.z * x as real
  {
    var len := Length(x, z, root2);
    var divisor := if len == 0.0 then 1.0 else len;
    Vec(x as real / divisor, z as real / divisor)
  }

  /** The normalised direction has length 1 unless the raw pair is zero. */
  lemma UnitDirection(x: int, z: int, root2: real)
    requires -1 <= x <= 1 && -1 <= z <= 1
    requires IsRootTwo(root2)
    requires x != 0 || z != 0
    ensures Normalize(x, z, root2).x * Normalize(x, z, root2).x
          + Normalize(x, z, root2).z * Normalize(x, z, root2).z == 1.0
  {
  }

  /** What one frame computes: the new direction, the new velocity, and the calls on the
      controls, in order. */
  datatype Frame = Frame(direction: Vec, velocity: Vec, calls: seq<CameraCall>)

  /** The body of animate on the movement state: the direction is derived every frame; only
      when the pointer is locked is the velocity damped (when grounded), pushed on the axes
      whose keys are held, and turned into the two distances. */
  function Step(k: Keys, grounded: bool, locked: bool, root2: real, v: Vec): Frame
    requires root2 > 0.0
  {
    var dir := Normalize(AxisX(k), AxisZ(k), root2);
    if !locked then Frame(dir, v, [])
    else
      var damped :=
        if grounded then Vec(v.x - v.x * Damping * Delta, v.z - v.z * Damping * Delta) else v;
      var vz := if k.forward || k.backward then damped.z - dir.z * WalkSpeed * Delta else damped.z;
      var vx := if k.left || k.right then damped.x - dir.x * WalkSpeed * Delta else damped.x;
      Frame(dir, Vec(vx, vz), [MoveRight(-vx * Delta), MoveForward(-vz * Delta)])
  }

  /** With the pointer not locked a frame leaves the velocity as it was and moves nothing,
      whatever keys are held. */
  lemma UnlockedFrameIsInert(k: Keys, grounded: bool, root2: real, v: Vec)
    requires root2 > 0.0
    ensures Step(k, grounded, false, root2, v).velocity == v
    ensures Step(k, grounded, false, root2, v).calls == []
  {
  }

  /** A locked frame always makes exactly two calls, moveRight then moveForward, with the
      velocity after this frame's updates negated and scaled by delta. */
  lemma LockedFrameEmitsDistances(k: Keys, grounded: bool, root2: real, v: Vec)
    requires root2 > 0.0
    ensures var f := Step(k, grounded, true, root2, v);
      f.calls == [MoveRight(-f.velocity.x * Delta), MoveForward(-f.velocity.z * Delta)]
  {
  }

  /** Not grounded (as the demo always is), a locked frame with no movement key held keeps
      the velocity: the damping branch does not run and no impulse is added, so the camera
      goes on by the same distances. */
  lemma IdleFrameKeepsVelocity(k: Keys, root2: real, v: Vec)
    requires root2 > 0.0
    requires k == NoKeys
    ensures Step(k, false, true, root2, v).velocity == v
    ensures Step(k, false, true, root2, v).calls == [MoveRight(-v.x * Delta), MoveForward(-v.z * Delta)]
  {
  }

  /** Not grounded, velocity.z changes in a locked frame exactly when one of forward and
      backward is held without the other; velocity.x likewise for left and right. Holding
      both keys of a pair, or neither, leaves that component as it was. */
  lemma AxisChangesOnlyWhenHeld(k: Keys, root2: real, v: Vec)
    requires root2 > 0.0
    ensures Step(k, false, true, root2, v).velocity.z != v.z <==> k.forward != k.backward
    ensures Step(k, false, true, root2, v).velocity.x != v.x <==> k.left != k.right
  {
  }

  /** The sign convention, not grounded: forward alone pushes velocity.z down, so that the
      moveForward distance, its negation, grows; backward alone the reverse. On the x axis,
      which is left minus right, left alone makes the moveRight distance grow and right
      alone makes it shrink. */
  lemma ImpulseSigns(k: Keys, root2: real, v: Vec)
    requires root2 > 0.0
    ensures var f := Step(k, false, true, root2, v);
      (f.calls[1].distance > -v.z * Delta <==> k.forward && !k.backward) &&
      (f.calls[1].distance < -v.z * Delta <==> k.backward && !k.forward) &&
      (f.calls[0].distance > -v.x * Delta <==> k.left && !k.right) &&
      (f.calls[0].distance < -v.x * Delta <==> k.right && !k.left)
  {
  }

  /** Not grounded, the change a locked frame makes to the velocity has magnitude
      walkSpeed * delta (0.5) whenever the held keys give a non-zero direction, diagonals
      included, and is zero otherwise. */
  lemma ImpulseMagnitude(k: Keys, root2: real, v: Vec)
    requires IsRootTwo(root2)
    ensures var w := Step(k, false, true, root2, v).velocity;
      var dx := w.x - v.x;
      var dz := w.z - v.z;
      dx * dx + dz * dz == if AxisX(k) == 0 && AxisZ(k) == 0 then 0.0 else 0.25
  {
  }

  /** Were the damping branch live, its factor 10.0 * 0.1 is exactly 1: in exact arithmetic
      one grounded locked frame with no key held stops the velocity outright, rather than
      decaying it step by step. */
  lemma GroundedDampingStopsAtOnce(k: Keys, root2: real, v: Vec)
    requires root2 > 0.0
    requires k == NoKeys
    ensures Step(k, true, true, root2, v).velocity == Zero
  {
  }

  /** The scenario of pressing forward alone from rest: velocity becomes (0, -0.5) and the
      camera moves 0.05 forward and 0 to the right. */
  lemma ForwardFromRest(root2: real)
    requires root2 > 0.0
    ensures var f := Step(Keys(true, false, false, false), false, true, root2, Zero);
      f.direction == Vec(0.0, 1.0) && f.velocity == Vec(0.0, -0.5) &&
      f.calls == [MoveRight(0.0), MoveForward(0.05)]
  {
  }

  /** Right alone from rest: x is left minus right, so velocity.x becomes +0.5 and the
      moveRight distance is -0.05, a move to the camera's left. */
  lemma RightFromRest(root2: real)
    requires root2 > 0.0
    ensures var f := Step(Keys(false, false, false, true), false, true, root2, Zero);
      f.direction == Vec(-1.0, 0.0) && f.velocity == Vec(0.5, 0.0) &&
      f.calls == [MoveRight(-0.05), MoveForward(0.0)]
  {
  }

  /** Right alone from any velocity: each locked frame lowers the moveRight distance by
      exactly 0.05 from the -v.x * 0.1 the old velocity would give, and leaves the forward
      distance at -v.z * 0.1. Only from rest or a rightward-moving velocity is the result a
      move to the camera's left; after leftward motion the camera first slows down. */
  lemma RightPushesMoveRightDown(root2: real, v: Vec)
    requires root2 > 0.0
    ensures Step(Keys(false, false, false, true), false, true, root2, v).calls ==
      [MoveRight(-v.x * Delta - 0.05), MoveForward(-v.z * Delta)]
  {
  }

  /** Forward and left from rest: both components become -0.5 / sqrt 2 (about -0.354), so
      both distances are 0.05 / sqrt 2 and the speed is that of a single key. */
  lemma ForwardLeftFromRest(root2: real)
    requires IsRootTwo(root2)
    ensures var f := Step(Keys(true, false, true, false), false, true, root2, Zero);
      f.velocity == Vec(-0.5 / root2, -0.5 / root2) &&
      f.calls == [MoveRight(0.05 / root2), MoveForward(0.05 / root2)] &&
      f.velocity.x * f.velocity.x + f.velocity.z * f.velocity.z == 0.25
  {
    var f := Step(Keys(true, false, true, false), false, true, root2, Zero);
    var h := 1.0 / root2;
    assert f.direction == Vec(h, h);
    assert f.velocity == Vec(-0.5 * h, -0.5 * h);
    assert -(-0.5 * h) * 0.1 == 0.05 * h;
    assert 0.05 * h == 0.05 / root2 && -0.5 * h == -0.5 / root2;
    ImpulseMagnitude(Keys(true, false, true, false), root2, Zero);
  }

  /** The velocity after n frames with the same keys held, pointer state and grounding. */
  function Run(k: Keys, grounded: bool, locked: bool, root2: real, v: Vec, n: nat): Vec
    requires root2 > 0.0
    decreases n
  {
    if n == 0 then v else Step(k, grounded, locked, root2, Run(k, grounded, locked, root2, v, n - 1)).velocity
  }

  /** Not grounded, a locked frame adds to any velocity the velocity it gives from rest. */
  lemma FrameAddsImpulse(k: Keys, root2: real, v: Vec)
    requires root2 > 0.0
    ensures var i := Step(k, false, true, root2, Zero).velocity;
      Step(k, false, true, root2, v).velocity == Vec(v.x + i.x, v.z + i.z)
  {
  }

  /** a added to itself n times. */
  function Repeated(n: nat, a: real): real
    decreases n
  {
    if n == 0 then 0.0 else Repeated(n - 1, a) + a
  }

  /** Adding a n times is multiplying it by n. */
  lemma {:induction false} RepeatedIsProduct(n: nat, a: real)
    ensures Repeated(n, a) == n as real * a
    decreases n
  {
    if n > 0 {
      RepeatedIsProduct(n - 1, a);
      var c := (n - 1) as real;
      assert n as real == c + 1.0;
      assert c * a + a == (c + 1.0) * a;
    }
  }

  /** Not grounded, every locked frame adds the same impulse, so holding the same keys for n
      frames adds it to the starting velocity once per frame. */
  lemma {:induction false} RunAddsImpulsePerFrame(k: Keys, root2: real, v: Vec, n: nat)
    requires root2 > 0.0
    ensures var i := Step(k, false, true, root2, Zero).velocity;
      Run(k, false, true, root2, v, n) == Vec(v.x + Repeated(n, i.x), v.z + Repeated(n, i.z))
    decreases n
  {
    if n > 0 {
      RunAddsImpulsePerFrame(k, root2, v, n - 1);
      FrameAddsImpulse(k, root2, Run(k, false, true, root2, v, n - 1));
    }
  }

  /** v plus n copies of i is v plus n times i. */
  lemma RepeatedSumIsScaled(v: Vec, i: Vec, n: nat, w: Vec)
    requires w == Vec(v.x + Repeated(n, i.x), v.z + Repeated(n, i.z))
    ensures w == Vec(v.x + n as real * i.x, v.z + n as real * i.z)
  {
    RepeatedIsProduct(n, i.x);
    RepeatedIsProduct(n, i.z);
  }

  /** The closed form: not grounded, n locked frames with the same keys held move the
      velocity from v to v + n * i, where i is the one-frame impulse; nothing ever pulls the
      velocity back. */
  lemma HeldKeysAccumulate(k: Keys, root2: real, v: Vec, n: nat, i: Vec)
    requires root2 > 0.0
    requires i == Step(k, false, true, root2, Zero).velocity
    ensures Run(k, false, true, root2, v, n) == Vec(v.x + n as real * i.x, v.z + n as real * i.z)
  {
    RunAddsImpulsePerFrame(k, root2, v, n);
    RepeatedSumIsScaled(v, i, n, Run(k, false, true, root2, v, n));
  }

  /** With no key held and the pointer locked (not grounded), the velocity never changes:
      from rest it stays zero for any number of frames. */
  lemma {:induction false} IdleRunKeepsVelocity(root2: real, v: Vec, n: nat)
    requires root2 > 0.0
    ensures Run(NoKeys, false, true, root2, v, n) == v
    decreases n
  {
    if n > 0 {
      IdleRunKeepsVelocity(root2, v, n - 1);
      IdleFrameKeepsVelocity(NoKeys, root2, v);
    }
  }

  /** With the pointer not locked the velocity never changes, whatever is held. */
  lemma {:induction false} UnlockedRunKeepsVelocity(k: Keys, grounded: bool, root2: real, v: Vec, n: nat)
    requires root2 > 0.0
    ensures Run(k, grounded, false, root2, v, n) == v
    decreases n
  {
    if n > 0 {
      UnlockedRunKeepsVelocity(k, grounded, root2, v, n - 1);
    }
  }

  /** Holding forward alone from rest for n frames: velocity.z is -0.5 * n, so the n-th
      frame moves the camera 0.05 * n forward; the speed grows without bound. */
  lemma {:induction false} ForwardSpeedGrows(root2: real, n: nat)
    requires root2 > 0.0
    ensures Run(Keys(true, false, false, false), false, true, root2, Zero, n) == Vec(0.0, -0.5 * n as real)
    decreases n
  {
    if n > 0 {
      ForwardSpeedGrows(root2, n - 1);
    }
  }

  /** Pressing forward, one frame, releasing it, one more frame: the flags are all false
      again, but the velocity is kept and the camera still moves 0.05 forward. */
  lemma ReleasedKeyKeepsSliding(root2: real)
    requires root2 > 0.0
    ensures var pressed := Press(NoKeys, "KeyW");
      var first := Step(pressed, false, true, root2, Zero);
      var released := Release(pressed, "KeyW");
      var second := Step(released, false, true, root2, first.velocity);
      released == NoKeys && second.calls == [MoveRight(0.0), MoveForward(0.05)]
  {
  }
}
