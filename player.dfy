/** The demo's module-level movement state as one object: the four flags the key handlers
    assign, the persistent velocity and direction vectors animate updates field by field, and
    the constants it reads. The pointer-lock state is an input to each frame and the two
    calls on the controls are returned, in order. */
module Player {
  import opened Input
  import opened Motion

  class Game {
    var moveForward: bool
    var moveBackward: bool
    var moveLeft: bool
    var moveRight: bool
    var velocityX: real
    var velocityZ: real
    var directionX: real
    var directionZ: real
    /** isGrounded: false from the start and, being a constant, never assigned. */
    const isGrounded: bool
    /** The square root of two as the library's normalisation computes it. */
    const root2: real

    /** The flags as one value. */
    function Flags(): Keys
      reads this
    {
      Keys(moveForward, moveBackward, moveLeft, moveRight)
    }

    function Velocity(): Vec
      reads this
    {
      Vec(velocityX, velocityZ)
    }

    function Direction(): Vec
      reads this
    {
      Vec(directionX, directionZ)
    }

    /** The state as the script starts: no key held, velocity and direction zero,
        not grounded. */
    constructor (root2: real)
      requires IsRootTwo(root2)
      ensures this.root2 == root2 && IsRootTwo(this.root2) && !isGrounded
      ensures Flags() == NoKeys && Velocity() == Zero && Direction() == Zero
    {
      moveForward, moveBackward, moveLeft, moveRight := false, false, false, false;
      velocityX, velocityZ := 0.0, 0.0;
      directionX, directionZ := 0.0, 0.0;
      isGrounded := false;
      this.root2 := root2;
    }

    /** onKeyDown: sets the flag bound to the code; changes no other field. */
    method OnKeyDown(code: string)
      modifies this`moveForward, this`moveBackward, this`moveLeft, this`moveRight
      ensures Flags() == Press(old(Flags()), code)
    {
      match code {
        case "ArrowUp" | "KeyW" => moveForward := true;
        case "ArrowDown" | "KeyS" => moveBackward := true;
        case "ArrowLeft" | "KeyA" => moveLeft := true;
        case "ArrowRight" | "KeyD" => moveRight := true;
        case _ =>
      }
    }

    /** onKeyUp: clears the flag bound to the code; changes no other field. */
    method OnKeyUp(code: string)
      modifies this`moveForward, this`moveBackward, this`moveLeft, this`moveRight
      ensures Flags() == Release(old(Flags()), code)
    {
      match code {
        case "ArrowUp" | "KeyW" => moveForward := false;
        case "ArrowDown" | "KeyS" => moveBackward := false;
        case "ArrowLeft" | "KeyA" => moveLeft := false;
        case "ArrowRight" | "KeyD" => moveRight := false;
        case _ =>
      }
    }

    /** One frame of animate: the direction is recomputed from the flags, and only when the
        pointer is locked is the velocity updated and the two moves made. The flags are
        left alone; the new direction, velocity and calls are those of Step. */
    method Animate(isLocked: bool) returns (calls: seq<CameraCall>)
      requires root2 > 0.0
      modifies this`directionX, this`directionZ, this`velocityX, this`velocityZ
      ensures var f := Step(Flags(), isGrounded, isLocked, root2, old(Velocity()));
        Direction() == f.direction && Velocity() == f.velocity && calls == f.calls
    {
      var rz := Number(moveForward) - Number(moveBackward);
      var rx := Number(moveLeft) - Number(moveRight);
      var d := Normalize(rx, rz, root2);
      directionZ, directionX := d.z, d.x;

      if isLocked {
        var delta := Delta;
        if isGrounded {
          velocityX := velocityX - velocityX * Damping * delta;
          velocityZ := velocityZ - velocityZ * Damping * delta;
        }
        if moveForward || moveBackward {
          velocityZ := velocityZ - directionZ * WalkSpeed * delta;
        }
        if moveLeft || moveRight {
          velocityX := velocityX - directionX * WalkSpeed * delta;
        }
        calls := [MoveRight(-velocityX * delta), MoveForward(-velocityZ * delta)];
      } else {
        calls := [];
      }
    }
  }

  /** A client: from the initial state, pressing W and running one locked frame moves the
      camera 0.05 forward and 0 to the right; releasing W leaves every flag false. */
  method PressForwardOneFrame(root2: real) returns (calls: seq<CameraCall>, keysAfter: Keys)
    requires IsRootTwo(root2)
    ensures calls == [MoveRight(0.0), MoveForward(0.05)]
    ensures keysAfter == NoKeys
  {
    var g := new Game(root2);
    g.OnKeyDown("KeyW");
    calls := g.Animate(true);
    ForwardFromRest(root2);
    g.OnKeyUp("KeyW");
    keysAfter := g.Flags();
  }

  /** A client: with the pointer not locked, holding forward and right through a frame
      leaves the velocity zero and moves nothing, though the direction is still computed. */
  method UnlockedFrameMovesNothing(root2: real) returns (calls: seq<CameraCall>, v: Vec, d: Vec)
    requires IsRootTwo(root2)
    ensures calls == [] && v == Zero
    ensures d.x < 0.0 && d.z > 0.0
  {
    var g := new Game(root2);
    g.OnKeyDown("ArrowUp");
    g.OnKeyDown("KeyD");
    calls := g.Animate(false);
    v := g.Velocity();
    d := g.Direction();
  }
}
