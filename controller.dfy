/** The viewer's movement state as the page holds it: one object whose fields
    the key, click and frame handlers update in place. Each handler is proved
    to leave the object in the state the matching function of module
    Navigation describes. */
module Controller {
  import opened Vectors
  import opened Navigation
  import Traces

  class NavigationState {
    var moveForward: bool
    var moveBackward: bool
    var moveLeft: bool
    var moveRight: bool
    var canJump: bool
    var velocity: Vec3
    /** The camera's position. */
    var camera: Vec3
    /** The orbit controller's target. */
    var target: Vec3
    /** The position of the marker ball. */
    var ball: Vec3
    /** Time of the previous frame, in milliseconds. */
    var prevTime: real
    /** Time of the previous double-click event, in milliseconds. */
    var lastTime: real

    function Snapshot(): Nav
      reads this
    {
      Nav(moveForward, moveBackward, moveLeft, moveRight, canJump,
          velocity, camera, target, ball, prevTime, lastTime)
    }

    constructor (now: real)
      ensures Snapshot() == Init(now)
      ensures Traces.Consistent(Snapshot())
    {
      moveForward, moveBackward, moveLeft, moveRight := false, false, false, false;
      canJump := false;
      velocity := Zero;
      camera := Vec3(3.0, 3.0, 3.0);
      target := Zero;
      ball := Zero;
      prevTime := now;
      lastTime := InitialLastTime;
    }

    method OnKeyDown(code: string)
      modifies this
      ensures Snapshot() == KeyDown(old(Snapshot()), code)
      ensures old(Traces.Consistent(Snapshot())) ==> Traces.Consistent(Snapshot())
    {
      if code == "ArrowUp" || code == "KeyW" {
        moveForward := true;
      } else if code == "ArrowLeft" || code == "KeyA" {
        moveLeft := true;
      } else if code == "ArrowDown" || code == "KeyS" {
        moveBackward := true;
      } else if code == "ArrowRight" || code == "KeyD" {
        moveRight := true;
      } else if code == "Space" {
        if canJump {
          velocity := velocity.(y := velocity.y + JumpImpulse);
        }
        canJump := false;
      }
    }

    method OnKeyUp(code: string)
      modifies this
      ensures Snapshot() == KeyUp(old(Snapshot()), code)
      ensures old(Traces.Consistent(Snapshot())) ==> Traces.Consistent(Snapshot())
    {
      if code == "ArrowUp" || code == "KeyW" {
        moveForward := false;
      } else if code == "ArrowLeft" || code == "KeyA" {
        moveLeft := false;
      } else if code == "ArrowDown" || code == "KeyS" {
        moveBackward := false;
      } else if code == "ArrowRight" || code == "KeyD" {
        moveRight := false;
      }
    }

    /** One frame at time `time`. The page passes as `forward` the camera's
        facing direction flattened and normalised (HorizontalBasis) and as
        `diag` the factor 1 / sqrt(2) (IsInvSqrt2); the step itself needs
        only that the basis is level and the factor positive. */
    method FrameStep(time: real, forward: Vec3, diag: real)
      requires forward.y == 0.0 && diag > 0.0
      modifies this
      ensures Snapshot() == Frame(old(Snapshot()), time, forward, diag)
      ensures camera.y >= Ground
      ensures old(Traces.Consistent(Snapshot())) && time >= old(prevTime) ==> Traces.Consistent(Snapshot())
    {
      ghost var s0 := Snapshot();
      assert s0 == old(Snapshot());
      var delta := (time - prevTime) / 1000.0;
      assert delta == Delta(s0, time);
      prevTime := time;
      ApplyDamping(delta);
      KeyMovesOnlyKeys(Snapshot(), s0, forward, delta, diag);
      ApplyKeyMoves(forward, delta, diag);
      ApplyVelocity(forward, delta);
      ghost var km := KeyMoves(s0, forward, delta, diag);
      ghost var vm := VelocityMoves(velocity, forward, delta);
      AppendMoves(s0.camera, km, vm);
      AppendMoves(s0.target, km, vm);
      TranslatedByFields(s0, time, forward, diag, Snapshot());
      ClampToGround();
      if Traces.Consistent(s0) && time >= s0.prevTime {
        Traces.StepConsistent(s0, Traces.FrameEvent(time, forward), diag);
      }
    }

    /** Horizontal damping, then gravity. */
    method ApplyDamping(delta: real)
      modifies this`velocity
      ensures velocity == Damped(old(velocity), delta)
    {
      velocity := velocity.(x := velocity.x - velocity.x * Damping * delta);
      velocity := velocity.(z := velocity.z - velocity.z * Damping * delta);
      velocity := velocity.(y := velocity.y - Gravity * delta);
    }

    /** The key-driven moves, each added to the camera and to the target. */
    method ApplyKeyMoves(forward: Vec3, delta: real, diag: real)
      requires forward.y == 0.0 && diag > 0.0
      modifies this`camera, this`target
      ensures var ms := KeyMoves(old(Snapshot()), forward, delta, diag);
              camera == ApplyAll(old(camera), ms) && target == ApplyAll(old(target), ms)
    {
      ghost var s0 := Snapshot();
      assert s0 == old(Snapshot());
      var direction := Vec3(Number(moveRight) - Number(moveLeft), 0.0, Number(moveForward) - Number(moveBackward));
      direction := Normalized(direction, diag);
      var right := RightOf(forward);
      assert direction == Normalized(RawDirection(s0), diag);
      if moveForward || moveBackward {
        var move := Scale(forward, direction.z * MoveSpeed * delta);
        assert move == ForwardMove(s0, forward, delta, diag);
        camera := Add(camera, move);
        target := Add(target, move);
      }
      if moveLeft || moveRight {
        var move := Scale(right, direction.x * MoveSpeed * delta);
        assert move == RightMove(s0, forward, delta, diag);
        camera := Add(camera, move);
        target := Add(target, move);
      }
      KeyMovesInTurn(s0, forward, delta, diag, s0.camera);
      KeyMovesInTurn(s0, forward, delta, diag, s0.target);
    }

    /** The velocity-driven moves along forward, right and up, added first to
        the camera and then to the target. */
    method ApplyVelocity(forward: Vec3, delta: real)
      requires forward.y == 0.0
      modifies this`camera, this`target
      ensures var ms := VelocityMoves(velocity, forward, delta);
              camera == ApplyAll(old(camera), ms) && target == ApplyAll(old(target), ms)
    {
      ghost var s0 := Snapshot();
      var right := RightOf(forward);
      var velForward := Scale(forward, -velocity.z * delta);
      var velRight := Scale(right, -velocity.x * delta);
      var velUp := Vec3(0.0, velocity.y * delta, 0.0);
      camera := Add(camera, velForward);
      camera := Add(camera, velRight);
      camera := Add(camera, velUp);
      target := Add(target, velForward);
      target := Add(target, velRight);
      target := Add(target, velUp);
      ApplyThree(s0.camera, velForward, velRight, velUp);
      ApplyThree(s0.target, velForward, velRight, velUp);
      ghost var vm := VelocityMoves(s0.velocity, forward, delta);
      assert velocity == s0.velocity;
      assert vm[0] == velForward;
      assert vm[1] == velRight;
      assert vm[2] == velUp;
      assert [velForward, velRight, velUp] == vm;
    }

    static lemma ApplyThree(p: Vec3, a: Vec3, b: Vec3, c: Vec3)
      ensures ApplyAll(p, [a, b, c]) == Add(Add(Add(p, a), b), c)
    {
      ApplyOneMore(p, [], a);
      ApplyOneMore(p, [a], b);
      ApplyOneMore(p, [a, b], c);
      assert [] + [a] == [a] && [a] + [b] == [a, b] && [a, b] + [c] == [a, b, c];
    }

    /** Ground contact. */
    method ClampToGround()
      modifies this
      ensures Snapshot() == GroundClamp(old(Snapshot()))
    {
      if camera.y < Ground {
        velocity := velocity.(y := 0.0);
        camera := camera.(y := Ground);
        target := target.(y := Max(Ground, target.y));
        canJump := true;
      }
    }

    /** A double-click event at `checkTime`, recorded as `stampTime`. The
        hit test's answer for the click position is `hit`. */
    method OnClick(checkTime: real, stampTime: real, hit: Option<Vec3>)
      modifies this
      ensures Snapshot() == Click(old(Snapshot()), checkTime, stampTime, hit)
      ensures old(Traces.Consistent(Snapshot())) ==> Traces.Consistent(Snapshot())
    {
      if checkTime - lastTime < DoubleClickWindow {
        if hit.Some? {
          target := hit.value;
          ball := hit.value;
        }
      }
      lastTime := stampTime;
    }
  }
}
