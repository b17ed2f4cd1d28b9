/** The viewer's navigation state as a value, and what each input event and
    each rendered frame does to it. The class in module Controller performs
    these steps in place and is proved to agree with the functions here. */
module Navigation {
  import opened Vectors

  datatype Option<T> = None | Some(value: T)

  /** The four movement intents a held key can express. */
  datatype Intent = Forward | Backward | Left | Right

  /** Everything the input handlers and the frame step read or write:
      the intent flags, whether a jump is allowed, the velocity, the camera
      position, the orbit target, the marker ball, the time of the previous
      frame and the time of the previous double-click event (milliseconds). */
  datatype Nav = Nav(
    moveForward: bool,
    moveBackward: bool,
    moveLeft: bool,
    moveRight: bool,
    canJump: bool,
    velocity: Vec3,
    camera: Vec3,
    target: Vec3,
    ball: Vec3,
    prevTime: real,
    lastTime: real)

  const MoveSpeed: real := 10.0
  const Damping: real := 10.0
  const Gravity: real := 9.8 * 100.0
  const JumpImpulse: real := 350.0
  const Ground: real := 1.0
  const DoubleClickWindow: real := 300.0
  const InitialLastTime: real := -1000.0

  /** The state at start-up: camera at (3, 3, 3), orbit target and ball at the
      origin, nothing held, at rest, not allowed to jump, the previous frame
      stamped at `now` and the previous click a full second before the
      clock's origin. */
  function Init(now: real): (s: Nav)
    ensures !s.moveForward && !s.moveBackward && !s.moveLeft && !s.moveRight && !s.canJump
    ensures s.velocity == Zero && s.camera == Vec3(3.0, 3.0, 3.0) && s.camera.y > Ground
    ensures s.target == Zero && s.ball == Zero && s.prevTime == now
    ensures s.lastTime <= -DoubleClickWindow
    ensures now >= 0.0 ==> now - s.lastTime >= DoubleClickWindow
  {
    Nav(false, false, false, false, false, Zero, Vec3(3.0, 3.0, 3.0), Zero, Zero, now, InitialLastTime)
  }

  // ---------------------------------------------------------------- keys

  /** The key table: which intent each key code stands for. */
  function IntentOf(code: string): Option<Intent> {
    if code == "ArrowUp" || code == "KeyW" then Some(Forward)
    else if code == "ArrowLeft" || code == "KeyA" then Some(Left)
    else if code == "ArrowDown" || code == "KeyS" then Some(Backward)
    else if code == "ArrowRight" || code == "KeyD" then Some(Right)
    else None
  }

  function Flag(s: Nav, i: Intent): bool {
    match i
    case Forward => s.moveForward
    case Backward => s.moveBackward
    case Left => s.moveLeft
    case Right => s.moveRight
  }

  function WithFlag(s: Nav, i: Intent, b: bool): Nav {
    match i
    case Forward => s.(moveForward := b)
    case Backward => s.(moveBackward := b)
    case Left => s.(moveLeft := b)
    case Right => s.(moveRight := b)
  }

  /** A key press: a movement key raises its own flag and no other; Space
      adds the jump impulse only when a jump is allowed, and forbids the next
      jump in every case; any other code changes nothing. */
  function KeyDown(s: Nav, code: string): (r: Nav)
    ensures forall i :: Flag(r, i) == (Flag(s, i) || IntentOf(code) == Some(i))
    ensures r.canJump == (s.canJump && code != "Space")
    ensures r.velocity.y == if code == "Space" && s.canJump then s.velocity.y + JumpImpulse else s.velocity.y
    ensures r.velocity.x == s.velocity.x && r.velocity.z == s.velocity.z
    ensures r.camera == s.camera && r.target == s.target && r.ball == s.ball
    ensures r.prevTime == s.prevTime && r.lastTime == s.lastTime
    ensures IntentOf(code) == None && code != "Space" ==> r == s
  {
    match IntentOf(code)
    case Some(i) => WithFlag(s, i, true)
    case None =>
      if code == "Space" then
        s.(velocity := if s.canJump then s.velocity.(y := s.velocity.y + JumpImpulse) else s.velocity,
           canJump := false)
      else s
  }

  /** A key release: a movement key lowers its own flag and no other; every
      other code, Space included, changes nothing. */
  function KeyUp(s: Nav, code: string): (r: Nav)
    ensures forall i :: Flag(r, i) == (Flag(s, i) && IntentOf(code) != Some(i))
    ensures r.canJump == s.canJump && r.velocity == s.velocity
    ensures r.camera == s.camera && r.target == s.target && r.ball == s.ball
    ensures r.prevTime == s.prevTime && r.lastTime == s.lastTime
    ensures IntentOf(code) == None ==> r == s
  {
    match IntentOf(code)
    case Some(i) => WithFlag(s, i, false)
    case None => s
  }

  /** Releasing a movement key that was up before it was pressed restores the state. */
  lemma KeyUpUndoesKeyDown(s: Nav, code: string)
    requires IntentOf(code).Some? && !Flag(s, IntentOf(code).value)
    ensures KeyUp(KeyDown(s, code), code) == s
  {
    var i := IntentOf(code).value;
    assert code != "Space";
    match i
    case Forward =>
    case Backward =>
    case Left =>
    case Right =>
  }

  /** Pressing Space twice between two frames gives at most one impulse. */
  lemma NoDoubleJump(s: Nav)
    ensures KeyDown(KeyDown(s, "Space"), "Space").velocity.y
         == if s.canJump then s.velocity.y + JumpImpulse else s.velocity.y
    ensures !KeyDown(KeyDown(s, "Space"), "Space").canJump
  {
  }

  // ---------------------------------------------------------------- frame

  /** Seconds elapsed since the previous frame. */
  function Delta(s: Nav, time: real): real {
    (time - s.prevTime) / 1000.0
  }

  /** Horizontal damping and gravity, applied before any movement. */
  function Damped(v: Vec3, delta: real): (w: Vec3)
    ensures w.x == v.x * (1.0 - Damping * delta)
    ensures w.z == v.z * (1.0 - Damping * delta)
    ensures w.y == v.y - 980.0 * delta
  {
    Vec3(v.x - v.x * Damping * delta, v.y - Gravity * delta, v.z - v.z * Damping * delta)
  }

  function Abs(a: real): real {
    if a < 0.0 then -a else a
  }

  /** For a step of at most 0.2 s the damping never increases horizontal speed. */
  lemma DampingSlowsDown(v: Vec3, delta: real)
    requires 0.0 <= delta <= 2.0 / Damping
    ensures Abs(Damped(v, delta).x) <= Abs(v.x)
    ensures Abs(Damped(v, delta).z) <= Abs(v.z)
  {
    var f := 1.0 - Damping * delta;
    assert -1.0 <= f <= 1.0;
    ScaledByAtMostOne(v.x, f);
    ScaledByAtMostOne(v.z, f);
  }

  lemma ScaledByAtMostOne(a: real, f: real)
    requires -1.0 <= f <= 1.0
    ensures Abs(a * f) <= Abs(a)
  {
    if a >= 0.0 {
      if f >= 0.0 { assert a * f <= a * 1.0; } else { assert a * (-f) <= a * 1.0; }
    } else {
      if f >= 0.0 { assert (-a) * f <= (-a) * 1.0; } else { assert (-a) * (-f) <= (-a) * 1.0; }
    }
  }

  /** After a one-second stall the damping reverses and amplifies the
      horizontal velocity: the factor 1 - 10 * delta is -9. */
  lemma DampingOvershootsOnLongStall()
    ensures Damped(Vec3(1.0, 0.0, 1.0), 1.0).x == -9.0
  {
  }

  function Number(b: bool): real {
    if b then 1.0 else 0.0
  }

  predicate IsUnitStep(c: real) {
    c == -1.0 || c == 0.0 || c == 1.0
  }

  /** The key-driven direction before normalisation: forward minus backward
      along z, right minus left along x. Opposite keys cancel. */
  function RawDirection(s: Nav): (d: Vec3)
    ensures d.y == 0.0 && IsUnitStep(d.x) && IsUnitStep(d.z)
    ensures d.z == 0.0 <==> s.moveForward == s.moveBackward
    ensures d.z == 1.0 <==> s.moveForward && !s.moveBackward
    ensures d.x == 0.0 <==> s.moveLeft == s.moveRight
    ensures d.x == 1.0 <==> s.moveRight && !s.moveLeft
  {
    Vec3(Number(s.moveRight) - Number(s.moveLeft), 0.0, Number(s.moveForward) - Number(s.moveBackward))
  }

  /** `diag` is the factor 1 / sqrt(2) that normalising a diagonal direction applies. */
  predicate IsInvSqrt2(diag: real) {
    diag > 0.0 && 2.0 * diag * diag == 1.0
  }

  /** Normalisation of a key-driven direction: the zero vector stays zero,
      any other direction becomes the unit vector with the same heading. */
  function Normalized(d: Vec3, diag: real): (n: Vec3)
    requires d.y == 0.0 && IsUnitStep(d.x) && IsUnitStep(d.z) && diag > 0.0
    ensures n.y == 0.0
    ensures (n.x > 0.0 <==> d.x > 0.0) && (n.x < 0.0 <==> d.x < 0.0)
    ensures (n.z > 0.0 <==> d.z > 0.0) && (n.z < 0.0 <==> d.z < 0.0)
  {
    if d.x != 0.0 && d.z != 0.0 then Scale(d, diag) else d
  }

  /** A normalised key direction has unit length unless it is zero, and it
      points the same way as the raw one. */
  lemma NormalizedIsUnit(d: Vec3, diag: real)
    requires d.y == 0.0 && IsUnitStep(d.x) && IsUnitStep(d.z)
    requires IsInvSqrt2(diag)
    ensures d != Zero ==> SqLength(Normalized(d, diag)) == 1.0
    ensures Normalized(d, diag).x * d.z == Normalized(d, diag).z * d.x
  {
    NormalizedLength(d, diag);
    NormalizedParallel(d, diag);
  }

  lemma NormalizedLength(d: Vec3, diag: real)
    requires d.y == 0.0 && IsUnitStep(d.x) && IsUnitStep(d.z) && diag > 0.0
    ensures SqLength(Normalized(d, diag))
         == if d == Zero then 0.0 else if d.x != 0.0 && d.z != 0.0 then 2.0 * (diag * diag) else 1.0
  {
    if d.x != 0.0 && d.z != 0.0 {
      DiagonalLength(d, diag);
    } else if d != Zero {
      AxisLength(d);
    }
  }

  /** A diagonal key direction scaled by `diag` has squared length `2 diag²`. */
  lemma DiagonalLength(d: Vec3, diag: real)
    requires d.y == 0.0 && (d.x == 1.0 || d.x == -1.0) && (d.z == 1.0 || d.z == -1.0)
    ensures SqLength(Scale(d, diag)) == 2.0 * (diag * diag)
  {
    SignedSquare(d.x * diag, diag);
    SignedSquare(d.z * diag, diag);
  }

  /** A key direction along one axis has unit length. */
  lemma AxisLength(d: Vec3)
    requires d.y == 0.0 && IsUnitStep(d.x) && IsUnitStep(d.z) && (d.x == 0.0 || d.z == 0.0) && d != Zero
    ensures SqLength(d) == 1.0
  {
    SignedSquare(d.x, if d.x == 0.0 then 0.0 else 1.0);
    SignedSquare(d.z, if d.z == 0.0 then 0.0 else 1.0);
  }

  lemma NormalizedParallel(d: Vec3, diag: real)
    requires d.y == 0.0 && IsUnitStep(d.x) && IsUnitStep(d.z) && diag > 0.0
    ensures Normalized(d, diag).x * d.z == Normalized(d, diag).z * d.x
  {
    var n := Normalized(d, diag);
    if d.x != 0.0 && d.z != 0.0 {
      assert n.x == d.x * diag && n.z == d.z * diag;
      assert (d.x * diag) * d.z == (d.z * diag) * d.x;
    }
  }

  lemma SignedSquare(a: real, k: real)
    requires a == k || a == -k
    ensures a * a == k * k
  {
    if a == -k {
      assert a * a == (-k) * (-k);
    }
  }

  /** A camera basis: the facing direction flattened to the ground plane and
      normalised, so it is level and of unit length, or zero when the camera
      looks straight up or down. */
  predicate HorizontalBasis(forward: Vec3) {
    forward.y == 0.0 && (SqLength(forward) == 1.0 || forward == Zero)
  }

  /** The right-hand direction: the cross product of forward and up. It is
      level, perpendicular to forward and as long as forward, so normalising
      it changes nothing. */
  function RightOf(forward: Vec3): (right: Vec3)
    requires forward.y == 0.0
    ensures right.y == 0.0
  {
    Cross(forward, Up)
  }

  /** The right-hand direction is perpendicular to forward and as long as it. */
  lemma RightIsPerpendicular(forward: Vec3)
    requires HorizontalBasis(forward)
    ensures Dot(RightOf(forward), forward) == 0.0
    ensures SqLength(RightOf(forward)) == SqLength(forward)
  {
  }

  /** The move along forward while forward or backward is held. */
  function ForwardMove(s: Nav, forward: Vec3, delta: real, diag: real): Vec3
    requires diag > 0.0
  {
    Scale(forward, Normalized(RawDirection(s), diag).z * MoveSpeed * delta)
  }

  /** The move along right while left or right is held. */
  function RightMove(s: Nav, forward: Vec3, delta: real, diag: real): Vec3
    requires forward.y == 0.0 && diag > 0.0
  {
    Scale(RightOf(forward), Normalized(RawDirection(s), diag).x * MoveSpeed * delta)
  }

  /** The key-driven moves of one frame, in the order they are applied: one
      along forward while forward or backward is held, one along right while
      left or right is held. */
  function KeyMoves(s: Nav, forward: Vec3, delta: real, diag: real): (ms: seq<Vec3>)
    requires forward.y == 0.0 && diag > 0.0
    ensures |ms| == (if s.moveForward || s.moveBackward then 1 else 0)
                  + (if s.moveLeft || s.moveRight then 1 else 0)
    ensures forall i | 0 <= i < |ms| :: ms[i].y == 0.0
    ensures s.moveForward == s.moveBackward && s.moveLeft == s.moveRight ==>
              forall i | 0 <= i < |ms| :: ms[i] == Zero
  {
    var d := Normalized(RawDirection(s), diag);
    var right := RightOf(forward);
    var kz := d.z * MoveSpeed * delta;
    var kx := d.x * MoveSpeed * delta;
    ScaledLevel(forward, kz);
    ScaledLevel(right, kx);
    assert s.moveForward == s.moveBackward ==> Scale(forward, kz) == Zero by {
      if s.moveForward == s.moveBackward { ScaledByZero(forward, kz); }
    }
    assert s.moveLeft == s.moveRight ==> Scale(right, kx) == Zero by {
      if s.moveLeft == s.moveRight { ScaledByZero(right, kx); }
    }
    (if s.moveForward || s.moveBackward then [ForwardMove(s, forward, delta, diag)] else [])
    + (if s.moveLeft || s.moveRight then [RightMove(s, forward, delta, diag)] else [])
  }

  /** The velocity-driven moves of one frame: along forward, along right and
      straight up, taken from the already damped velocity `v`. */
  function VelocityMoves(v: Vec3, forward: Vec3, delta: real): (ms: seq<Vec3>)
    requires forward.y == 0.0
    ensures |ms| == 3 && ms[0].y == 0.0 && ms[1].y == 0.0
    ensures ms[2] == Vec3(0.0, v.y * delta, 0.0)
    ensures v.x == 0.0 && v.z == 0.0 ==> ms[0] == Zero && ms[1] == Zero
  {
    [Scale(forward, -v.z * delta), Scale(RightOf(forward), -v.x * delta), Vec3(0.0, v.y * delta, 0.0)]
  }

  /** All moves of one frame: the key-driven ones, then the velocity-driven ones. */
  function FrameMoves(s: Nav, time: real, forward: Vec3, diag: real): seq<Vec3>
    requires forward.y == 0.0 && diag > 0.0
  {
    var delta := Delta(s, time);
    KeyMoves(s, forward, delta, diag) + VelocityMoves(Damped(s.velocity, delta), forward, delta)
  }

  /** A frame up to, and not including, the ground clamp: damp the velocity,
      then apply every move to the camera and to the orbit target alike. */
  function Translated(s: Nav, time: real, forward: Vec3, diag: real): (r: Nav)
    requires forward.y == 0.0 && diag > 0.0
    ensures Sub(r.target, r.camera) == Sub(s.target, s.camera)
    ensures r.velocity == Damped(s.velocity, Delta(s, time))
    ensures r.camera.y == s.camera.y + r.velocity.y * Delta(s, time)
    ensures r.prevTime == time
    ensures r == s.(velocity := r.velocity, camera := r.camera, target := r.target, prevTime := time)
  {
    var ms := FrameMoves(s, time, forward, diag);
    FrameMovesShift(s, time, forward, diag);
    OffsetUnchanged(s.camera, s.target, ms);
    s.(velocity := Damped(s.velocity, Delta(s, time)), prevTime := time,
       camera := ApplyAll(s.camera, ms), target := ApplyAll(s.target, ms))
  }

  /** A state that agrees field by field with the definition of Translated is its result. */
  lemma TranslatedByFields(s: Nav, time: real, forward: Vec3, diag: real, r: Nav)
    requires forward.y == 0.0 && diag > 0.0
    requires r.velocity == Damped(s.velocity, Delta(s, time)) && r.prevTime == time
    requires r.camera == ApplyAll(s.camera, FrameMoves(s, time, forward, diag))
    requires r.target == ApplyAll(s.target, FrameMoves(s, time, forward, diag))
    requires r.moveForward == s.moveForward && r.moveBackward == s.moveBackward
    requires r.moveLeft == s.moveLeft && r.moveRight == s.moveRight && r.canJump == s.canJump
    requires r.ball == s.ball && r.lastTime == s.lastTime
    ensures r == Translated(s, time, forward, diag)
  {
  }

  /** The key-driven moves depend on the keys held and on nothing else of the state. */
  lemma KeyMovesOnlyKeys(s: Nav, t: Nav, forward: Vec3, delta: real, diag: real)
    requires forward.y == 0.0 && diag > 0.0
    requires s.moveForward == t.moveForward && s.moveBackward == t.moveBackward
    requires s.moveLeft == t.moveLeft && s.moveRight == t.moveRight
    ensures KeyMoves(s, forward, delta, diag) == KeyMoves(t, forward, delta, diag)
  {
    assert RawDirection(s) == RawDirection(t);
    assert ForwardMove(s, forward, delta, diag) == ForwardMove(t, forward, delta, diag);
    assert RightMove(s, forward, delta, diag) == RightMove(t, forward, delta, diag);
  }

  /** The key-driven moves of a frame added one after the other. */
  lemma KeyMovesInTurn(s: Nav, forward: Vec3, delta: real, diag: real, p: Vec3)
    requires forward.y == 0.0 && diag > 0.0
    ensures var q := if s.moveForward || s.moveBackward then Add(p, ForwardMove(s, forward, delta, diag)) else p;
            ApplyAll(p, KeyMoves(s, forward, delta, diag))
            == if s.moveLeft || s.moveRight then Add(q, RightMove(s, forward, delta, diag)) else q
  {
    var ms := KeyMoves(s, forward, delta, diag);
    if s.moveForward || s.moveBackward {
      ApplyOneMore(p, [], ForwardMove(s, forward, delta, diag));
      assert [] + [ForwardMove(s, forward, delta, diag)] == [ForwardMove(s, forward, delta, diag)];
    }
    if s.moveLeft || s.moveRight {
      ApplyOneMore(p, ms[..|ms| - 1], RightMove(s, forward, delta, diag));
      assert ms[..|ms| - 1] + [RightMove(s, forward, delta, diag)] == ms;
    }
  }

  /** The distances a frame's key input asks for: along right in x, along forward in z. */
  function KeyStep(s: Nav, delta: real, diag: real): Vec3
    requires diag > 0.0
  {
    Stepped(Normalized(RawDirection(s), diag), MoveSpeed * delta)
  }

  /** A level direction's two components, each scaled by `len`. */
  function Stepped(n: Vec3, len: real): Vec3
  {
    Vec3(n.x * len, 0.0, n.z * len)
  }

  /** The two key-driven moves are the key step's distances along forward
      and along right; an axis without a held key asks for no distance. */
  lemma KeyMovesAlongBasis(s: Nav, forward: Vec3, delta: real, diag: real)
    requires forward.y == 0.0 && diag > 0.0
    ensures ForwardMove(s, forward, delta, diag) == Scale(forward, KeyStep(s, delta, diag).z)
    ensures RightMove(s, forward, delta, diag) == Scale(RightOf(forward), KeyStep(s, delta, diag).x)
    ensures !(s.moveForward || s.moveBackward) ==> KeyStep(s, delta, diag).z == 0.0
    ensures !(s.moveLeft || s.moveRight) ==> KeyStep(s, delta, diag).x == 0.0
  {
    if !(s.moveForward || s.moveBackward) {
      assert RawDirection(s).z == 0.0;
    }
    if !(s.moveLeft || s.moveRight) {
      assert RawDirection(s).x == 0.0;
    }
  }

  /** The key step laid out in the camera's level basis: its z along forward
      and its x along forward's right-hand direction. */
  function Turned(forward: Vec3, k: Vec3): Vec3
  {
    Vec3(forward.x * k.z - forward.z * k.x, 0.0, forward.z * k.z + forward.x * k.x)
  }

  /** Where the key-driven moves of a frame take a point: the key step laid
      out in the camera's level basis. */
  lemma KeyDisplacement(s: Nav, forward: Vec3, delta: real, diag: real)
    requires forward.y == 0.0 && diag > 0.0
    ensures ApplyAll(Zero, KeyMoves(s, forward, delta, diag))
            == Turned(forward, KeyStep(s, delta, diag))
  {
    KeyMovesInTurn(s, forward, delta, diag, Zero);
    KeyMovesPlanar(s, forward, delta, diag);
  }

  /** The same sum, with the moves written out and the sequence left aside. */
  lemma KeyMovesPlanar(s: Nav, forward: Vec3, delta: real, diag: real)
    requires forward.y == 0.0 && diag > 0.0
    ensures var q := if s.moveForward || s.moveBackward then Add(Zero, ForwardMove(s, forward, delta, diag)) else Zero;
            (if s.moveLeft || s.moveRight then Add(q, RightMove(s, forward, delta, diag)) else q)
            == Turned(forward, KeyStep(s, delta, diag))
  {
    KeyMovesAlongBasis(s, forward, delta, diag);
    PlanarSum(forward, KeyStep(s, delta, diag),
              ForwardMove(s, forward, delta, diag), RightMove(s, forward, delta, diag),
              s.moveForward || s.moveBackward, s.moveLeft || s.moveRight);
  }

  /** A move of `k.z` along a level forward, if taken, then a move of `k.x`
      along its right-hand direction, if taken; a move not taken has length zero. */
  lemma PlanarSum(forward: Vec3, k: Vec3, fm: Vec3, rm: Vec3, hasF: bool, hasR: bool)
    requires forward.y == 0.0 && (!hasF ==> k.z == 0.0) && (!hasR ==> k.x == 0.0)
    requires fm == Scale(forward, k.z) && rm == Scale(RightOf(forward), k.x)
    ensures var q := if hasF then Add(Zero, fm) else Zero;
            (if hasR then Add(q, rm) else q) == Turned(forward, k)
  {
  }

  /** Turning a pair of lengths by a unit heading keeps the sum of their squares. */
  lemma TurnedLength(fx: real, fz: real, a: real, b: real)
    requires fx * fx + fz * fz == 1.0
    ensures (fx * a - fz * b) * (fx * a - fz * b) + (fz * a + fx * b) * (fz * a + fx * b) == a * a + b * b
  {
    calc {
      (fx * a - fz * b) * (fx * a - fz * b) + (fz * a + fx * b) * (fz * a + fx * b);
      (fx * fx + fz * fz) * (a * a) + (fx * fx + fz * fz) * (b * b);
      a * a + b * b;
    }
  }

  /** With some net intent the normalised key direction is a level unit vector. */
  lemma HeadingIsUnit(s: Nav, diag: real)
    requires IsInvSqrt2(diag)
    requires s.moveForward != s.moveBackward || s.moveLeft != s.moveRight
    ensures SqLength(Normalized(RawDirection(s), diag)) == 1.0
  {
    assert RawDirection(s) != Zero;
    NormalizedIsUnit(RawDirection(s), diag);
  }

  /** A level unit direction stepped by `len` is `len` long. */
  lemma UnitStepLength(k: Vec3, n: Vec3, len: real)
    requires SqLength(n) == 1.0 && n.y == 0.0 && k == Stepped(n, len)
    ensures k.x * k.x + k.z * k.z == len * len
  {
    var x, z := n.x, n.z;
    assert x * x + z * z == 1.0;
    calc {
      (x * len) * (x * len) + (z * len) * (z * len);
      (x * x + z * z) * (len * len);
      len * len;
    }
  }

  /** Walking is equally fast in every direction: with a unit camera basis
      and the true normalisation factor, the key-driven displacement of a
      frame has length MoveSpeed times the elapsed time whenever some axis
      has a net intent, diagonals included. */
  lemma KeyMoveSpeed(s: Nav, forward: Vec3, delta: real, diag: real)
    requires forward.y == 0.0 && SqLength(forward) == 1.0 && IsInvSqrt2(diag)
    requires s.moveForward != s.moveBackward || s.moveLeft != s.moveRight
    ensures SqLength(ApplyAll(Zero, KeyMoves(s, forward, delta, diag)))
         == (MoveSpeed * delta) * (MoveSpeed * delta)
  {
    HeadingIsUnit(s, diag);
    SpeedOfUnitHeading(s, forward, delta, diag);
  }

  /** The same, for any factor that makes the key direction a unit vector. */
  lemma SpeedOfUnitHeading(s: Nav, forward: Vec3, delta: real, diag: real)
    requires forward.y == 0.0 && SqLength(forward) == 1.0 && diag > 0.0
    requires SqLength(Normalized(RawDirection(s), diag)) == 1.0
    ensures SqLength(ApplyAll(Zero, KeyMoves(s, forward, delta, diag)))
         == (MoveSpeed * delta) * (MoveSpeed * delta)
  {
    KeyDisplacement(s, forward, delta, diag);
    TurnedStepLength(forward, Normalized(RawDirection(s), diag), MoveSpeed * delta);
  }

  /** A level unit direction stepped by `len` and laid out in a level unit
      basis is `len` long. */
  lemma TurnedStepLength(forward: Vec3, n: Vec3, len: real)
    requires forward.y == 0.0 && SqLength(forward) == 1.0
    requires n.y == 0.0 && SqLength(n) == 1.0
    ensures SqLength(Turned(forward, Stepped(n, len))) == len * len
  {
    var k := Stepped(n, len);
    UnitStepLength(k, n, len);
    TurnedLength(forward.x, forward.z, k.z, k.x);
  }

  /** Of all the moves of a frame only the last, taken from the vertical
      velocity, changes the height. */
  lemma FrameMovesShift(s: Nav, time: real, forward: Vec3, diag: real)
    requires forward.y == 0.0 && diag > 0.0
    ensures ApplyAll(s.camera, FrameMoves(s, time, forward, diag)).y
         == s.camera.y + Damped(s.velocity, Delta(s, time)).y * Delta(s, time)
  {
    var delta := Delta(s, time);
    var km := KeyMoves(s, forward, delta, diag);
    var vm := VelocityMoves(Damped(s.velocity, delta), forward, delta);
    var ms := km + vm;
    var level := ms[..|ms| - 1];
    assert level == km + vm[..2];
    assert forall i | 0 <= i < |level| :: level[i].y == 0.0 by {
      forall i | 0 <= i < |level| ensures level[i].y == 0.0 {
        if i < |km| { assert level[i] == km[i]; } else { assert level[i] == vm[i - |km|]; }
      }
    }
    LevelMovesKeepHeight(s.camera, level);
    assert ms[|ms| - 1] == vm[2];
  }

  /** With no net key intent, only the velocity moves the camera. */
  lemma NoIntentNoKeyMove(s: Nav, time: real, forward: Vec3, diag: real)
    requires forward.y == 0.0 && diag > 0.0
    requires s.moveForward == s.moveBackward && s.moveLeft == s.moveRight
    ensures Translated(s, time, forward, diag).camera
         == ApplyAll(s.camera, VelocityMoves(Damped(s.velocity, Delta(s, time)), forward, Delta(s, time)))
  {
    var delta := Delta(s, time);
    var km := KeyMoves(s, forward, delta, diag);
    var vm := VelocityMoves(Damped(s.velocity, delta), forward, delta);
    ZeroMovesStay(s.camera, km);
    AppendMoves(s.camera, km, vm);
  }

  /** Applying two runs of moves one after the other. */
  lemma {:induction false} AppendMoves(p: Vec3, a: seq<Vec3>, b: seq<Vec3>)
    ensures ApplyAll(p, a + b) == ApplyAll(ApplyAll(p, a), b)
  {
    if b == [] {
      assert a + b == a;
    } else {
      assert (a + b)[..|a + b| - 1] == a + b[..|b| - 1];
      AppendMoves(p, a, b[..|b| - 1]);
    }
  }

  /** Ground contact: a camera that ended up below height 1 is put back on
      it, the vertical velocity is cancelled, a jump is allowed again and the
      orbit target is raised to at least height 1; nothing else changes. A
      camera at or above height 1 is left alone. */
  function GroundClamp(m: Nav): (r: Nav)
    ensures r.camera.y >= Ground
    ensures m.camera.y < Ground ==>
              r.camera.y == Ground && r.velocity.y == 0.0 && r.canJump
              && r.target.y == Max(Ground, m.target.y)
              && r.camera.x == m.camera.x && r.camera.z == m.camera.z
              && r.target.x == m.target.x && r.target.z == m.target.z
              && r.velocity.x == m.velocity.x && r.velocity.z == m.velocity.z
              && r == m.(velocity := r.velocity, camera := r.camera, target := r.target, canJump := true)
    ensures m.camera.y >= Ground ==> r == m
  {
    if m.camera.y < Ground then
      m.(velocity := m.velocity.(y := 0.0), camera := m.camera.(y := Ground),
         target := m.target.(y := Max(Ground, m.target.y)), canJump := true)
    else m
  }

  /** One rendered frame at time `time` (milliseconds). */
  function Frame(s: Nav, time: real, forward: Vec3, diag: real): Nav
    requires forward.y == 0.0 && diag > 0.0
  {
    GroundClamp(Translated(s, time, forward, diag))
  }

  /** A frame keeps the horizontal camera-to-target offset, and the vertical
      one too unless the camera touched the ground. */
  lemma FrameKeepsOffset(s: Nav, time: real, forward: Vec3, diag: real)
    requires forward.y == 0.0 && diag > 0.0
    ensures var r := Frame(s, time, forward, diag);
            Sub(r.target, r.camera).x == Sub(s.target, s.camera).x
            && Sub(r.target, r.camera).z == Sub(s.target, s.camera).z
    ensures Translated(s, time, forward, diag).camera.y >= Ground ==>
              var r := Frame(s, time, forward, diag);
              Sub(r.target, r.camera) == Sub(s.target, s.camera)
  {
  }

  /** A camera that starts a frame below the ground and does not rise above
      it by its own velocity ends the frame exactly on the ground, at rest
      vertically and allowed to jump. The handlers modelled here never leave
      the camera below the ground; it gets there only when the orbit
      controller, which re-places the camera after every frame and is not
      part of this model, swings it under the target. */
  lemma LandsOnGround(s: Nav, time: real, forward: Vec3, diag: real)
    requires forward.y == 0.0 && diag > 0.0
    requires time >= s.prevTime && s.camera.y < Ground && s.velocity.y <= 0.0
    ensures var r := Frame(s, time, forward, diag);
            r.camera.y == Ground && r.velocity.y == 0.0 && r.canJump
  {
    var delta := Delta(s, time);
    var m := Translated(s, time, forward, diag);
    assert delta >= 0.0;
    assert m.velocity.y == s.velocity.y - 980.0 * delta;
    assert m.velocity.y * delta <= 0.0 by { NonPositiveTimesNonNegative(m.velocity.y, delta); }
    assert m.camera.y < Ground;
  }

  lemma NonPositiveTimesNonNegative(a: real, b: real)
    requires a <= 0.0 && b >= 0.0
    ensures a * b <= 0.0
  {
    assert (-a) * b >= 0.0;
  }

  // ---------------------------------------------------------------- click

  /** A double-click event: within 300 ms of the previous one and with a
      surface point under the cursor, the orbit target and the ball move to
      that point. The time of this event is recorded whatever happens. */
  function Click(s: Nav, checkTime: real, stampTime: real, hit: Option<Vec3>): (r: Nav)
    ensures r.lastTime == stampTime
    ensures checkTime - s.lastTime < DoubleClickWindow && hit.Some? ==>
              r.target == hit.value && r.ball == hit.value
    ensures !(checkTime - s.lastTime < DoubleClickWindow) || hit.None? ==>
              r.target == s.target && r.ball == s.ball
    ensures r == s.(target := r.target, ball := r.ball, lastTime := stampTime)
  {
    var s' := if checkTime - s.lastTime < DoubleClickWindow && hit.Some?
              then s.(target := hit.value, ball := hit.value) else s;
    s'.(lastTime := stampTime)
  }

  /** A second event 299 ms after the first re-centres on a hit; one 301 ms
      after it does not. */
  lemma SecondClickTiming(s: Nav, t: real, first: Option<Vec3>, u: real, p: Vec3)
    ensures Click(Click(s, t, t, first), t + 299.0, u, Some(p)).target == p
    ensures Click(Click(s, t, t, first), t + 299.0, u, Some(p)).ball == p
    ensures Click(Click(s, t, t, first), t + 301.0, u, Some(p)).target == Click(s, t, t, first).target
  {
  }

  /** The first event after start-up never re-centres, since the recorded
      time starts a full second before the clock's origin. */
  lemma FirstClickNeverRecentres(t0: real, checkTime: real, stampTime: real, hit: Option<Vec3>)
    requires checkTime >= 0.0
    ensures Click(Init(t0), checkTime, stampTime, hit).target == Init(t0).target
  {
  }

  /** Every event re-arms the window: a third event 100 ms after a
      re-centring second one re-centres again. */
  lemma ThirdClickRecentresAgain(s: Nav, t: real, p: Vec3, q: Vec3)
    ensures var s2 := Click(Click(s, t, t, None), t + 100.0, t + 100.0, Some(p));
            s2.target == p && Click(s2, t + 200.0, t + 200.0, Some(q)).target == q
  {
  }
}
