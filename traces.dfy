/** Sequences of input events and frames as the browser delivers them, one
    at a time, and the properties that hold along every such sequence. The
    orbit controller's own update, which re-places the camera after every
    frame, is not an event here: the properties hold at the end of each
    modelled handler in runs without orbit-controller input. */
module Traces {
  import opened Vectors
  import opened Navigation

  datatype Event =
    | KeyDownEvent(code: string)
    | KeyUpEvent(code: string)
    | FrameEvent(time: real, forward: Vec3)
    | ClickEvent(checkTime: real, stampTime: real, hit: Option<Vec3>)

  /** A frame's camera basis is level. */
  predicate WellFormed(e: Event) {
    e.FrameEvent? ==> e.forward.y == 0.0
  }

  predicate AllWellFormed(evs: seq<Event>) {
    forall i | 0 <= i < |evs| :: WellFormed(evs[i])
  }

  /** The handler the event is dispatched to. */
  function Step(s: Nav, e: Event, diag: real): Nav
    requires WellFormed(e) && diag > 0.0
  {
    match e
    case KeyDownEvent(code) => KeyDown(s, code)
    case KeyUpEvent(code) => KeyUp(s, code)
    case FrameEvent(time, forward) => Frame(s, time, forward, diag)
    case ClickEvent(checkTime, stampTime, hit) => Click(s, checkTime, stampTime, hit)
  }

  function Run(s: Nav, evs: seq<Event>, diag: real): Nav
    requires AllWellFormed(evs) && diag > 0.0
    decreases |evs|
  {
    if evs == [] then s else Run(Step(s, evs[0], diag), evs[1..], diag)
  }

  /** The clock does not run backwards: a frame is never stamped before the previous one. */
  predicate Timely(s: Nav, e: Event) {
    e.FrameEvent? ==> e.time >= s.prevTime
  }

  predicate Chronological(s: Nav, evs: seq<Event>, diag: real)
    requires AllWellFormed(evs) && diag > 0.0
    decreases |evs|
  {
    evs == [] || (Timely(s, evs[0]) && Chronological(Step(s, evs[0], diag), evs[1..], diag))
  }

  /** The two ways the camera-to-target offset can change: a frame that
      touches the ground, and a double-click that re-centres. */
  predicate Disturbs(s: Nav, e: Event, diag: real)
    requires WellFormed(e) && diag > 0.0
  {
    match e
    case FrameEvent(time, forward) => Translated(s, time, forward, diag).camera.y < Ground
    case ClickEvent(checkTime, _, hit) => checkTime - s.lastTime < DoubleClickWindow && hit.Some?
    case _ => false
  }

  predicate Steady(s: Nav, evs: seq<Event>, diag: real)
    requires AllWellFormed(evs) && diag > 0.0
    decreases |evs|
  {
    evs == [] || (!Disturbs(s, evs[0], diag) && Steady(Step(s, evs[0], diag), evs[1..], diag))
  }

  /** What holds at the end of every modelled handler: the camera is not below
      the ground, a jump is only allowed while not rising, and the horizontal
      velocity is zero (nothing ever gives it a horizontal component). */
  predicate Consistent(s: Nav) {
    s.camera.y >= Ground
    && (s.canJump ==> s.velocity.y <= 0.0)
    && s.velocity.x == 0.0 && s.velocity.z == 0.0
  }

  lemma StepConsistent(s: Nav, e: Event, diag: real)
    requires WellFormed(e) && diag > 0.0
    requires Consistent(s) && Timely(s, e)
    ensures Consistent(Step(s, e, diag))
  {
    if e.FrameEvent? {
      var delta := Delta(s, e.time);
      var m := Translated(s, e.time, e.forward, diag);
      assert delta >= 0.0;
      assert m.velocity.y <= s.velocity.y;
      assert m.velocity.x == 0.0 && m.velocity.z == 0.0;
    }
  }

  lemma {:induction false} RunConsistent(s: Nav, evs: seq<Event>, diag: real)
    requires AllWellFormed(evs) && diag > 0.0
    requires Consistent(s) && Chronological(s, evs, diag)
    ensures Consistent(Run(s, evs, diag))
    decreases |evs|
  {
    if evs != [] {
      StepConsistent(s, evs[0], diag);
      RunConsistent(Step(s, evs[0], diag), evs[1..], diag);
    }
  }

  /** Every state reached from start-up by a chronological sequence of
      modelled events is consistent. */
  lemma ReachableIsConsistent(t0: real, evs: seq<Event>, diag: real)
    requires AllWellFormed(evs) && diag > 0.0
    requires Chronological(Init(t0), evs, diag)
    ensures var r := Run(Init(t0), evs, diag);
            r.camera.y >= Ground && (r.canJump ==> r.velocity.y <= 0.0)
            && r.velocity.x == 0.0 && r.velocity.z == 0.0
  {
    RunConsistent(Init(t0), evs, diag);
  }

  /** Along events that neither land nor re-centre, the orbit target keeps
      its offset from the camera. */
  lemma {:induction false} SteadyKeepsOffset(s: Nav, evs: seq<Event>, diag: real)
    requires AllWellFormed(evs) && diag > 0.0
    requires Steady(s, evs, diag)
    ensures Sub(Run(s, evs, diag).target, Run(s, evs, diag).camera) == Sub(s.target, s.camera)
    decreases |evs|
  {
    if evs != [] {
      var e := evs[0];
      if e.FrameEvent? {
        FrameKeepsOffset(s, e.time, e.forward, diag);
      }
      SteadyKeepsOffset(Step(s, e, diag), evs[1..], diag);
    }
  }

  predicate KeysOnly(evs: seq<Event>) {
    forall i | 0 <= i < |evs| :: evs[i].KeyDownEvent? || evs[i].KeyUpEvent?
  }

  /** Between two frames the keyboard can add at most one jump impulse and
      cannot allow a jump that was not allowed; it never moves anything, never
      touches the level velocity and never restamps a frame or a click. */
  lemma {:induction false} OneJumpBetweenFrames(s: Nav, evs: seq<Event>, diag: real)
    requires KeysOnly(evs) && diag > 0.0
    ensures AllWellFormed(evs)
    ensures var r := Run(s, evs, diag);
            (r.velocity.y == s.velocity.y || (s.canJump && r.velocity.y == s.velocity.y + JumpImpulse))
            && (r.canJump ==> s.canJump)
            && r.camera == s.camera && r.target == s.target && r.ball == s.ball
            && r.velocity.x == s.velocity.x && r.velocity.z == s.velocity.z
            && r.prevTime == s.prevTime && r.lastTime == s.lastTime
    decreases |evs|
  {
    if evs != [] {
      assert KeysOnly(evs[1..]) by {
        forall i | 0 <= i < |evs[1..]| ensures evs[1..][i].KeyDownEvent? || evs[1..][i].KeyUpEvent? {
          assert evs[1..][i] == evs[i + 1];
        }
      }
      OneJumpBetweenFrames(Step(s, evs[0], diag), evs[1..], diag);
    }
  }
}
