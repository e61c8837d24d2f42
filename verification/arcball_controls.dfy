/** ArcBallControls.cs: mouse and keyboard input turned into moves, zooms and
    rotations of one Object3D around a fixed rotation origin. */
module ArcBall {
  import opened XnaMath
  import opened Exceptions
  import opened XnaInput
  import opened Entity

  /** The MouseActivityState flags: which drag gestures are in progress. */
  const MouseNone: bv8 := 0
  const MouseRotate: bv8 := 1
  const MouseZoom: bv8 := 2
  const MousePan: bv8 := 4

  /** The keyboard handler's constants. */
  const MoveSpeed: real := 0.7
  const TiltSpeed: real := PiOver2 / 80.0
  const KeyRotateSpeed: real := PiOver2 / 100.0

  /** The pointer scaled by the screen size, negated and halved; used for panning. */
  function NormalizedMouseCoordinates(screenWidth: real, screenHeight: real, mouse: MouseState): (r: Vec3)
    requires 0.0 < screenWidth && 0.0 < screenHeight
    ensures r.z == 0.0
    ensures -2.0 * screenWidth * r.x == mouse.x as real && -2.0 * screenHeight * r.y == mouse.y as real
  {
    Vec3(-(mouse.x as real) / screenWidth * 0.5, -(mouse.y as real) / screenHeight * 0.5, 0.0)
  }

  /** The displacement a pan step applies. */
  function PanAmount(panStart: Vec3, panEnd: Vec3, panSpeed: real): Vec3 {
    Scale(Sub(panStart, panEnd), panSpeed)
  }

  lemma ScaledIsZero(v: Vec3, k: real)
    requires k != 0.0
    ensures Scale(v, k) == Zero <==> v == Zero
  {
    if Scale(v, k) == Zero {
      assert v.x * k == 0.0 && v.y * k == 0.0 && v.z * k == 0.0;
    }
  }

  lemma HalvedQuotientInjective(a: real, b: real, d: real)
    requires 0.0 < d
    ensures -a / d * 0.5 == -b / d * 0.5 <==> a == b
  {
    if -a / d * 0.5 == -b / d * 0.5 {
      assert -a / d == -b / d;
      assert -a == (-a / d) * d;
      assert -b == (-b / d) * d;
    }
  }

  /** Two pointer positions give the same pan coordinates exactly when they are equal. */
  lemma PanCoordinatesInjective(screenWidth: real, screenHeight: real, previous: MouseState, current: MouseState)
    requires 0.0 < screenWidth && 0.0 < screenHeight
    ensures Sub(NormalizedMouseCoordinates(screenWidth, screenHeight, previous),
                NormalizedMouseCoordinates(screenWidth, screenHeight, current)) == Zero
            <==> previous.x == current.x && previous.y == current.y
  {
    HalvedQuotientInjective(previous.x as real, current.x as real, screenWidth);
    HalvedQuotientInjective(previous.y as real, current.y as real, screenHeight);
  }

  /** A pan step moves the entity exactly when the pointer moved since the
      last step (for a non-zero pan speed). */
  lemma PanActsIffPointerMoved(screenWidth: real, screenHeight: real, previous: MouseState, current: MouseState, panSpeed: real)
    requires 0.0 < screenWidth && 0.0 < screenHeight && panSpeed != 0.0
    ensures var pan := PanAmount(NormalizedMouseCoordinates(screenWidth, screenHeight, previous),
                                 NormalizedMouseCoordinates(screenWidth, screenHeight, current), panSpeed);
            LengthSquared(pan) > 0.0 <==> previous.x != current.x || previous.y != current.y
  {
    var d := Sub(NormalizedMouseCoordinates(screenWidth, screenHeight, previous),
                 NormalizedMouseCoordinates(screenWidth, screenHeight, current));
    LengthSquaredZero(Scale(d, panSpeed));
    ScaledIsZero(d, panSpeed);
    PanCoordinatesInjective(screenWidth, screenHeight, previous, current);
  }

  /** The pointer relative to the screen centre in units of the arc-ball
      radius, Y pointing up, before it is lifted onto the sphere. */
  function ArcBallPlanar(screenWidth: real, screenHeight: real, arcBallRadius: real, mouse: MouseState): Vec3
    requires 0.0 < arcBallRadius
  {
    Vec3((mouse.x as real - 0.5 * screenWidth) / arcBallRadius,
         (0.5 * screenHeight - mouse.y as real) / arcBallRadius, 0.0)
  }

  /** GetMouseArcBallVector: a point outside the ball is normalised onto its
      rim, a point inside is lifted onto the front hemisphere. */
  function MouseArcBallVector(xna: Xna, screenWidth: real, screenHeight: real, arcBallRadius: real, mouse: MouseState): (r: Vec3)
    requires 0.0 < arcBallRadius
    ensures Lawful(xna) ==> LengthSquared(r) == 1.0 && 0.0 <= r.z
  {
    var planar := ArcBallPlanar(screenWidth, screenHeight, arcBallRadius, mouse);
    LiftOntoSphereWhenLawful(xna, planar);
    LiftOntoBall(xna, planar)
  }

  /** LiftOntoBallOnSphere for the primitives that obey the laws. */
  lemma LiftOntoSphereWhenLawful(xna: Xna, planar: Vec3)
    requires planar.z == 0.0
    ensures Lawful(xna) ==> LengthSquared(LiftOntoBall(xna, planar)) == 1.0 && 0.0 <= LiftOntoBall(xna, planar).z
  {
    if Lawful(xna) {
      LiftOntoBallOnSphere(xna, planar);
    }
  }

  function LiftOntoBall(xna: Xna, planar: Vec3): Vec3 {
    var length := Length(xna, planar);
    if length > 1.0 then xna.normalize(planar)
    else planar.(z := xna.sqrt(1.0 - length * length))
  }

  /** Every lifted point is a unit vector on the front hemisphere (z >= 0);
      outside the ball it lies on the rim (z = 0) in the pointer's direction,
      inside the ball it keeps the pointer's X and Y. */
  lemma LiftOntoBallOnSphere(xna: Xna, planar: Vec3)
    requires Lawful(xna)
    requires planar.z == 0.0
    ensures LengthSquared(LiftOntoBall(xna, planar)) == 1.0 && 0.0 <= LiftOntoBall(xna, planar).z
    ensures var v := LiftOntoBall(xna, planar);
            if Length(xna, planar) > 1.0 then v.z == 0.0 && v == Scale(planar, 1.0 / Length(xna, planar))
            else v.x == planar.x && v.y == planar.y
  {
    if Length(xna, planar) > 1.0 {
      LiftOutside(xna, planar);
    } else {
      LiftInside(xna, planar);
    }
  }

  lemma LiftOutside(xna: Xna, planar: Vec3)
    requires Lawful(xna)
    requires planar.z == 0.0 && Length(xna, planar) > 1.0
    ensures LiftOntoBall(xna, planar) == Scale(planar, 1.0 / Length(xna, planar))
    ensures LengthSquared(LiftOntoBall(xna, planar)) == 1.0 && LiftOntoBall(xna, planar).z == 0.0
  {
    var length := Length(xna, planar);
    LengthPositive(xna, planar);
    assert planar != Zero;
    NormalizeNonZero(xna, planar);
    ScaleLengthSquared(planar, 1.0 / length);
    UnitAfterDivision(length, LengthSquared(planar));
  }

  lemma LiftInside(xna: Xna, planar: Vec3)
    requires Lawful(xna)
    requires planar.z == 0.0 && Length(xna, planar) <= 1.0
    ensures LiftOntoBall(xna, planar).x == planar.x && LiftOntoBall(xna, planar).y == planar.y
    ensures LengthSquared(LiftOntoBall(xna, planar)) == 1.0 && 0.0 <= LiftOntoBall(xna, planar).z
  {
    var length := Length(xna, planar);
    LengthPositive(xna, planar);
    var ll := length * length;
    assert ll <= 1.0 by {
      if length < 1.0 {
        SquareMonotonic(length, 1.0);
      }
    }
    SqrtLaw(xna, 1.0 - ll);
    LiftAlgebra(planar, LengthSquared(planar), ll, xna.sqrt(1.0 - ll));
  }

  lemma LiftAlgebra(planar: Vec3, lengthSquared: real, ll: real, z: real)
    requires planar.z == 0.0 && LengthSquared(planar) == lengthSquared && ll == lengthSquared
    requires z * z == 1.0 - ll
    ensures LengthSquared(planar.(z := z)) == 1.0
  {
  }

  /** Every arc-ball vector lies on the unit sphere's front hemisphere. */
  lemma ArcBallVectorOnSphere(xna: Xna, screenWidth: real, screenHeight: real, arcBallRadius: real, mouse: MouseState)
    requires Lawful(xna)
    requires 0.0 < arcBallRadius
    ensures var v := MouseArcBallVector(xna, screenWidth, screenHeight, arcBallRadius, mouse);
            LengthSquared(v) == 1.0 && 0.0 <= v.z
  {
    LiftOntoBallOnSphere(xna, ArcBallPlanar(screenWidth, screenHeight, arcBallRadius, mouse));
  }

  lemma CentreIsOrigin(screenWidth: real, screenHeight: real, arcBallRadius: real, mouse: MouseState)
    requires 0.0 < arcBallRadius
    requires mouse.x as real == 0.5 * screenWidth && mouse.y as real == 0.5 * screenHeight
    ensures ArcBallPlanar(screenWidth, screenHeight, arcBallRadius, mouse) == Zero
  {
    assert mouse.x as real - 0.5 * screenWidth == 0.0;
    assert 0.5 * screenHeight - mouse.y as real == 0.0;
  }

  /** The screen centre maps to the pole (0, 0, 1). */
  lemma ArcBallCentreIsPole(xna: Xna, screenWidth: real, screenHeight: real, arcBallRadius: real, mouse: MouseState)
    requires Lawful(xna)
    requires 0.0 < arcBallRadius
    requires mouse.x as real == 0.5 * screenWidth && mouse.y as real == 0.5 * screenHeight
    ensures MouseArcBallVector(xna, screenWidth, screenHeight, arcBallRadius, mouse) == Vec3(0.0, 0.0, 1.0)
  {
    CentreIsOrigin(screenWidth, screenHeight, arcBallRadius, mouse);
    LiftOfOrigin(xna);
  }

  lemma LiftOfOrigin(xna: Xna)
    requires Lawful(xna)
    ensures LiftOntoBall(xna, Zero) == Vec3(0.0, 0.0, 1.0)
  {
    LengthOfZero(xna);
    SqrtOfSquare(xna, 1.0, 1.0);
  }

  /** The zoom factor of a middle-button drag from row start to row end. */
  function ZoomFactor(xna: Xna, maxZoom: real, zoomSpeed: real, zoomStart: real, zoomEnd: real, screenHeight: real): real
    requires 0.0 < screenHeight
  {
    xna.pow(maxZoom, (zoomEnd - zoomStart) / screenHeight) * zoomSpeed
  }

  /** Whether a zoom step acts: |factor - 0| > 1E-3. */
  predicate ZoomActs(factor: real) {
    factor > 0.001 || factor < -0.001
  }

  /** A middle-button step with no vertical movement zooms by exactly
      ZoomSpeed; with the default speed 1 it acts but leaves the position
      where it was. */
  lemma StillPointerZoom(xna: Xna, p: Pose, maxZoom: real, zoomSpeed: real, row: real, screenHeight: real, target: Vec3)
    requires Lawful(xna)
    requires 0.0 < screenHeight
    ensures ZoomFactor(xna, maxZoom, zoomSpeed, row, row, screenHeight) == zoomSpeed
    ensures zoomSpeed == 1.0 ==> ZoomActs(ZoomFactor(xna, maxZoom, zoomSpeed, row, row, screenHeight))
    ensures zoomSpeed == 1.0 && xna.isValid(p.position) ==>
              Zoomed(xna, p, ZoomFactor(xna, maxZoom, zoomSpeed, row, row, screenHeight), target) == Ok(p)
  {
    assert (row - row) / screenHeight == 0.0;
    ZoomsCompose(xna, p, 1.0, 1.0, target);
  }

  /** One call the keyboard handler makes on the entity. */
  datatype EntityCall =
    | MoveBy(delta: Vec3)                     // MoveTo(delta)
    | TiltBy(rotation: Vec3)                  // Rotate(rotation)
    | OrbitBy(rotation: Vec3, target: Vec3)   // Rotate(rotation, target)

  /** The effect of one call on a pose. */
  function Step(xna: Xna, p: Pose, call: EntityCall): Result<Pose> {
    match call
    case MoveBy(d) => Moved(xna, p, d)
    case TiltBy(r) => Ok(Turned(xna, p, EulerRotation(xna, r)))
    case OrbitBy(r, t) => Orbited(xna, p, EulerRotation(xna, r), t)
  }

  /** The pose reached and how the sequence ended: the first call that throws
      stops it, with the effects of the calls before it kept. */
  datatype Run = Run(pose: Pose, outcome: Outcome)

  function RunCalls(xna: Xna, p: Pose, calls: seq<EntityCall>): (r: Run)
    ensures calls == [] ==> r == Run(p, Completed)
    decreases |calls|
  {
    if calls == [] then Run(p, Completed)
    else match Step(xna, p, calls[0])
      case Err(e) => Run(p, Threw(e))
      case Ok(next) => RunCalls(xna, next, calls[1..])
  }

  /** Running a + b is running a and, unless it threw, then b. */
  lemma {:induction false} RunCallsAppend(xna: Xna, p: Pose, a: seq<EntityCall>, b: seq<EntityCall>)
    ensures RunCalls(xna, p, a + b) ==
              (var r := RunCalls(xna, p, a);
               if r.outcome.Threw? then r else RunCalls(xna, r.pose, b))
    decreases |a|
  {
    if a == [] {
      assert a + b == b;
    } else {
      assert (a + b)[0] == a[0];
      assert (a + b)[1..] == a[1..] + b;
      match Step(xna, p, a[0])
      case Err(e) =>
      case Ok(next) => RunCallsAppend(xna, next, a[1..], b);
    }
  }

  /** The call a key makes if it is down. */
  function IfDown(keys: KeyboardState, key: Key, call: EntityCall): seq<EntityCall> {
    if key in keys then [call] else []
  }

  /** The calls HandleKeyboardInput makes, in order: with Control down the
      arrows and page keys orbit around the origin, with Shift down they tilt
      in place, otherwise they pan. */
  function KeyboardCalls(keys: KeyboardState, origin: Vec3): seq<EntityCall> {
    if LeftControl in keys || RightControl in keys then OrbitCalls(keys, origin)
    else if LeftShift in keys || RightShift in keys then TiltCalls(keys)
    else PanCalls(keys)
  }

  function OrbitCalls(keys: KeyboardState, origin: Vec3): seq<EntityCall> {
    IfDown(keys, Right, OrbitBy(Vec3(0.0, -KeyRotateSpeed, 0.0), origin)) +
    IfDown(keys, Left, OrbitBy(Vec3(0.0, KeyRotateSpeed, 0.0), origin)) +
    IfDown(keys, Up, OrbitBy(Vec3(-KeyRotateSpeed, 0.0, 0.0), origin)) +
    IfDown(keys, Down, OrbitBy(Vec3(KeyRotateSpeed, 0.0, 0.0), origin)) +
    IfDown(keys, PageUp, OrbitBy(Vec3(0.0, 0.0, KeyRotateSpeed), origin)) +
    IfDown(keys, PageDown, OrbitBy(Vec3(0.0, 0.0, -KeyRotateSpeed), origin))
  }

  function TiltCalls(keys: KeyboardState): seq<EntityCall> {
    IfDown(keys, Right, TiltBy(Vec3(0.0, TiltSpeed, 0.0))) +
    IfDown(keys, Left, TiltBy(Vec3(0.0, -TiltSpeed, 0.0))) +
    IfDown(keys, Up, TiltBy(Vec3(TiltSpeed, 0.0, 0.0))) +
    IfDown(keys, Down, TiltBy(Vec3(-TiltSpeed, 0.0, 0.0))) +
    IfDown(keys, PageUp, TiltBy(Vec3(0.0, 0.0, TiltSpeed))) +
    IfDown(keys, PageDown, TiltBy(Vec3(0.0, 0.0, -TiltSpeed)))
  }

  function PanCalls(keys: KeyboardState): seq<EntityCall> {
    IfDown(keys, Right, MoveBy(Vec3(MoveSpeed, 0.0, 0.0))) +
    IfDown(keys, Left, MoveBy(Vec3(-MoveSpeed, 0.0, 0.0))) +
    IfDown(keys, Up, MoveBy(Vec3(0.0, 0.0, MoveSpeed))) +
    IfDown(keys, Down, MoveBy(Vec3(0.0, 0.0, -MoveSpeed))) +
    IfDown(keys, PageUp, MoveBy(Vec3(0.0, -MoveSpeed, 0.0))) +
    IfDown(keys, PageDown, MoveBy(Vec3(0.0, MoveSpeed, 0.0)))
  }

  /** The arrow and page keys. */
  predicate DirectionKeyDown(keys: KeyboardState) {
    Right in keys || Left in keys || Up in keys || Down in keys || PageUp in keys || PageDown in keys
  }

  /** Control takes precedence over Shift: every call orbits around the
      origin with Control down, tilts in place with only Shift down, and
      pans otherwise. At most six calls are made, and none exactly when no
      arrow or page key is down. */
  lemma KeyboardModes(keys: KeyboardState, origin: Vec3)
    ensures var calls := KeyboardCalls(keys, origin);
            |calls| <= 6 && (calls == [] <==> !DirectionKeyDown(keys))
    ensures LeftControl in keys || RightControl in keys ==>
              forall c :: c in KeyboardCalls(keys, origin) ==> c.OrbitBy? && c.target == origin
    ensures LeftControl !in keys && RightControl !in keys && (LeftShift in keys || RightShift in keys) ==>
              forall c :: c in KeyboardCalls(keys, origin) ==> c.TiltBy?
    ensures LeftControl !in keys && RightControl !in keys && LeftShift !in keys && RightShift !in keys ==>
              forall c :: c in KeyboardCalls(keys, origin) ==> c.MoveBy?
  {
    if LeftControl in keys || RightControl in keys {
      OrbitCallsShape(keys, origin);
    } else if LeftShift in keys || RightShift in keys {
      TiltCallsShape(keys);
    } else {
      PanCallsShape(keys);
    }
  }

  lemma OrbitCallsShape(keys: KeyboardState, origin: Vec3)
    ensures var calls := OrbitCalls(keys, origin);
            |calls| <= 6 && (calls == [] <==> !DirectionKeyDown(keys)) &&
            forall c :: c in calls ==> c.OrbitBy? && c.target == origin
  {
  }

  lemma TiltCallsShape(keys: KeyboardState)
    ensures var calls := TiltCalls(keys);
            |calls| <= 6 && (calls == [] <==> !DirectionKeyDown(keys)) &&
            forall c :: c in calls ==> c.TiltBy?
  {
  }

  lemma PanCallsShape(keys: KeyboardState)
    ensures var calls := PanCalls(keys);
            |calls| <= 6 && (calls == [] <==> !DirectionKeyDown(keys)) &&
            forall c :: c in calls ==> c.MoveBy?
  {
  }

  /** With only Right and Left down and no modifier, the two pans cancel:
      the entity ends where it started. */
  lemma OppositePansCancel(xna: Xna, p: Pose, origin: Vec3)
    requires xna.isValid(p.position) && xna.isValid(XnaMath.Add(p.position, Vec3(MoveSpeed, 0.0, 0.0)))
    ensures RunCalls(xna, p, KeyboardCalls({Right, Left}, origin)) == Run(p, Completed)
  {
    var calls := KeyboardCalls({Right, Left}, origin);
    assert calls == [MoveBy(Vec3(MoveSpeed, 0.0, 0.0)), MoveBy(Vec3(-MoveSpeed, 0.0, 0.0))];
    var q := Moved(xna, p, Vec3(MoveSpeed, 0.0, 0.0)).value;
    assert Moved(xna, q, Vec3(-MoveSpeed, 0.0, 0.0)) == Ok(p);
    assert calls[1..] == [MoveBy(Vec3(-MoveSpeed, 0.0, 0.0))];
    assert RunCalls(xna, q, calls[1..]) == Run(p, Completed);
  }

  /** What the controller holds fixed during a frame. */
  datatype Settings = Settings(xna: Xna, rotationOrigin: Vec3,
                               rotateSpeed: real, panSpeed: real, zoomSpeed: real, maxZoom: real,
                               screenWidth: real, screenHeight: real, arcBallRadius: real)

  /** The screen is non-empty and the arc-ball radius is a quarter of the sum
      of its dimensions, as UpdateScreenDimentions sets it. */
  predicate ScreenSet(s: Settings) {
    0.0 < s.screenWidth && 0.0 < s.screenHeight && s.arcBallRadius == (s.screenWidth + s.screenHeight) / 4.0
  }

  /** What a frame can change: the entity's pose, the gesture flags and the
      two ends of each drag. */
  datatype ControlState = ControlState(pose: Pose, activity: bv8,
                                       panStart: Vec3, panEnd: Vec3,
                                       zoomStart: real, zoomEnd: real,
                                       rotationStart: Vec3, rotationEnd: Vec3)

  /** The state after a handler, and whether it threw. */
  datatype Frame = Frame(state: ControlState, outcome: Outcome)

  /** HandleRightMouseButtonInput on values. */
  function RightStep(s: Settings, c: ControlState, mouse: MouseState): Frame
    requires ScreenSet(s)
  {
    if !mouse.rightButton then Frame(c.(activity := c.activity & !MousePan), Completed)
    else if c.activity & MousePan != MousePan then
      Frame(c.(activity := c.activity | MousePan,
               panStart := NormalizedMouseCoordinates(s.screenWidth, s.screenHeight, mouse)), Completed)
    else
      var panEnd := NormalizedMouseCoordinates(s.screenWidth, s.screenHeight, mouse);
      var pan := PanAmount(c.panStart, panEnd, s.panSpeed);
      var moved := c.(panEnd := panEnd);
      if LengthSquared(pan) <= 0.0 then Frame(moved, Completed)
      else match Moved(s.xna, c.pose, pan)
        case Ok(p) => Frame(moved.(pose := p, panStart := panEnd), Completed)
        case Err(e) => Frame(moved, Threw(e))
  }

  /** HandleMiddleMouseButtonInput on values. */
  function MiddleStep(s: Settings, c: ControlState, mouse: MouseState): Frame
    requires ScreenSet(s)
  {
    if !mouse.middleButton then Frame(c.(activity := c.activity & !MouseZoom), Completed)
    else if c.activity & MouseZoom != MouseZoom then
      Frame(c.(activity := c.activity | MouseZoom, zoomStart := mouse.y as real), Completed)
    else
      var factor := ZoomFactor(s.xna, s.maxZoom, s.zoomSpeed, c.zoomStart, mouse.y as real, s.screenHeight);
      var moved := c.(zoomEnd := mouse.y as real);
      if !ZoomActs(factor) then Frame(moved, Completed)
      else match Zoomed(s.xna, c.pose, factor, s.rotationOrigin)
        case Ok(p) => Frame(moved.(pose := p, zoomStart := mouse.y as real), Completed)
        case Err(e) => Frame(moved, Threw(e))
  }

  /** The arc-ball sample of the pointer in the frame of an entity at pose p. */
  function RotationSample(s: Settings, p: Pose, mouse: MouseState): Vec3
    requires ScreenSet(s)
  {
    ArcBallProjection(s.xna, p.position, p.up,
                      MouseArcBallVector(s.xna, s.screenWidth, s.screenHeight, s.arcBallRadius, mouse),
                      s.rotationOrigin)
  }

  /** HandleLeftMouseButtonInput on values. */
  function LeftStep(s: Settings, c: ControlState, mouse: MouseState): Frame
    requires ScreenSet(s)
  {
    if !mouse.leftButton then Frame(c.(activity := c.activity & !MouseRotate), Completed)
    else
      var sample := RotationSample(s, c.pose, mouse);
      if c.activity & MouseRotate != MouseRotate then
        Frame(c.(activity := c.activity | MouseRotate, rotationStart := sample), Completed)
      else
        var moved := c.(rotationEnd := sample);
        match ArcBallDrag(s.xna, c.pose, c.rotationStart, sample, s.rotationOrigin, s.rotateSpeed)
        case Declined => Frame(moved, Completed)
        case Failed(e) => Frame(moved, Threw(e))
        case Applied(_, p, rotatedEnd) =>
          Frame(moved.(pose := p, rotationStart := rotatedEnd, rotationEnd := rotatedEnd), Completed)
  }

  /** HandleKeyboardInput on values: only the pose changes. */
  function KeyboardStep(s: Settings, c: ControlState, keys: KeyboardState): Frame {
    var run := RunCalls(s.xna, c.pose, KeyboardCalls(keys, s.rotationOrigin));
    Frame(c.(pose := run.pose), run.outcome)
  }

  /** Update on values: keyboard, then the left, middle and right buttons,
      the first exception ending the frame. */
  function FrameStep(s: Settings, c: ControlState, mouse: MouseState, keys: KeyboardState): Frame
    requires ScreenSet(s)
  {
    var afterKeys := KeyboardStep(s, c, keys);
    if afterKeys.outcome.Threw? then afterKeys else
    var afterLeft := LeftStep(s, afterKeys.state, mouse);
    if afterLeft.outcome.Threw? then afterLeft else
    var afterMiddle := MiddleStep(s, afterLeft.state, mouse);
    if afterMiddle.outcome.Threw? then afterMiddle else
    RightStep(s, afterMiddle.state, mouse)
  }

  /** The three gesture bits. */
  const GestureBits: bv8 := MouseRotate | MouseZoom | MousePan

  /** `flags |= flag` when the button is down, `flags &= ~flag` when it is up. */
  function WithFlag(flags: bv8, flag: bv8, down: bool): bv8 {
    if down then flags | flag else flags & !flag
  }

  /** A flag already set is unchanged by setting it again. */
  lemma SetFlagAgain(flags: bv8, flag: bv8)
    requires flags & flag == flag
    ensures flags | flag == flags
  {
  }

  /** Each handler sets or clears its own flag by its button, whatever else
      it does and whether or not it throws. */
  lemma LeftFlag(s: Settings, c: ControlState, mouse: MouseState)
    requires ScreenSet(s)
    ensures LeftStep(s, c, mouse).state.activity == WithFlag(c.activity, MouseRotate, mouse.leftButton)
  {
    if mouse.leftButton && c.activity & MouseRotate == MouseRotate {
      SetFlagAgain(c.activity, MouseRotate);
    }
  }

  lemma MiddleFlag(s: Settings, c: ControlState, mouse: MouseState)
    requires ScreenSet(s)
    ensures MiddleStep(s, c, mouse).state.activity == WithFlag(c.activity, MouseZoom, mouse.middleButton)
  {
    if mouse.middleButton && c.activity & MouseZoom == MouseZoom {
      SetFlagAgain(c.activity, MouseZoom);
    }
  }

  lemma RightFlag(s: Settings, c: ControlState, mouse: MouseState)
    requires ScreenSet(s)
    ensures RightStep(s, c, mouse).state.activity == WithFlag(c.activity, MousePan, mouse.rightButton)
  {
    if mouse.rightButton && c.activity & MousePan == MousePan {
      SetFlagAgain(c.activity, MousePan);
    }
  }

  /** The flags after the three handlers, for every starting value. */
  lemma ThreeFlags(flags: bv8, left: bool, middle: bool, right: bool)
    ensures var f := WithFlag(WithFlag(WithFlag(flags, MouseRotate, left), MouseZoom, middle), MousePan, right);
            (f & MouseRotate == MouseRotate <==> left) &&
            (f & MouseZoom == MouseZoom <==> middle) &&
            (f & MousePan == MousePan <==> right) &&
            f & !GestureBits == flags & !GestureBits
  {
  }

  /** The flags after a frame: the handlers that ran each set or cleared
      their own flag; a handler that threw still did. */
  lemma FrameFlags(s: Settings, c: ControlState, mouse: MouseState, keys: KeyboardState)
    requires ScreenSet(s)
    ensures var k := KeyboardStep(s, c, keys);
            var l := LeftStep(s, k.state, mouse);
            var m := MiddleStep(s, l.state, mouse);
            var f := FrameStep(s, c, mouse, keys);
            var afterLeft := WithFlag(c.activity, MouseRotate, mouse.leftButton);
            var afterMiddle := WithFlag(afterLeft, MouseZoom, mouse.middleButton);
            f.state.activity ==
              if k.outcome.Threw? then c.activity
              else if l.outcome.Threw? then afterLeft
              else if m.outcome.Threw? then afterMiddle
              else WithFlag(afterMiddle, MousePan, mouse.rightButton)
  {
    var k := KeyboardStep(s, c, keys);
    var l := LeftStep(s, k.state, mouse);
    var m := MiddleStep(s, l.state, mouse);
    LeftFlag(s, k.state, mouse);
    MiddleFlag(s, l.state, mouse);
    RightFlag(s, m.state, mouse);
  }

  /** After a frame that completes, each gesture flag is set exactly when its
      button is down. */
  lemma GestureFlagsFollowButtons(s: Settings, c: ControlState, mouse: MouseState, keys: KeyboardState)
    requires ScreenSet(s)
    requires FrameStep(s, c, mouse, keys).outcome.Completed?
    ensures var a := FrameStep(s, c, mouse, keys).state.activity;
            (a & MouseRotate == MouseRotate <==> mouse.leftButton) &&
            (a & MouseZoom == MouseZoom <==> mouse.middleButton) &&
            (a & MousePan == MousePan <==> mouse.rightButton)
  {
    FrameFlags(s, c, mouse, keys);
    ThreeFlags(c.activity, mouse.leftButton, mouse.middleButton, mouse.rightButton);
  }

  /** The keyboard runs first: when one of its calls throws, the mouse
      handlers do not run and every gesture field is as the frame found it. */
  lemma KeyboardThrowSkipsMouse(s: Settings, c: ControlState, mouse: MouseState, keys: KeyboardState)
    requires ScreenSet(s)
    requires RunCalls(s.xna, c.pose, KeyboardCalls(keys, s.rotationOrigin)).outcome.Threw?
    ensures var run := RunCalls(s.xna, c.pose, KeyboardCalls(keys, s.rotationOrigin));
            FrameStep(s, c, mouse, keys) == Frame(c.(pose := run.pose), run.outcome)
  {
  }

  /** With every button up, a frame whose keyboard calls complete is those
      calls followed by the end of every gesture; with no arrow or page key
      down either, only the flags change. */
  lemma ButtonsUpFrame(s: Settings, c: ControlState, mouse: MouseState, keys: KeyboardState)
    requires ScreenSet(s)
    requires !mouse.leftButton && !mouse.middleButton && !mouse.rightButton
    ensures var run := RunCalls(s.xna, c.pose, KeyboardCalls(keys, s.rotationOrigin));
            run.outcome.Completed? ==>
              FrameStep(s, c, mouse, keys) ==
                Frame(c.(pose := run.pose, activity := c.activity & !GestureBits), Completed)
    ensures !DirectionKeyDown(keys) ==>
              FrameStep(s, c, mouse, keys) == Frame(c.(activity := c.activity & !GestureBits), Completed)
  {
    ClearedGestures(c.activity);
    KeyboardModes(keys, s.rotationOrigin);
  }

  lemma ClearedGestures(flags: bv8)
    ensures flags & !MouseRotate & !MouseZoom & !MousePan == flags & !GestureBits
  {
  }

  /** A left-button drag whose sample has not moved from the drag start
      declines: nothing but the drag end changes. */
  lemma StillDragDoesNotRotate(s: Settings, c: ControlState, mouse: MouseState)
    requires Lawful(s.xna) && ScreenSet(s)
    requires mouse.leftButton && c.activity & MouseRotate == MouseRotate
    requires c.rotationStart == RotationSample(s, c.pose, mouse)
    ensures LeftStep(s, c, mouse) == Frame(c.(rotationEnd := c.rotationStart), Completed)
  {
    DragOnSameSampleDeclines(s.xna, c.pose, c.rotationStart, s.rotationOrigin, s.rotateSpeed);
  }

  /** A right-button drag moves the entity only if the pointer moved since
      the pan start was recorded at `previous` (for a non-zero pan speed). */
  lemma PanNeedsPointerMotion(s: Settings, c: ControlState, mouse: MouseState, previous: MouseState)
    requires ScreenSet(s) && s.panSpeed != 0.0
    requires c.panStart == NormalizedMouseCoordinates(s.screenWidth, s.screenHeight, previous)
    requires previous.x == mouse.x && previous.y == mouse.y
    ensures RightStep(s, c, mouse).state.pose == c.pose
    ensures RightStep(s, c, mouse).outcome == Completed
  {
    PanActsIffPointerMoved(s.screenWidth, s.screenHeight, previous, mouse, s.panSpeed);
  }

  class ArcBallControls {
    const object3D: Object3D
    const rotationOrigin: Vec3

    var RotateSpeed: real
    var PanSpeed: real
    var ZoomSpeed: real
    var MaxZoom: real

    var arcBallRadius: real
    var screenWidth: real
    var screenHeight: real

    var mouseActivityState: bv8
    var mousePanStart: Vec3
    var mousePanEnd: Vec3
    var mouseZoomStart: real
    var mouseZoomEnd: real
    var mouseRotationStart: Vec3
    var mouseRotationEnd: Vec3

    /** The entity is in a valid state and the arc-ball radius is a quarter of
        the sum of the (positive) screen dimensions. */
    ghost predicate Valid()
      reads this, object3D
    {
      object3D.Valid() && ScreenSet(Config())
    }

    /** The fields a frame reads but does not change. */
    function Config(): Settings
      reads this
    {
      Settings(object3D.xna, rotationOrigin, RotateSpeed, PanSpeed, ZoomSpeed, MaxZoom,
               screenWidth, screenHeight, arcBallRadius)
    }

    /** The fields a frame changes, with the entity's pose. */
    function State(): ControlState
      reads this, object3D
    {
      ControlState(object3D.CurrentPose(), mouseActivityState, mousePanStart, mousePanEnd,
                   mouseZoomStart, mouseZoomEnd, mouseRotationStart, mouseRotationEnd)
    }

    constructor (object3D: Object3D, rotationOrigin: Vec3, screenWidth: real, screenHeight: real)
      requires object3D.Valid() && 0.0 < screenWidth && 0.0 < screenHeight
      ensures Valid()
      ensures this.object3D == object3D && this.rotationOrigin == rotationOrigin
      ensures RotateSpeed == 1.5 && ZoomSpeed == 1.0 && MaxZoom == 15.0 && PanSpeed == 300.0
      ensures this.screenWidth == screenWidth && this.screenHeight == screenHeight
      ensures mouseActivityState == MouseNone
    {
      this.object3D := object3D;
      this.rotationOrigin := rotationOrigin;
      RotateSpeed := 1.5;
      ZoomSpeed := 1.0;
      MaxZoom := 15.0;
      PanSpeed := 300.0;
      this.screenWidth := screenWidth;
      this.screenHeight := screenHeight;
      arcBallRadius := (screenWidth + screenHeight) / 4.0;
      mouseActivityState := MouseNone;
      mousePanStart, mousePanEnd := Zero, Zero;
      mouseZoomStart, mouseZoomEnd := 0.0, 0.0;
      mouseRotationStart, mouseRotationEnd := Zero, Zero;
    }

    method UpdateScreenDimentions(screenWidth: real, screenHeight: real)
      requires Valid() && 0.0 < screenWidth && 0.0 < screenHeight
      modifies this`screenWidth, this`screenHeight, this`arcBallRadius
      ensures Valid()
      ensures this.screenWidth == screenWidth && this.screenHeight == screenHeight
    {
      this.screenWidth := screenWidth;
      this.screenHeight := screenHeight;
      arcBallRadius := (this.screenWidth + this.screenHeight) / 4.0;
    }

    /** One frame: keyboard first, then the left, middle and right buttons;
        an exception ends the frame with the effects before it kept. */
    method Update(mouse: MouseState, keys: KeyboardState) returns (outcome: Outcome)
      requires Valid()
      modifies this`mouseActivityState, this`mousePanStart, this`mousePanEnd,
               this`mouseZoomStart, this`mouseZoomEnd, this`mouseRotationStart, this`mouseRotationEnd,
               object3D`Position, object3D`Up, object3D`Forward, object3D`viewMatrix
      ensures Valid()
      ensures Frame(State(), outcome) == FrameStep(Config(), old(State()), mouse, keys)
    {
      outcome := HandleKeyboardInput(keys);
      if outcome.Threw? {
        return;
      }
      outcome := HandleLeftMouseButtonInput(mouse);
      if outcome.Threw? {
        return;
      }
      outcome := HandleMiddleMouseButtonInput(mouse);
      if outcome.Threw? {
        return;
      }
      outcome := HandleRightMouseButtonInput(mouse);
    }

    /** Right button: the first frame records the pointer, later frames pan by
        the pointer's movement times PanSpeed when it is non-zero. */
    method HandleRightMouseButtonInput(mouse: MouseState) returns (outcome: Outcome)
      requires Valid()
      modifies this`mouseActivityState, this`mousePanStart, this`mousePanEnd, object3D`Position, object3D`viewMatrix
      ensures Valid()
      ensures Frame(State(), outcome) == RightStep(Config(), old(State()), mouse)
    {
      outcome := Completed;
      if mouse.rightButton {
        if mouseActivityState & MousePan != MousePan {
          mouseActivityState := mouseActivityState | MousePan;
          mousePanStart := NormalizedMouseCoordinates(screenWidth, screenHeight, mouse);
        } else {
          mousePanEnd := NormalizedMouseCoordinates(screenWidth, screenHeight, mouse);
          var panAmount := Scale(Sub(mousePanStart, mousePanEnd), PanSpeed);
          if LengthSquared(panAmount) > 0.0 {
            outcome := object3D.MoveTo(panAmount);
            if outcome.Threw? {
              return;
            }
            mousePanStart := mousePanEnd;
          }
        }
      } else {
        mouseActivityState := mouseActivityState & !MousePan;
      }
    }

    /** Middle button: the first frame records the pointer's row, later frames
        zoom around the rotation origin by MaxZoom to the power of the rows
        moved over the screen height, times ZoomSpeed, when that factor is
        not within 1E-3 of zero. */
    method HandleMiddleMouseButtonInput(mouse: MouseState) returns (outcome: Outcome)
      requires Valid()
      modifies this`mouseActivityState, this`mouseZoomStart, this`mouseZoomEnd, object3D`Position, object3D`viewMatrix
      ensures Valid()
      ensures Frame(State(), outcome) == MiddleStep(Config(), old(State()), mouse)
    {
      outcome := Completed;
      if mouse.middleButton {
        if mouseActivityState & MouseZoom != MouseZoom {
          mouseActivityState := mouseActivityState | MouseZoom;
          mouseZoomStart := mouse.y as real;
        } else {
          mouseZoomEnd := mouse.y as real;
          var zoomFactor := object3D.xna.pow(MaxZoom, (mouseZoomEnd - mouseZoomStart) / screenHeight) * ZoomSpeed;
          assert zoomFactor == ZoomFactor(object3D.xna, MaxZoom, ZoomSpeed, old(mouseZoomStart), mouse.y as real, screenHeight);
          if zoomFactor - 0.0 > 0.001 || zoomFactor - 0.0 < -0.001 {
            outcome := object3D.Zoom(zoomFactor, rotationOrigin);
            assert Zoomed(object3D.xna, old(object3D.CurrentPose()), zoomFactor, rotationOrigin).Ok? ==> outcome.Completed?;
            if outcome.Threw? {
              return;
            }
            mouseZoomStart := mouseZoomEnd;
          }
        }
      } else {
        mouseActivityState := mouseActivityState & !MouseZoom;
      }
    }

    /** Left button: the first frame projects the arc-ball vector into the
        entity's frame as the drag start; later frames project the new vector
        as the drag end and run the drag step with RotateSpeed; when it
        rotates, both ends become the rotated end. */
    method HandleLeftMouseButtonInput(mouse: MouseState) returns (outcome: Outcome)
      requires Valid()
      modifies this`mouseActivityState, this`mouseRotationStart, this`mouseRotationEnd,
               object3D`Position, object3D`Up, object3D`Forward, object3D`viewMatrix
      ensures Valid()
      ensures Frame(State(), outcome) == LeftStep(Config(), old(State()), mouse)
    {
      outcome := Completed;
      if mouse.leftButton {
        if mouseActivityState & MouseRotate != MouseRotate {
          mouseActivityState := mouseActivityState | MouseRotate;
          var mouseVector := MouseArcBallVector(object3D.xna, screenWidth, screenHeight, arcBallRadius, mouse);
          mouseRotationStart := object3D.GetMouseProjectionOnArcBall(mouseVector, rotationOrigin);
        } else {
          var mouseVector := MouseArcBallVector(object3D.xna, screenWidth, screenHeight, arcBallRadius, mouse);
          mouseRotationEnd := object3D.GetMouseProjectionOnArcBall(mouseVector, rotationOrigin);
          var changed, newStart, newEnd;
          outcome, changed, newStart, newEnd := object3D.RotateArcBall(mouseRotationStart, mouseRotationEnd, rotationOrigin, RotateSpeed);
          if outcome.Threw? {
            return;
          }
          if changed {
            mouseRotationEnd := newEnd;
            mouseRotationStart := mouseRotationEnd;
          }
        }
      } else {
        mouseActivityState := mouseActivityState & !MouseRotate;
      }
    }

    /** Makes one keyboard call if its key is down and no earlier call threw,
        extending the record of the calls made so far. */
    method Press(keys: KeyboardState, key: Key, call: EntityCall, incoming: Outcome,
                 ghost start: Pose, ghost done: seq<EntityCall>)
      returns (outcome: Outcome, ghost doneNow: seq<EntityCall>)
      requires object3D.Valid()
      requires RunCalls(object3D.xna, start, done) == Run(object3D.CurrentPose(), incoming)
      modifies object3D`Position, object3D`Up, object3D`Forward, object3D`viewMatrix
      ensures object3D.Valid()
      ensures doneNow == done + IfDown(keys, key, call)
      ensures RunCalls(object3D.xna, start, doneNow) == Run(object3D.CurrentPose(), outcome)
    {
      doneNow := done + IfDown(keys, key, call);
      RunCallsAppend(object3D.xna, start, done, IfDown(keys, key, call));
      outcome := incoming;
      if incoming.Threw? || key !in keys {
        return;
      }
      assert IfDown(keys, key, call)[1..] == [];
      match call {
        case MoveBy(d) =>
          outcome := object3D.MoveTo(d);
        case TiltBy(r) =>
          object3D.RotateEuler(r);
        case OrbitBy(r, t) =>
          outcome := object3D.RotateEulerAbout(r, t);
      }
    }

    /** The keyboard handler: the calls KeyboardCalls lists, made in order
        until one throws. */
    method HandleKeyboardInput(keys: KeyboardState) returns (outcome: Outcome)
      requires Valid()
      modifies object3D`Position, object3D`Up, object3D`Forward, object3D`viewMatrix
      ensures Valid()
      ensures RunCalls(object3D.xna, old(object3D.CurrentPose()), KeyboardCalls(keys, rotationOrigin)) ==
                Run(object3D.CurrentPose(), outcome)
      ensures Frame(State(), outcome) == KeyboardStep(Config(), old(State()), keys)
    {
      if LeftControl in keys || RightControl in keys {
        outcome := KeyboardOrbit(keys);
      } else if LeftShift in keys || RightShift in keys {
        outcome := KeyboardTilt(keys);
      } else {
        outcome := KeyboardPan(keys);
      }
    }

    /** The Control branch: rotations around the rotation origin. */
    method KeyboardOrbit(keys: KeyboardState) returns (outcome: Outcome)
      requires object3D.Valid()
      modifies object3D`Position, object3D`Up, object3D`Forward, object3D`viewMatrix
      ensures object3D.Valid()
      ensures RunCalls(object3D.xna, old(object3D.CurrentPose()), OrbitCalls(keys, rotationOrigin)) ==
                Run(object3D.CurrentPose(), outcome)
    {
      ghost var start := object3D.CurrentPose();
      ghost var done: seq<EntityCall> := [];
      outcome := Completed;
      outcome, done := Press(keys, Right, OrbitBy(Vec3(0.0, -KeyRotateSpeed, 0.0), rotationOrigin), outcome, start, done);
      outcome, done := Press(keys, Left, OrbitBy(Vec3(0.0, KeyRotateSpeed, 0.0), rotationOrigin), outcome, start, done);
      outcome, done := Press(keys, Up, OrbitBy(Vec3(-KeyRotateSpeed, 0.0, 0.0), rotationOrigin), outcome, start, done);
      outcome, done := Press(keys, Down, OrbitBy(Vec3(KeyRotateSpeed, 0.0, 0.0), rotationOrigin), outcome, start, done);
      outcome, done := Press(keys, PageUp, OrbitBy(Vec3(0.0, 0.0, KeyRotateSpeed), rotationOrigin), outcome, start, done);
      outcome, done := Press(keys, PageDown, OrbitBy(Vec3(0.0, 0.0, -KeyRotateSpeed), rotationOrigin), outcome, start, done);
      assert done == OrbitCalls(keys, rotationOrigin);
    }

    /** The Shift branch: rotations in place. */
    method KeyboardTilt(keys: KeyboardState) returns (outcome: Outcome)
      requires object3D.Valid()
      modifies object3D`Position, object3D`Up, object3D`Forward, object3D`viewMatrix
      ensures object3D.Valid()
      ensures RunCalls(object3D.xna, old(object3D.CurrentPose()), TiltCalls(keys)) ==
                Run(object3D.CurrentPose(), outcome)
    {
      ghost var start := object3D.CurrentPose();
      ghost var done: seq<EntityCall> := [];
      outcome := Completed;
      outcome, done := Press(keys, Right, TiltBy(Vec3(0.0, TiltSpeed, 0.0)), outcome, start, done);
      outcome, done := Press(keys, Left, TiltBy(Vec3(0.0, -TiltSpeed, 0.0)), outcome, start, done);
      outcome, done := Press(keys, Up, TiltBy(Vec3(TiltSpeed, 0.0, 0.0)), outcome, start, done);
      outcome, done := Press(keys, Down, TiltBy(Vec3(-TiltSpeed, 0.0, 0.0)), outcome, start, done);
      outcome, done := Press(keys, PageUp, TiltBy(Vec3(0.0, 0.0, TiltSpeed)), outcome, start, done);
      outcome, done := Press(keys, PageDown, TiltBy(Vec3(0.0, 0.0, -TiltSpeed)), outcome, start, done);
      assert done == TiltCalls(keys);
    }

    /** The branch without modifiers: world-space moves. */
    method KeyboardPan(keys: KeyboardState) returns (outcome: Outcome)
      requires object3D.Valid()
      modifies object3D`Position, object3D`Up, object3D`Forward, object3D`viewMatrix
      ensures object3D.Valid()
      ensures RunCalls(object3D.xna, old(object3D.CurrentPose()), PanCalls(keys)) ==
                Run(object3D.CurrentPose(), outcome)
    {
      ghost var start := object3D.CurrentPose();
      ghost var done: seq<EntityCall> := [];
      outcome := Completed;
      outcome, done := Press(keys, Right, MoveBy(Vec3(MoveSpeed, 0.0, 0.0)), outcome, start, done);
      outcome, done := Press(keys, Left, MoveBy(Vec3(-MoveSpeed, 0.0, 0.0)), outcome, start, done);
      outcome, done := Press(keys, Up, MoveBy(Vec3(0.0, 0.0, MoveSpeed)), outcome, start, done);
      outcome, done := Press(keys, Down, MoveBy(Vec3(0.0, 0.0, -MoveSpeed)), outcome, start, done);
      outcome, done := Press(keys, PageUp, MoveBy(Vec3(0.0, -MoveSpeed, 0.0)), outcome, start, done);
      outcome, done := Press(keys, PageDown, MoveBy(Vec3(0.0, MoveSpeed, 0.0)), outcome, start, done);
      assert done == PanCalls(keys);
    }
  }
}
