/** Object3D.cs: an entity with a position and an orientation (Up, Forward),
    a lazily computed view matrix, and the rotations the arc-ball controls
    drive. */
module Entity {
  import opened XnaMath
  import opened Exceptions
  import XnaExtensions

  /** Position and orientation: everything the transform operations change. */
  datatype Pose = Pose(position: Vec3, up: Vec3, forward: Vec3)

  /** The view matrix of a pose: looking from the position along Forward. */
  function ViewOf(xna: Xna, p: Pose): Matrix {
    xna.lookAt(p.position, Add(p.position, p.forward), p.up)
  }

  /** SetPosition on a pose: validation first, so an invalid position throws
      and leaves the pose as it was. */
  function WithPosition(xna: Xna, p: Pose, position: Vec3): (r: Result<Pose>)
    ensures r.Ok? <==> xna.isValid(position)
    ensures r.Ok? ==> r.value == Pose(position, p.up, p.forward)
    ensures r.Err? ==> r.error == InvalidVector
  {
    match XnaExtensions.Validate(xna, position)
    case Threw(e) => Err(e)
    case Completed => Ok(p.(position := position))
  }

  /** MoveTo on a pose. */
  function Moved(xna: Xna, p: Pose, delta: Vec3): Result<Pose> {
    WithPosition(xna, p, Add(p.position, delta))
  }

  /** Rotate(Quaternion): Up and Forward transformed by the same rotation. */
  function Turned(xna: Xna, p: Pose, rotation: Quat): Pose {
    p.(up := xna.transform(p.up, rotation), forward := xna.transform(p.forward, rotation))
  }

  /** Rotate(Quaternion, aroundTarget): the offset from the target is rotated,
      then the orientation. */
  function Orbited(xna: Xna, p: Pose, rotation: Quat, target: Vec3): Result<Pose> {
    match WithPosition(xna, p, Add(xna.transform(Sub(p.position, target), rotation), target))
    case Err(e) => Err(e)
    case Ok(moved) => Ok(Turned(xna, moved, rotation))
  }

  /** The rotation Rotate(Vector3) builds: yaw from Y, pitch from X, roll from Z. */
  function EulerRotation(xna: Xna, delta: Vec3): Quat {
    xna.fromYawPitchRoll(delta.y, delta.x, delta.z)
  }

  /** Zoom: the offset from the target scaled by the factor. */
  function Zoomed(xna: Xna, p: Pose, factor: real, target: Vec3): Result<Pose> {
    WithPosition(xna, p, Add(target, Scale(Sub(p.position, target), factor)))
  }

  /** Two moves are one move by the sum of the deltas; neither touches the orientation. */
  lemma MovesCompose(xna: Xna, p: Pose, a: Vec3, b: Vec3)
    requires Moved(xna, p, a).Ok?
    ensures Moved(xna, p, a).value.up == p.up && Moved(xna, p, a).value.forward == p.forward
    ensures Moved(xna, Moved(xna, p, a).value, b) == Moved(xna, p, Add(a, b))
  {
  }

  /** A move and the opposite move cancel. */
  lemma MoveAndBack(xna: Xna, p: Pose, d: Vec3)
    requires xna.isValid(p.position)
    requires Moved(xna, p, d).Ok?
    ensures Moved(xna, Moved(xna, p, d).value, Scale(d, -1.0)) == Ok(p)
  {
  }

  /** Zooming by 1 keeps the pose; zooming by f1 and then by f2 around the same
      target is one zoom by f1 * f2. */
  lemma ZoomsCompose(xna: Xna, p: Pose, f1: real, f2: real, target: Vec3)
    ensures xna.isValid(p.position) ==> Zoomed(xna, p, 1.0, target) == Ok(p)
    ensures Zoomed(xna, p, f1, target).Ok? ==>
              Zoomed(xna, Zoomed(xna, p, f1, target).value, f2, target) == Zoomed(xna, p, f1 * f2, target)
  {
    var rel := Sub(p.position, target);
    assert Add(target, Scale(rel, 1.0)) == p.position;
    var p1 := Add(target, Scale(rel, f1));
    assert Sub(p1, target) == Scale(rel, f1);
    assert Scale(Scale(rel, f1), f2) == Scale(rel, f1 * f2);
  }

  /** The outcome of one arc-ball drag step. */
  datatype DragStep =
    | Declined                                          // returns false: nothing changes
    | Applied(rotation: Quat, pose: Pose, end: Vec3)    // returns true
    | Failed(error: Exception)                          // SetPosition threw

  /** The angle of a drag step: the angle between the samples times the speed
      (the constant 1 in Object3D.cs, the controller's RotateSpeed at its call). */
  function DragAngle(xna: Xna, start: Vec3, end: Vec3, speed: real): Float {
    Times(XnaExtensions.AngleWith(xna, start, end), speed)
  }

  /** Rotate(ref start, ref end, aroundTarget) on a pose. */
  function ArcBallDrag(xna: Xna, p: Pose, start: Vec3, end: Vec3, target: Vec3, speed: real): (r: DragStep)
    ensures r.Declined? <==> !IsPositive(DragAngle(xna, start, end, speed)) || !xna.isValid(Cross(start, end))
    ensures r.Applied? ==> r.rotation == xna.fromAxisAngle(xna.normalize(Cross(start, end)),
                                                           -DragAngle(xna, start, end, speed).value)
    ensures r.Applied? ==> Orbited(xna, p, r.rotation, target) == Ok(r.pose)
    ensures r.Failed? ==> r.error == InvalidVector
  {
    var angle := DragAngle(xna, start, end, speed);
    if !IsPositive(angle) then Declined
    else
      var axis := Cross(start, end);
      if !xna.isValid(axis) then Declined
      else
        var rotation := xna.fromAxisAngle(xna.normalize(axis), -angle.value);
        match Orbited(xna, p, rotation, target)
        case Err(e) => Failed(e)
        case Ok(rotated) => Applied(rotation, rotated, xna.transform(end, rotation))
  }

  /** The angle between a sample and itself is zero, or undefined for the
      zero sample; either way it is not positive. */
  lemma SameSampleAngleNotPositive(xna: Xna, sample: Vec3, speed: real)
    requires Lawful(xna)
    ensures !IsPositive(DragAngle(xna, sample, sample, speed))
  {
    if Length(xna, sample) == 0.0 {
      XnaExtensions.AngleWithZeroLength(xna, sample, sample);
    } else {
      assert sample != Zero by {
        LengthOfZero(xna);
      }
      XnaExtensions.AngleWithItself(xna, sample);
    }
  }

  /** Dragging from a sample to the same sample declines. */
  lemma DragOnSameSampleDeclines(xna: Xna, p: Pose, sample: Vec3, target: Vec3, speed: real)
    requires Lawful(xna)
    ensures ArcBallDrag(xna, p, sample, sample, target, speed) == Declined
  {
    SameSampleAngleNotPositive(xna, sample, speed);
  }

  class Object3D {
    /** The numeric primitives this object is computed with. */
    const xna: Xna
    /** The derived class's RequiresUpdate property. */
    const RequiresUpdate: bool

    var Position: Vec3
    var Up: Vec3
    var Forward: Vec3
    var Bounds: Vec3

    /** The nullable view-matrix cache. */
    var viewMatrix: Option<Matrix>

    /** The debug dictionaries, created on first access. */
    var debugMessages: Option<map<string, string>>
    var debugLines: Option<map<string, VertexPositionColor>>

    function CurrentPose(): Pose
      reads this
    {
      Pose(Position, Up, Forward)
    }

    /** The position always passed validation, and a cached view matrix is
        the one the current pose gives. */
    ghost predicate Valid()
      reads this
    {
      xna.isValid(Position) &&
      (viewMatrix.Some? ==> viewMatrix.value == ViewOf(xna, CurrentPose()))
    }

    /** The constructor body once SetPosition's validation has passed. */
    constructor (xna: Xna, requiresUpdate: bool, position: Vec3, lookAt: Vec3, up: Vec3)
      requires xna.isValid(position)
      ensures Valid()
      ensures this.xna == xna && RequiresUpdate == requiresUpdate
      ensures CurrentPose() == Pose(position, up, xna.normalize(Sub(lookAt, position)))
      ensures viewMatrix.None? && debugMessages.None? && debugLines.None? && Bounds == Zero
    {
      this.xna := xna;
      RequiresUpdate := requiresUpdate;
      Position := position;
      Up := up;
      Forward := xna.normalize(Sub(lookAt, position));
      Bounds := Zero;
      viewMatrix := None;
      debugMessages := None;
      debugLines := None;
    }

    /** `new Object3D(...)`: the constructor throws when the position is not valid. */
    static method Create(xna: Xna, requiresUpdate: bool, position: Vec3, lookAt: Vec3, up: Vec3)
      returns (r: Result<Object3D>)
      ensures r.Ok? <==> xna.isValid(position)
      ensures r.Err? ==> r.error == InvalidVector
      ensures r.Ok? ==> fresh(r.value) && r.value.Valid() && r.value.xna == xna
      ensures r.Ok? ==> r.value.RequiresUpdate == requiresUpdate && r.value.Bounds == Zero
      ensures r.Ok? ==> r.value.CurrentPose() == Pose(position, up, xna.normalize(Sub(lookAt, position)))
    {
      if !xna.isValid(position) {
        return Err(InvalidVector);
      }
      var o := new Object3D(xna, requiresUpdate, position, lookAt, up);
      r := Ok(o);
    }

    method SetPosition(position: Vec3) returns (outcome: Outcome)
      requires Valid()
      modifies this`Position, this`viewMatrix
      ensures Valid()
      ensures WithPosition(xna, old(CurrentPose()), position).Ok? ==>
                outcome == Completed && CurrentPose() == WithPosition(xna, old(CurrentPose()), position).value && viewMatrix.None?
      ensures WithPosition(xna, old(CurrentPose()), position).Err? ==>
                outcome == Threw(InvalidVector) && Position == old(Position) && viewMatrix == old(viewMatrix)
    {
      outcome := XnaExtensions.Validate(xna, position);
      if outcome.Threw? {
        return;
      }
      Position := position;
      ResetViewMatrix();
    }

    /** Stores both vectors as given (no normalisation, no validation). */
    method SetOrientation(up: Vec3, forward: Vec3)
      requires Valid()
      modifies this`Up, this`Forward, this`viewMatrix
      ensures Valid()
      ensures CurrentPose() == Pose(old(Position), up, forward) && viewMatrix.None?
    {
      Up := up;
      Forward := forward;
      ResetViewMatrix();
    }

    method ResetViewMatrix()
      requires xna.isValid(Position)
      modifies this`viewMatrix
      ensures Valid() && viewMatrix.None?
    {
      viewMatrix := None;
    }

    /** The ViewMatrix getter: fills the cache when it is empty. Two reads with
        no mutation in between return the same matrix, the one the pose gives. */
    method ViewMatrix() returns (m: Matrix)
      requires Valid()
      modifies this`viewMatrix
      ensures Valid()
      ensures m == ViewOf(xna, CurrentPose()) && viewMatrix == Some(m)
      ensures old(viewMatrix).Some? ==> m == old(viewMatrix).value
    {
      if viewMatrix.None? {
        viewMatrix := Some(xna.lookAt(Position, Add(Position, Forward), Up));
      }
      m := viewMatrix.value;
    }

    /** MoveTo: a world-space displacement. */
    method MoveTo(deltaPosition: Vec3) returns (outcome: Outcome)
      requires Valid()
      modifies this`Position, this`viewMatrix
      ensures Valid()
      ensures match Moved(xna, old(CurrentPose()), deltaPosition)
              case Ok(p) => outcome == Completed && CurrentPose() == p && viewMatrix.None?
              case Err(e) => outcome == Threw(e) && Position == old(Position) && viewMatrix == old(viewMatrix)
    {
      outcome := SetPosition(Add(Position, deltaPosition));
    }

    function GetMouseProjectionOnArcBall(normalizedMouseVector: Vec3, aroundTarget: Vec3): (r: Vec3)
      reads this
      ensures normalizedMouseVector == Vec3(0.0, 0.0, 1.0) ==> r == xna.normalize(Sub(Position, aroundTarget))
      ensures normalizedMouseVector == Vec3(0.0, 1.0, 0.0) ==> r == Up
    {
      ArcBallProjection(xna, Position, Up, normalizedMouseVector, aroundTarget)
    }

    /** Rotate(axis, angle, aroundTarget): the rotation is built from the
        negated angle, applied around the target, and returned. */
    method RotateAxisAngle(axis: Vec3, angle: real, aroundTarget: Vec3) returns (rotation: Quat, outcome: Outcome)
      requires Valid()
      modifies this`Position, this`Up, this`Forward, this`viewMatrix
      ensures Valid()
      ensures rotation == xna.fromAxisAngle(axis, -angle)
      ensures match Orbited(xna, old(CurrentPose()), rotation, aroundTarget)
              case Ok(p) => outcome == Completed && CurrentPose() == p && viewMatrix.None?
              case Err(e) => outcome == Threw(e) && CurrentPose() == old(CurrentPose()) && viewMatrix == old(viewMatrix)
    {
      rotation := xna.fromAxisAngle(axis, -angle);
      outcome := RotateAbout(rotation, aroundTarget);
    }

    /** Rotate(Quaternion): the orientation turns, the position stays. */
    method RotateInPlace(rotation: Quat)
      requires Valid()
      modifies this`Up, this`Forward, this`viewMatrix
      ensures Valid()
      ensures CurrentPose() == Turned(xna, old(CurrentPose()), rotation) && Position == old(Position) && viewMatrix.None?
    {
      SetOrientation(xna.transform(Up, rotation), xna.transform(Forward, rotation));
    }

    /** Rotate(Quaternion, aroundTarget). SetPosition runs first; if it throws
        the orientation is not touched. */
    method RotateAbout(rotation: Quat, aroundTarget: Vec3) returns (outcome: Outcome)
      requires Valid()
      modifies this`Position, this`Up, this`Forward, this`viewMatrix
      ensures Valid()
      ensures match Orbited(xna, old(CurrentPose()), rotation, aroundTarget)
              case Ok(p) => outcome == Completed && CurrentPose() == p && viewMatrix.None?
              case Err(e) => outcome == Threw(e) && CurrentPose() == old(CurrentPose()) && viewMatrix == old(viewMatrix)
    {
      var relativePosition := Sub(Position, aroundTarget);
      var rotatedRelativePosition := xna.transform(relativePosition, rotation);
      outcome := SetPosition(Add(rotatedRelativePosition, aroundTarget));
      if outcome.Threw? {
        return;
      }
      RotateInPlace(rotation);
    }

    /** Rotate(Vector3): yaw, pitch and roll from Y, X and Z, in place. */
    method RotateEuler(deltaRotation: Vec3)
      requires Valid()
      modifies this`Up, this`Forward, this`viewMatrix
      ensures Valid()
      ensures CurrentPose() == Turned(xna, old(CurrentPose()), EulerRotation(xna, deltaRotation)) && viewMatrix.None?
    {
      var rotation := xna.fromYawPitchRoll(deltaRotation.y, deltaRotation.x, deltaRotation.z);
      RotateInPlace(rotation);
    }

    /** Rotate(Vector3, aroundTarget). */
    method RotateEulerAbout(deltaRotation: Vec3, aroundTarget: Vec3) returns (outcome: Outcome)
      requires Valid()
      modifies this`Position, this`Up, this`Forward, this`viewMatrix
      ensures Valid()
      ensures match Orbited(xna, old(CurrentPose()), EulerRotation(xna, deltaRotation), aroundTarget)
              case Ok(p) => outcome == Completed && CurrentPose() == p && viewMatrix.None?
              case Err(e) => outcome == Threw(e) && CurrentPose() == old(CurrentPose()) && viewMatrix == old(viewMatrix)
    {
      var rotation := xna.fromYawPitchRoll(deltaRotation.y, deltaRotation.x, deltaRotation.z);
      outcome := RotateAbout(rotation, aroundTarget);
    }

    /** The arc-ball drag step Rotate(ref start, ref end, aroundTarget), with
        the factor on the angle as a parameter. It declines (false) when the
        angle is not positive or the cross product is invalid; otherwise it
        rotates around the target and both samples become the rotated end. */
    method RotateArcBall(startArcBallVector: Vec3, endArcBallVector: Vec3, aroundTarget: Vec3, speed: real)
      returns (outcome: Outcome, changed: bool, newStart: Vec3, newEnd: Vec3)
      requires Valid()
      modifies this`Position, this`Up, this`Forward, this`viewMatrix
      ensures Valid()
      ensures match ArcBallDrag(xna, old(CurrentPose()), startArcBallVector, endArcBallVector, aroundTarget, speed)
              case Declined =>
                outcome == Completed && !changed && newStart == startArcBallVector && newEnd == endArcBallVector &&
                CurrentPose() == old(CurrentPose()) && viewMatrix == old(viewMatrix)
              case Failed(e) =>
                outcome == Threw(e) && !changed && newStart == startArcBallVector && newEnd == endArcBallVector &&
                CurrentPose() == old(CurrentPose()) && viewMatrix == old(viewMatrix)
              case Applied(_, p, e) =>
                outcome == Completed && changed && newEnd == e && newStart == newEnd &&
                CurrentPose() == p && viewMatrix.None?
    {
      newStart, newEnd := startArcBallVector, endArcBallVector;
      changed := false;
      outcome := Completed;
      var angle := Times(XnaExtensions.AngleWith(xna, startArcBallVector, endArcBallVector), speed);
      if IsPositive(angle) {
        var axis := Cross(startArcBallVector, endArcBallVector);
        if !XnaExtensions.IsValid(xna, axis) {
          return;
        }
        axis := xna.normalize(axis);
        var rotation;
        rotation, outcome := RotateAxisAngle(axis, angle.value, aroundTarget);
        if outcome.Threw? {
          return;
        }
        newEnd := xna.transform(newEnd, rotation);
        newStart := XnaExtensions.Clone(newEnd);
        changed := true;
      }
    }

    /** Zoom(factor, aroundTarget), as the controller calls it: the offset from
        the target is scaled by the factor. */
    method Zoom(factor: real, aroundTarget: Vec3) returns (outcome: Outcome)
      requires Valid()
      modifies this`Position, this`viewMatrix
      ensures Valid()
      ensures match Zoomed(xna, old(CurrentPose()), factor, aroundTarget)
              case Ok(p) => outcome == Completed && CurrentPose() == p && viewMatrix.None?
              case Err(e) => outcome == Threw(e) && Position == old(Position) && viewMatrix == old(viewMatrix)
    {
      outcome := SetPosition(Add(aroundTarget, Scale(Sub(Position, aroundTarget), factor)));
    }

    /** The base Update throws whichever way RequiresUpdate is set. */
    method Update() returns (outcome: Outcome)
      ensures outcome.Threw?
      ensures outcome.error == (if RequiresUpdate then UpdateNotImplemented else UpdateNotRequired)
    {
      if RequiresUpdate {
        outcome := Threw(UpdateNotImplemented);
      } else {
        outcome := Threw(UpdateNotRequired);
      }
    }

    /** The DebugMessages getter: an empty dictionary on first access, the same one afterwards. */
    method DebugMessages() returns (messages: map<string, string>)
      modifies this`debugMessages
      ensures debugMessages == Some(messages)
      ensures old(debugMessages).Some? ==> messages == old(debugMessages).value
      ensures old(debugMessages).None? ==> messages == map[]
    {
      if debugMessages.None? {
        debugMessages := Some(map[]);
      }
      messages := debugMessages.value;
    }

    /** The DebugLines getter, lazily created in the same way. */
    method DebugLines() returns (lines: map<string, VertexPositionColor>)
      modifies this`debugLines
      ensures debugLines == Some(lines)
      ensures old(debugLines).Some? ==> lines == old(debugLines).value
      ensures old(debugLines).None? ==> lines == map[]
    {
      if debugLines.None? {
        debugLines := Some(map[]);
      }
      lines := debugLines.value;
    }
  }

  /** GetMouseProjectionOnArcBall: the arc-ball sample mapped into the frame
      of an entity at a position with an up vector, orbiting a target: the Z
      part along the direction from the target, Y along Up and X along
      Up x that direction. */
  function ArcBallProjection(xna: Xna, position: Vec3, up: Vec3, normalizedMouseVector: Vec3, aroundTarget: Vec3): (r: Vec3)
    ensures normalizedMouseVector == Vec3(0.0, 0.0, 1.0) ==> r == xna.normalize(Sub(position, aroundTarget))
    ensures normalizedMouseVector == Vec3(0.0, 1.0, 0.0) ==> r == up
  {
    var normalizedRelativePosition := xna.normalize(Sub(position, aroundTarget));
    Add(Add(Scale(normalizedRelativePosition, normalizedMouseVector.z),
            Scale(up, normalizedMouseVector.y)),
        Scale(Cross(up, normalizedRelativePosition), normalizedMouseVector.x))
  }

  /** With Up a unit vector perpendicular to the direction from the target
      (an orthonormal frame), the projection keeps the length of the sample:
      a unit arc-ball sample stays a unit vector. */
  lemma ProjectionKeepsLength(xna: Xna, position: Vec3, up: Vec3, sample: Vec3, target: Vec3)
    requires Lawful(xna)
    requires position != target
    requires LengthSquared(up) == 1.0
    requires Dot(up, xna.normalize(Sub(position, target))) == 0.0
    ensures LengthSquared(ArcBallProjection(xna, position, up, sample, target)) == LengthSquared(sample)
  {
    var rel := Sub(position, target);
    NormalizeNonZero(xna, rel);
    var n := xna.normalize(rel);
    var l := Length(xna, rel);
    assert LengthSquared(n) == 1.0 by {
      LengthPositive(xna, rel);
      ScaleLengthSquared(rel, 1.0 / l);
      UnitAfterDivision(l, LengthSquared(rel));
    }
    var c := Cross(up, n);
    assert LengthSquared(c) == 1.0 by {
      XnaExtensions.LagrangeIdentity(up, n);
    }
    DotSymmetric(up, n);
    OrthonormalCombination(n, up, c, sample);
    assert ArcBallProjection(xna, position, up, sample, target) ==
      Add(Add(Scale(n, sample.z), Scale(up, sample.y)), Scale(c, sample.x));
  }

  /** |a s.z + b s.y + c s.x|^2 = |s|^2 for an orthonormal a, b and c = b x a. */
  lemma OrthonormalCombination(a: Vec3, b: Vec3, c: Vec3, s: Vec3)
    requires LengthSquared(a) == 1.0 && LengthSquared(b) == 1.0 && LengthSquared(c) == 1.0
    requires Dot(a, b) == 0.0 && c == Cross(b, a)
    ensures LengthSquared(Add(Add(Scale(a, s.z), Scale(b, s.y)), Scale(c, s.x))) == LengthSquared(s)
  {
    var x, y, z := s.x, s.y, s.z;
    assert Dot(a, c) == 0.0 && Dot(b, c) == 0.0;
    LengthSquaredOfSum(Scale(a, z), Scale(b, y), Scale(c, x));
    DotOfScaled(a, b, z, y);
    DotOfScaled(a, c, z, x);
    DotOfScaled(b, c, y, x);
    ScaleLengthSquared(a, z);
    ScaleLengthSquared(b, y);
    ScaleLengthSquared(c, x);
  }
}
