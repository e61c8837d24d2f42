/** Camera.cs: a free camera whose view matrix is recomputed eagerly after
    every change. Unlike Object3D it does not validate positions, and its
    drag step has no validity check on the rotation axis. */
module Cameras {
  import opened XnaMath
  import opened Exceptions
  import XnaExtensions
  import opened Entity

  /** A debug message: the value whose text the camera records. */
  datatype DebugValue = Number(f: Float) | Vector(v: Vec3)

  /** The pose after a rotation about a target, without validation: the offset
      from the target is rotated, then the orientation. */
  function Swung(xna: Xna, p: Pose, rotation: Quat, target: Vec3): Pose {
    Turned(xna, p.(position := Add(xna.transform(Sub(p.position, target), rotation), target)), rotation)
  }

  /** The camera's swing and Object3D's validated orbit agree whenever the new
      position is valid; Object3D throws exactly when it is not. */
  lemma SwungAgreesWithOrbited(xna: Xna, p: Pose, rotation: Quat, target: Vec3)
    ensures var moved := Add(xna.transform(Sub(p.position, target), rotation), target);
            if xna.isValid(moved) then Orbited(xna, p, rotation, target) == Ok(Swung(xna, p, rotation, target))
            else Orbited(xna, p, rotation, target) == Err(InvalidVector)
  {
  }

  /** The outcome of the camera's drag step. */
  datatype CameraDragStep =
    | Still                                             // the angle is not positive
    | Swing(rotation: Quat, pose: Pose, end: Vec3)

  /** Rotate(ref start, ref end, aroundTarget): rotates whenever the angle
      between the samples is positive, with the normalised cross product as
      axis whether or not that is a valid vector. */
  function CameraDrag(xna: Xna, p: Pose, start: Vec3, end: Vec3, target: Vec3): (r: CameraDragStep)
    ensures r.Swing? <==> IsPositive(DragAngle(xna, start, end, 1.0))
    ensures r.Swing? ==>
              r.rotation == xna.fromAxisAngle(xna.normalize(Cross(start, end)), -DragAngle(xna, start, end, 1.0).value) &&
              r.pose == Swung(xna, p, r.rotation, target) && r.end == xna.transform(end, r.rotation)
  {
    var angle := DragAngle(xna, start, end, 1.0);
    if !IsPositive(angle) then Still
    else
      var rotation := xna.fromAxisAngle(xna.normalize(Cross(start, end)), -angle.value);
      Swing(rotation, Swung(xna, p, rotation, target), xna.transform(end, rotation))
  }

  /** Where Object3D's drag step declines for an invalid axis, the camera
      still rotates, and otherwise the two agree. */
  lemma CameraDragVersusEntityDrag(xna: Xna, p: Pose, start: Vec3, end: Vec3, target: Vec3)
    ensures var step := ArcBallDrag(xna, p, start, end, target, 1.0);
            var cameraStep := CameraDrag(xna, p, start, end, target);
            (step.Declined? && IsPositive(DragAngle(xna, start, end, 1.0)) ==> cameraStep.Swing?) &&
            (step.Applied? ==> cameraStep == Swing(step.rotation, step.pose, step.end))
  {
    var step := ArcBallDrag(xna, p, start, end, target, 1.0);
    if step.Applied? {
      SwungAgreesWithOrbited(xna, p, step.rotation, target);
    }
  }

  /** Dragging from a sample to the same sample leaves the camera still. */
  lemma CameraDragOnSameSampleIsStill(xna: Xna, p: Pose, sample: Vec3, target: Vec3)
    requires Lawful(xna)
    ensures CameraDrag(xna, p, sample, sample, target) == Still
  {
    SameSampleAngleNotPositive(xna, sample, 1.0);
  }

  /** The axis Rotate(angle, aroundTarget) turns about, before normalisation:
      the offset crossed with Up, or with Forward when that is shorter than
      1E-2. Either way it is perpendicular to the offset. */
  function OrbitAxis(xna: Xna, relativePosition: Vec3, up: Vec3, forward: Vec3): (r: Vec3)
    ensures Dot(r, relativePosition) == 0.0
    ensures r == Cross(relativePosition, up) || r == Cross(relativePosition, forward)
    ensures Length(xna, Cross(relativePosition, up)) >= 0.01 ==> r == Cross(relativePosition, up)
    ensures Length(xna, Cross(relativePosition, up)) < 0.01 ==> r == Cross(relativePosition, forward)
  {
    var rotationAxis := Cross(relativePosition, up);
    if Length(xna, rotationAxis) < 0.01 then Cross(relativePosition, forward) else rotationAxis
  }

  /** The rotation Rotate(angle, aroundTarget) applies. */
  function OrbitRotation(xna: Xna, p: Pose, angle: real, target: Vec3): Quat {
    xna.fromAxisAngle(xna.normalize(OrbitAxis(xna, Sub(p.position, target), p.up, p.forward)), -angle)
  }

  /** With Up perpendicular to a non-zero offset from the target and of unit
      length, the cross product is the offset's length, so Up is used as soon
      as the camera is at least 1E-2 from the target. */
  lemma OrbitAxisUsesUpAwayFromTarget(xna: Xna, p: Pose, target: Vec3)
    requires Lawful(xna)
    requires LengthSquared(p.up) == 1.0 && Dot(Sub(p.position, target), p.up) == 0.0
    requires Length(xna, Sub(p.position, target)) >= 0.01
    ensures OrbitAxis(xna, Sub(p.position, target), p.up, p.forward) == Cross(Sub(p.position, target), p.up)
  {
    var rel := Sub(p.position, target);
    var c := Cross(rel, p.up);
    assert LengthSquared(c) == LengthSquared(rel) by {
      XnaExtensions.LagrangeIdentity(rel, p.up);
    }
  }

  class Camera {
    const xna: Xna
    const projectionMatrix: Matrix

    var viewMatrix: Matrix
    var position: Vec3
    var up: Vec3
    var forward: Vec3

    var debugMessages: map<string, DebugValue>
    var debugLines: map<string, VertexPositionColor>

    function CurrentPose(): Pose
      reads this
    {
      Pose(position, up, forward)
    }

    /** The initial view looks at the given point; the projection uses a
        45-degree field of view. */
    constructor (xna: Xna, position: Vec3, lookAt: Vec3, cameraUp: Vec3, aspectRatio: real, nearClip: real, farClip: real)
      ensures this.xna == xna
      ensures projectionMatrix == xna.perspective(PiOver4, aspectRatio, nearClip, farClip)
      ensures viewMatrix == xna.lookAt(position, lookAt, cameraUp)
      ensures CurrentPose() == Pose(position, cameraUp, xna.normalize(Sub(lookAt, position)))
      ensures debugMessages == map[] && debugLines == map[]
    {
      this.xna := xna;
      projectionMatrix := xna.perspective(PiOver4, aspectRatio, nearClip, farClip);
      viewMatrix := xna.lookAt(position, lookAt, cameraUp);
      this.position := position;
      up := cameraUp;
      forward := xna.normalize(Sub(lookAt, position));
      debugMessages := map[];
      debugLines := map[];
    }

    /** Rotate(Vector3): yaw, pitch and roll in place, then the view is rebuilt. */
    method Rotate(deltaRotation: Vec3)
      modifies this`up, this`forward, this`viewMatrix
      ensures CurrentPose() == Turned(xna, old(CurrentPose()), EulerRotation(xna, deltaRotation))
      ensures viewMatrix == ViewOf(xna, CurrentPose())
    {
      var rotation := xna.fromYawPitchRoll(deltaRotation.y, deltaRotation.x, deltaRotation.z);
      up := xna.transform(up, rotation);
      forward := xna.transform(forward, rotation);
      viewMatrix := xna.lookAt(position, Add(position, forward), up);
    }

    method MoveTo(deltaPosition: Vec3)
      modifies this`position, this`viewMatrix
      ensures CurrentPose() == old(CurrentPose()).(position := Add(old(position), deltaPosition))
      ensures viewMatrix == ViewOf(xna, CurrentPose())
    {
      position := Add(position, deltaPosition);
      viewMatrix := xna.lookAt(position, Add(position, forward), up);
    }

    function GetMouseProjectionOnArcBall(normalizedMouseVector: Vec3, aroundTarget: Vec3): (r: Vec3)
      reads this
      ensures normalizedMouseVector == Vec3(0.0, 0.0, 1.0) ==> r == xna.normalize(Sub(position, aroundTarget))
      ensures normalizedMouseVector == Vec3(0.0, 1.0, 0.0) ==> r == up
    {
      ArcBallProjection(xna, position, up, normalizedMouseVector, aroundTarget)
    }

    /** The camera's drag step. The angle and both samples are always
        recorded as debug messages; when it rotates, the rotated Up is too. */
    method RotateArcBall(startVector: Vec3, endVector: Vec3, aroundTarget: Vec3)
      returns (newStart: Vec3, newEnd: Vec3)
      modifies this`position, this`up, this`forward, this`viewMatrix, this`debugMessages
      ensures var angle := DragAngle(xna, startVector, endVector, 1.0);
              var recorded := old(debugMessages)["Angle" := Number(angle)]["startVector" := Vector(startVector)]
                                                ["endVector" := Vector(endVector)];
              match CameraDrag(xna, old(CurrentPose()), startVector, endVector, aroundTarget)
              case Still =>
                newStart == startVector && newEnd == endVector && CurrentPose() == old(CurrentPose()) &&
                viewMatrix == old(viewMatrix) && debugMessages == recorded
              case Swing(_, p, rotatedEnd) =>
                newEnd == rotatedEnd && newStart == rotatedEnd && CurrentPose() == p &&
                viewMatrix == xna.lookAt(position, Add(forward, position), up) &&
                debugMessages == recorded["rotatedUp" := Vector(p.up)]
    {
      newStart, newEnd := startVector, endVector;
      var angle := Times(XnaExtensions.AngleWith(xna, startVector, endVector), 1.0);
      debugMessages := debugMessages["Angle" := Number(angle)];
      debugMessages := debugMessages["startVector" := Vector(startVector)];
      debugMessages := debugMessages["endVector" := Vector(endVector)];

      if IsPositive(angle) {
        var axis := Cross(newStart, newEnd);
        axis := xna.normalize(axis);
        var q := xna.fromAxisAngle(axis, -angle.value);
        var relativePosition := Sub(position, aroundTarget);
        var rotatedRelativePosition := xna.transform(relativePosition, q);
        position := Add(rotatedRelativePosition, aroundTarget);
        up := xna.transform(up, q);
        forward := xna.transform(forward, q);
        newEnd := xna.transform(newEnd, q);
        newStart := Vec3(newEnd.x, newEnd.y, newEnd.z);
        viewMatrix := xna.lookAt(position, Add(forward, position), up);
        debugMessages := debugMessages["rotatedUp" := Vector(up)];
      }
    }

    /** Rotate(angle, aroundTarget): a turn by the negated angle about the
        axis OrbitAxis picks, around the target. */
    method RotateAround(angle: real, aroundTarget: Vec3)
      modifies this`position, this`up, this`forward, this`viewMatrix
      ensures CurrentPose() == Swung(xna, old(CurrentPose()), OrbitRotation(xna, old(CurrentPose()), angle, aroundTarget), aroundTarget)
      ensures viewMatrix == xna.lookAt(position, Add(forward, position), up)
    {
      var relativePosition := Sub(position, aroundTarget);
      var rotationAxis := Cross(relativePosition, up);
      if Length(xna, rotationAxis) < 0.01 {
        rotationAxis := Cross(relativePosition, forward);
      }
      rotationAxis := xna.normalize(rotationAxis);
      var rotation := xna.fromAxisAngle(rotationAxis, -angle);
      var rotatedRelativePosition := xna.transform(relativePosition, rotation);
      position := Add(rotatedRelativePosition, aroundTarget);
      up := xna.transform(up, rotation);
      forward := xna.transform(forward, rotation);
      viewMatrix := xna.lookAt(position, Add(forward, position), up);
    }
  }
}
