# StartTrek 3-D viewer experiments, modelled in Dafny

The repository's Projection experiment is a small XNA viewer. An `Object3D` is an entity with a position, an up vector and a forward vector. It caches its view matrix and can be moved, rotated in place, orbited around a target, dragged with an arc-ball, and zoomed. `ArcBallControls` turns mouse drags and arrow keys into those calls. A stand-alone `Camera` does the same for the eye. `Scene`s hold lists of entities, such as one cube, or a field of 500 thin cubes. `FpsCounter` measures the frame rate. The XnaEarth experiment adds a star field made of billboard quads with 16-bit or 32-bit indices, and a demo whose keyboard and mouse handling toggles options, clamps the cloud strength and the camera distance, and hides an idle cursor.

This project models those parts:

- Vector arithmetic uses exact reals (`XnaMath`).
- XNA and System primitives that round or are transcendental are not interpreted. These are square root, arc cosine, power, normalisation, quaternion construction, `Vector3.Transform`, the look-at and perspective matrices, and the NaN test. Each is a field of the record `XnaMath.Xna`. The predicate `XnaMath.Lawful` states the few exact-arithmetic facts about them that the proofs use.
- Exceptions become `Exceptions.Outcome` and `Result` values. A throwing constructor becomes a static `Create` method that returns a `Result`.
- Entities whose fields the source updates in place are classes: `Object3D`, `ArcBallControls`, `Camera`, `Cube`, `Scene`, `StarfieldComponent`, `FpsCounter` and the Earth `Demo`. Each class method is specified against a pure function on values, such as `Pose`, `FpsState` or `QuadIndices`, and the lemmas are about those functions.
- C# inheritance (`Cube : Object3D`, `SingleCubeScene : Scene`) becomes composition. A `Cube` holds its `Object3D` as `entity`, and a concrete scene holds its `Scene`.

Files:

| file | module |
|---|---|
| `xna_math.dfy` | `XnaMath`: vectors, the primitive record, basic algebra |
| `exceptions.dfy` | `Exceptions`: outcomes and results |
| `xna_input.dfy` | `XnaInput`: keyboard and mouse snapshots |
| `xna_extensions.dfy` | `XnaExtensions`: `XnaExtentions.cs` |
| `object3d.dfy` | `Entity`: `Object3D.cs` |
| `arcball_controls.dfy` | `ArcBall`: `ArcBallControls.cs` |
| `camera.dfy` | `Cameras`: `Camera.cs` |
| `cube.dfy` | `Cubes`: `Cube.cs` |
| `scenes.dfy` | `Scenes`: `Scene.cs`, `SingleCubeScene.cs`, `ArrowFieldScene.cs` |
| `starfield.dfy` | `Starfield`: `StarfieldComponent.cs` |
| `fps_counter.dfy` | `Fps`: `FpsCounter.cs` |
| `earth_demo.dfy` | `EarthDemo`: `Demo.cs` input handling |

## Model

| member | source | states |
|---|---|---|
| XnaExtensions.Components | Experiments/Projection/Projection/Projection/XnaExtentions.cs:14-27 | succeeds exactly for index 0, 1 or 2; any other index throws |
| XnaExtensions.CreateVertex3FromComponents | Experiments/Projection/Projection/Projection/XnaExtentions.cs:110-113 | succeeds exactly when the array has at least three entries |
| XnaExtensions.ComponentsRoundTrip | Experiments/Projection/Projection/Projection/XnaExtentions.cs:14-27 | building a vector from its three components gives the vector back |
| XnaExtensions.Clone | Experiments/Projection/Projection/Projection/XnaExtentions.cs:29-32 | the clone equals the original |
| XnaExtensions.Validate | Experiments/Projection/Projection/Projection/XnaExtentions.cs:39-43 | completes iff the vector is valid; otherwise throws InvalidVector |
| XnaExtensions.GetXVector | Experiments/Projection/Projection/Projection/XnaExtentions.cs:53-56 | keeps X and zeroes Y and Z |
| XnaExtensions.GetYVector | Experiments/Projection/Projection/Projection/XnaExtentions.cs:49-52 | keeps Y and zeroes X and Z |
| XnaExtensions.GetZVector | Experiments/Projection/Projection/Projection/XnaExtentions.cs:45-48 | keeps Z and zeroes X and Y |
| XnaExtensions.AxisProjectionsSum | Experiments/Projection/Projection/Projection/XnaExtentions.cs:45-56 | the three axis projections sum to the vector and are pairwise perpendicular |
| XnaExtensions.GetWithNewLength | Experiments/Projection/Projection/Projection/XnaExtentions.cs:58-62 | the result is a multiple of the vector; it is undefined exactly for length 0 |
| XnaExtensions.GetWithNewLengthCorrect | Experiments/Projection/Projection/Projection/XnaExtentions.cs:58-62 | for a non-zero vector the result's squared length is newLength², and for positive newLength it points the same way |
| XnaExtensions.SnapCosine | Experiments/Projection/Projection/Projection/XnaExtentions.cs:66-72 | the snapped cosine lies in [-1, 1] and differs from an in-range cosine by at most 1E-3 |
| XnaExtensions.AngleWith | Experiments/Projection/Projection/Projection/XnaExtentions.cs:64-79 | the angle is NaN exactly when one of the two vectors has length zero; otherwise it is the arc cosine of the snapped cosine |
| XnaExtensions.AngleWithZeroLength | Experiments/Projection/Projection/Projection/XnaExtentions.cs:68 | a zero-length argument makes the cosine and the angle NaN |
| XnaExtensions.CosineInRange | Experiments/Projection/Projection/Projection/XnaExtentions.cs:68-72 | for non-zero vectors the normalised dot product is a number in [-1, 1], so the snap moves it by at most 1E-3 |
| XnaExtensions.LagrangeIdentity | Experiments/Projection/Projection/Projection/XnaExtentions.cs:68 | \|a\|²\|b\|² = (a·b)² + \|a×b\|², the identity behind the range of the cosine |
| XnaExtensions.CauchySchwarz | Experiments/Projection/Projection/Projection/XnaExtentions.cs:68 | (a·b)² ≤ \|a\|²\|b\|² |
| XnaExtensions.AngleWithItself | Experiments/Projection/Projection/Projection/XnaExtentions.cs:64-79 | a non-zero vector makes angle 0 with itself |
| XnaExtensions.CsRemainder | Experiments/Projection/Projection/Projection/XnaExtentions.cs:83 | C#'s `%` lies strictly between -b and b, agrees with the mathematical remainder for a ≥ 0, and is ≤ 0 for a < 0 |
| XnaExtensions.RotateComponent | Experiments/Projection/Projection/Projection/XnaExtentions.cs:81-94 | whatever the count, the result holds the same three components, reordered |
| XnaExtensions.RotateComponentCycle | Experiments/Projection/Projection/Projection/XnaExtentions.cs:81-94 | count 1 moves Z to the front; two steps equal count 2; three steps restore the vector |
| XnaExtensions.RotateComponentPeriodic | Experiments/Projection/Projection/Projection/XnaExtentions.cs:83 | for non-negative counts only the count modulo 3 matters |
| XnaExtensions.RotateComponentNegativeUnchanged | Experiments/Projection/Projection/Projection/XnaExtentions.cs:83-93 | a negative count with a non-zero remainder returns the vector unchanged |
| XnaExtensions.RotateComponentNotInvertible | Experiments/Projection/Projection/Projection/XnaExtentions.cs:81-94 | rotating (1,2,3) by 1 and then by -1 does not give (1,2,3) back |
| XnaExtensions.RotateComponentCyclicCorrect | Experiments/Projection/Projection/Projection/XnaExtentions.cs:81-94 | the corrected rotation agrees with the source for counts ≥ 0 and composes additively for all counts |
| XnaExtensions.SafeCross | Experiments/Projection/Projection/Projection/XnaExtentions.cs:96-103 | the result is perpendicular to main; main × crossWith is kept iff it is valid with squared length ≥ 1E-2 (or the alternative gives the same vector), and otherwise the result is main × alternateCrossWith |
| XnaExtensions.ReversedTrianglesAt | Experiments/Projection/Projection/Projection/XnaExtentions.cs:115-134 | the as-written output has 3·⌊n/4⌋ vertices, and entry k is input vertex 4(k/3) + 2 - k%3 |
| XnaExtensions.ReverseFacedOutcome | Experiments/Projection/Projection/Projection/XnaExtentions.cs:132-133 | the method throws iff the vertex count is 1 or 2 modulo 4 |
| XnaExtensions.ReverseFacedTriangles | Experiments/Projection/Projection/Projection/XnaExtentions.cs:115-134 | the loop with its three-slot buffer yields ReversedTriangles, a multiple of three vertices long, and ends with ReverseFacedOutcome |
| XnaExtensions.ReverseFacedSmallInputs | Experiments/Projection/Projection/Projection/XnaExtentions.cs:115-134 | three vertices yield nothing; six vertices yield only the first triangle and throw |
| XnaExtensions.ReversedWindingInvolution | Experiments/Projection/Projection/Projection/XnaExtentions.cs:115-134 | reversing every triangle twice restores a list of whole triangles |
| XnaExtensions.ReverseFacedTrianglesIntended | Experiments/Projection/Projection/Projection/XnaExtentions.cs:115-134 | the corrected loop yields every triangle reversed and throws iff the count is not a multiple of 3 |
| XnaExtensions.ReversedWindingAppend | Experiments/Projection/Projection/Projection/XnaExtentions.cs:119-129 | one more triangle appends its reversal |
| XnaExtensions.ReversedWindingIgnoresTail | Experiments/Projection/Projection/Projection/XnaExtentions.cs:132-133 | an incomplete trailing triangle contributes nothing |
| Entity.WithPosition | Experiments/Projection/Projection/Projection/Object3D.cs:31-36 | a valid position is stored with the orientation kept; an invalid one is the InvalidVector error |
| Entity.MovesCompose | Experiments/Projection/Projection/Projection/Object3D.cs:83-86 | a move keeps the orientation, and moving by a then b equals moving by a + b |
| Entity.MoveAndBack | Experiments/Projection/Projection/Projection/Object3D.cs:83-86 | moving by d and then by -d returns to the starting pose |
| Entity.ZoomsCompose | Experiments/Projection/Projection/Projection/ArcBallControls.cs:116-120 | zooming by 1 changes nothing, and zooming by f1 then f2 equals zooming by f1·f2 |
| Entity.ArcBallDrag | Experiments/Projection/Projection/Projection/Object3D.cs:132-151 | declined iff the angle is not positive or the cross product is invalid; otherwise the rotation is about the normalised cross product by the negated angle, and the new pose is the orbit by it |
| Entity.SameSampleAngleNotPositive | Experiments/Projection/Projection/Projection/Object3D.cs:134-135 | the drag angle from a sample to itself is never positive |
| Entity.DragOnSameSampleDeclines | Experiments/Projection/Projection/Projection/Object3D.cs:132-151 | a drag that has not moved leaves the entity as it is |
| Entity.Object3D.constructor | Experiments/Projection/Projection/Projection/Object3D.cs:22-29 | stores the position, the up vector and the normalised look direction, with no cached view |
| Entity.Object3D.Create | Experiments/Projection/Projection/Projection/Object3D.cs:22-36 | construction succeeds iff the position is valid, else InvalidVector |
| Entity.Object3D.SetPosition | Experiments/Projection/Projection/Projection/Object3D.cs:31-36 | validates, stores the position and drops the cached view; on failure nothing changes |
| Entity.Object3D.SetOrientation | Experiments/Projection/Projection/Projection/Object3D.cs:38-43 | stores up and forward and drops the cached view |
| Entity.Object3D.ResetViewMatrix | Experiments/Projection/Projection/Projection/Object3D.cs:66-69 | the cache becomes empty |
| Entity.Object3D.ViewMatrix | Experiments/Projection/Projection/Projection/Object3D.cs:71-81 | returns the look-at matrix of the current pose and caches it; a cached value is what would be computed |
| Entity.Object3D.MoveTo | Experiments/Projection/Projection/Projection/Object3D.cs:83-86 | the new pose is Moved of the old one, or the error with the pose unchanged |
| Entity.ArcBallProjection | Experiments/Projection/Projection/Projection/Object3D.cs:88-97 | mouse sample (0,0,1) maps to the direction from the target, and (0,1,0) maps to up |
| Entity.Object3D.GetMouseProjectionOnArcBall | Experiments/Projection/Projection/Projection/Object3D.cs:88-97 | mouse sample (0,0,1) maps to the direction from the target to the position, and (0,1,0) maps to Up |
| Entity.ProjectionKeepsLength | Experiments/Projection/Projection/Projection/Object3D.cs:88-97 | with a unit up perpendicular to the viewing direction, the projection preserves the sample's length |
| Entity.Object3D.RotateAxisAngle | Experiments/Projection/Projection/Projection/Object3D.cs:99-105 | returns the quaternion for the negated angle and orbits by it |
| Entity.Object3D.RotateInPlace | Experiments/Projection/Projection/Projection/Object3D.cs:107-110 | up and forward are transformed and the position is kept |
| Entity.Object3D.RotateAbout | Experiments/Projection/Projection/Projection/Object3D.cs:112-118 | the position is rotated about the target, then the orientation is turned; an invalid position throws first |
| Entity.Object3D.RotateEuler | Experiments/Projection/Projection/Projection/Object3D.cs:120-124 | turns by the yaw-pitch-roll quaternion (Y, X, Z) |
| Entity.Object3D.RotateEulerAbout | Experiments/Projection/Projection/Projection/Object3D.cs:126-130 | orbits by the yaw-pitch-roll quaternion (Y, X, Z) |
| Entity.Object3D.RotateArcBall | Experiments/Projection/Projection/Projection/Object3D.cs:132-151 | follows ArcBallDrag: reports whether it rotated, and on rotation returns the rotated end vector as both the new start and the new end |
| Entity.Object3D.Zoom | Experiments/Projection/Projection/Projection/ArcBallControls.cs:116-120 | the new pose is Zoomed of the old one, the offset from the target scaled by the factor, or InvalidVector with the pose unchanged |
| Entity.Object3D.Update | Experiments/Projection/Projection/Projection/Object3D.cs:48-54 | always throws: "not implemented" if the entity requires updates, else "not required" |
| Entity.Object3D.DebugMessages | Experiments/Projection/Projection/Projection/Object3D.cs:155-164 | creates an empty dictionary on first access and returns the same one afterwards |
| Entity.Object3D.DebugLines | Experiments/Projection/Projection/Projection/Object3D.cs:166-176 | creates an empty dictionary on first access and returns the same one afterwards |
| ArcBall.PanCoordinatesInjective | Experiments/Projection/Projection/Projection/ArcBallControls.cs:58-61 | two pointer positions have the same normalised coordinates iff they are the same position |
| ArcBall.NormalizedMouseCoordinates | Experiments/Projection/Projection/Projection/ArcBallControls.cs:58-61 | Z is 0, and multiplying X by -2·width and Y by -2·height gives back the pointer position |
| ArcBall.PanActsIffPointerMoved | Experiments/Projection/Projection/Projection/ArcBallControls.cs:88-96 | with a non-zero speed, the pan amount is non-zero iff the pointer moved |
| ArcBall.LiftOntoBallOnSphere | Experiments/Projection/Projection/Projection/ArcBallControls.cs:68-75 | the lifted vector has unit length and a non-negative Z |
| ArcBall.LiftOutside | Experiments/Projection/Projection/Projection/ArcBallControls.cs:70-71 | a point outside the ball is normalised onto its rim (Z = 0) |
| ArcBall.LiftInside | Experiments/Projection/Projection/Projection/ArcBallControls.cs:72-73 | a point inside keeps X and Y and gets Z = √(1 - L²) |
| ArcBall.ArcBallVectorOnSphere | Experiments/Projection/Projection/Projection/ArcBallControls.cs:63-76 | every pointer position maps to a unit vector on the front hemisphere |
| ArcBall.MouseArcBallVector | Experiments/Projection/Projection/Projection/ArcBallControls.cs:63-76 | under the laws of the primitives, the vector has unit length and a non-negative Z |
| ArcBall.CentreIsOrigin | Experiments/Projection/Projection/Projection/ArcBallControls.cs:65-66 | the screen centre maps to the planar origin |
| ArcBall.ArcBallCentreIsPole | Experiments/Projection/Projection/Projection/ArcBallControls.cs:63-76 | the screen centre maps to (0, 0, 1) |
| ArcBall.StillPointerZoom | Experiments/Projection/Projection/Projection/ArcBallControls.cs:113-121 | a zoom drag with no vertical motion has factor ZoomSpeed; at speed 1 it passes the threshold and leaves the pose unchanged |
| ArcBall.RunCallsAppend | Experiments/Projection/Projection/Projection/ArcBallControls.cs:162-206 | running calls a then b equals running a and then continuing with b, unless a threw |
| ArcBall.KeyboardModes | Experiments/Projection/Projection/Projection/ArcBallControls.cs:156-207 | Ctrl selects the orbit calls, else Shift selects the tilt calls, else the pan calls; at most six calls; none iff no direction key is down |
| ArcBall.OrbitCallsShape | Experiments/Projection/Projection/Projection/ArcBallControls.cs:162-176 | at most six orbit calls, none iff no direction key is down, all about the rotation origin |
| ArcBall.TiltCallsShape | Experiments/Projection/Projection/Projection/ArcBallControls.cs:177-191 | at most six calls, none iff no direction key is down, all rotations in place |
| ArcBall.PanCallsShape | Experiments/Projection/Projection/Projection/ArcBallControls.cs:192-206 | at most six calls, none iff no direction key is down, all world-space moves |
| ArcBall.OppositePansCancel | Experiments/Projection/Projection/Projection/ArcBallControls.cs:194-197 | holding Right and Left together leaves the entity where it was |
| ArcBall.ArcBallControls.constructor | Experiments/Projection/Projection/Projection/ArcBallControls.cs:20-31 | speeds 1.5, 300, 1 and 15; the screen size is stored; no gesture is in progress |
| ArcBall.ArcBallControls.UpdateScreenDimentions | Experiments/Projection/Projection/Projection/ArcBallControls.cs:34-39 | stores the size; the arc-ball radius is a quarter of width plus height |
| ArcBall.ArcBallControls.Update | Experiments/Projection/Projection/Projection/ArcBallControls.cs:41-48 | keeps the controller valid; the new pose, flags and drag ends and the outcome are FrameStep of the old ones: keyboard, then left, middle and right button, stopping at the first throw |
| ArcBall.ArcBallControls.HandleRightMouseButtonInput | Experiments/Projection/Projection/Projection/ArcBallControls.cs:78-101 | the new pose, flags and pan ends and the outcome are RightStep of the old ones: press records the start; a held button pans by (start - end)·PanSpeed when that is non-zero and then advances the start; release clears only the pan flag |
| ArcBall.ArcBallControls.HandleMiddleMouseButtonInput | Experiments/Projection/Projection/Projection/ArcBallControls.cs:103-126 | the new state and outcome are MiddleStep of the old ones: press records the row; a held button zooms by MaxZoom^(Δy/height)·ZoomSpeed when the factor is beyond ±1E-3 and then advances the row; release clears only the zoom flag |
| ArcBall.ArcBallControls.HandleLeftMouseButtonInput | Experiments/Projection/Projection/Projection/ArcBallControls.cs:128-153 | the new state and outcome are LeftStep of the old ones: press records the projected arc-ball vector; a held button drags by ArcBallDrag, and the start follows the rotated end only when a rotation happened; release clears only the rotate flag |
| ArcBall.ArcBallControls.HandleKeyboardInput | Experiments/Projection/Projection/Projection/ArcBallControls.cs:156-207 | the new pose and the outcome are those of running KeyboardCalls from the old pose; nothing else changes (KeyboardStep) |
| ArcBall.ArcBallControls.KeyboardOrbit | Experiments/Projection/Projection/Projection/ArcBallControls.cs:162-176 | the Ctrl branch runs exactly OrbitCalls |
| ArcBall.ArcBallControls.KeyboardTilt | Experiments/Projection/Projection/Projection/ArcBallControls.cs:177-191 | the Shift branch runs exactly TiltCalls |
| ArcBall.ArcBallControls.KeyboardPan | Experiments/Projection/Projection/Projection/ArcBallControls.cs:192-206 | the remaining branch runs exactly PanCalls |
| ArcBall.LeftFlag | Experiments/Projection/Projection/Projection/ArcBallControls.cs:130-152 | the left handler sets the rotate flag when the button is down and clears it when up, in every branch, touching no other bit |
| ArcBall.MiddleFlag | Experiments/Projection/Projection/Projection/ArcBallControls.cs:105-125 | the middle handler sets or clears the zoom flag by its button and touches no other bit |
| ArcBall.RightFlag | Experiments/Projection/Projection/Projection/ArcBallControls.cs:80-100 | the right handler sets or clears the pan flag by its button and touches no other bit |
| ArcBall.GestureFlagsFollowButtons | Experiments/Projection/Projection/Projection/ArcBallControls.cs:41-48 | after a frame that completes, each gesture flag is set iff its button is down |
| ArcBall.FrameFlags | Experiments/Projection/Projection/Projection/ArcBallControls.cs:41-48 | the flags after a frame are those of the handlers that ran, in order, each setting or clearing its own flag, with a throwing handler counted |
| ArcBall.KeyboardThrowSkipsMouse | Experiments/Projection/Projection/Projection/ArcBallControls.cs:41-48 | the keyboard runs first: when one of its calls throws, the frame is that run and every gesture field is unchanged |
| ArcBall.ButtonsUpFrame | Experiments/Projection/Projection/Projection/ArcBallControls.cs:41-48 | with every button up, a completed keyboard run is followed only by the end of all gestures; with no direction key down either, only the flags change |
| ArcBall.StillDragDoesNotRotate | Experiments/Projection/Projection/Projection/ArcBallControls.cs:138-151 | a held left button whose sample equals the drag start declines: only the drag end changes |
| ArcBall.PanNeedsPointerMotion | Experiments/Projection/Projection/Projection/ArcBallControls.cs:88-96 | a held right button whose pointer has not moved since the pan start completes without moving the entity |
| Cameras.SwungAgreesWithOrbited | Experiments/Projection/Projection/Projection/Camera.cs:78-84 | the camera's orbit equals the entity's validated orbit whenever the new position is valid |
| Cameras.CameraDrag | Experiments/Projection/Projection/Projection/Camera.cs:65-96 | swings iff the angle is positive, by the negated angle about the normalised cross product; the end vector is rotated too |
| Cameras.CameraDragVersusEntityDrag | Experiments/Projection/Projection/Projection/Camera.cs:72-95 | whenever the entity's drag applies, the camera swings to the same pose; the camera never declines for an invalid axis |
| Cameras.CameraDragOnSameSampleIsStill | Experiments/Projection/Projection/Projection/Camera.cs:67-72 | a drag that has not moved leaves the camera still |
| Cameras.OrbitAxis | Experiments/Projection/Projection/Projection/Camera.cs:100-106 | the axis is perpendicular to the relative position; it is rel × up unless that is shorter than 1E-2, and then rel × forward |
| Cameras.OrbitAxisUsesUpAwayFromTarget | Experiments/Projection/Projection/Projection/Camera.cs:102-104 | with unit up perpendicular to the offset and distance ≥ 1E-2, the up-based axis is used |
| Cameras.Camera.constructor | Experiments/Projection/Projection/Projection/Camera.cs:25-36 | perspective with a PiOver4 field of view, look-at view, normalised forward, and empty debug dictionaries |
| Cameras.Camera.Rotate | Experiments/Projection/Projection/Projection/Camera.cs:38-46 | up and forward turn by the yaw-pitch-roll rotation; the view is rebuilt from the new pose |
| Cameras.Camera.MoveTo | Experiments/Projection/Projection/Projection/Camera.cs:48-52 | the position moves by the delta; the view is rebuilt |
| Cameras.Camera.RotateArcBall | Experiments/Projection/Projection/Projection/Camera.cs:65-96 | always records Angle, startVector and endVector; on a swing records rotatedUp and rebuilds the view; otherwise the pose is unchanged |
| Cameras.Camera.GetMouseProjectionOnArcBall | Experiments/Projection/Projection/Projection/Camera.cs:54-63 | mouse sample (0,0,1) maps to the direction from the target to the position, and (0,1,0) maps to up |
| Cameras.Camera.RotateAround | Experiments/Projection/Projection/Projection/Camera.cs:98-116 | swings around the target about OrbitAxis by the negated angle |
| Cubes.CubeVertices | Experiments/Projection/Projection/Projection/Cube.cs:47-73 | exactly eight vertices |
| Cubes.IndexTableShape | Experiments/Projection/Projection/Projection/Cube.cs:76-129 | 36 indices, each below 8, with every corner used |
| Cubes.TrianglesNonDegenerate | Experiments/Projection/Projection/Projection/Cube.cs:80-126 | the three corners of every triangle are distinct |
| Cubes.TrianglesOnTheirFaces | Experiments/Projection/Projection/Projection/Cube.cs:76-129 | every triangle lies on its labelled face: bottom y = min, top y = max, front z = max, back z = min, left x = min, right x = max |
| Cubes.CornersOfTheBox | Experiments/Projection/Projection/Projection/Cube.cs:54-61 | each corner coordinate is the min or the max on its axis, and the corners are distinct when the box has extent on every axis |
| Cubes.NonZeroBoundsGiveDistinctCorners | Experiments/Projection/Projection/Projection/Cube.cs:47-61 | non-zero bounds give eight distinct vertex positions |
| Cubes.Cube.constructor | Experiments/Projection/Projection/Projection/Cube.cs:16-22 | Bounds = bounds, halfWidth = bounds/2, and the pose is untouched |
| Cubes.Cube.Create | Experiments/Projection/Projection/Projection/Cube.cs:16-45 | succeeds iff the position is valid; the cube sits at the position looking at itself with up (0,1,0), and never requires updates |
| Cubes.Cube.GetObjectVertices | Experiments/Projection/Projection/Projection/Cube.cs:47-73 | the array is the corner table at position ± halfWidth, with colours Black to Cyan |
| Cubes.Cube.GetObjectIndices | Experiments/Projection/Projection/Projection/Cube.cs:76-129 | the array is the 36-entry index table |
| Scenes.Updatable | Experiments/Projection/Projection/Projection/Scene.cs:14-15 | the updatable list is a sub-list of the objects, all of which require updates |
| Scenes.UpdatableMembership | Experiments/Projection/Projection/Projection/Scene.cs:56-61 | an object is in the updatable list iff it is a scene object that requires updates |
| Scenes.NothingUpdatable | Experiments/Projection/Projection/Projection/Scene.cs:56-61 | if no object requires updates, the updatable list is empty |
| Scenes.RecommandedSceneSettings.constructor | Experiments/Projection/Projection/Projection/Scene.cs:73-77 | both settings start at their defaults |
| Scenes.Scene.constructor | Experiments/Projection/Projection/Projection/Scene.cs:22-27 | stores Center, creates fresh settings, and both lists start empty |
| Scenes.Scene.LoadContent | Experiments/Projection/Projection/Projection/Scene.cs:29-35 | visits every object once, in insertion order |
| Scenes.Scene.Visit | Experiments/Projection/Projection/Projection/Scene.cs:31-34 | the walk's visited list equals the object list |
| Scenes.Scene.Clear | Experiments/Projection/Projection/Projection/Scene.cs:37-41 | both lists become empty |
| Scenes.Scene.Update | Experiments/Projection/Projection/Projection/Scene.cs:43-47 | only updatable objects are called, in order; the first call throws, so an empty list completes and any other list throws after one call |
| Scenes.Scene.Draw | Experiments/Projection/Projection/Projection/Scene.cs:49-53 | visits every object once, in insertion order |
| Scenes.Scene.AddObject | Experiments/Projection/Projection/Projection/Scene.cs:56-61 | appends to the objects, and also to the updatable list iff the object requires updates; keeps the invariant |
| Scenes.SingleCubeScene.Create | Experiments/Projection/Projection/Projection/SingleCubeScene.cs:13-22 | exactly one object, a cube at the centre with bounds (w,w,w); nothing updatable; the suggested camera sits at centre + (0, 0, 3w) |
| Scenes.SingleCubeScene.SuggestedInitialCameraPosition | Experiments/Projection/Projection/Projection/SingleCubeScene.cs:24-27 | same X and Y as the centre; Z offset is three times the cube's Z bound |
| Scenes.ArrowPositionsInField | Experiments/Projection/Projection/Projection/ArrowFieldScene.cs:18-22 | draws in [0,1) put every coordinate in [-500, 500) |
| Scenes.ArrowFieldScene.Create | Experiments/Projection/Projection/Projection/ArrowFieldScene.cs:14-33 | succeeds iff all 500 positions are valid; then 500 cubes at the drawn positions with bounds (20,60,20), nothing updatable, camera position (0,0,500), origin not locked |
| Scenes.ArrowFieldScene.PlaceArrowCubes | Experiments/Projection/Projection/Projection/ArrowFieldScene.cs:16-32 | the loop completes iff all 500 positions are valid; then cube i sits at position i with bounds (20,60,20), and the settings are (0,0,500) and unlocked; the first invalid position throws InvalidVector |
| Scenes.ArrowFieldScene.AddArrowCube | Experiments/Projection/Projection/Projection/ArrowFieldScene.cs:18-28 | one iteration: succeeds iff the position is valid, and then exactly one 20×60×20 cube at the position, never updated, is appended; otherwise InvalidVector with the object list unchanged |
| Starfield.Wrap32 | Experiments/XnaEarth/StarfieldComponent.cs:182-183 | an int result is congruent to the exact value modulo 2^32, and equals it when it fits |
| Starfield.ToShort | Experiments/XnaEarth/StarfieldComponent.cs:231-240 | a short cast is congruent modulo 2^16 and exact when the value fits |
| Starfield.StarVertexOfVector4 | Experiments/XnaEarth/StarfieldComponent.cs:56-67 | the position is stored; TexCoord holds the texture coordinate in X, Y and the offset in Z, W |
| Starfield.StarVertexOfPoint | Experiments/XnaEarth/StarfieldComponent.cs:51-54 | the point gets W = 1 |
| Starfield.StarVertexOfFloats | Experiments/XnaEarth/StarfieldComponent.cs:45-49 | the eight floats become position (x,y,z,w) and TexCoord (u,v,dx,dy) |
| Starfield.StarVerticesPointwise | Experiments/XnaEarth/StarfieldComponent.cs:196-201 | vertex 4i+c is star i at W = 1 with the c-th texture corner and offset |
| Starfield.QuadIndicesPointwise | Experiments/XnaEarth/StarfieldComponent.cs:203-210 | index k is 4(k/6) plus entry k%6 of 0,1,2,2,1,3 |
| Starfield.IndicesOfEachStar | Experiments/XnaEarth/StarfieldComponent.cs:203-210 | star i gets indices 4i, 4i+1, 4i+2, 4i+2, 4i+1, 4i+3 |
| Starfield.IndicesInRange | Experiments/XnaEarth/StarfieldComponent.cs:203-210 | every index is below the vertex count 4n |
| Starfield.TrianglesNonDegenerate | Experiments/XnaEarth/StarfieldComponent.cs:205-210 | no triangle repeats a vertex |
| Starfield.SixteenBitIndicesExact | Experiments/XnaEarth/StarfieldComponent.cs:184-187 | when 4n ≤ short.MaxValue no cast overflows, and the 16-bit and 32-bit lists hold the same values |
| Starfield.IndexWidthChoice | Experiments/XnaEarth/StarfieldComponent.cs:180-188 | without int overflow, 32-bit indices are chosen iff 4n > short.MaxValue; at 2^30 stars the count wraps and 16 bits are chosen |
| Starfield.StarfieldComponent.constructor | Experiments/XnaEarth/StarfieldComponent.cs:91-97 | billboards of size (1, 1), identity projection, view and world matrices, and no vertex or index buffer yet |
| Starfield.StarfieldComponent.GenerateGeometry | Experiments/XnaEarth/StarfieldComponent.cs:180-188 | the vertex buffer is StarVertices; the index buffer is the 32-bit list iff the int vertex count exceeds short.MaxValue, else the 16-bit list |
| Starfield.StarfieldComponent.GenerateGeometryWith32BitIndices | Experiments/XnaEarth/StarfieldComponent.cs:190-218 | the buffers are StarVertices and QuadIndices, with int arithmetic |
| Starfield.StarfieldComponent.GenerateGeometryWith16BitIndices | Experiments/XnaEarth/StarfieldComponent.cs:220-248 | the buffers are StarVertices and QuadIndices cast to short, whatever the wrap-arounds along the way |
| Starfield.SixteenBitStep | Experiments/XnaEarth/StarfieldComponent.cs:231-240 | `(short)(k + (short)(i*4))` equals `(short)(4i + k)` |
| Starfield.ThirtyTwoBitStep | Experiments/XnaEarth/StarfieldComponent.cs:203-210 | int wrap-around of `k + i*4` equals the wrap of the exact value |
| Fps.CountsPreserved | Experiments/Projection/Projection/Projection/FpsCounter.cs:11-27 | the rate and the counter never become negative |
| Fps.RolloverPublishesCount | Experiments/Projection/Projection/Projection/FpsCounter.cs:15-24 | past one second the count becomes the rate and restarts; otherwise both are untouched |
| Fps.OneRolloverPerUpdate | Experiments/Projection/Projection/Projection/FpsCounter.cs:18-23 | only one second is taken off per update: whenever more than two seconds have accumulated, the next update with no elapsed time rolls over again, publishing rate 0 and leaving the total minus two seconds |
| Fps.DrawsThenRollover | Experiments/Projection/Projection/Projection/FpsCounter.cs:15-28 | n draws and then a rollover publish n as the rate |
| Fps.DrawnTimesCounts | Experiments/Projection/Projection/Projection/FpsCounter.cs:25-28 | n draws add n to the counter |
| Fps.FpsCounter.constructor | Experiments/Projection/Projection/Projection/FpsCounter.cs:11-14 | rate, counter and accumulated time start at 0 |
| Fps.FpsCounter.OnUpdate | Experiments/Projection/Projection/Projection/FpsCounter.cs:15-24 | the new state is Updated of the old one |
| Fps.FpsCounter.OnDraw | Experiments/Projection/Projection/Projection/FpsCounter.cs:25-28 | the counter goes up by exactly 1 |
| EarthDemo.HeldKeyDoesNotRepeat | Experiments/XnaEarth/Demo.cs:261-264 | a key already down in the previous snapshot is not just pressed; a key up before is just pressed iff it is down now |
| EarthDemo.KeyJustPressed | Experiments/XnaEarth/Demo.cs:261-264 | a key is just pressed exactly when it is in the current snapshot minus the previous one |
| EarthDemo.RaisedCloudStrength | Experiments/XnaEarth/Demo.cs:326-330 | +0.05, capped at 2 |
| EarthDemo.LoweredCloudStrength | Experiments/XnaEarth/Demo.cs:332-336 | -0.05, floored at 0 |
| EarthDemo.CloudStrengthBounded | Experiments/XnaEarth/Demo.cs:326-336 | the strength stays in [0, 2]; Add alone never lowers it, Subtract alone never raises it, and with neither key it is unchanged |
| EarthDemo.OffsetBeforeClamp | Experiments/XnaEarth/Demo.cs:348-375 | without a dolly drag or wheel motion, the distance is unchanged |
| EarthDemo.WheelAndDolly | Experiments/XnaEarth/Demo.cs:348-375 | wheel up is -0.5, wheel down is +0.5, and a middle drag adds a tenth of the vertical motion |
| EarthDemo.ClampOffsetRange | Experiments/XnaEarth/Demo.cs:377-380 | the clamped distance lies in [1.3R, 4R], and distances strictly inside are kept |
| EarthDemo.MouseRotation | Experiments/XnaEarth/Demo.cs:344-368 | zero unless the right button is down without the middle button |
| EarthDemo.CursorVisibility | Experiments/XnaEarth/Demo.cs:384-399 | motion shows the cursor and restarts the timer; a hidden cursor always has more than 2 s of idle time |
| EarthDemo.Demo.constructor | Experiments/XnaEarth/Demo.cs:133-144 | the cursor starts visible; the toggles start off |
| EarthDemo.Demo.Initialize | Experiments/XnaEarth/Demo.cs:232-245 | the window is half the desktop in each direction, rounded down, and is the preferred back buffer; the first keyboard snapshot is stored |
| EarthDemo.Demo.LoadContent | Experiments/XnaEarth/Demo.cs:284-298 | cloud strength 1.15 and camera distance 3R |
| EarthDemo.Demo.Exit | Experiments/XnaEarth/Demo.cs:310-311 | the game is asked to exit |
| EarthDemo.Demo.ToggleFullScreen | Experiments/XnaEarth/Demo.cs:402-423 | full screen flips; the preferred size is the desktop in full screen, else the window |
| EarthDemo.Demo.ProcessKeyboard | Experiments/XnaEarth/Demo.cs:305-337 | shifts the snapshots; Escape exits, H and Space toggle on a press edge, Alt+Enter flips full screen, and the cloud strength follows CloudStrengthAfter |
| EarthDemo.Demo.RespondToKeys | Experiments/XnaEarth/Demo.cs:310-324 | each toggle flips exactly when its key was just pressed |
| EarthDemo.Demo.AdjustCloudStrength | Experiments/XnaEarth/Demo.cs:326-336 | the strength follows CloudStrengthAfter and stays in [0, 2] |
| EarthDemo.Demo.ProcessMouse | Experiments/XnaEarth/Demo.cs:339-400 | shifts the snapshots, zeroes translate, sets the rotation from the drag, clamps the distance, and runs the idle timer |
| EarthDemo.Demo.MoveCamera | Experiments/XnaEarth/Demo.cs:348-375 | the middle button dollies, and otherwise the right button rotates; then the wheel applies |
| EarthDemo.Demo.ClampCameraOffset | Experiments/XnaEarth/Demo.cs:377-380 | the distance ends in [1.3R, 4R] |
| EarthDemo.Demo.TrackIdleCursor | Experiments/XnaEarth/Demo.cs:384-399 | the cursor state follows CursorAfter |
| EarthDemo.Demo.Update | Experiments/XnaEarth/Demo.cs:425-431 | an inactive window changes nothing; otherwise the keyboard and then the mouse are processed: Escape, H, Space and Alt+Enter act on their press edges, full screen picks the display or window size, the cloud strength follows CloudStrengthAfter, rotation, translate, clamped distance and cursor follow the mouse, and the radius and window and display sizes are kept |

## Left out

- Floating point: all arithmetic is exact, so the single-precision rounding of XNA is not modelled. Float constants such as 0.05f or PiOver2 are their decimal or binary values. NaN is modelled only where the code tests for it (`IsValid`, `angle > 0`).
- The uninterpreted primitives: `XnaMath.Lawful` gives square root, normalisation, `acos(1) = 0` and `pow(b, 0) = 1` their exact laws. Nothing is assumed about quaternions, `Vector3.Transform` or the matrices.
- Camera: the matrix rotations of `Camera.Rotate` and `Camera.Rotate(angle, target)` use the same quaternion primitive as Object3D. Over the reals the rotation is the same.
- Camera.GetMouseProjectionOnArcBall and Object3D.GetMouseProjectionOnArcBall are the same code in the source. Both delegate to `Entity.ArcBallProjection`.
- Entity.Object3D.RotateArcBall: ArcBallControls.cs:143 calls a four-argument `Rotate` with a speed that returns a nullable vector. Object3D.cs:132-151 has three arguments with a factor of 1. The model takes the speed as a parameter, which is 1 in the source's own version.
- Entity.Object3D.Zoom: ArcBallControls.cs:119 calls `Zoom(factor, target)`, which Object3D.cs does not define. The model scales the offset from the target by the factor and validates the new position.
- Cube: ArrowFieldScene.cs:18-26 calls a five-argument Cube constructor with vertex multipliers and colours, which Cube.cs does not define. The model builds plain cubes with the three-argument constructor and ignores the multipliers.
- Camera: Game1.cs:82 calls a seven-argument Camera constructor with a graphics device first, which Camera.cs:25 does not define. The model follows Camera.cs, where only the aspect ratio and clip planes reach the projection.
- ArcBall.ArcBallControls.UpdateScreenDimentions requires positive dimensions. A zero size would divide by zero in the pointer mapping.
- The screen size is a real, as the source's floats are. Pointer coordinates are integers.
- Graphics: `GraphicsDevice`, `Draw`, `LoadContent` bodies, vertex and index buffer objects, effects, textures, the sprite batch and text drawing are left out. Scene.Draw and Scene.LoadContent are modelled as the walk over the objects they perform.
- Starfield: `Generate` (random star positions), `Draw` and the effect parameters are left out. `GenerateGeometry` takes the star positions as input, and requires fewer than 2^31 of them, the largest a .NET list holds.
- Earth demo: `UpdateCamera`, the Earth's rotation, lighting and the Draw methods are left out. The model covers the input handling only. The bounding-sphere radius is an input to `LoadContent`.
- Time: `GameTime.ElapsedGameTime` is passed in as TimeSpan ticks. TimeSpan overflow is not modelled.
- Fps.FpsCounter.OnDraw: the 32-bit `counter` is unbounded here. An overflow would need 2^31 frames without an update.
- Scenes.ArrowFieldScene.Create: `Random(42)` is replaced by the 1500 values it returns, passed in as `draws`. The float cast of each coordinate is exact.
- XnaExtensions: `Dimensions`, `AddToTranslation` (which only changes a copy), `GetRandomColor`, `ToSystemDrawingColor`, `WithinEpsilon` and the degree mode of `AngleWith` are left out. They are colour, conversion or no-op helpers outside the viewer logic.
- XnaExtensions.IsValid: the NaN test is the primitive `isValid` of `XnaMath.Xna`, because exact reals have no NaN. Its meaning reaches the model through `Validate`, `SafeCross` and the validations of Object3D.
- Scene.Update's game time, mouse, keyboard and object-list arguments are dropped, because Object3D.Update throws before using them.

## Findings

| source | as written | input that shows it | evidently intended | confidence | as-written member | corrected member |
|---|---|---|---|---|---|---|
| Experiments/Projection/Projection/Projection/XnaExtentions.cs:115-134 | a triangle is yielded only when a fourth vertex arrives; that vertex is dropped, and the last buffered triangle is never yielded | six vertices a..f yield only c, b, a and then throw "not in multiple of 3" | every triangle reversed, and a throw iff the count is not a multiple of 3 | high; not executed | XnaExtensions.ReverseFacedSmallInputs | XnaExtensions.ReverseFacedTrianglesIntended |
| Experiments/Projection/Projection/Projection/XnaExtentions.cs:81-94 | `rotateCount % 3` is negative for negative counts, so the default branch returns the vector unchanged | rotating (1,2,3) by 1 gives (3,1,2), and rotating that by -1 gives (3,1,2) instead of (1,2,3) | rotation by the count modulo 3, so that -1 undoes 1 | medium; not executed | XnaExtensions.RotateComponentNotInvertible | XnaExtensions.RotateComponentCyclicCorrect |
