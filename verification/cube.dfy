/** Cube.cs: an axis-aligned box entity with a fixed table of eight coloured
    corners and twelve triangles. */
module Cubes {
  import opened XnaMath
  import opened Exceptions
  import opened Entity

  /** The corner table: corner i of the box from minPoint to maxPoint. Bit
      patterns: X is max for 2, 3, 6, 7; Y is max for 4..7; Z is max for
      1, 2, 5, 6. */
  function Corner(i: int, minPoint: Vec3, maxPoint: Vec3): Vec3
    requires 0 <= i < 8
  {
    var x := if i == 2 || i == 3 || i == 6 || i == 7 then maxPoint.x else minPoint.x;
    var y := if 4 <= i then maxPoint.y else minPoint.y;
    var z := if i == 1 || i == 2 || i == 5 || i == 6 then maxPoint.z else minPoint.z;
    Vec3(x, y, z)
  }

  /** The colour of each corner, Black at 0 to Cyan at 7. */
  const CornerColors: seq<Color> := [Black, Red, Yellow, Green, Blue, Magenta, White, Cyan]

  /** What GetObjectVertices yields for an entity at a position with a half width. */
  function CubeVertices(position: Vec3, halfWidth: Vec3): (r: seq<VertexPositionColor>)
    ensures |r| == 8
  {
    var minPoint := Sub(position, halfWidth);
    var maxPoint := Add(position, halfWidth);
    seq(8, i requires 0 <= i < 8 => VertexPositionColor(Corner(i, minPoint, maxPoint), CornerColors[i]))
  }

  /** The index table, two triangles per face in the order bottom, top,
      front, back, left, right. */
  const CubeIndices: seq<int> :=
    [0, 2, 3, 0, 1, 2,
     4, 6, 5, 4, 7, 6,
     5, 2, 1, 5, 6, 2,
     0, 7, 4, 0, 3, 7,
     0, 4, 1, 1, 4, 5,
     2, 6, 3, 3, 6, 7]

  datatype Face = Bottom | Top | Front | Back | LeftSide | RightSide

  /** The face each pair of triangles is labelled with. */
  const FaceOrder: seq<Face> := [Bottom, Top, Front, Back, LeftSide, RightSide]

  /** A point lies on a face of the box. */
  predicate OnFace(f: Face, p: Vec3, minPoint: Vec3, maxPoint: Vec3) {
    match f
    case Bottom => p.y == minPoint.y
    case Top => p.y == maxPoint.y
    case Front => p.z == maxPoint.z
    case Back => p.z == minPoint.z
    case LeftSide => p.x == minPoint.x
    case RightSide => p.x == maxPoint.x
  }

  /** No triangle of the table is degenerate: the three corners of the
      triangle starting at every multiple of 3 are distinct. */
  lemma TrianglesNonDegenerate()
    ensures |CubeIndices| == 36
    ensures forall k :: 0 <= k < 36 && k % 3 != 2 ==> CubeIndices[k] != CubeIndices[k + 1]
    ensures forall k :: 0 <= k < 36 && k % 3 == 0 ==> CubeIndices[k] != CubeIndices[k + 2]
  {
  }

  /** 36 indices, each naming one of the 8 corners, and every corner is used. */
  lemma IndexTableShape()
    ensures |CubeIndices| == 36
    ensures forall k :: 0 <= k < 36 ==> 0 <= CubeIndices[k] < 8
    ensures forall c :: 0 <= c < 8 ==> c in CubeIndices
  {
    assert CubeIndices[0] == 0 && CubeIndices[4] == 1 && CubeIndices[1] == 2 && CubeIndices[2] == 3;
    assert CubeIndices[6] == 4 && CubeIndices[8] == 5 && CubeIndices[7] == 6 && CubeIndices[10] == 7;
  }

  /** Every triangle lies on the face it is labelled with. */
  lemma TrianglesOnTheirFaces(minPoint: Vec3, maxPoint: Vec3)
    ensures forall k :: 0 <= k < 36 ==>
              0 <= CubeIndices[k] < 8 &&
              OnFace(FaceOrder[k / 6], Corner(CubeIndices[k], minPoint, maxPoint), minPoint, maxPoint)
  {
  }

  /** Every corner coordinate is the minimum or the maximum on its axis, and
      when the box has extent on every axis the eight corners are distinct. */
  lemma CornersOfTheBox(minPoint: Vec3, maxPoint: Vec3)
    ensures forall i :: 0 <= i < 8 ==>
              var c := Corner(i, minPoint, maxPoint);
              (c.x == minPoint.x || c.x == maxPoint.x) &&
              (c.y == minPoint.y || c.y == maxPoint.y) &&
              (c.z == minPoint.z || c.z == maxPoint.z)
    ensures minPoint.x != maxPoint.x && minPoint.y != maxPoint.y && minPoint.z != maxPoint.z ==>
              forall i, j :: 0 <= i < 8 && 0 <= j < 8 && i != j ==>
                Corner(i, minPoint, maxPoint) != Corner(j, minPoint, maxPoint)
  {
  }

  /** A non-zero bound on every axis makes a box with extent on every axis. */
  lemma NonZeroBoundsGiveDistinctCorners(position: Vec3, bounds: Vec3)
    requires bounds.x != 0.0 && bounds.y != 0.0 && bounds.z != 0.0
    ensures var halfWidth := Vec3(bounds.x / 2.0, bounds.y / 2.0, bounds.z / 2.0);
            var v := CubeVertices(position, halfWidth);
            forall i, j :: 0 <= i < 8 && 0 <= j < 8 && i != j ==> v[i].position != v[j].position
  {
    var halfWidth := Vec3(bounds.x / 2.0, bounds.y / 2.0, bounds.z / 2.0);
    CornersOfTheBox(Sub(position, halfWidth), Add(position, halfWidth));
  }

  class Cube {
    /** The Object3D part of the cube. */
    const entity: Object3D
    var halfWidth: Vec3

    /** A cube never asks for updates, and its half width is half its bounds. */
    ghost predicate Valid()
      reads this, entity
    {
      entity.Valid() && !entity.RequiresUpdate &&
      halfWidth == Vec3(entity.Bounds.x / 2.0, entity.Bounds.y / 2.0, entity.Bounds.z / 2.0)
    }

    /** The constructor body once the base constructor has returned. */
    constructor (entity: Object3D, bounds: Vec3)
      requires entity.Valid() && !entity.RequiresUpdate
      modifies entity`Bounds
      ensures Valid() && this.entity == entity
      ensures entity.Bounds == bounds && entity.CurrentPose() == old(entity.CurrentPose())
    {
      this.entity := entity;
      entity.Bounds := bounds;
      halfWidth := Vec3(bounds.x / 2.0, bounds.y / 2.0, bounds.z / 2.0);
    }

    /** `new Cube(position, bounds)`: an entity at the position looking at
        the position itself (so Forward is normalize of the zero vector) with
        Up = (0, 1, 0). The base constructor throws for an invalid position. */
    static method Create(xna: Xna, position: Vec3, bounds: Vec3) returns (r: Result<Cube>)
      ensures r.Ok? <==> xna.isValid(position)
      ensures r.Err? ==> r.error == InvalidVector
      ensures r.Ok? ==> fresh(r.value) && fresh(r.value.entity) && r.value.Valid()
      ensures r.Ok? ==> r.value.entity.xna == xna && r.value.entity.Bounds == bounds &&
                        r.value.entity.CurrentPose() == Pose(position, UnitY, xna.normalize(Zero))
    {
      var created := Object3D.Create(xna, false, position, position, UnitY);
      if created.Err? {
        return Err(created.error);
      }
      assert Sub(position, position) == Zero;
      var cube := new Cube(created.value, bounds);
      r := Ok(cube);
    }

    /** The eight corners around Position, with their fixed colours. */
    method GetObjectVertices() returns (cubeVertices: array<VertexPositionColor>)
      ensures fresh(cubeVertices)
      ensures cubeVertices[..] == CubeVertices(entity.Position, halfWidth)
    {
      var minPoint := Sub(entity.Position, halfWidth);
      var maxPoint := Add(entity.Position, halfWidth);
      cubeVertices := new VertexPositionColor[8](_ => VertexPositionColor(Zero, Black));

      cubeVertices[0] := cubeVertices[0].(position := Vec3(minPoint.x, minPoint.y, minPoint.z));
      cubeVertices[1] := cubeVertices[1].(position := Vec3(minPoint.x, minPoint.y, maxPoint.z));
      cubeVertices[2] := cubeVertices[2].(position := Vec3(maxPoint.x, minPoint.y, maxPoint.z));
      cubeVertices[3] := cubeVertices[3].(position := Vec3(maxPoint.x, minPoint.y, minPoint.z));
      cubeVertices[4] := cubeVertices[4].(position := Vec3(minPoint.x, maxPoint.y, minPoint.z));
      cubeVertices[5] := cubeVertices[5].(position := Vec3(minPoint.x, maxPoint.y, maxPoint.z));
      cubeVertices[6] := cubeVertices[6].(position := Vec3(maxPoint.x, maxPoint.y, maxPoint.z));
      cubeVertices[7] := cubeVertices[7].(position := Vec3(maxPoint.x, maxPoint.y, minPoint.z));

      cubeVertices[0] := cubeVertices[0].(color := Black);
      cubeVertices[1] := cubeVertices[1].(color := Red);
      cubeVertices[2] := cubeVertices[2].(color := Yellow);
      cubeVertices[3] := cubeVertices[3].(color := Green);
      cubeVertices[4] := cubeVertices[4].(color := Blue);
      cubeVertices[5] := cubeVertices[5].(color := Magenta);
      cubeVertices[6] := cubeVertices[6].(color := White);
      cubeVertices[7] := cubeVertices[7].(color := Cyan);

      ghost var expected := CubeVertices(entity.Position, halfWidth);
      assert forall i :: 0 <= i < 8 ==> cubeVertices[i] == expected[i];
    }

    /** The 36-entry index table. */
    method GetObjectIndices() returns (cubeIndices: array<int>)
      ensures fresh(cubeIndices)
      ensures cubeIndices[..] == CubeIndices
    {
      cubeIndices := new int[36];

      // bottom face
      cubeIndices[0] := 0;
      cubeIndices[1] := 2;
      cubeIndices[2] := 3;
      cubeIndices[3] := 0;
      cubeIndices[4] := 1;
      cubeIndices[5] := 2;

      // top face
      cubeIndices[6] := 4;
      cubeIndices[7] := 6;
      cubeIndices[8] := 5;
      cubeIndices[9] := 4;
      cubeIndices[10] := 7;
      cubeIndices[11] := 6;

      // front face
      cubeIndices[12] := 5;
      cubeIndices[13] := 2;
      cubeIndices[14] := 1;
      cubeIndices[15] := 5;
      cubeIndices[16] := 6;
      cubeIndices[17] := 2;

      // back face
      cubeIndices[18] := 0;
      cubeIndices[19] := 7;
      cubeIndices[20] := 4;
      cubeIndices[21] := 0;
      cubeIndices[22] := 3;
      cubeIndices[23] := 7;

      // left face
      cubeIndices[24] := 0;
      cubeIndices[25] := 4;
      cubeIndices[26] := 1;
      cubeIndices[27] := 1;
      cubeIndices[28] := 4;
      cubeIndices[29] := 5;

      // right face
      cubeIndices[30] := 2;
      cubeIndices[31] := 6;
      cubeIndices[32] := 3;
      cubeIndices[33] := 3;
      cubeIndices[34] := 6;
      cubeIndices[35] := 7;
    }
  }
}
