/** StarfieldComponent.cs: the billboard geometry of the star field, four
    vertices and two triangles per star, with 16-bit indices when they fit
    and 32-bit indices otherwise. */
module Starfield {
  import opened XnaMath
  import opened Exceptions

  /** The widths of C#'s int and short. */
  newtype int32 = x: int | -0x8000_0000 <= x < 0x8000_0000
  newtype int16 = x: int | -0x8000 <= x < 0x8000

  const ShortMaxValue: int := 0x7FFF

  /** An int result of C# arithmetic: the value modulo 2^32, in int's range. */
  function Wrap32(x: int): (r: int32)
    ensures (x - r as int) % 0x1_0000_0000 == 0
    ensures -0x8000_0000 <= x < 0x8000_0000 ==> r as int == x
  {
    ((x + 0x8000_0000) % 0x1_0000_0000 - 0x8000_0000) as int32
  }

  /** A `(short)` cast: the value modulo 2^16, in short's range. */
  function ToShort(x: int): (r: int16)
    ensures (x - r as int) % 0x1_0000 == 0
    ensures -0x8000 <= x < 0x8000 ==> r as int == x
  {
    ((x + 0x8000) % 0x1_0000 - 0x8000) as int16
  }

  /** Adding a multiple of 2^32 does not change the int a value wraps to. */
  lemma Wrap32Shift(b: int, k: int)
    ensures Wrap32(b + k * 0x1_0000_0000) == Wrap32(b)
  {
    var x := b + 0x8000_0000;
    var y := x + k * 0x1_0000_0000;
    var q1, r1 := x / 0x1_0000_0000, x % 0x1_0000_0000;
    var q2, r2 := y / 0x1_0000_0000, y % 0x1_0000_0000;
    assert (q2 - q1 - k) * 0x1_0000_0000 == r1 - r2;
    assert q2 - q1 - k == 0;
  }

  /** Adding a multiple of 2^16 does not change the short a value casts to. */
  lemma ToShortShift(b: int, k: int)
    ensures ToShort(b + k * 0x1_0000) == ToShort(b)
  {
    var x := b + 0x8000;
    var y := x + k * 0x1_0000;
    var q1, r1 := x / 0x1_0000, x % 0x1_0000;
    var q2, r2 := y / 0x1_0000, y % 0x1_0000;
    assert (q2 - q1 - k) * 0x1_0000 == r1 - r2;
    assert q2 - q1 - k == 0;
  }

  /** Element-wise int arithmetic on a list of indices. */
  function Wrapped32(s: seq<int>): (r: seq<int32>)
    ensures |r| == |s| && forall k :: 0 <= k < |s| ==> r[k] == Wrap32(s[k])
  {
    seq(|s|, k requires 0 <= k < |s| => Wrap32(s[k]))
  }

  /** Element-wise short casts on a list of indices. */
  function Narrowed16(s: seq<int>): (r: seq<int16>)
    ensures |r| == |s| && forall k :: 0 <= k < |s| ==> r[k] == ToShort(s[k])
  {
    seq(|s|, k requires 0 <= k < |s| => ToShort(s[k]))
  }

  /** StarVertex: a position and a texture coordinate whose Z and W carry
      the billboard's 2D offset. */
  datatype StarVertex = StarVertex(Position: Vec4, TexCoord: Vec4)

  /** `StarVertex(Vector4 position, Vector2 texCoord, Vector2 offset)`. */
  function StarVertexOfVector4(position: Vec4, texCoord: Vec2, offset: Vec2): (r: StarVertex)
    ensures r.Position == position
    ensures r.TexCoord.x == texCoord.x && r.TexCoord.y == texCoord.y
    ensures r.TexCoord.z == offset.x && r.TexCoord.w == offset.y
  {
    StarVertex(position, Vec4(texCoord.x, texCoord.y, offset.x, offset.y))
  }

  /** `StarVertex(Vector3 position, Vector2 texCoord, Vector2 offset)`: the
      point gets W = 1. */
  function StarVertexOfPoint(position: Vec3, texCoord: Vec2, offset: Vec2): (r: StarVertex)
    ensures r.Position == Vec4(position.x, position.y, position.z, 1.0)
    ensures r.TexCoord == Vec4(texCoord.x, texCoord.y, offset.x, offset.y)
  {
    StarVertexOfVector4(Vec4(position.x, position.y, position.z, 1.0), texCoord, offset)
  }

  /** The eight-float constructor. */
  function StarVertexOfFloats(x: real, y: real, z: real, w: real, u: real, v: real, dx: real, dy: real): (r: StarVertex)
    ensures r.Position == Vec4(x, y, z, w)
    ensures r.TexCoord == Vec4(u, v, dx, dy)
  {
    StarVertexOfVector4(Vec4(x, y, z, w), Vec2(u, v), Vec2(dx, dy))
  }

  /** The texture corner and the offset of the c-th vertex of a star's quad. */
  const QuadTexCoords: seq<Vec2> := [Vec2(0.0, 0.0), Vec2(1.0, 0.0), Vec2(0.0, 1.0), Vec2(1.0, 1.0)]
  const QuadOffsets: seq<Vec2> := [Vec2(-1.0, 1.0), Vec2(1.0, 1.0), Vec2(-1.0, -1.0), Vec2(1.0, -1.0)]

  /** The four vertices of one star. */
  function QuadVertices(star: Vec3): (r: seq<StarVertex>)
    ensures |r| == 4
  {
    [StarVertexOfPoint(star, QuadTexCoords[0], QuadOffsets[0]),
     StarVertexOfPoint(star, QuadTexCoords[1], QuadOffsets[1]),
     StarVertexOfPoint(star, QuadTexCoords[2], QuadOffsets[2]),
     StarVertexOfPoint(star, QuadTexCoords[3], QuadOffsets[3])]
  }

  /** The vertex list for a list of stars, star by star. */
  function StarVertices(stars: seq<Vec3>): (r: seq<StarVertex>)
    ensures |r| == 4 * |stars|
  {
    if stars == [] then []
    else StarVertices(stars[..|stars| - 1]) + QuadVertices(stars[|stars| - 1])
  }

  /** The six indices of the star whose first vertex is at `base`: triangles
      (0, 1, 2) and (2, 1, 3). */
  function QuadOf(base: int): seq<int> {
    [base, base + 1, base + 2, base + 2, base + 1, base + 3]
  }

  /** The index list for n stars, in exact arithmetic. */
  function QuadIndices(n: nat): (r: seq<int>)
    ensures |r| == 6 * n
  {
    if n == 0 then [] else QuadIndices(n - 1) + QuadOf(4 * (n - 1))
  }

  /** Vertex 4i + c is star i placed at W = 1, with the c-th texture corner
      and offset. */
  lemma {:induction false} StarVerticesPointwise(stars: seq<Vec3>)
    ensures forall i, c :: 0 <= i < |stars| && 0 <= c < 4 ==>
              StarVertices(stars)[4 * i + c] == StarVertexOfPoint(stars[i], QuadTexCoords[c], QuadOffsets[c])
  {
    if stars != [] {
      var init := stars[..|stars| - 1];
      StarVerticesPointwise(init);
      forall i, c | 0 <= i < |stars| && 0 <= c < 4
        ensures StarVertices(stars)[4 * i + c] == StarVertexOfPoint(stars[i], QuadTexCoords[c], QuadOffsets[c])
      {
        if i < |init| {
          assert StarVertices(stars)[4 * i + c] == StarVertices(init)[4 * i + c];
          assert stars[i] == init[i];
        }
      }
    }
  }

  /** Index k of the list is 4 * (k / 6) plus the k % 6-th entry of the
      quad pattern 0, 1, 2, 2, 1, 3. */
  lemma {:induction false} QuadIndicesPointwise(n: nat)
    ensures forall k :: 0 <= k < 6 * n ==> QuadIndices(n)[k] == 4 * (k / 6) + QuadOf(0)[k % 6]
  {
    if n > 0 {
      QuadIndicesPointwise(n - 1);
      forall k | 0 <= k < 6 * n
        ensures QuadIndices(n)[k] == 4 * (k / 6) + QuadOf(0)[k % 6]
      {
        if k < 6 * (n - 1) {
          assert QuadIndices(n)[k] == QuadIndices(n - 1)[k];
        } else {
          assert k / 6 == n - 1;
          assert QuadIndices(n)[k] == QuadOf(4 * (n - 1))[k - 6 * (n - 1)];
        }
      }
    }
  }

  /** Star i gets indices 4i, 4i+1, 4i+2, 4i+2, 4i+1, 4i+3. */
  lemma IndicesOfEachStar(n: nat)
    ensures forall i :: 0 <= i < n ==> QuadIndices(n)[6 * i..6 * i + 6] == QuadOf(4 * i)
  {
    QuadIndicesPointwise(n);
    forall i | 0 <= i < n
      ensures QuadIndices(n)[6 * i..6 * i + 6] == QuadOf(4 * i)
    {
      forall c | 0 <= c < 6
        ensures QuadIndices(n)[6 * i + c] == QuadOf(4 * i)[c]
      {
        assert (6 * i + c) / 6 == i && (6 * i + c) % 6 == c;
      }
    }
  }

  /** Every index names one of the 4n vertices. */
  lemma IndicesInRange(n: nat)
    ensures forall k :: 0 <= k < 6 * n ==> 0 <= QuadIndices(n)[k] < 4 * n
  {
    QuadIndicesPointwise(n);
    forall k | 0 <= k < 6 * n
      ensures 0 <= QuadIndices(n)[k] < 4 * n
    {
      assert 0 <= k / 6 < n;
      assert 0 <= QuadOf(0)[k % 6] <= 3;
    }
  }

  /** No triangle repeats a vertex. */
  lemma TrianglesNonDegenerate(n: nat)
    ensures forall t :: 0 <= t < 2 * n ==>
              QuadIndices(n)[3 * t] != QuadIndices(n)[3 * t + 1] &&
              QuadIndices(n)[3 * t + 1] != QuadIndices(n)[3 * t + 2] &&
              QuadIndices(n)[3 * t] != QuadIndices(n)[3 * t + 2]
  {
    QuadIndicesPointwise(n);
    forall t | 0 <= t < 2 * n
      ensures QuadIndices(n)[3 * t] != QuadIndices(n)[3 * t + 1] &&
              QuadIndices(n)[3 * t + 1] != QuadIndices(n)[3 * t + 2] &&
              QuadIndices(n)[3 * t] != QuadIndices(n)[3 * t + 2]
    {
      var star, half := t / 2, 3 * (t % 2);
      assert 3 * t == 6 * star + half;
      assert 3 * t / 6 == star && (3 * t + 1) / 6 == star && (3 * t + 2) / 6 == star;
      assert 3 * t % 6 == half && (3 * t + 1) % 6 == half + 1 && (3 * t + 2) % 6 == half + 2;
    }
  }

  /** While 4n fits in a short, casting to short changes no index: the
      16-bit list holds the same values as the 32-bit one. */
  lemma SixteenBitIndicesExact(n: nat)
    requires 4 * n <= ShortMaxValue
    ensures forall k :: 0 <= k < 6 * n ==>
              Narrowed16(QuadIndices(n))[k] as int == QuadIndices(n)[k] &&
              Wrapped32(QuadIndices(n))[k] as int == QuadIndices(n)[k]
  {
    IndicesInRange(n);
  }

  /** The vertex count is computed in int: while 4n fits, 32-bit indices are
      chosen exactly when 4n exceeds short.MaxValue; at 2^30 stars the count
      wraps to 0 and the 16-bit path is taken. */
  lemma IndexWidthChoice(n: nat)
    ensures 4 * n < 0x8000_0000 ==> (Wrap32(n * 4) as int > ShortMaxValue <==> 4 * n > ShortMaxValue)
    ensures n == 0x4000_0000 ==> Wrap32(n * 4) as int <= ShortMaxValue
  {
  }

  /** The index buffer, with its element size. */
  datatype IndexBuffer = SixteenBits(indices16: seq<int16>) | ThirtyTwoBits(indices32: seq<int32>)

  class StarfieldComponent {
    var BillboardSize: Vec2
    var ProjectionMatrix: Matrix
    var ViewMatrix: Matrix
    var WorldMatrix: Matrix

    var vertexBuffer: Option<seq<StarVertex>>
    var indexBuffer: Option<IndexBuffer>

    /** Unit billboards, identity transforms, and no geometry yet. */
    constructor ()
      ensures BillboardSize == Vec2(1.0, 1.0)
      ensures ProjectionMatrix == Identity && ViewMatrix == Identity && WorldMatrix == Identity
      ensures vertexBuffer.None? && indexBuffer.None?
    {
      BillboardSize := Vec2(1.0, 1.0);
      ProjectionMatrix := Identity;
      ViewMatrix := Identity;
      WorldMatrix := Identity;
      vertexBuffer := None;
      indexBuffer := None;
    }

    /** 32-bit indices iff the vertex count, an int, exceeds short.MaxValue. */
    method GenerateGeometry(starPositions: seq<Vec3>)
      requires |starPositions| < 0x8000_0000
      modifies this`vertexBuffer, this`indexBuffer
      ensures vertexBuffer == Some(StarVertices(starPositions))
      ensures Wrap32(|starPositions| * 4) as int > ShortMaxValue ==>
                indexBuffer == Some(ThirtyTwoBits(Wrapped32(QuadIndices(|starPositions|))))
      ensures Wrap32(|starPositions| * 4) as int <= ShortMaxValue ==>
                indexBuffer == Some(SixteenBits(Narrowed16(QuadIndices(|starPositions|))))
    {
      var totalVertices := Wrap32(|starPositions| * 4);
      if totalVertices as int > ShortMaxValue {
        GenerateGeometryWith32BitIndices(starPositions);
      } else {
        GenerateGeometryWith16BitIndices(starPositions);
      }
    }

    method GenerateGeometryWith32BitIndices(stars: seq<Vec3>)
      requires |stars| < 0x8000_0000
      modifies this`vertexBuffer, this`indexBuffer
      ensures vertexBuffer == Some(StarVertices(stars))
      ensures indexBuffer == Some(ThirtyTwoBits(Wrapped32(QuadIndices(|stars|))))
    {
      var vertices: seq<StarVertex> := [];
      var indices: seq<int32> := [];
      var baseIndex: int32 := 0;
      for i := 0 to |stars|
        invariant vertices == StarVertices(stars[..i])
        invariant indices == Wrapped32(QuadIndices(i))
      {
        vertices := vertices + QuadVertices(stars[i]);
        assert stars[..i + 1][..i] == stars[..i];

        baseIndex := Wrap32(i * 4);
        var added := [Wrap32(0 + baseIndex as int), Wrap32(1 + baseIndex as int), Wrap32(2 + baseIndex as int),
                      Wrap32(2 + baseIndex as int), Wrap32(1 + baseIndex as int), Wrap32(3 + baseIndex as int)];
        ThirtyTwoBitStep(i, baseIndex, added);
        indices := indices + added;
        assert Wrapped32(QuadIndices(i + 1)) == Wrapped32(QuadIndices(i)) + Wrapped32(QuadOf(4 * i));
      }
      assert stars[..|stars|] == stars;
      vertexBuffer := Some(vertices);
      indexBuffer := Some(ThirtyTwoBits(indices));
    }

    method GenerateGeometryWith16BitIndices(stars: seq<Vec3>)
      requires |stars| < 0x8000_0000
      modifies this`vertexBuffer, this`indexBuffer
      ensures vertexBuffer == Some(StarVertices(stars))
      ensures indexBuffer == Some(SixteenBits(Narrowed16(QuadIndices(|stars|))))
    {
      var vertices: seq<StarVertex> := [];
      var indices: seq<int16> := [];
      var baseIndex: int16 := 0;
      for i := 0 to |stars|
        invariant vertices == StarVertices(stars[..i])
        invariant indices == Narrowed16(QuadIndices(i))
      {
        vertices := vertices + QuadVertices(stars[i]);
        assert stars[..i + 1][..i] == stars[..i];

        baseIndex := ToShort(Wrap32(i * 4) as int);
        var added := [ToShort(0 + baseIndex as int), ToShort(1 + baseIndex as int), ToShort(2 + baseIndex as int),
                      ToShort(2 + baseIndex as int), ToShort(1 + baseIndex as int), ToShort(3 + baseIndex as int)];
        SixteenBitStep(i, baseIndex, added);
        indices := indices + added;
        assert Narrowed16(QuadIndices(i + 1)) == Narrowed16(QuadIndices(i)) + Narrowed16(QuadOf(4 * i));
      }
      assert stars[..|stars|] == stars;
      vertexBuffer := Some(vertices);
      indexBuffer := Some(SixteenBits(indices));
    }
  }

  /** Casting an int to short keeps its low 16 bits, which the int's own
      wrap-around never changes. */
  lemma ShortOfInt(x: int)
    ensures ToShort(Wrap32(x) as int) == ToShort(x)
  {
    var q := (x + 0x8000_0000) / 0x1_0000_0000;
    assert Wrap32(x) as int == x + (-q * 0x1_0000) * 0x1_0000;
    ToShortShift(x, -q * 0x1_0000);
  }

  /** Adding to a wrapped base wraps like adding to the exact base. */
  lemma ThirtyTwoBitStep(i: int, baseIndex: int32, added: seq<int32>)
    requires baseIndex == Wrap32(i * 4)
    requires added == [Wrap32(0 + baseIndex as int), Wrap32(1 + baseIndex as int), Wrap32(2 + baseIndex as int),
                       Wrap32(2 + baseIndex as int), Wrap32(1 + baseIndex as int), Wrap32(3 + baseIndex as int)]
    ensures added == Wrapped32(QuadOf(4 * i))
  {
    var q := (i * 4 + 0x8000_0000) / 0x1_0000_0000;
    assert baseIndex as int == 4 * i + (-q) * 0x1_0000_0000;
    Wrap32Shift(4 * i + 0, -q);
    Wrap32Shift(4 * i + 1, -q);
    Wrap32Shift(4 * i + 2, -q);
    Wrap32Shift(4 * i + 3, -q);
  }

  /** `(short)(k + (short)(i * 4))` is `(short)(4i + k)`, whatever the
      wrap-arounds on the way. */
  lemma SixteenBitStep(i: int, baseIndex: int16, added: seq<int16>)
    requires baseIndex == ToShort(Wrap32(i * 4) as int)
    requires added == [ToShort(0 + baseIndex as int), ToShort(1 + baseIndex as int), ToShort(2 + baseIndex as int),
                       ToShort(2 + baseIndex as int), ToShort(1 + baseIndex as int), ToShort(3 + baseIndex as int)]
    ensures added == Narrowed16(QuadOf(4 * i))
  {
    ShortOfInt(i * 4);
    var p := (i * 4 + 0x8000) / 0x1_0000;
    assert baseIndex as int == 4 * i + (-p) * 0x1_0000;
    ToShortShift(4 * i + 0, -p);
    ToShortShift(4 * i + 1, -p);
    ToShortShift(4 * i + 2, -p);
    ToShortShift(4 * i + 3, -p);
  }
}
