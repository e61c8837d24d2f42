/** The Vector3 helpers of XnaExtentions.cs. */
module XnaExtensions {
  import opened XnaMath
  import opened Exceptions

  /** Components: X, Y, Z for indices 0, 1, 2; any other index throws. */
  function Components(v: Vec3, i: int): (r: Result<real>)
    ensures r.Ok? <==> 0 <= i <= 2
  {
    match i
    case 0 => Ok(v.x)
    case 1 => Ok(v.y)
    case 2 => Ok(v.z)
    case _ => Err(ComponentIndexOutOfRange)
  }

  /** CreateVertex3FromComponents: the first three entries of an array. */
  function CreateVertex3FromComponents(components: seq<real>): (r: Result<Vec3>)
    ensures r.Ok? <==> |components| >= 3
  {
    if |components| < 3 then Err(IndexOutOfRange)
    else Ok(Vec3(components[0], components[1], components[2]))
  }

  /** Reading the three components and building a vector from them gives the vector back. */
  lemma ComponentsRoundTrip(v: Vec3)
    ensures Components(v, 0).Ok? && Components(v, 1).Ok? && Components(v, 2).Ok?
    ensures CreateVertex3FromComponents(
              [Components(v, 0).value, Components(v, 1).value, Components(v, 2).value]) == Ok(v)
  {
  }

  /** Clone: a new vector equal to the old one. */
  function Clone(v: Vec3): (r: Vec3)
    ensures r == v
  {
    Vec3(v.x, v.y, v.z)
  }

  predicate IsValid(xna: Xna, v: Vec3) {
    xna.isValid(v)
  }

  /** Validate: throws for a vector with a NaN component. */
  function Validate(xna: Xna, v: Vec3): (r: Outcome)
    ensures r == Completed <==> IsValid(xna, v)
    ensures r.Threw? ==> r.error == InvalidVector
  {
    if !IsValid(xna, v) then Threw(InvalidVector) else Completed
  }

  function GetXVector(v: Vec3): (r: Vec3)
    ensures r.x == v.x && r.y == 0.0 && r.z == 0.0
  {
    Vec3(v.x, 0.0, 0.0)
  }

  function GetYVector(v: Vec3): (r: Vec3)
    ensures r.x == 0.0 && r.y == v.y && r.z == 0.0
  {
    Vec3(0.0, v.y, 0.0)
  }

  function GetZVector(v: Vec3): (r: Vec3)
    ensures r.x == 0.0 && r.y == 0.0 && r.z == v.z
  {
    Vec3(0.0, 0.0, v.z)
  }

  /** The three axis projections add back up to the vector and are pairwise perpendicular. */
  lemma AxisProjectionsSum(v: Vec3)
    ensures Add(Add(GetXVector(v), GetYVector(v)), GetZVector(v)) == v
    ensures Dot(GetXVector(v), GetYVector(v)) == 0.0
    ensures Dot(GetYVector(v), GetZVector(v)) == 0.0
    ensures Dot(GetXVector(v), GetZVector(v)) == 0.0
  {
  }

  /** GetWithNewLength: every component scaled by newLength / |v|. For the zero
      vector the factor divides by zero and every component is NaN (None). */
  function GetWithNewLength(xna: Xna, v: Vec3, newLength: real): (r: Option<Vec3>)
    ensures r.Some? <==> Length(xna, v) != 0.0
    ensures r.Some? ==> exists k: real :: r.value == Scale(v, k)
  {
    var length := Length(xna, v);
    if length == 0.0 then None
    else
      var lengthFactor := newLength / length;
      Some(Scale(v, lengthFactor))
  }

  /** The rescaled vector has the requested length and, for a positive length,
      the direction of the original. */
  lemma GetWithNewLengthCorrect(xna: Xna, v: Vec3, newLength: real)
    requires Lawful(xna)
    requires v != Zero
    ensures GetWithNewLength(xna, v, newLength).Some?
    ensures LengthSquared(GetWithNewLength(xna, v, newLength).value) == newLength * newLength
    ensures 0.0 < newLength ==>
              exists k: real :: 0.0 < k && GetWithNewLength(xna, v, newLength).value == Scale(v, k)
  {
    LengthPositive(xna, v);
    var l := Length(xna, v);
    RescaledLength(v, l, newLength);
    var k := newLength / l;
    assert GetWithNewLength(xna, v, newLength).value == Scale(v, k);
  }

  /** Scaling by newLength / |v| gives squared length newLength^2, and keeps
      the direction when newLength is positive. */
  lemma RescaledLength(v: Vec3, l: real, newLength: real)
    requires 0.0 < l && l * l == LengthSquared(v)
    ensures LengthSquared(Scale(v, newLength / l)) == newLength * newLength
    ensures 0.0 < newLength ==> 0.0 < newLength / l
  {
    var k := newLength / l;
    ScaleLengthSquared(v, k);
    assert k * l == newLength;
    ProductSquare(k, l);
  }

  /** The bound beyond which AngleWith snaps the cosine: 1 - 1E-3. */
  const CloseTo1: real := 0.999

  /** The normalised dot product of AngleWith; NaN when either vector has
      length zero (a zero dot product divided by a zero length). */
  function CosineBetween(xna: Xna, v: Vec3, w: Vec3): Float {
    var lv := Length(xna, v);
    var lw := Length(xna, w);
    if lv == 0.0 || lw == 0.0 then NaN
    else Real(Dot(v, w) / lv / lw)
  }

  /** The snap of AngleWith: beyond +-(1 - 1E-3) the cosine becomes +-1. */
  function SnapCosine(c: real): (r: real)
    ensures -1.0 <= r <= 1.0
    ensures -1.0 <= c <= 1.0 ==> -0.001 <= r - c <= 0.001
  {
    if c > CloseTo1 then 1.0
    else if c < -CloseTo1 then -1.0
    else c
  }

  /** AngleWith, in radians. */
  function AngleWith(xna: Xna, v: Vec3, w: Vec3): (r: Float)
    ensures r == NaN <==> Length(xna, v) == 0.0 || Length(xna, w) == 0.0
  {
    match CosineBetween(xna, v, w)
    case NaN => NaN
    case Real(c) => Real(xna.acos(SnapCosine(c)))
  }

  /** A vector of length 0 makes the angle undefined. */
  lemma AngleWithZeroLength(xna: Xna, v: Vec3, w: Vec3)
    requires Length(xna, v) == 0.0 || Length(xna, w) == 0.0
    ensures CosineBetween(xna, v, w) == NaN && AngleWith(xna, v, w) == NaN
  {
  }

  /** Lagrange's identity: |a|^2 |b|^2 = (a.b)^2 + |a x b|^2. */
  lemma LagrangeIdentity(a: Vec3, b: Vec3)
    ensures LengthSquared(a) * LengthSquared(b) == Dot(a, b) * Dot(a, b) + LengthSquared(Cross(a, b))
  {
  }

  /** For non-zero vectors the normalised dot product already lies in [-1, 1]
      (Cauchy-Schwarz), so the snap only absorbs rounding of at most 1E-3 and
      the arc cosine is always taken of a value in [-1, 1]. */
  lemma CosineInRange(xna: Xna, v: Vec3, w: Vec3)
    requires Lawful(xna)
    requires v != Zero && w != Zero
    ensures CosineBetween(xna, v, w).Real?
    ensures -1.0 <= CosineBetween(xna, v, w).value <= 1.0
    ensures -0.001 <= SnapCosine(CosineBetween(xna, v, w).value) - CosineBetween(xna, v, w).value <= 0.001
  {
    LengthPositive(xna, v);
    LengthPositive(xna, w);
    CosineOfLengths(xna, v, w);
  }

  /** The cosine is a number in [-1, 1] once both lengths are positive square
      roots of the squared lengths. */
  lemma CosineOfLengths(xna: Xna, v: Vec3, w: Vec3)
    requires 0.0 < Length(xna, v) && Length(xna, v) * Length(xna, v) == LengthSquared(v)
    requires 0.0 < Length(xna, w) && Length(xna, w) * Length(xna, w) == LengthSquared(w)
    ensures CosineBetween(xna, v, w).Real?
    ensures -1.0 <= CosineBetween(xna, v, w).value <= 1.0
  {
    CauchySchwarz(v, w);
    CosineBound(Dot(v, w), Length(xna, v), Length(xna, w), LengthSquared(v), LengthSquared(w));
  }

  /** A dot product bounded by the product of the lengths, divided by both
      lengths, lies in [-1, 1]. */
  lemma CosineBound(d: real, lv: real, lw: real, vv: real, ww: real)
    requires 0.0 < lv && 0.0 < lw && lv * lv == vv && lw * lw == ww
    requires d * d <= vv * ww
    ensures -1.0 <= d / lv / lw <= 1.0
  {
    var m := lv * lw;
    assert -m <= d <= m by {
      SquareOfProduct(lv, lw, m, vv, ww);
      DotBoundedByLengths(d, m, vv * ww);
    }
    assert d / lv / lw == d / m by {
      DivideTwice(d, lv, lw);
    }
    DivideBounded(d, m);
  }

  /** |a.b|^2 <= |a|^2 |b|^2. */
  lemma CauchySchwarz(a: Vec3, b: Vec3)
    ensures Dot(a, b) * Dot(a, b) <= LengthSquared(a) * LengthSquared(b)
  {
    LagrangeIdentity(a, b);
    var c := Cross(a, b);
    assert 0.0 <= c.x * c.x && 0.0 <= c.y * c.y && 0.0 <= c.z * c.z;
  }

  /** d^2 <= m^2 bounds |d| by m. */
  lemma DotBoundedByLengths(d: real, m: real, mm: real)
    requires 0.0 <= m && m * m == mm && d * d <= mm
    ensures -m <= d <= m
  {
    if m < d {
      SquareMonotonic(m, d);
    } else if d < -m {
      SquareMonotonic(m, -d);
    }
  }

  /** A vector makes angle zero with itself: dragging from a sample to the same sample rotates nothing. */
  lemma AngleWithItself(xna: Xna, v: Vec3)
    requires Lawful(xna)
    requires v != Zero
    ensures AngleWith(xna, v, v) == Real(0.0)
  {
    LengthPositive(xna, v);
    var l := Length(xna, v);
    assert Dot(v, v) / l / l == 1.0 by {
      var ll := l * l;
      assert Dot(v, v) == ll;
      SquareMonotonic(0.0, l);
      DivideTwice(Dot(v, v), l, l);
      assert Dot(v, v) / ll == 1.0;
    }
  }

  /** C#'s % on int: the remainder takes the sign of the dividend. */
  function CsRemainder(a: int, b: int): (r: int)
    requires b > 0
    ensures -b < r < b
    ensures a >= 0 ==> r == a % b
    ensures a < 0 ==> r <= 0
  {
    if a >= 0 then a % b else -((-a) % b)
  }

  /** RotateComponent as written: switches on rotateCount % 3 with C#'s remainder. */
  function RotateComponent(v: Vec3, rotateCount: int): (r: Vec3)
    ensures multiset{r.x, r.y, r.z} == multiset{v.x, v.y, v.z}
  {
    match CsRemainder(rotateCount, 3)
    case 0 => v
    case 1 => Vec3(v.z, v.x, v.y)
    case 2 => Vec3(v.y, v.z, v.x)
    case _ => v
  }

  /** A count of 1 moves Z to the front; three such steps restore the vector,
      and two of them are a count of 2. */
  lemma RotateComponentCycle(v: Vec3)
    ensures RotateComponent(v, 1) == Vec3(v.z, v.x, v.y)
    ensures RotateComponent(RotateComponent(v, 1), 1) == RotateComponent(v, 2)
    ensures RotateComponent(RotateComponent(RotateComponent(v, 1), 1), 1) == v
  {
  }

  /** For non-negative counts only the remainder modulo 3 matters. */
  lemma RotateComponentPeriodic(v: Vec3, n: nat)
    ensures RotateComponent(v, n) == RotateComponent(v, n % 3)
  {
    assert CsRemainder(n, 3) == n % 3 == CsRemainder(n % 3, 3);
  }

  /** A negative count whose remainder is not zero falls to the default branch:
      the vector comes back unchanged, so rotating by 1 and then by -1 does not
      restore a vector with distinct components. */
  lemma RotateComponentNegativeUnchanged(v: Vec3, rotateCount: int)
    requires rotateCount < 0 && rotateCount % 3 != 0
    ensures RotateComponent(v, rotateCount) == v
  {
  }

  lemma RotateComponentNotInvertible()
    ensures RotateComponent(RotateComponent(Vec3(1.0, 2.0, 3.0), 1), -1) != Vec3(1.0, 2.0, 3.0)
  {
    RotateComponentNegativeUnchanged(Vec3(3.0, 1.0, 2.0), -1);
  }

  /** RotateComponent with the count reduced by Euclidean remainder, so that a
      negative count rotates the other way. */
  function RotateComponentCyclic(v: Vec3, rotateCount: int): Vec3 {
    match rotateCount % 3
    case 0 => v
    case 1 => Vec3(v.z, v.x, v.y)
    case _ => Vec3(v.y, v.z, v.x)
  }

  /** The corrected rotation agrees with the source for non-negative counts and
      composes: rotating by a and then by b is rotating by a + b. */
  lemma RotateComponentCyclicCorrect(v: Vec3, a: int, b: int)
    ensures a >= 0 ==> RotateComponentCyclic(v, a) == RotateComponent(v, a)
    ensures RotateComponentCyclic(RotateComponentCyclic(v, a), b) == RotateComponentCyclic(v, a + b)
  {
    assert (a + b) % 3 == ((a % 3) + (b % 3)) % 3;
  }

  /** SafeCross: main x crossWith unless that is invalid or shorter than 0.1,
      in which case main x alternateCrossWith. Either way the result is
      perpendicular to main. */
  function SafeCross(xna: Xna, main: Vec3, crossWith: Vec3, alternateCrossWith: Vec3): (r: Vec3)
    ensures Dot(r, main) == 0.0
    ensures r == Cross(main, crossWith) <==>
              (IsValid(xna, Cross(main, crossWith)) && LengthSquared(Cross(main, crossWith)) >= 0.01) ||
              Cross(main, crossWith) == Cross(main, alternateCrossWith)
    ensures r != Cross(main, crossWith) ==> r == Cross(main, alternateCrossWith)
  {
    var cross := Cross(main, crossWith);
    if !IsValid(xna, cross) || LengthSquared(cross) < 0.01 then Cross(main, alternateCrossWith)
    else cross
  }

  /** What ReverseFacedTriangles yields: the vertices are taken in groups of
      four; each complete group yields its first three in reverse order and
      its fourth vertex (the one that triggers the yield) is dropped. */
  function ReversedTriangles(s: seq<VertexPositionColor>): seq<VertexPositionColor>
    decreases |s|
  {
    if |s| < 4 then [] else [s[2], s[1], s[0]] + ReversedTriangles(s[4..])
  }

  /** Entry k of the output is input vertex 4(k/3) + 2 - k%3; the fourth vertex
      of a group never appears. */
  lemma {:induction false} ReversedTrianglesAt(s: seq<VertexPositionColor>)
    ensures |ReversedTriangles(s)| == 3 * (|s| / 4)
    ensures forall k :: 0 <= k < |ReversedTriangles(s)| ==>
              ReversedTriangles(s)[k] == s[4 * (k / 3) + 2 - k % 3]
    decreases |s|
  {
    if |s| >= 4 {
      var rest := s[4..];
      ReversedTrianglesAt(rest);
      var r := ReversedTriangles(s);
      assert r == [s[2], s[1], s[0]] + ReversedTriangles(rest);
      forall k | 3 <= k < |r|
        ensures r[k] == s[4 * (k / 3) + 2 - k % 3]
      {
        var j := k - 3;
        assert r[k] == ReversedTriangles(rest)[j];
        assert j / 3 == k / 3 - 1 && j % 3 == k % 3;
        assert rest[4 * (j / 3) + 2 - j % 3] == s[4 + 4 * (j / 3) + 2 - j % 3];
      }
    }
  }

  /** The exception ReverseFacedTriangles raises once the input is exhausted:
      the count left in the buffer is |s| mod 4, and only 1 or 2 throw. */
  function ReverseFacedOutcome(count: nat): (r: Outcome)
    ensures r.Threw? <==> count % 4 == 1 || count % 4 == 2
  {
    if (count % 4) % 3 != 0 then Threw(VertexCountNotMultipleOfThree) else Completed
  }

  /** ReverseFacedTriangles: a loop over the vertices with a three-slot buffer
      and a counter; the yielded vertices are returned together with the
      exception raised after the last of them. */
  method ReverseFacedTriangles(vertices: seq<VertexPositionColor>)
    returns (output: seq<VertexPositionColor>, outcome: Outcome)
    ensures output == ReversedTriangles(vertices)
    ensures |output| % 3 == 0
    ensures outcome == ReverseFacedOutcome(|vertices|)
  {
    var triangle := new VertexPositionColor[3];
    var vertexCount := 0;
    ghost var groups := 0;
    output := [];
    for i := 0 to |vertices|
      invariant 0 <= vertexCount <= 3 && i == 4 * groups + vertexCount
      invariant |output| == 3 * groups
      invariant forall k :: 0 <= k < |output| ==> output[k] == vertices[4 * (k / 3) + 2 - k % 3]
      invariant forall m :: 0 <= m < vertexCount ==> triangle[m] == vertices[i - vertexCount + m]
    {
      var vertex := vertices[i];
      if vertexCount < 3 {
        triangle[vertexCount] := vertex;
        vertexCount := vertexCount + 1;
      } else {
        var emitted := [triangle[2], triangle[1], triangle[0]];
        GroupEmitted(vertices, output, groups, emitted);
        output := output + emitted;
        vertexCount := 0;
        groups := groups + 1;
      }
    }
    GroupsAndRemainder(|vertices|, groups, vertexCount);
    AllGroupsEmitted(vertices, output);
    if vertexCount % 3 != 0 {
      outcome := Threw(VertexCountNotMultipleOfThree);
    } else {
      outcome := Completed;
    }
  }

  /** n = 4 groups + count with count < 4 makes groups the quotient and count
      the remainder of n by 4. */
  lemma GroupsAndRemainder(n: nat, groups: nat, count: nat)
    requires n == 4 * groups + count && count <= 3
    ensures n / 4 == groups && n % 4 == count
  {
    var q, r := n / 4, n % 4;
    assert 4 * (q - groups) == count - r;
  }

  /** A fourth vertex flushes the buffered triangle of its group, reversed,
      after the triangles of the earlier groups. */
  lemma GroupEmitted(vertices: seq<VertexPositionColor>, output: seq<VertexPositionColor>, groups: nat,
                     emitted: seq<VertexPositionColor>)
    requires 4 * groups + 3 < |vertices| && |output| == 3 * groups
    requires forall k :: 0 <= k < |output| ==> output[k] == vertices[4 * (k / 3) + 2 - k % 3]
    requires emitted == [vertices[4 * groups + 2], vertices[4 * groups + 1], vertices[4 * groups]]
    ensures forall k :: 0 <= k < |output| + 3 ==> (output + emitted)[k] == vertices[4 * (k / 3) + 2 - k % 3]
  {
    forall k | |output| <= k < |output| + 3
      ensures (output + emitted)[k] == vertices[4 * (k / 3) + 2 - k % 3]
    {
      assert k / 3 == groups && k % 3 == k - 3 * groups;
    }
  }

  /** A list that agrees entry by entry with the groups' reversed triangles is ReversedTriangles. */
  lemma AllGroupsEmitted(vertices: seq<VertexPositionColor>, output: seq<VertexPositionColor>)
    requires |output| == 3 * (|vertices| / 4)
    requires forall k :: 0 <= k < |output| ==> output[k] == vertices[4 * (k / 3) + 2 - k % 3]
    ensures output == ReversedTriangles(vertices)
  {
    ReversedTrianglesAt(vertices);
  }

  /** Exactly three vertices yield nothing and raise nothing; two well-formed
      triangles yield one reversed triangle and then raise. */
  lemma ReverseFacedSmallInputs(s: seq<VertexPositionColor>)
    ensures |s| == 3 ==> ReversedTriangles(s) == [] && ReverseFacedOutcome(|s|) == Completed
    ensures |s| == 6 ==> ReversedTriangles(s) == [s[2], s[1], s[0]] && ReverseFacedOutcome(|s|).Threw?
  {
    if |s| == 6 {
      assert ReversedTriangles(s[4..]) == [];
    }
  }

  /** The evident intent of ReverseFacedTriangles: every triangle of the list
      with its winding reversed. */
  function ReversedWinding(s: seq<VertexPositionColor>): seq<VertexPositionColor>
    decreases |s|
  {
    if |s| < 3 then [] else [s[2], s[1], s[0]] + ReversedWinding(s[3..])
  }

  /** Reversing the winding twice restores a list of whole triangles. */
  lemma {:induction false} ReversedWindingInvolution(s: seq<VertexPositionColor>)
    requires |s| % 3 == 0
    ensures |ReversedWinding(s)| == |s|
    ensures ReversedWinding(ReversedWinding(s)) == s
    decreases |s|
  {
    if |s| >= 3 {
      ReversedWindingInvolution(s[3..]);
      var r := ReversedWinding(s);
      assert r[3..] == ReversedWinding(s[3..]);
      assert ReversedWinding(r) == [s[0], s[1], s[2]] + ReversedWinding(r[3..]);
      assert s == [s[0], s[1], s[2]] + s[3..];
    }
  }

  /** ReverseFacedTriangles as evidently intended: a triangle is yielded as soon
      as its third vertex arrives, and a count that is not a multiple of three
      throws. */
  method ReverseFacedTrianglesIntended(vertices: seq<VertexPositionColor>)
    returns (output: seq<VertexPositionColor>, outcome: Outcome)
    ensures output == ReversedWinding(vertices)
    ensures outcome.Threw? <==> |vertices| % 3 != 0
  {
    var triangle := new VertexPositionColor[3];
    var vertexCount := 0;
    output := [];
    for i := 0 to |vertices|
      invariant vertexCount == i % 3
      invariant output == ReversedWinding(vertices[..i - vertexCount])
      invariant forall m :: 0 <= m < vertexCount ==> triangle[m] == vertices[i - vertexCount + m]
    {
      triangle[vertexCount] := vertices[i];
      vertexCount := vertexCount + 1;
      if vertexCount == 3 {
        TriangleCompleted(vertices, i, triangle[0], triangle[1], triangle[2]);
        output := output + [triangle[2], triangle[1], triangle[0]];
        vertexCount := 0;
      }
    }
    TrailingVerticesIgnored(vertices);
    if vertexCount % 3 != 0 {
      outcome := Threw(VertexCountNotMultipleOfThree);
    } else {
      outcome := Completed;
    }
  }

  /** The third vertex of a triangle completes it: the reversed triangle is
      appended to what the earlier triangles gave. */
  lemma TriangleCompleted(vertices: seq<VertexPositionColor>, i: int,
                          a: VertexPositionColor, b: VertexPositionColor, c: VertexPositionColor)
    requires 2 <= i < |vertices| && (i + 1) % 3 == 0
    requires a == vertices[i - 2] && b == vertices[i - 1] && c == vertices[i]
    ensures ReversedWinding(vertices[..i + 1]) == ReversedWinding(vertices[..i - 2]) + [c, b, a]
  {
    ReversedWindingAppend(vertices[..i - 2], a, b, c);
    assert vertices[..i + 1] == vertices[..i - 2] + [a, b, c];
  }

  /** Cutting n vertices after the last whole triangle leaves a multiple of
      three before the cut and fewer than three after it. */
  lemma WholeTriangles(n: nat)
    ensures (n - n % 3) % 3 == 0 && n % 3 < 3 && n % 3 <= n
  {
    var q, r := n / 3, n % 3;
    assert n - r == 3 * q;
    var d, m := (3 * q) / 3, (3 * q) % 3;
    assert 3 * q == 3 * d + m && 0 <= m < 3;
    assert 3 * (q - d) == m;
  }

  /** The vertices after the last whole triangle contribute nothing. */
  lemma TrailingVerticesIgnored(vertices: seq<VertexPositionColor>)
    ensures ReversedWinding(vertices[..|vertices| - |vertices| % 3]) == ReversedWinding(vertices)
  {
    var cut := |vertices| - |vertices| % 3;
    WholeTriangles(|vertices|);
    ReversedWindingIgnoresTail(vertices[..cut], vertices[cut..]);
    assert vertices[..cut] + vertices[cut..] == vertices;
  }

  lemma {:induction false} ReversedWindingAppend(s: seq<VertexPositionColor>, a: VertexPositionColor,
                                                 b: VertexPositionColor, c: VertexPositionColor)
    requires |s| % 3 == 0
    ensures ReversedWinding(s + [a, b, c]) == ReversedWinding(s) + [c, b, a]
    decreases |s|
  {
    if |s| >= 3 {
      assert (s + [a, b, c])[3..] == s[3..] + [a, b, c];
      ReversedWindingAppend(s[3..], a, b, c);
    } else {
      assert s == [];
      assert ReversedWinding([a, b, c][3..]) == [];
    }
  }

  lemma {:induction false} ReversedWindingIgnoresTail(s: seq<VertexPositionColor>, tail: seq<VertexPositionColor>)
    requires |s| % 3 == 0 && |tail| < 3
    ensures ReversedWinding(s + tail) == ReversedWinding(s)
    decreases |s|
  {
    if |s| >= 3 {
      assert (s + tail)[3..] == s[3..] + tail;
      ReversedWindingIgnoresTail(s[3..], tail);
    } else {
      assert s == [];
      assert s + tail == tail;
    }
  }
}
