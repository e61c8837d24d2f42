/** The XNA value types the viewer computes with, over exact reals.

    Vector arithmetic that XNA performs component by component (sums,
    differences, scaling, dot and cross products) is written out here. What
    XNA and System.Math compute with rounding or transcendental functions
    (square root, arc cosine, power, normalisation, quaternion construction,
    Vector3.Transform, the view and projection matrices, and the NaN test) is
    not interpreted: each is a field of an `Xna` record that the model takes
    as a parameter, and `Lawful` lists the few facts about them that the
    proofs use. */
module XnaMath {

  datatype Vec2 = Vec2(x: real, y: real)

  datatype Vec3 = Vec3(x: real, y: real, z: real)

  datatype Vec4 = Vec4(x: real, y: real, z: real, w: real)

  /** A rotation, as XNA stores it (x, y, z, w). */
  datatype Quat = Quat(x: real, y: real, z: real, w: real)

  /** A 4x4 matrix, row by row. No property of the model looks inside one. */
  datatype Matrix = Matrix(entries: seq<real>)

  /** Matrix.Identity. */
  const Identity: Matrix := Matrix([1.0, 0.0, 0.0, 0.0,
                                    0.0, 1.0, 0.0, 0.0,
                                    0.0, 0.0, 1.0, 0.0,
                                    0.0, 0.0, 0.0, 1.0])

  /** The named colours the viewer uses (Microsoft.Xna.Framework.Color). */
  datatype Color = Black | Red | Yellow | Green | Blue | Magenta | White | Cyan

  /** VertexPositionColor: a vertex as the triangle lists carry it. */
  datatype VertexPositionColor = VertexPositionColor(position: Vec3, color: Color)

  /** A single-precision result that may be NaN (comparisons with NaN are false). */
  datatype Float = Real(value: real) | NaN

  /** `f > 0` in C#: false for NaN. */
  predicate IsPositive(f: Float) {
    f.Real? && f.value > 0.0
  }

  function Times(f: Float, k: real): Float {
    match f
    case Real(v) => Real(v * k)
    case NaN => NaN
  }

  const Zero := Vec3(0.0, 0.0, 0.0)

  /** Vector3.Up, Vector3.Right of XNA. */
  const UnitY := Vec3(0.0, 1.0, 0.0)
  const UnitX := Vec3(1.0, 0.0, 0.0)

  /** MathHelper.PiOver2 and MathHelper.PiOver4: the single-precision values, written out exactly. */
  const PiOver2: real := 1.57079637050628662109375
  const PiOver4: real := 0.785398185253143310546875

  function Add(a: Vec3, b: Vec3): Vec3 {
    Vec3(a.x + b.x, a.y + b.y, a.z + b.z)
  }

  function Sub(a: Vec3, b: Vec3): Vec3 {
    Vec3(a.x - b.x, a.y - b.y, a.z - b.z)
  }

  function Scale(a: Vec3, k: real): Vec3 {
    Vec3(a.x * k, a.y * k, a.z * k)
  }

  function Dot(a: Vec3, b: Vec3): real {
    a.x * b.x + a.y * b.y + a.z * b.z
  }

  /** Vector3.Cross. */
  function Cross(a: Vec3, b: Vec3): Vec3 {
    Vec3(a.y * b.z - a.z * b.y, a.z * b.x - a.x * b.z, a.x * b.y - a.y * b.x)
  }

  function LengthSquared(a: Vec3): real {
    Dot(a, a)
  }

  /** The primitives the model does not interpret. */
  datatype Xna = Xna(
    sqrt: real -> real,                           // Math.Sqrt, also inside Vector3.Length
    acos: real -> real,                           // Math.Acos
    pow: (real, real) -> real,                    // Math.Pow
    normalize: Vec3 -> Vec3,                      // Vector3.Normalize (NaN for the zero vector)
    fromAxisAngle: (Vec3, real) -> Quat,          // Quaternion.CreateFromAxisAngle
    fromYawPitchRoll: (real, real, real) -> Quat, // Quaternion.CreateFromYawPitchRoll
    transform: (Vec3, Quat) -> Vec3,              // Vector3.Transform
    lookAt: (Vec3, Vec3, Vec3) -> Matrix,         // Matrix.CreateLookAt
    perspective: (real, real, real, real) -> Matrix, // Matrix.CreatePerspectiveFieldOfView
    isValid: Vec3 -> bool                         // no component is NaN
  )

  /** Facts about the primitives that hold in exact arithmetic. */
  ghost predicate Lawful(xna: Xna) {
    (forall t: real :: 0.0 <= t ==> 0.0 <= xna.sqrt(t) && xna.sqrt(t) * xna.sqrt(t) == t) &&
    (forall v: Vec3 :: 0.0 < LengthSquared(v) ==>
       Scale(xna.normalize(v), xna.sqrt(LengthSquared(v))) == v) &&
    xna.acos(1.0) == 0.0 &&
    (forall b: real :: xna.pow(b, 0.0) == 1.0)
  }

  /** Vector3.Length. */
  function Length(xna: Xna, a: Vec3): real {
    xna.sqrt(LengthSquared(a))
  }

  lemma SqrtLaw(xna: Xna, t: real)
    requires Lawful(xna) && 0.0 <= t
    ensures 0.0 <= xna.sqrt(t) && xna.sqrt(t) * xna.sqrt(t) == t
  {
  }

  lemma SqrtOfSquare(xna: Xna, t: real, s: real)
    requires Lawful(xna)
    requires 0.0 <= s && t == s * s
    ensures xna.sqrt(t) == s
  {
    var r := xna.sqrt(t);
    assert 0.0 <= r && r * r == s * s;
    if r < s {
      SquareMonotonic(r, s);
    } else if s < r {
      SquareMonotonic(s, r);
    }
  }

  lemma SquareMonotonic(a: real, b: real)
    requires 0.0 <= a < b
    ensures a * a < b * b
  {
    var aa, ab, bb := a * a, a * b, b * b;
    assert aa <= ab;
    assert ab < bb;
  }

  /** The zero vector has length 0. */
  lemma LengthOfZero(xna: Xna)
    requires Lawful(xna)
    ensures Length(xna, Zero) == 0.0
  {
    SqrtOfSquare(xna, 0.0, 0.0);
  }

  lemma DotSymmetric(a: Vec3, b: Vec3)
    ensures Dot(a, b) == Dot(b, a)
  {
  }

  lemma UnitAfterDivision(l: real, ll: real)
    requires 0.0 < l && ll == l * l
    ensures (1.0 / l) * (1.0 / l) * ll == 1.0
  {
    var q := 1.0 / l;
    assert q * l == 1.0;
    assert q * q * ll == (q * l) * (q * l);
  }

  /** |p + q + r|^2 expanded. */
  lemma LengthSquaredOfSum(p: Vec3, q: Vec3, r: Vec3)
    ensures LengthSquared(Add(Add(p, q), r)) ==
              LengthSquared(p) + LengthSquared(q) + LengthSquared(r) +
              2.0 * (Dot(p, q) + Dot(p, r) + Dot(q, r))
  {
  }

  lemma DotOfScaled(a: Vec3, b: Vec3, s: real, t: real)
    requires Dot(a, b) == 0.0
    ensures Dot(Scale(a, s), Scale(b, t)) == 0.0
  {
    assert Dot(Scale(a, s), Scale(b, t)) == s * t * Dot(a, b);
  }

  lemma ScaleLengthSquared(a: Vec3, k: real)
    ensures LengthSquared(Scale(a, k)) == k * k * LengthSquared(a)
  {
  }

  lemma ProductSquare(a: real, b: real)
    ensures (a * b) * (a * b) == (a * a) * (b * b)
  {
  }

  lemma SquareOfProduct(a: real, b: real, p: real, aa: real, bb: real)
    requires a * a == aa && b * b == bb && p == a * b
    ensures p * p == aa * bb
  {
    ProductSquare(a, b);
  }

  lemma DivideTwice(d: real, a: real, b: real)
    requires a != 0.0 && b != 0.0
    ensures d / a / b == d / (a * b)
  {
    var q := d / a / b;
    assert q * b == d / a;
    assert q * b * a == d;
    assert q * (a * b) == d;
  }

  lemma DivideBounded(d: real, m: real)
    requires 0.0 < m && -m <= d <= m
    ensures -1.0 <= d / m <= 1.0
  {
    var q := d / m;
    assert q * m == d;
  }

  lemma SquareZero(a: real)
    requires a * a == 0.0
    ensures a == 0.0
  {
    if a > 0.0 {
      SquareMonotonic(0.0, a);
    } else if a < 0.0 {
      SquareMonotonic(0.0, -a);
    }
  }

  lemma LengthSquaredZero(v: Vec3)
    ensures 0.0 <= LengthSquared(v)
    ensures LengthSquared(v) == 0.0 <==> v == Zero
  {
    var xx, yy, zz := v.x * v.x, v.y * v.y, v.z * v.z;
    assert 0.0 <= xx && 0.0 <= yy && 0.0 <= zz;
    if LengthSquared(v) == 0.0 {
      SquareZero(v.x);
      SquareZero(v.y);
      SquareZero(v.z);
    }
  }

  /** A non-negative root is zero exactly when its square is. */
  lemma RootOfZero(l: real, t: real)
    requires 0.0 <= l && l * l == t
    ensures l == 0.0 <==> t == 0.0
  {
    if t == 0.0 {
      SquareZero(l);
    }
  }

  lemma LengthPositive(xna: Xna, a: Vec3)
    requires Lawful(xna)
    ensures 0.0 <= LengthSquared(a)
    ensures Length(xna, a) * Length(xna, a) == LengthSquared(a)
    ensures 0.0 <= Length(xna, a)
    ensures Length(xna, a) == 0.0 <==> a == Zero
  {
    LengthSquaredZero(a);
    SqrtLaw(xna, LengthSquared(a));
    LengthFromRoot(xna, a);
  }

  /** The length facts, once the length is known to be a non-negative square
      root of the squared length. */
  lemma LengthFromRoot(xna: Xna, a: Vec3)
    requires 0.0 <= Length(xna, a) && Length(xna, a) * Length(xna, a) == LengthSquared(a)
    ensures Length(xna, a) == 0.0 <==> a == Zero
  {
    LengthSquaredZero(a);
    RootOfZero(Length(xna, a), LengthSquared(a));
  }

  /** Normalising a non-zero vector divides it by its length. */
  lemma NormalizeNonZero(xna: Xna, a: Vec3)
    requires Lawful(xna)
    requires a != Zero
    ensures Length(xna, a) > 0.0
    ensures xna.normalize(a) == Scale(a, 1.0 / Length(xna, a))
  {
    LengthPositive(xna, a);
    var l := Length(xna, a);
    var n := xna.normalize(a);
    assert Scale(n, l) == a;
    assert n.x == a.x / l && n.y == a.y / l && n.z == a.z / l;
  }
}
