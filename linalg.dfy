/** Vectors and matrices over the reals, laid out as the glm library lays them
    out: a matrix is stored as its COLUMNS, and the constructor of a matrix
    takes its entries column by column. Only the operations the camera uses
    are defined here, together with the algebraic facts its proofs rely on.

    The solver reasons poorly about products whose factors it only knows
    through a definition, so the facts below that need such products are
    proved one coordinate at a time through scalar lemmas whose arguments
    are plain variables. */
module LinearAlgebra {

  datatype Vec3 = Vec3(x: real, y: real, z: real)

  datatype Vec4 = Vec4(x: real, y: real, z: real, w: real)

  /** A 3x3 matrix given by its three columns. */
  datatype Mat3 = Mat3(c0: Vec3, c1: Vec3, c2: Vec3)

  /** A 4x4 matrix given by its four columns. */
  datatype Mat4 = Mat4(c0: Vec4, c1: Vec4, c2: Vec4, c3: Vec4)

  const Zero3: Vec3 := Vec3(0.0, 0.0, 0.0)

  /** The homogeneous origin: the point (0, 0, 0) with w = 1. */
  const Origin: Vec4 := Vec4(0.0, 0.0, 0.0, 1.0)

  const Identity3: Mat3 := Mat3(Vec3(1.0, 0.0, 0.0), Vec3(0.0, 1.0, 0.0), Vec3(0.0, 0.0, 1.0))

  // ---------------------------------------------------------------- vectors

  function Add(a: Vec3, b: Vec3): Vec3 {
    Vec3(a.x + b.x, a.y + b.y, a.z + b.z)
  }

  function Sub(a: Vec3, b: Vec3): Vec3 {
    Vec3(a.x - b.x, a.y - b.y, a.z - b.z)
  }

  function Neg(a: Vec3): Vec3 {
    Vec3(-a.x, -a.y, -a.z)
  }

  function Scale(s: real, a: Vec3): Vec3 {
    Vec3(s * a.x, s * a.y, s * a.z)
  }

  function Dot(a: Vec3, b: Vec3): real {
    a.x * b.x + a.y * b.y + a.z * b.z
  }

  /** The squared Euclidean length. */
  function Norm2(a: Vec3): real {
    Dot(a, a)
  }

  function Cross(a: Vec3, b: Vec3): Vec3 {
    Vec3(a.y * b.z - a.z * b.y, a.z * b.x - a.x * b.z, a.x * b.y - a.y * b.x)
  }

  /** The homogeneous 4-vector (a, w). */
  function Extend(a: Vec3, w: real): Vec4 {
    Vec4(a.x, a.y, a.z, w)
  }

  // --------------------------------------------------------------- matrices

  /** Matrix times column vector: the columns of m weighted by the entries of x. */
  function MulMV3(m: Mat3, x: Vec3): Vec3 {
    Vec3(x.x * m.c0.x + x.y * m.c1.x + x.z * m.c2.x,
         x.x * m.c0.y + x.y * m.c1.y + x.z * m.c2.y,
         x.x * m.c0.z + x.y * m.c1.z + x.z * m.c2.z)
  }

  /** Matrix product: column k of a * b is a times column k of b. */
  function MulMM3(a: Mat3, b: Mat3): Mat3 {
    Mat3(MulMV3(a, b.c0), MulMV3(a, b.c1), MulMV3(a, b.c2))
  }

  function AddM3(a: Mat3, b: Mat3): Mat3 {
    Mat3(Add(a.c0, b.c0), Add(a.c1, b.c1), Add(a.c2, b.c2))
  }

  function ScaleM3(s: real, a: Mat3): Mat3 {
    Mat3(Scale(s, a.c0), Scale(s, a.c1), Scale(s, a.c2))
  }

  function NegM3(a: Mat3): Mat3 {
    Mat3(Neg(a.c0), Neg(a.c1), Neg(a.c2))
  }

  /** The transpose: the columns of the result are the rows of a. */
  function Transpose3(a: Mat3): Mat3 {
    Mat3(Vec3(a.c0.x, a.c1.x, a.c2.x),
         Vec3(a.c0.y, a.c1.y, a.c2.y),
         Vec3(a.c0.z, a.c1.z, a.c2.z))
  }

  function MulMV4(m: Mat4, x: Vec4): Vec4 {
    Vec4(x.x * m.c0.x + x.y * m.c1.x + x.z * m.c2.x + x.w * m.c3.x,
         x.x * m.c0.y + x.y * m.c1.y + x.z * m.c2.y + x.w * m.c3.y,
         x.x * m.c0.z + x.y * m.c1.z + x.z * m.c2.z + x.w * m.c3.z,
         x.x * m.c0.w + x.y * m.c1.w + x.z * m.c2.w + x.w * m.c3.w)
  }

  function MulMM4(a: Mat4, b: Mat4): Mat4 {
    Mat4(MulMV4(a, b.c0), MulMV4(a, b.c1), MulMV4(a, b.c2), MulMV4(a, b.c3))
  }

  /** The bottom row of a 4x4 matrix, read across its columns. */
  function BottomRow(m: Mat4): Vec4 {
    Vec4(m.c0.w, m.c1.w, m.c2.w, m.c3.w)
  }

  /** The upper-left 3x3 block: the part of a 4x4 matrix that acts on directions. */
  function UpperLeft(m: Mat4): Mat3 {
    Mat3(Vec3(m.c0.x, m.c0.y, m.c0.z), Vec3(m.c1.x, m.c1.y, m.c1.z), Vec3(m.c2.x, m.c2.y, m.c2.z))
  }

  // ------------------------------------------------------ scalar identities

  /** One row of a scaled matrix against a vector: a*(s*p) + b*(s*q) + c*(s*r)
      is s times a*p + b*q + c*r. */
  lemma ScaledRow(s: real, a: real, b: real, c: real, p: real, q: real, r: real,
                  sp: real, sq: real, sr: real, l: real, t: real)
    requires sp == s * p && sq == s * q && sr == s * r
    requires l == a * sp + b * sq + c * sr
    requires t == a * p + b * q + c * r
    ensures l == s * t
  {
  }

  /** The dot product of a scaled vector: (s*a)*p + (s*b)*q + (s*c)*r is s
      times a*p + b*q + c*r. */
  lemma ScaledDot(s: real, a: real, b: real, c: real, p: real, q: real, r: real,
                  sa: real, sb: real, sc: real, l: real, t: real)
    requires sa == s * a && sb == s * b && sc == s * c
    requires l == sa * p + sb * q + sc * r
    requires t == a * p + b * q + c * r
    ensures l == s * t
  {
  }

  // ------------------------------------------------------------------ facts

  /** The cross product is perpendicular to both of its factors. */
  lemma CrossOrthogonal(a: Vec3, b: Vec3)
    ensures Dot(Cross(a, b), a) == 0.0 && Dot(Cross(a, b), b) == 0.0
  {
  }

  /** Scaling by zero gives the zero matrix. */
  lemma ScaleM3Zero(m: Mat3)
    ensures ScaleM3(0.0, m) == Mat3(Zero3, Zero3, Zero3)
  {
  }

  /** Matrix-vector multiplication distributes over a sum of matrices. */
  lemma MulMV3AddM(a: Mat3, b: Mat3, x: Vec3)
    ensures MulMV3(AddM3(a, b), x) == Add(MulMV3(a, x), MulMV3(b, x))
  {
  }

  lemma MulMV3ScaleMx(s: real, a: Mat3, x: Vec3)
    ensures MulMV3(ScaleM3(s, a), x).x == Scale(s, MulMV3(a, x)).x
  {
    var sa, l, t := ScaleM3(s, a), MulMV3(ScaleM3(s, a), x), MulMV3(a, x);
    ScaledRow(s, x.x, x.y, x.z, a.c0.x, a.c1.x, a.c2.x, sa.c0.x, sa.c1.x, sa.c2.x, l.x, t.x);
  }

  lemma MulMV3ScaleMy(s: real, a: Mat3, x: Vec3)
    ensures MulMV3(ScaleM3(s, a), x).y == Scale(s, MulMV3(a, x)).y
  {
    var sa, l, t := ScaleM3(s, a), MulMV3(ScaleM3(s, a), x), MulMV3(a, x);
    ScaledRow(s, x.x, x.y, x.z, a.c0.y, a.c1.y, a.c2.y, sa.c0.y, sa.c1.y, sa.c2.y, l.y, t.y);
  }

  lemma MulMV3ScaleMz(s: real, a: Mat3, x: Vec3)
    ensures MulMV3(ScaleM3(s, a), x).z == Scale(s, MulMV3(a, x)).z
  {
    var sa, l, t := ScaleM3(s, a), MulMV3(ScaleM3(s, a), x), MulMV3(a, x);
    ScaledRow(s, x.x, x.y, x.z, a.c0.z, a.c1.z, a.c2.z, sa.c0.z, sa.c1.z, sa.c2.z, l.z, t.z);
  }

  /** Scaling a matrix scales its product with any vector. */
  lemma MulMV3ScaleM(s: real, a: Mat3, x: Vec3)
    ensures MulMV3(ScaleM3(s, a), x) == Scale(s, MulMV3(a, x))
  {
    MulMV3ScaleMx(s, a, x);
    MulMV3ScaleMy(s, a, x);
    MulMV3ScaleMz(s, a, x);
  }

  /** The dot product is linear in its first argument. */
  lemma DotAdd(a: Vec3, b: Vec3, c: Vec3)
    ensures Dot(Add(a, b), c) == Dot(a, c) + Dot(b, c)
  {
  }

  lemma DotScale(s: real, a: Vec3, c: Vec3)
    ensures Dot(Scale(s, a), c) == s * Dot(a, c)
  {
    var sa := Scale(s, a);
    ScaledDot(s, a.x, a.y, a.z, c.x, c.y, c.z, sa.x, sa.y, sa.z, Dot(sa, c), Dot(a, c));
  }

  /** A direction (w = 0) is moved only by the upper-left block: the
      translation column of the matrix plays no part. */
  lemma DirectionIgnoresTranslation(m: Mat4, d: Vec3)
    ensures MulMV4(m, Extend(d, 0.0)) == Extend(MulMV3(UpperLeft(m), d), Dot(Vec3(m.c0.w, m.c1.w, m.c2.w), d))
  {
  }
}
