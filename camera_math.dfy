/** The matrices the camera builds from its state (src/camera/camera.cpp):
    the view matrix of setViewMatrix, the yaw matrix of rotateX and the
    Rodrigues matrix of rotateY, each written as glm lays it out (columns
    first), together with what they do to points and directions. */
module CameraMath {
  import opened LinearAlgebra
  import opened Numerics

  /** The camera's frame: u points right, v up and w backwards (the camera
      looks down -w). */
  datatype Basis = Basis(u: Vec3, v: Vec3, w: Vec3)

  /** The frame setViewMatrix derives: w = -normalize(look), v = the
      normalised part of up perpendicular to w (one Gram-Schmidt step), and
      u = v x w. Whatever normalize returns, u is perpendicular to v and w. */
  function CameraBasis(lib: MathLibrary, look: Vec3, up: Vec3): (b: Basis)
    ensures b.w == Neg(lib.normalize(look))
    ensures Dot(b.u, b.v) == 0.0 && Dot(b.u, b.w) == 0.0
  {
    var w := Neg(lib.normalize(look));
    var v := lib.normalize(Sub(up, Scale(Dot(up, w), w)));
    CrossOrthogonal(v, w);
    Basis(Cross(v, w), v, w)
  }

  /** The translation by -pos, columns (1,0,0,0), (0,1,0,0), (0,0,1,0), (-pos, 1). */
  function TranslationMatrix(pos: Vec3): Mat4 {
    Mat4(Vec4(1.0, 0.0, 0.0, 0.0), Vec4(0.0, 1.0, 0.0, 0.0), Vec4(0.0, 0.0, 1.0, 0.0),
         Vec4(-pos.x, -pos.y, -pos.z, 1.0))
  }

  /** The rotation whose rows are u, v and w: its k-th column holds the k-th
      coordinates of u, v and w. */
  function RotationMatrix(b: Basis): Mat4 {
    Mat4(Vec4(b.u.x, b.v.x, b.w.x, 0.0), Vec4(b.u.y, b.v.y, b.w.y, 0.0), Vec4(b.u.z, b.v.z, b.w.z, 0.0),
         Vec4(0.0, 0.0, 0.0, 1.0))
  }

  /** The view matrix: rotation times translation. */
  function ViewFromBasis(pos: Vec3, b: Basis): Mat4 {
    MulMM4(RotationMatrix(b), TranslationMatrix(pos))
  }

  function ViewMatrix(lib: MathLibrary, pos: Vec3, look: Vec3, up: Vec3): Mat4 {
    ViewFromBasis(pos, CameraBasis(lib, look, up))
  }

  /** The view matrix written out: the rotation block has rows u, v, w and
      the translation column is minus the position seen in that frame. */
  lemma ViewFromBasisColumns(pos: Vec3, b: Basis)
    ensures ViewFromBasis(pos, b) ==
      Mat4(Vec4(b.u.x, b.v.x, b.w.x, 0.0), Vec4(b.u.y, b.v.y, b.w.y, 0.0), Vec4(b.u.z, b.v.z, b.w.z, 0.0),
           Vec4(-Dot(b.u, pos), -Dot(b.v, pos), -Dot(b.w, pos), 1.0))
  {
  }

  /** A point q (w = 1) lands at its coordinates relative to the camera,
      measured along u, v and w. */
  lemma ViewOfPoint(pos: Vec3, b: Basis, q: Vec3)
    ensures MulMV4(ViewFromBasis(pos, b), Extend(q, 1.0)) ==
      Vec4(Dot(b.u, Sub(q, pos)), Dot(b.v, Sub(q, pos)), Dot(b.w, Sub(q, pos)), 1.0)
  {
    ViewFromBasisColumns(pos, b);
  }

  /** The view matrix sends the camera's own position to the origin, and its
      bottom row is (0, 0, 0, 1), whatever the basis. */
  lemma ViewSendsPositionToOrigin(pos: Vec3, b: Basis)
    ensures MulMV4(ViewFromBasis(pos, b), Extend(pos, 1.0)) == Origin
    ensures BottomRow(ViewFromBasis(pos, b)) == Vec4(0.0, 0.0, 0.0, 1.0)
  {
    ViewOfPoint(pos, b, pos);
  }

  /** A direction (w = 0) is only rotated: its image is (u.d, v.d, w.d, 0),
      whatever the position. */
  lemma ViewOfDirection(pos: Vec3, b: Basis, d: Vec3)
    ensures MulMV4(ViewFromBasis(pos, b), Extend(d, 0.0)) ==
      Vec4(Dot(b.u, d), Dot(b.v, d), Dot(b.w, d), 0.0)
  {
    ViewFromBasisColumns(pos, b);
  }

  // ------------------------------------------------------- rotateX (yaw)

  /** The mouse-look angle: 0.3 * 360 degrees per viewport extent, in radians. */
  function MouseAngle(delta: real, extent: int): (theta: real)
    requires extent > 0
    ensures delta == 0.0 <==> theta == 0.0
    ensures delta > 0.0 <==> theta > 0.0
  {
    Radians(0.3 * 360.0 * delta / extent as real)
  }

  /** The matrix rotateX builds from s = sin(theta) and c = cos(theta). glm
      reads the nine constructor arguments column by column, so its columns
      are (c, 0, -s), (0, 1, 0) and (s, 0, c). It turns x and z about the
      world y axis. */
  function YawMatrix(s: real, c: real): Mat3 {
    Mat3(Vec3(c, 0.0, -1.0 * s), Vec3(0.0, 1.0, 0.0), Vec3(s, 0.0, c))
  }

  /** The yaw leaves the y coordinate of any vector alone. */
  lemma YawKeepsHeight(s: real, c: real, x: Vec3)
    ensures MulMV3(YawMatrix(s, c), x).y == x.y
    ensures MulMV3(YawMatrix(s, c), x) == Vec3(c * x.x + s * x.z, x.y, c * x.z - s * x.x)
  {
  }

  /** At angle zero (s = 0, c = 1) the yaw is the identity. */
  lemma YawAtZero(x: Vec3)
    ensures YawMatrix(0.0, 1.0) == Identity3
    ensures MulMV3(YawMatrix(0.0, 1.0), x) == x
  {
  }

  lemma RotatedPairLength(s: real, c: real, a: real, b: real)
    requires s * s + c * c == 1.0
    ensures (c * a + s * b) * (c * a + s * b) + (c * b - s * a) * (c * b - s * a) == a * a + b * b
  {
    assert (c * a + s * b) * (c * a + s * b) + (c * b - s * a) * (c * b - s * a)
        == (s * s + c * c) * (a * a + b * b);
  }

  /** When sin^2 + cos^2 = 1 the yaw is a true rotation: it keeps lengths. */
  lemma YawKeepsLength(s: real, c: real, x: Vec3)
    requires s * s + c * c == 1.0
    ensures Norm2(MulMV3(YawMatrix(s, c), x)) == Norm2(x)
  {
    YawKeepsHeight(s, c, x);
    RotatedPairLength(s, c, x.x, x.z);
  }

  /** The new look of rotateX: look turned about the world y axis by theta. */
  function Yaw(lib: MathLibrary, look: Vec3, theta: real): Vec3 {
    MulMV3(YawMatrix(lib.sin(theta), lib.cos(theta)), look)
  }

  /** The yawed look keeps its height and turns its horizontal part:
      (c x + s z, y, c z - s x) with s, c the sine and cosine of theta. */
  lemma YawTurnsHorizontally(lib: MathLibrary, look: Vec3, theta: real)
    ensures Yaw(lib, look, theta).y == look.y
    ensures Yaw(lib, look, theta) ==
      Vec3(lib.cos(theta) * look.x + lib.sin(theta) * look.z, look.y,
           lib.cos(theta) * look.z - lib.sin(theta) * look.x)
  {
    YawKeepsHeight(lib.sin(theta), lib.cos(theta), look);
  }

  /** With sin 0 = 0 and cos 0 = 1, a yaw by angle zero leaves look alone. */
  lemma YawByZero(lib: MathLibrary, look: Vec3)
    requires TrigAtZero(lib)
    ensures Yaw(lib, look, 0.0) == look
  {
    YawAtZero(look);
  }

  /** Where sin^2 + cos^2 = 1 at theta, the yaw keeps the length of look. */
  lemma YawKeepsLookLength(lib: MathLibrary, look: Vec3, theta: real)
    requires PythagoreanAt(lib, theta)
    ensures Norm2(Yaw(lib, look, theta)) == Norm2(look)
  {
    YawKeepsLength(lib.sin(theta), lib.cos(theta), look);
  }

  // ---------------------------------------------------- rotateY (pitch)

  /** The matrix K of rotateY for the axis a. Its columns are (0, -a.z, a.y),
      (a.z, 0, -a.x) and (-a.y, a.x, 0): the constructor arguments are
      labelled as rows in camera.cpp, but glm reads them as columns, so
      K x = x cross a (not a cross x). */
  function SkewMatrix(a: Vec3): Mat3 {
    Mat3(Vec3(0.0, -a.z, a.y), Vec3(a.z, 0.0, -a.x), Vec3(-a.y, a.x, 0.0))
  }

  /** Rodrigues' formula as rotateY writes it: I + s K + (1 - c) K K, with the
      axis a = look x up used without normalising it. */
  function RodriguesMatrix(s: real, c: real, a: Vec3): Mat3 {
    var k := SkewMatrix(a);
    AddM3(AddM3(Identity3, ScaleM3(s, k)), ScaleM3(1.0 - c, MulMM3(k, k)))
  }

  /** K is the cross-product matrix of the axis (on the right), it is
      skew-symmetric and it sends the axis to zero. */
  lemma SkewMatrixFacts(a: Vec3, x: Vec3)
    ensures MulMV3(SkewMatrix(a), x) == Cross(x, a)
    ensures Transpose3(SkewMatrix(a)) == NegM3(SkewMatrix(a))
    ensures MulMV3(SkewMatrix(a), a) == Zero3
  {
  }

  /** K K also sends the axis to zero. */
  lemma SkewSquaredFixesNothing(a: Vec3)
    ensures MulMV3(MulMM3(SkewMatrix(a), SkewMatrix(a)), a) == Zero3
  {
  }

  /** K K sends every vector to one perpendicular to the axis. */
  lemma SkewSquaredPerpendicular(a: Vec3, x: Vec3)
    ensures Dot(MulMV3(MulMM3(SkewMatrix(a), SkewMatrix(a)), x), a) == 0.0
  {
  }

  /** The Rodrigues matrix applied to x, term by term: x + s (K x) + (1 - c) (K K x). */
  lemma RodriguesApply(s: real, c: real, a: Vec3, x: Vec3)
    ensures MulMV3(RodriguesMatrix(s, c, a), x) ==
      Add(Add(x, Scale(s, MulMV3(SkewMatrix(a), x))),
          Scale(1.0 - c, MulMV3(MulMM3(SkewMatrix(a), SkewMatrix(a)), x)))
  {
    var k := SkewMatrix(a);
    var kk := MulMM3(k, k);
    MulMV3AddM(AddM3(Identity3, ScaleM3(s, k)), ScaleM3(1.0 - c, kk), x);
    MulMV3AddM(Identity3, ScaleM3(s, k), x);
    MulMV3ScaleM(s, k, x);
    MulMV3ScaleM(1.0 - c, kk, x);
  }

  /** The Rodrigues matrix fixes its own axis, for every angle. */
  lemma RodriguesFixesAxis(s: real, c: real, a: Vec3)
    ensures MulMV3(RodriguesMatrix(s, c, a), a) == a
  {
    RodriguesApply(s, c, a, a);
    SkewMatrixFacts(a, a);
    SkewSquaredFixesNothing(a);
  }

  /** The Rodrigues matrix keeps every vector's dot product with the axis, so
      a vector perpendicular to the axis stays perpendicular to it. */
  lemma RodriguesKeepsAxisComponent(s: real, c: real, a: Vec3, x: Vec3)
    ensures Dot(MulMV3(RodriguesMatrix(s, c, a), x), a) == Dot(x, a)
  {
    var kx := MulMV3(SkewMatrix(a), x);
    var kkx := MulMV3(MulMM3(SkewMatrix(a), SkewMatrix(a)), x);
    RodriguesApply(s, c, a, x);
    SkewMatrixFacts(a, x);
    CrossOrthogonal(x, a);
    SkewSquaredPerpendicular(a, x);
    DotAdd(Add(x, Scale(s, kx)), Scale(1.0 - c, kkx), a);
    DotAdd(x, Scale(s, kx), a);
    DotScale(s, kx, a);
    DotScale(1.0 - c, kkx, a);
  }

  /** At angle zero (s = 0, c = 1) the Rodrigues matrix is the identity. */
  lemma RodriguesAtZero(a: Vec3)
    ensures RodriguesMatrix(0.0, 1.0, a) == Identity3
  {
    var k := SkewMatrix(a);
    ScaleM3Zero(k);
    ScaleM3Zero(MulMM3(k, k));
  }

  /** The new look of rotateY: look turned by the Rodrigues matrix of the
      angle theta about the axis look x up. */
  function Pitch(lib: MathLibrary, look: Vec3, up: Vec3, theta: real): Vec3 {
    MulMV3(RodriguesMatrix(lib.sin(theta), lib.cos(theta), Cross(look, up)), look)
  }

  /** The pitched look stays perpendicular to the axis look x up: look turns
      within the plane spanned by look and up. */
  lemma PitchStaysPerpendicular(lib: MathLibrary, look: Vec3, up: Vec3, theta: real)
    ensures Dot(Pitch(lib, look, up, theta), Cross(look, up)) == 0.0
  {
    RodriguesKeepsAxisComponent(lib.sin(theta), lib.cos(theta), Cross(look, up), look);
    CrossOrthogonal(look, up);
  }

  /** With sin 0 = 0 and cos 0 = 1, a pitch by angle zero leaves look alone. */
  lemma PitchAtZero(lib: MathLibrary, look: Vec3, up: Vec3)
    requires TrigAtZero(lib)
    ensures Pitch(lib, look, up, 0.0) == look
  {
    RodriguesAtZero(Cross(look, up));
  }
}
