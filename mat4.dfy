/**
 * Mat4, the 4x4 matrix of the renderer (mat4.h / mat4.cpp), and its transform
 * factories. A pure value type: every operation returns a new matrix.
 *
 * Naming convention of the source, kept here: field mij is the entry in
 * COLUMN i and ROW j, and the fields are declared column after column, so the
 * sixteen values in declaration order are the column-major layout OpenGL reads.
 * The 16-argument constructor, on the other hand, takes its arguments ROW BY
 * ROW; it is `Mat4.FromRows`.
 */
module Matrices {
  import opened MathLib
  import opened Vectors

  datatype Mat4 = Mat4(
    m11: real, m12: real, m13: real, m14: real,
    m21: real, m22: real, m23: real, m24: real,
    m31: real, m32: real, m33: real, m34: real,
    m41: real, m42: real, m43: real, m44: real)
  {
    /** The entry in row `row` and column `col`, both counted from 1: field m<col><row>. */
    function At(row: int, col: int): real
      requires 1 <= row <= 4 && 1 <= col <= 4
    {
      if col == 1 then (if row == 1 then m11 else if row == 2 then m12 else if row == 3 then m13 else m14)
      else if col == 2 then (if row == 1 then m21 else if row == 2 then m22 else if row == 3 then m23 else m24)
      else if col == 3 then (if row == 1 then m31 else if row == 2 then m32 else if row == 3 then m33 else m34)
      else (if row == 1 then m41 else if row == 2 then m42 else if row == 3 then m43 else m44)
    }

    function Row(row: int): seq<real>
      requires 1 <= row <= 4
    {
      [At(row, 1), At(row, 2), At(row, 3), At(row, 4)]
    }

    function Column(col: int): seq<real>
      requires 1 <= col <= 4
    {
      [At(1, col), At(2, col), At(3, col), At(4, col)]
    }

    /** Row `row` (1 to 3) of the upper-left 3x3 block, as a vector. */
    function BlockRow(row: int): Vec3
      requires 1 <= row <= 3
    {
      Vec3(At(row, 1), At(row, 2), At(row, 3))
    }

    /** The transpose (not an operation of the source; used to state facts). */
    function Transpose(): (t: Mat4)
      ensures forall r, c | 1 <= r <= 4 && 1 <= c <= 4 :: t.At(r, c) == At(c, r)
    {
      Mat4(m11, m21, m31, m41, m12, m22, m32, m42, m13, m23, m33, m43, m14, m24, m34, m44)
    }

    /** The sixteen fields in declaration order: the floats that glUniformMatrix4fv
        reads from the object with transpose GL_FALSE. Column after column. */
    function Elements(): (s: seq<real>)
      ensures s == Column(1) + Column(2) + Column(3) + Column(4)
    {
      [m11, m12, m13, m14, m21, m22, m23, m24, m31, m32, m33, m34, m41, m42, m43, m44]
    }

    /** Mat4(m11, m21, m31, m41, m12, ...): the arguments are given row by row. */
    static function FromRows(
      m11: real, m21: real, m31: real, m41: real,
      m12: real, m22: real, m32: real, m42: real,
      m13: real, m23: real, m33: real, m43: real,
      m14: real, m24: real, m34: real, m44: real): (m: Mat4)
      ensures m.Row(1) == [m11, m21, m31, m41]
      ensures m.Row(2) == [m12, m22, m32, m42]
      ensures m.Row(3) == [m13, m23, m33, m43]
      ensures m.Row(4) == [m14, m24, m34, m44]
    {
      Mat4(m11, m12, m13, m14, m21, m22, m23, m24, m31, m32, m33, m34, m41, m42, m43, m44)
    }

    /** Mat4(scalar): every entry set to `scalar`. */
    static function Filled(scalar: real): (m: Mat4)
      ensures forall r, c | 1 <= r <= 4 && 1 <= c <= 4 :: m.At(r, c) == scalar
    {
      Mat4(scalar, scalar, scalar, scalar, scalar, scalar, scalar, scalar,
           scalar, scalar, scalar, scalar, scalar, scalar, scalar, scalar)
    }

    /** add(m), operator+: entry-wise sum. */
    function Add(m: Mat4): Mat4 {
      FromRows(m11 + m.m11, m21 + m.m21, m31 + m.m31, m41 + m.m41,
               m12 + m.m12, m22 + m.m22, m32 + m.m32, m42 + m.m42,
               m13 + m.m13, m23 + m.m23, m33 + m.m33, m43 + m.m43,
               m14 + m.m14, m24 + m.m24, m34 + m.m34, m44 + m.m44)
    }

    /** multiply(m), operator*: this * m, filled field by field as in the source. */
    function Mul(m: Mat4): Mat4 {
      Mat4(
        m11 := m11 * m.m11 + m21 * m.m12 + m31 * m.m13 + m41 * m.m14,
        m21 := m11 * m.m21 + m21 * m.m22 + m31 * m.m23 + m41 * m.m24,
        m31 := m11 * m.m31 + m21 * m.m32 + m31 * m.m33 + m41 * m.m34,
        m41 := m11 * m.m41 + m21 * m.m42 + m31 * m.m43 + m41 * m.m44,
        m12 := m12 * m.m11 + m22 * m.m12 + m32 * m.m13 + m42 * m.m14,
        m22 := m12 * m.m21 + m22 * m.m22 + m32 * m.m23 + m42 * m.m24,
        m32 := m12 * m.m31 + m22 * m.m32 + m32 * m.m33 + m42 * m.m34,
        m42 := m12 * m.m41 + m22 * m.m42 + m32 * m.m43 + m42 * m.m44,
        m13 := m13 * m.m11 + m23 * m.m12 + m33 * m.m13 + m43 * m.m14,
        m23 := m13 * m.m21 + m23 * m.m22 + m33 * m.m23 + m43 * m.m24,
        m33 := m13 * m.m31 + m23 * m.m32 + m33 * m.m33 + m43 * m.m34,
        m43 := m13 * m.m41 + m23 * m.m42 + m33 * m.m43 + m43 * m.m44,
        m14 := m14 * m.m11 + m24 * m.m12 + m34 * m.m13 + m44 * m.m14,
        m24 := m14 * m.m21 + m24 * m.m22 + m34 * m.m23 + m44 * m.m24,
        m34 := m14 * m.m31 + m24 * m.m32 + m34 * m.m33 + m44 * m.m34,
        m44 := m14 * m.m41 + m24 * m.m42 + m34 * m.m43 + m44 * m.m44)
    }

    /** multiply(v), operator* on a Vec3: only the upper-left 3x3 block is used. */
    function Transform(v: Vec3): Vec3 {
      Vec3(m11 * v.x + m21 * v.y + m31 * v.z,
           m12 * v.x + m22 * v.y + m32 * v.z,
           m13 * v.x + m23 * v.y + m33 * v.z)
    }

    /** The first three coordinates of this * (p, 1), the image of point p
        (not an operation of the source; used to state facts). */
    function ApplyPoint(p: Vec3): Vec3 {
      Vec3(m11 * p.x + m21 * p.y + m31 * p.z + m41,
           m12 * p.x + m22 * p.y + m32 * p.z + m42,
           m13 * p.x + m23 * p.y + m33 * p.z + m43)
    }
  }

  /** The two matrices lookAtMatrix writes to its reference parameters. */
  datatype ViewTransforms = ViewTransforms(posTransform: Mat4, normalTransform: Mat4)

  /** identityMatrix() */
  function Identity(): (m: Mat4)
    ensures forall r, c | 1 <= r <= 4 && 1 <= c <= 4 :: m.At(r, c) == if r == c then 1.0 else 0.0
  {
    Mat4.FromRows(1.0, 0.0, 0.0, 0.0,
                  0.0, 1.0, 0.0, 0.0,
                  0.0, 0.0, 1.0, 0.0,
                  0.0, 0.0, 0.0, 1.0)
  }

  /** rotationAboutXMatrix(theta) */
  function RotationX(theta: real, lib: Libm): Mat4 {
    Mat4.FromRows(1.0,            0.0,             0.0, 0.0,
                  0.0, lib.cos(theta), -lib.sin(theta), 0.0,
                  0.0, lib.sin(theta),  lib.cos(theta), 0.0,
                  0.0,            0.0,             0.0, 1.0)
  }

  /** rotationAboutYMatrix(theta) */
  function RotationY(theta: real, lib: Libm): Mat4 {
    Mat4.FromRows( lib.cos(theta), 0.0, lib.sin(theta), 0.0,
                              0.0, 1.0,            0.0, 0.0,
                  -lib.sin(theta), 0.0, lib.cos(theta), 0.0,
                              0.0, 0.0,            0.0, 1.0)
  }

  /** rotationAboutZMatrix(theta) */
  function RotationZ(theta: real, lib: Libm): Mat4 {
    Mat4.FromRows(lib.cos(theta), -lib.sin(theta), 0.0, 0.0,
                  lib.sin(theta),  lib.cos(theta), 0.0, 0.0,
                             0.0,             0.0, 1.0, 0.0,
                             0.0,             0.0, 0.0, 1.0)
  }

  /** The argument rotationAboutAxisMatrix passes to sqrt when computing beta,
      exactly as written in the source: x*x + y + y. */
  function BetaRadicand(axis: Vec3): real {
    axis.x * axis.x + axis.y + axis.y
  }

  /** The evidently intended argument: the squared length x*x + y*y of the
      axis' projection on the xy-plane. */
  function CorrectedBetaRadicand(axis: Vec3): (r: real)
    ensures 0.0 <= r
    ensures r == 0.0 <==> axis.x == 0.0 && axis.y == 0.0
  {
    SquareSign(axis.x);
    SquareSign(axis.y);
    axis.x * axis.x + axis.y * axis.y
  }

  /** The common tail of rotationAboutAxisMatrix once beta has been computed from
      `betaIn`: the special cases for an axis on z and for the zero axis, then
      I * Rz(-alpha) * Rx(-beta) * Rz(theta) * Rx(beta) * Rz(alpha). */
  function AlignedRotation(theta: real, axis: Vec3, betaIn: real, lib: Libm): Mat4 {
    var onZ := axis.x == 0.0 && axis.y == 0.0;
    var alpha := if onZ then 0.0 else lib.atan2(axis.x, axis.y);
    var beta := if onZ && axis.z == 0.0 then 0.0 else betaIn;
    var angle := if onZ && axis.z == 0.0 then 0.0 else theta;
    var m0 := Identity();
    var m1 := m0.Mul(RotationZ(-alpha, lib));
    var m2 := m1.Mul(RotationX(-beta, lib));
    var m3 := m2.Mul(RotationZ(angle, lib));
    var m4 := m3.Mul(RotationX(beta, lib));
    m4.Mul(RotationZ(alpha, lib))
  }

  /** rotationAboutAxisMatrix(theta, axis), as written (see BetaRadicand). */
  function RotationAboutAxis(theta: real, axis: Vec3, lib: Libm): Mat4 {
    AlignedRotation(theta, axis, lib.atan2(lib.sqrt(BetaRadicand(axis)), axis.z), lib)
  }

  /** rotationAboutAxisMatrix with the radicand corrected to x*x + y*y. */
  function RotationAboutAxisCorrected(theta: real, axis: Vec3, lib: Libm): Mat4 {
    AlignedRotation(theta, axis, lib.atan2(lib.sqrt(CorrectedBetaRadicand(axis)), axis.z), lib)
  }

  /** scalingMatrix(sx, sy, sz) */
  function Scaling(sx: real, sy: real, sz: real): Mat4 {
    Mat4.FromRows( sx, 0.0, 0.0, 0.0,
                  0.0,  sy, 0.0, 0.0,
                  0.0, 0.0,  sz, 0.0,
                  0.0, 0.0, 0.0, 1.0)
  }

  /** scalingInvtMatrix(sx, sy, sz); real division needs non-zero factors. */
  function ScalingInvt(sx: real, sy: real, sz: real): Mat4
    requires sx != 0.0 && sy != 0.0 && sz != 0.0
  {
    Mat4.FromRows(1.0 / sx,      0.0,      0.0, 0.0,
                       0.0, 1.0 / sy,      0.0, 0.0,
                       0.0,      0.0, 1.0 / sz, 0.0,
                       0.0,      0.0,      0.0, 1.0)
  }

  /** translationMatrix(tx, ty, tz) */
  function Translation(tx: real, ty: real, tz: real): Mat4 {
    Mat4.FromRows(1.0, 0.0, 0.0,  tx,
                  0.0, 1.0, 0.0,  ty,
                  0.0, 0.0, 1.0,  tz,
                  0.0, 0.0, 0.0, 1.0)
  }

  /** translationInvtMatrix(tx, ty, tz) */
  function TranslationInvt(tx: real, ty: real, tz: real): Mat4 {
    Mat4.FromRows(1.0, 0.0, 0.0, 0.0,
                  0.0, 1.0, 0.0, 0.0,
                  0.0, 0.0, 1.0, 0.0,
                  -tx, -ty, -tz, 1.0)
  }

  /** The three directions lookAtMatrix derives before normalizing them:
      look = spot - eye, right = look x up, nUp = right x look. */
  function ViewBasis(eye: Vec3, spot: Vec3, up: Vec3): (b: (Vec3, Vec3, Vec3))
    ensures b.0 == spot.Subtract(eye)
    ensures b.1.Dot(b.0) == 0.0 && b.2.Dot(b.0) == 0.0 && b.2.Dot(b.1) == 0.0
    ensures b.1 == b.0.Cross(up) && b.2 == b.1.Cross(b.0)
    ensures b.1 != Vec3.Zero() ==> b.0 != Vec3.Zero() && b.2 != Vec3.Zero()
  {
    var look := spot.Subtract(eye);
    var right := look.Cross(up);
    var nUp := right.Cross(look);
    CrossLaws(look, up);
    CrossLaws(right, look);
    DotSymmetric(right, look);
    DotSymmetric(nUp, look);
    DotSymmetric(nUp, right);
    BasisNonDegenerate(look, up);
    (look, right, nUp)
  }

  /** lookAtMatrix(eye, spot, up, posTransform, normalTransform). Undefined in the
      source when up is parallel to spot - eye (a zero vector is normalized), so
      the model excludes that case. */
  function LookAt(eye: Vec3, spot: Vec3, up: Vec3, lib: Libm): (r: ViewTransforms)
    requires lib.Valid() && spot.Subtract(eye).Cross(up) != Vec3.Zero()
    ensures r.posTransform.BlockRow(1) == r.normalTransform.BlockRow(1) == ViewBasis(eye, spot, up).1.Normalized(lib)
    ensures r.posTransform.BlockRow(2) == r.normalTransform.BlockRow(2) == ViewBasis(eye, spot, up).2.Normalized(lib)
    ensures r.posTransform.BlockRow(3) == r.normalTransform.BlockRow(3) == ViewBasis(eye, spot, up).0.Normalized(lib).Scale(-1.0)
    ensures r.posTransform.Row(4) == [0.0, 0.0, 0.0, 1.0]
    ensures r.posTransform.At(1, 4) == r.posTransform.BlockRow(1).Dot(eye.Scale(-1.0))
    ensures r.posTransform.At(2, 4) == r.posTransform.BlockRow(2).Dot(eye.Scale(-1.0))
    ensures r.posTransform.At(3, 4) == r.posTransform.BlockRow(3).Dot(eye.Scale(-1.0))
    ensures r.normalTransform.Column(4) == [0.0, 0.0, 0.0, 1.0]
    ensures r.normalTransform.Row(4) == [eye.x, eye.y, eye.z, 1.0]
  {
    var basis := ViewBasis(eye, spot, up);
    var look, right, nUp := basis.0, basis.1, basis.2;
    var lookN, rightN, nUpN := look.Normalized(lib), right.Normalized(lib), nUp.Normalized(lib);
    var toRet := Mat4.FromRows(rightN.x, rightN.y, rightN.z, 0.0,
                               nUpN.x, nUpN.y, nUpN.z, 0.0,
                               -lookN.x, -lookN.y, -lookN.z, 0.0,
                               0.0, 0.0, 0.0, 1.0);
    var pos := toRet.Mul(Translation(-eye.x, -eye.y, -eye.z));
    var normal := toRet.Mul(TranslationInvt(-eye.x, -eye.y, -eye.z));
    TranslateRigid(toRet, eye.Scale(-1.0));
    ViewTransforms(pos, normal)
  }

  /** Multiplying a matrix whose last row and column are those of the identity by
      translationMatrix(t) keeps its 3x3 block and puts block * t in the last
      column; multiplying it by translationInvtMatrix(t) keeps the block and puts
      -t in the last row. */
  lemma TranslateRigid(m: Mat4, t: Vec3)
    requires m.Row(4) == [0.0, 0.0, 0.0, 1.0] && m.Column(4) == [0.0, 0.0, 0.0, 1.0]
    ensures var p := m.Mul(Translation(t.x, t.y, t.z));
      && p.BlockRow(1) == m.BlockRow(1) && p.BlockRow(2) == m.BlockRow(2) && p.BlockRow(3) == m.BlockRow(3)
      && p.Row(4) == [0.0, 0.0, 0.0, 1.0]
      && p.At(1, 4) == m.BlockRow(1).Dot(t) && p.At(2, 4) == m.BlockRow(2).Dot(t) && p.At(3, 4) == m.BlockRow(3).Dot(t)
    ensures var q := m.Mul(TranslationInvt(t.x, t.y, t.z));
      && q.BlockRow(1) == m.BlockRow(1) && q.BlockRow(2) == m.BlockRow(2) && q.BlockRow(3) == m.BlockRow(3)
      && q.Column(4) == [0.0, 0.0, 0.0, 1.0]
      && q.Row(4) == [-t.x, -t.y, -t.z, 1.0]
  {
    assert m.m14 == 0.0 && m.m24 == 0.0 && m.m34 == 0.0 && m.m44 == 1.0 by { assert m.Row(4)[0] == m.m14; }
    assert m.m41 == 0.0 && m.m42 == 0.0 && m.m43 == 0.0 by { assert m.Column(4)[0] == m.m41; }
  }

  /** perspectiveMatrix(fovY, aspect, near, far). Real division needs
      tan(fovY/2), aspect and far - near non-zero. */
  function Perspective(fovY: real, aspect: real, near: real, far: real, lib: Libm): Mat4
    requires lib.tan(fovY * 0.5) != 0.0 && aspect != 0.0 && far != near
  {
    var y := 1.0 / lib.tan(fovY * 0.5);
    var x := y / aspect;
    var z1 := -(far + near) / (far - near);
    var z2 := (-2.0 * near * far) / (far - near);
    Mat4.FromRows(  x, 0.0,  0.0, 0.0,
                  0.0,   y,  0.0, 0.0,
                  0.0, 0.0,   z1,  z2,
                  0.0, 0.0, -1.0, 0.0)
  }

  /** perspectiveInvMatrix(fovY, aspect, near, far), the closed-form inverse.
      Real division additionally needs near and far non-zero. */
  function PerspectiveInv(fovY: real, aspect: real, near: real, far: real, lib: Libm): Mat4
    requires lib.tan(fovY * 0.5) != 0.0 && aspect != 0.0 && far != near
    requires near != 0.0 && far != 0.0
  {
    var y := 1.0 / lib.tan(fovY * 0.5);
    var x := y / aspect;
    var z1 := -(far + near) / (far - near);
    var z2 := (-2.0 * near * far) / (far - near);
    NonZeroQuotients(lib.tan(fovY * 0.5), aspect, near, far);
    Mat4.FromRows(1.0 / x,     0.0,      0.0,  0.0,
                      0.0, 1.0 / y,      0.0,  0.0,
                      0.0,     0.0,      0.0, -1.0,
                      0.0,     0.0, 1.0 / z2, (far + near) / (2.0 * far * near))
  }

  /** viewportMatrix(x, y, width, height): I * T(x, y, 0) * S(w/2, h/2, 1/2) * T(1, 1, 1).
      Its closed form has diagonal (w/2, h/2, 1/2, 1) and last column
      (x + w/2, y + h/2, 1/2, 1). */
  function Viewport(x: real, y: real, width: real, height: real): (m: Mat4)
    ensures m == Mat4.FromRows(0.5 * width, 0.0, 0.0, x + 0.5 * width,
                               0.0, 0.5 * height, 0.0, y + 0.5 * height,
                               0.0, 0.0, 0.5, 0.5,
                               0.0, 0.0, 0.0, 1.0)
  {
    var m0 := Identity();
    var m1 := m0.Mul(Translation(x, y, 0.0));
    var m2 := m1.Mul(Scaling(0.5 * width, 0.5 * height, 0.5));
    m2.Mul(Translation(1.0, 1.0, 1.0))
  }

  // ----- helper facts -----

  lemma NonZeroQuotients(t: real, aspect: real, near: real, far: real)
    requires t != 0.0 && aspect != 0.0 && far != near && near != 0.0 && far != 0.0
    ensures 1.0 / t != 0.0 && (1.0 / t) / aspect != 0.0
    ensures (-2.0 * near * far) / (far - near) != 0.0
    ensures 2.0 * far * near != 0.0
  {
    NonZeroProduct(near, far);
    NonZeroProduct(2.0, near * far);
    assert 2.0 * near * far == 2.0 * (near * far);
    assert 2.0 * far * near == 2.0 * (near * far);
  }

  lemma NonZeroProduct(a: real, b: real)
    requires a != 0.0 && b != 0.0
    ensures a * b != 0.0
  {
    if a * b == 0.0 {
      if 0.0 < b { ZeroFactor(a, b); } else { ZeroFactor(-a, -b); }
    }
  }

  /** Entry (r, c) of the product a * b by the textbook definition: row r of a
      against column c of b. */
  function ProductEntry(a: Mat4, b: Mat4, r: int, c: int): real
    requires 1 <= r <= 4 && 1 <= c <= 4
  {
    a.At(r, 1) * b.At(1, c) + a.At(r, 2) * b.At(2, c) + a.At(r, 3) * b.At(3, c) + a.At(r, 4) * b.At(4, c)
  }

  // ----- the laws of mat4.h / mat4.cpp -----

  /** The layout: entry (row, col) is the element at index 4*(col-1) + (row-1) of
      the memory order, so each column's four entries are contiguous. */
  lemma ElementsAreColumnMajor(m: Mat4, row: int, col: int)
    requires 1 <= row <= 4 && 1 <= col <= 4
    ensures m.Elements()[4 * (col - 1) + (row - 1)] == m.At(row, col)
  {
  }

  /** multiply(m) is the standard matrix product this * m: entry (r, c) is row r of
      this against column c of m. */
  lemma MulIsMatrixProduct(a: Mat4, b: Mat4)
    ensures forall r, c | 1 <= r <= 4 && 1 <= c <= 4 :: a.Mul(b).At(r, c) == ProductEntry(a, b, r, c)
  {
    MulColumn1(a, b);
    MulColumn2(a, b);
    MulColumn3(a, b);
    MulColumn4(a, b);
    forall r, c | 1 <= r <= 4 && 1 <= c <= 4
      ensures a.Mul(b).At(r, c) == ProductEntry(a, b, r, c)
    {
      if r == 1 { } else if r == 2 { } else if r == 3 { } else { }
    }
  }

  // One column of the product at a time keeps each proof small.
  lemma MulColumn1(a: Mat4, b: Mat4)
    ensures a.Mul(b).At(1, 1) == ProductEntry(a, b, 1, 1)
    ensures a.Mul(b).At(2, 1) == ProductEntry(a, b, 2, 1)
    ensures a.Mul(b).At(3, 1) == ProductEntry(a, b, 3, 1)
    ensures a.Mul(b).At(4, 1) == ProductEntry(a, b, 4, 1)
  {
  }

  lemma MulColumn2(a: Mat4, b: Mat4)
    ensures a.Mul(b).At(1, 2) == ProductEntry(a, b, 1, 2)
    ensures a.Mul(b).At(2, 2) == ProductEntry(a, b, 2, 2)
    ensures a.Mul(b).At(3, 2) == ProductEntry(a, b, 3, 2)
    ensures a.Mul(b).At(4, 2) == ProductEntry(a, b, 4, 2)
  {
  }

  lemma MulColumn3(a: Mat4, b: Mat4)
    ensures a.Mul(b).At(1, 3) == ProductEntry(a, b, 1, 3)
    ensures a.Mul(b).At(2, 3) == ProductEntry(a, b, 2, 3)
    ensures a.Mul(b).At(3, 3) == ProductEntry(a, b, 3, 3)
    ensures a.Mul(b).At(4, 3) == ProductEntry(a, b, 4, 3)
  {
  }

  lemma MulColumn4(a: Mat4, b: Mat4)
    ensures a.Mul(b).At(1, 4) == ProductEntry(a, b, 1, 4)
    ensures a.Mul(b).At(2, 4) == ProductEntry(a, b, 2, 4)
    ensures a.Mul(b).At(3, 4) == ProductEntry(a, b, 3, 4)
    ensures a.Mul(b).At(4, 4) == ProductEntry(a, b, 4, 4)
  {
  }

  /** identityMatrix() is a two-sided unit of multiply. */
  lemma IdentityIsUnit(a: Mat4)
    ensures Identity().Mul(a) == a
    ensures a.Mul(Identity()) == a
  {
  }

  /** add is entry-wise and commutative. */
  lemma AddLaws(a: Mat4, b: Mat4, r: int, c: int)
    requires 1 <= r <= 4 && 1 <= c <= 4
    ensures a.Add(b).At(r, c) == a.At(r, c) + b.At(r, c)
    ensures a.Add(b) == b.Add(a)
  {
  }

  /** Mat4 * Vec3 reads only the upper-left 3x3 block: each coordinate of the
      result is a block row against the vector. */
  lemma TransformUsesBlock(m: Mat4, v: Vec3)
    ensures m.Transform(v) == Vec3(m.BlockRow(1).Dot(v), m.BlockRow(2).Dot(v), m.BlockRow(3).Dot(v))
  {
  }

  /** Translations have the identity as their block, so they leave every Vec3 unchanged. */
  lemma TranslationsFixVectors(tx: real, ty: real, tz: real, v: Vec3)
    ensures Translation(tx, ty, tz).Transform(v) == v
    ensures TranslationInvt(tx, ty, tz).Transform(v) == v
  {
  }

  /** translationInvtMatrix(t) is the transpose of translationMatrix(-t), the
      inverse-transpose of translationMatrix(t). */
  lemma TranslationInvtIsInverseTranspose(tx: real, ty: real, tz: real)
    ensures Translation(tx, ty, tz).Mul(Translation(-tx, -ty, -tz)) == Identity()
    ensures TranslationInvt(tx, ty, tz) == Translation(-tx, -ty, -tz).Transpose()
  {
  }

  /** scalingInvtMatrix is the exact inverse of scalingMatrix. */
  lemma ScalingInvtIsInverse(sx: real, sy: real, sz: real)
    requires sx != 0.0 && sy != 0.0 && sz != 0.0
    ensures Scaling(sx, sy, sz).Mul(ScalingInvt(sx, sy, sz)) == Identity()
    ensures ScalingInvt(sx, sy, sz).Mul(Scaling(sx, sy, sz)) == Identity()
  {
  }

  /** Each axis rotation fixes its own axis, for any sin/cos values. */
  lemma RotationsFixTheirAxes(theta: real, lib: Libm)
    ensures RotationX(theta, lib).Transform(Vec3(1.0, 0.0, 0.0)) == Vec3(1.0, 0.0, 0.0)
    ensures RotationY(theta, lib).Transform(Vec3(0.0, 1.0, 0.0)) == Vec3(0.0, 1.0, 0.0)
    ensures RotationZ(theta, lib).Transform(Vec3(0.0, 0.0, 1.0)) == Vec3(0.0, 0.0, 1.0)
  {
  }

  /** Rotating by angle 0 gives the identity. */
  lemma RotationsByZero(lib: Libm)
    requires lib.Valid()
    ensures RotationX(0.0, lib) == Identity()
    ensures RotationY(0.0, lib) == Identity()
    ensures RotationZ(0.0, lib) == Identity()
  {
  }

  /** rotationAboutAxisMatrix with the zero axis returns the identity, whatever theta. */
  lemma RotationAboutZeroAxis(theta: real, lib: Libm)
    requires lib.Valid()
    ensures RotationAboutAxis(theta, Vec3.Zero(), lib) == Identity()
  {
    AlignedRotationZeroAxis(theta, lib.atan2(lib.sqrt(BetaRadicand(Vec3.Zero())), 0.0), lib);
  }

  /** For the zero axis every angle of the chain is 0, so each factor is the identity. */
  lemma AlignedRotationZeroAxis(theta: real, betaIn: real, lib: Libm)
    requires lib.Valid()
    ensures AlignedRotation(theta, Vec3.Zero(), betaIn, lib) == Identity()
  {
    RotationsByZero(lib);
    assert -0.0 == 0.0;
    ProductOfIdentities(RotationZ(-0.0, lib), RotationX(-0.0, lib), RotationZ(0.0, lib), RotationX(0.0, lib), RotationZ(0.0, lib));
  }

  lemma ProductOfIdentities(r1: Mat4, r2: Mat4, r3: Mat4, r4: Mat4, r5: Mat4)
    requires r1 == r2 == r3 == r4 == r5 == Identity()
    ensures Identity().Mul(r1).Mul(r2).Mul(r3).Mul(r4).Mul(r5) == Identity()
  {
    IdentityIsUnit(Identity());
  }

  /** The radicand as written is negative for the axis (0, -1, 0), so sqrt is
      applied outside its domain there (NaN in the C library). */
  lemma BetaRadicandNegative()
    ensures BetaRadicand(Vec3(0.0, -1.0, 0.0)) == -2.0
  {
  }

  /** With the corrected radicand (never negative, zero exactly for the axes the
      source special-cases, see CorrectedBetaRadicand) the zero axis still gives
      the identity. */
  lemma CorrectedRotationAboutZeroAxis(theta: real, lib: Libm)
    requires lib.Valid()
    ensures RotationAboutAxisCorrected(theta, Vec3.Zero(), lib) == Identity()
  {
    AlignedRotationZeroAxis(theta, lib.atan2(lib.sqrt(CorrectedBetaRadicand(Vec3.Zero())), 0.0), lib);
  }

  /** perspectiveInvMatrix is a two-sided inverse of perspectiveMatrix. */
  lemma PerspectiveInverse(fovY: real, aspect: real, near: real, far: real, lib: Libm)
    requires lib.tan(fovY * 0.5) != 0.0 && aspect != 0.0 && far != near
    requires near != 0.0 && far != 0.0
    ensures Perspective(fovY, aspect, near, far, lib).Mul(PerspectiveInv(fovY, aspect, near, far, lib)) == Identity()
    ensures PerspectiveInv(fovY, aspect, near, far, lib).Mul(Perspective(fovY, aspect, near, far, lib)) == Identity()
  {
    var t := lib.tan(fovY * 0.5);
    var y := 1.0 / t;
    var x := y / aspect;
    var z1 := -(far + near) / (far - near);
    var z2 := (-2.0 * near * far) / (far - near);
    var w := (far + near) / (2.0 * far * near);
    NonZeroQuotients(t, aspect, near, far);
    DepthRowsInverse(near, far);
    assert x * (1.0 / x) == 1.0 && (1.0 / x) * x == 1.0;
    assert y * (1.0 / y) == 1.0 && (1.0 / y) * y == 1.0;
  }

  /** The depth rows of the two perspective matrices: with z1, z2 and w as in
      perspectiveMatrix / perspectiveInvMatrix, z2 * (1/z2) = 1, z2 * w = z1 and
      z1 * (1/z2) = w. */
  lemma DepthRowsInverse(near: real, far: real)
    requires near != 0.0 && far != 0.0 && far != near
    ensures var z1, z2, w := -(far + near) / (far - near), (-2.0 * near * far) / (far - near), (far + near) / (2.0 * far * near);
      z2 != 0.0 && z2 * (1.0 / z2) == 1.0 && (1.0 / z2) * z2 == 1.0 && z2 * w == z1 && z1 * (1.0 / z2) == w
  {
    var d := far - near;
    var p := near * far;
    NonZeroProduct(near, far);
    var z1, z2, w := -(far + near) / d, (-2.0 * p) / d, (far + near) / (2.0 * p);
    assert -2.0 * near * far == -2.0 * p;
    assert 2.0 * far * near == 2.0 * p;
    assert z2 * w == z1 by {
      calc {
        z2 * w;
        ((-2.0 * p) / d) * ((far + near) / (2.0 * p));
        (-(far + near)) / d;
      }
    }
    assert z1 * (1.0 / z2) == w by {
      calc {
        z1 * (1.0 / z2);
        (-(far + near) / d) * (d / (-2.0 * p));
        (far + near) / (2.0 * p);
      }
    }
  }

  /** viewportMatrix maps the normalized-device cube [-1, 1]^3 onto the window
      rectangle: corner (-1, -1, -1) to (x, y, 0) and corner (1, 1, 1) to
      (x + width, y + height, 1). */
  lemma ViewportMapsCube(x: real, y: real, width: real, height: real)
    ensures Viewport(x, y, width, height).ApplyPoint(Vec3(-1.0, -1.0, -1.0)) == Vec3(x, y, 0.0)
    ensures Viewport(x, y, width, height).ApplyPoint(Vec3(1.0, 1.0, 1.0)) == Vec3(x + width, y + height, 1.0)
  {
  }

  /** lookAtMatrix's basis is orthonormal: right, nUp and look are unit vectors
      and pairwise orthogonal. */
  lemma LookAtBasisOrthonormal(eye: Vec3, spot: Vec3, up: Vec3, lib: Libm)
    requires lib.Valid() && spot.Subtract(eye).Cross(up) != Vec3.Zero()
    ensures var b := ViewBasis(eye, spot, up);
      b.0 != Vec3.Zero() && b.1 != Vec3.Zero() && b.2 != Vec3.Zero() &&
      var l, r, u := b.0.Normalized(lib), b.1.Normalized(lib), b.2.Normalized(lib);
      l.Dot(l) == 1.0 && r.Dot(r) == 1.0 && u.Dot(u) == 1.0 &&
      r.Dot(l) == 0.0 && u.Dot(l) == 0.0 && u.Dot(r) == 0.0
  {
    var b := ViewBasis(eye, spot, up);
    var look, right, nUp := b.0, b.1, b.2;
    var l, r, u := look.Normalized(lib), right.Normalized(lib), nUp.Normalized(lib);
    NormalizedKeepsOrthogonality(right, look, lib);
    DotSymmetric(r, look);
    NormalizedKeepsOrthogonality(look, r, lib);
    DotSymmetric(l, r);
    NormalizedKeepsOrthogonality(nUp, look, lib);
    DotSymmetric(u, look);
    NormalizedKeepsOrthogonality(look, u, lib);
    DotSymmetric(l, u);
    NormalizedKeepsOrthogonality(nUp, right, lib);
    DotSymmetric(u, right);
    NormalizedKeepsOrthogonality(right, u, lib);
    DotSymmetric(r, u);
  }

  /** posTransform puts the viewer at the origin. */
  lemma LookAtMovesEyeToOrigin(eye: Vec3, spot: Vec3, up: Vec3, lib: Libm)
    requires lib.Valid() && spot.Subtract(eye).Cross(up) != Vec3.Zero()
    ensures LookAt(eye, spot, up, lib).posTransform.ApplyPoint(eye) == Vec3.Zero()
  {
    CancelsPoint(LookAt(eye, spot, up, lib).posTransform, eye);
  }

  /** A matrix whose last column is its block applied to -e sends the point e to the origin. */
  lemma CancelsPoint(m: Mat4, e: Vec3)
    requires m.At(1, 4) == m.BlockRow(1).Dot(e.Scale(-1.0))
    requires m.At(2, 4) == m.BlockRow(2).Dot(e.Scale(-1.0))
    requires m.At(3, 4) == m.BlockRow(3).Dot(e.Scale(-1.0))
    ensures m.ApplyPoint(e) == Vec3.Zero()
  {
    DotScale(e, -1.0, m.BlockRow(1));
    DotScale(e, -1.0, m.BlockRow(2));
    DotScale(e, -1.0, m.BlockRow(3));
    DotSymmetric(e, m.BlockRow(1));
    DotSymmetric(e, m.BlockRow(2));
    DotSymmetric(e, m.BlockRow(3));
  }

  /** Directions (posTransform and normalTransform share their 3x3 block): the
      viewing direction goes to -z, the camera's up to +y and its right to +x. */
  lemma LookAtAlignsBasis(eye: Vec3, spot: Vec3, up: Vec3, lib: Libm)
    requires lib.Valid() && spot.Subtract(eye).Cross(up) != Vec3.Zero()
    ensures var b := ViewBasis(eye, spot, up);
      b.0 != Vec3.Zero() && b.1 != Vec3.Zero() && b.2 != Vec3.Zero() &&
      var pos := LookAt(eye, spot, up, lib).posTransform;
      && pos.Transform(b.0.Normalized(lib)) == Vec3(0.0, 0.0, -1.0)
      && pos.Transform(b.2.Normalized(lib)) == Vec3(0.0, 1.0, 0.0)
      && pos.Transform(b.1.Normalized(lib)) == Vec3(1.0, 0.0, 0.0)
  {
    var b := ViewBasis(eye, spot, up);
    LookAtBasisOrthonormal(eye, spot, up, lib);
    var pos := LookAt(eye, spot, up, lib).posTransform;
    var l, r, u := b.0.Normalized(lib), b.1.Normalized(lib), b.2.Normalized(lib);
    TransformUsesBlock(pos, l);
    TransformUsesBlock(pos, u);
    TransformUsesBlock(pos, r);
    DotScale(l, -1.0, l);
    DotScale(l, -1.0, u);
    DotScale(l, -1.0, r);
    DotSymmetric(r, u);
    DotSymmetric(r, l);
    DotSymmetric(u, l);
  }
}
