/**
 * Vec3, the 3-component vector of the renderer (vec3.h / vec3.cpp).
 * The C++ class is a value type (copied on assignment); it is a datatype here.
 * Its one mutating member, `normalize`, is the method `Normalize`, which takes
 * the receiver's old value and yields its new one.
 */
module Vectors {
  import opened MathLib

  datatype Vec3 = Vec3(x: real, y: real, z: real)
  {
    /** Vec3(): every component 0. */
    static function Zero(): Vec3 {
      Vec3(0.0, 0.0, 0.0)
    }

    /** Vec3(scalar): every component set to `scalar`. */
    static function Splat(scalar: real): Vec3 {
      Vec3(scalar, scalar, scalar)
    }

    /** The square of the 2-norm, i.e. the dot product of the vector with itself. */
    function NormSquared(): real {
      x * x + y * y + z * z
    }

    /** norm(): the 2-norm, sqrtf(x*x + y*y + z*z). */
    function Norm(lib: Libm): (r: real)
      requires lib.Valid()
      ensures 0.0 <= r && r * r == NormSquared()
      ensures r == 0.0 <==> this == Zero()
    {
      NormSquaredZero(this);
      RootFacts(lib, NormSquared());
      lib.sqrt(NormSquared())
    }

    /** normalized(): a copy divided by the norm. Undefined for the zero vector
        in the source, so the model excludes it. The result is a unit vector that
        scales back to the receiver. */
    function Normalized(lib: Libm): (r: Vec3)
      requires lib.Valid() && this != Zero()
      ensures r.NormSquared() == 1.0
      ensures r.Scale(Norm(lib)) == this
      ensures r != Zero()
    {
      var length := Norm(lib);
      DividedIsUnit(this, length);
      Vec3(x / length, y / length, z / length)
    }

    /** add(v): component-wise sum. */
    function Add(v: Vec3): Vec3 {
      Vec3(x + v.x, y + v.y, z + v.z)
    }

    /** subtract(v): this minus v, component-wise. */
    function Subtract(v: Vec3): Vec3 {
      Vec3(x - v.x, y - v.y, z - v.z)
    }

    /** dot(v) */
    function Dot(v: Vec3): real {
      x * v.x + y * v.y + z * v.z
    }

    /** cross(v): this x v. */
    function Cross(v: Vec3): Vec3 {
      Vec3(y * v.z - z * v.y, z * v.x - x * v.z, x * v.y - y * v.x)
    }

    /** scale(sx, sy, sz): each component scaled by its own factor. */
    function ScaleEach(sx: real, sy: real, sz: real): Vec3 {
      Vec3(x * sx, y * sy, z * sz)
    }

    /** scale(scalar): every component scaled by `scalar`. */
    function Scale(scalar: real): Vec3 {
      Vec3(x * scalar, y * scalar, z * scalar)
    }
  }

  /** normalize(): divides x, then y, then z by the norm computed beforehand,
      updating the vector in place. */
  method Normalize(v: Vec3, lib: Libm) returns (u: Vec3)
    requires lib.Valid() && v != Vec3.Zero()
    ensures u == v.Normalized(lib)
    ensures u.NormSquared() == 1.0
  {
    var length := v.Norm(lib);
    u := v;
    u := u.(x := u.x / length);
    u := u.(y := u.y / length);
    u := u.(z := u.z / length);
  }

  // ----- helper facts about the arithmetic -----

  lemma NormSquaredZero(v: Vec3)
    ensures 0.0 <= v.NormSquared()
    ensures v.NormSquared() == 0.0 <==> v == Vec3.Zero()
  {
    SquareSign(v.x);
    SquareSign(v.y);
    SquareSign(v.z);
  }

  lemma SquareSign(a: real)
    ensures 0.0 <= a * a
    ensures a * a == 0.0 <==> a == 0.0
  {
    if a < 0.0 {
      assert 0.0 < (-a) * (-a);
      assert (-a) * (-a) == a * a;
      if a * a == 0.0 { ZeroFactor(-a, -a); }
    } else if 0.0 < a {
      if a * a == 0.0 { ZeroFactor(a, a); }
    }
  }

  lemma RootFacts(lib: Libm, s: real)
    requires lib.Valid() && 0.0 <= s
    ensures 0.0 <= lib.sqrt(s) && lib.sqrt(s) * lib.sqrt(s) == s
    ensures lib.sqrt(s) == 0.0 <==> s == 0.0
  {
    var r := lib.sqrt(s);
    assert 0.0 <= r && r * r == s;
    if s == 0.0 {
      SquareSign(r);
    }
  }

  lemma MulPositive(a: real, b: real)
    requires 0.0 < a && 0.0 < b
    ensures 0.0 < a * b
  {
  }

  lemma ZeroFactor(a: real, b: real)
    requires a * b == 0.0 && 0.0 < b
    ensures a == 0.0
  {
  }

  lemma DividedIsUnit(v: Vec3, length: real)
    requires 0.0 < length && length * length == v.NormSquared()
    ensures Vec3(v.x / length, v.y / length, v.z / length).NormSquared() == 1.0
    ensures Vec3(v.x / length, v.y / length, v.z / length).Scale(length) == v
  {
    var a, b, c := v.x / length, v.y / length, v.z / length;
    assert v.x == a * length && v.y == b * length && v.z == c * length;
    assert (a * a + b * b + c * c) * (length * length) == length * length by {
      calc {
        (a * a + b * b + c * c) * (length * length);
        (a * length) * (a * length) + (b * length) * (b * length) + (c * length) * (c * length);
        v.NormSquared();
        length * length;
      }
    }
    CancelSquare(a * a + b * b + c * c, length);
  }

  lemma CancelSquare(p: real, l: real)
    requires 0.0 < l && p * (l * l) == l * l
    ensures p == 1.0
  {
  }

  /** Scaling multiplies the dot product by the factor. */
  lemma DotScale(a: Vec3, s: real, b: Vec3)
    ensures a.Scale(s).Dot(b) == s * a.Dot(b)
    ensures b.Dot(a.Scale(s)) == s * a.Dot(b)
  {
  }

  /** dot distributes over add. */
  lemma DotAdd(a: Vec3, b: Vec3, c: Vec3)
    ensures a.Add(b).Dot(c) == a.Dot(c) + b.Dot(c)
  {
  }

  /** Scaling multiplies the squared norm by the square of the factor. */
  lemma NormSquaredScale(a: Vec3, s: real)
    ensures a.Scale(s).NormSquared() == s * s * a.NormSquared()
  {
  }

  /** Lagrange's identity: |a x b|^2 = |a|^2 |b|^2 - (a.b)^2. */
  lemma Lagrange(a: Vec3, b: Vec3)
    ensures a.Cross(b).NormSquared() == a.NormSquared() * b.NormSquared() - a.Dot(b) * a.Dot(b)
  {
  }

  /** The cross product of two non-zero orthogonal vectors is non-zero. */
  lemma CrossOfOrthogonalNonZero(a: Vec3, b: Vec3)
    requires a != Vec3.Zero() && b != Vec3.Zero() && a.Dot(b) == 0.0
    ensures a.Cross(b) != Vec3.Zero()
  {
    Lagrange(a, b);
    NormSquaredZero(a);
    NormSquaredZero(b);
    var p, q := a.NormSquared(), b.NormSquared();
    assert 0.0 < p && 0.0 < q;
    assert 0.0 < p * q;
    assert a.Cross(b).NormSquared() == p * q;
  }

  /** A vector whose cross product with something is non-zero is itself non-zero. */
  lemma CrossNonZeroOperand(a: Vec3, b: Vec3)
    requires a.Cross(b) != Vec3.Zero()
    ensures a != Vec3.Zero() && b != Vec3.Zero()
  {
  }

  /** With right = look x up non-zero, look and right x look are non-zero too:
      the frame built by the camera code never normalizes a zero vector. */
  lemma BasisNonDegenerate(look: Vec3, up: Vec3)
    ensures look.Cross(up) != Vec3.Zero() ==> look != Vec3.Zero() && look.Cross(up).Cross(look) != Vec3.Zero()
  {
    var right := look.Cross(up);
    if right != Vec3.Zero() {
      CrossNonZeroOperand(look, up);
      CrossLaws(look, up);
      DotSymmetric(right, look);
      CrossOfOrthogonalNonZero(right, look);
    }
  }

  /** A positive multiple of a unit vector normalizes back to that vector. */
  lemma NormalizedOfPositiveMultiple(u: Vec3, k: real, lib: Libm)
    requires lib.Valid() && u.NormSquared() == 1.0 && 0.0 < k
    ensures u.Scale(k) != Vec3.Zero() && u.Scale(k).Normalized(lib) == u
  {
    var w := u.Scale(k);
    NormSquaredScale(u, k);
    assert w.NormSquared() == k * k;
    MulPositive(k, k);
    NormSquaredZero(w);
    var n := w.Norm(lib);
    assert n * n == k * k;
    assert (n - k) * (n + k) == 0.0;
    ZeroFactor(n - k, n + k);
    assert n == k;
  }

  // ----- the algebraic laws of vec3.h / vec3.cpp -----

  /** Vec3() is the zero vector, Vec3(s) scales the all-ones vector by s,
      and the zero vector is neutral for add. */
  lemma ConstructorsLaws(s: real, a: Vec3)
    ensures Vec3.Zero() == Vec3.Splat(0.0)
    ensures Vec3.Splat(s) == Vec3.Splat(1.0).Scale(s)
    ensures a.Add(Vec3.Zero()) == a
  {
  }

  /** add is commutative and associative. */
  lemma AddLaws(a: Vec3, b: Vec3, c: Vec3)
    ensures a.Add(b) == b.Add(a)
    ensures a.Add(b).Add(c) == a.Add(b.Add(c))
  {
  }

  /** subtract(v) is this - v: adding v back restores the receiver, and it is
      add of v scaled by -1. */
  lemma SubtractLaws(a: Vec3, b: Vec3)
    ensures a.Subtract(b).Add(b) == a
    ensures a.Subtract(b) == a.Add(b.Scale(-1.0))
    ensures a.Subtract(b) == b.Subtract(a).Scale(-1.0)
  {
  }

  /** dot is symmetric. */
  lemma DotSymmetric(a: Vec3, b: Vec3)
    ensures a.Dot(b) == b.Dot(a)
  {
  }

  /** cross is anticommutative, vanishes on equal operands and is orthogonal to both. */
  lemma CrossLaws(a: Vec3, b: Vec3)
    ensures a.Cross(b) == b.Cross(a).Scale(-1.0)
    ensures a.Cross(a) == Vec3.Zero()
    ensures a.Dot(a.Cross(b)) == 0.0 && b.Dot(a.Cross(b)) == 0.0
  {
  }

  /** scale(s) equals scale(s, s, s), and scale(1) is the identity. */
  lemma ScaleLaws(a: Vec3, s: real)
    ensures a.Scale(s) == a.ScaleEach(s, s, s)
    ensures a.Scale(1.0) == a
  {
  }

  /** normalized() has norm 1 (and Normalize leaves the same value). */
  lemma NormalizedHasUnitNorm(v: Vec3, lib: Libm)
    requires lib.Valid() && v != Vec3.Zero()
    ensures v.Normalized(lib).Norm(lib) == 1.0
  {
    var n := v.Normalized(lib).Norm(lib);
    assert 0.0 <= n && n * n == 1.0;
    assert (n - 1.0) * (n + 1.0) == 0.0;
    ZeroFactor(n - 1.0, n + 1.0);
  }

  /** A normalized vector points the same way as the original: both are
      orthogonal to the same vectors. */
  lemma NormalizedKeepsOrthogonality(v: Vec3, w: Vec3, lib: Libm)
    requires lib.Valid() && v != Vec3.Zero()
    ensures v.Normalized(lib).Dot(w) == 0.0 <==> v.Dot(w) == 0.0
  {
    var u := v.Normalized(lib);
    var n := v.Norm(lib);
    DotScale(u, n, w);
    assert v.Dot(w) == n * u.Dot(w);
  }
}
