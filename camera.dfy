/**
 * The interactive camera and the other user-controlled state of main.cpp: the
 * GLUT mouse, motion, keyboard and special-key callbacks acting on the globals
 * eye, lookat, cur_button, last_x, last_y, ambientOcclusionState and
 * depthDiscontinuityRadius. The globals are the fields of `AppState`.
 *
 * The camera moves are pure functions of the old view (`Pan`, `Dolly`, `Orbit`);
 * the `Motion` callback performs them step by step and is proved to agree.
 */
module Camera {
  import opened MathLib
  import opened Vectors

  /** GLUT_LEFT_BUTTON, GLUT_MIDDLE_BUTTON, GLUT_RIGHT_BUTTON, and -1 for none. */
  const LeftButton := 0
  const MiddleButton := 1
  const RightButton := 2
  const NoButton := -1

  /** GLUT_DOWN (any other state is a release). */
  const ButtonDown := 0

  /** Key codes of the keyboard callbacks: escape, GLUT_KEY_UP and GLUT_KEY_DOWN. */
  const Escape := 27
  const ArrowUp := 101
  const ArrowDown := 103

  /** The world's up direction, (0, 1, 0), used by panning and orbiting. */
  const WorldUp := Vec3(0.0, 1.0, 0.0)

  /** The pixel-to-world factors of the drags. */
  const PanRate := 0.007
  const DollyRate := 0.03
  const OrbitRate := 0.007

  /** The camera: where it is and the point it looks at. */
  datatype View = View(eye: Vec3, lookat: Vec3)
  {
    /** f = lookat + eye * -1: from the eye to the point looked at. */
    function Forward(): Vec3 {
      lookat.Add(eye.Scale(-1.0))
    }

    /** The squared distance between the eye and the point looked at. */
    function DistanceSquared(): real {
      Forward().NormSquared()
    }
  }

  // ----- left drag: pan -----

  /** Panning normalizes f x up and (f x up) x f: the view must not look straight
      up or down, and eye and lookat must differ. */
  predicate CanPan(v: View) {
    v.Forward().Cross(WorldUp) != Vec3.Zero()
  }

  /** The right and up vectors of a pan. */
  datatype Basis = Basis(right: Vec3, up: Vec3)

  /** The pan basis: f x up and (f x up) x f, normalized. */
  function PanBasis(f: Vec3, lib: Libm): Basis
    requires lib.Valid() && f.Cross(WorldUp) != Vec3.Zero()
  {
    BasisNonDegenerate(f, WorldUp);
    Basis(f.Cross(WorldUp).Normalized(lib), f.Cross(WorldUp).Cross(f).Normalized(lib))
  }

  /** The pan basis is orthonormal, and both of its vectors are orthogonal to f. */
  lemma PanBasisOrthonormal(f: Vec3, lib: Libm)
    requires lib.Valid() && f.Cross(WorldUp) != Vec3.Zero()
    ensures PanBasis(f, lib).right.NormSquared() == 1.0 && PanBasis(f, lib).up.NormSquared() == 1.0
    ensures PanBasis(f, lib).right.Dot(PanBasis(f, lib).up) == 0.0
    ensures PanBasis(f, lib).right.Dot(f) == 0.0 && PanBasis(f, lib).up.Dot(f) == 0.0
  {
    var right := f.Cross(WorldUp);
    BasisNonDegenerate(f, WorldUp);
    var up := right.Cross(f);
    var rightN, upN := right.Normalized(lib), up.Normalized(lib);
    assert PanBasis(f, lib) == Basis(rightN, upN);
    CrossLaws(f, WorldUp);
    DotSymmetric(f, right);
    NormalizedKeepsOrthogonality(right, f, lib);
    CrossLaws(right, f);
    DotSymmetric(f, up);
    NormalizedKeepsOrthogonality(up, f, lib);
    NormalizedKeepsOrthogonality(right, up, lib);
    DotSymmetric(rightN, up);
    NormalizedKeepsOrthogonality(up, rightN, lib);
    DotSymmetric(upN, rightN);
  }

  /** a steps along the basis' right vector plus b steps along its up vector. */
  function Along(basis: Basis, a: real, b: real, step: real): Vec3
  {
    basis.right.Scale(a * step).Add(basis.up.Scale(b * step))
  }

  /** World distance of one pixel of left drag: PanRate times the distance to lookat. */
  function PanStep(v: View, lib: Libm): real
    requires lib.Valid() && CanPan(v)
  {
    v.Forward().Norm(lib) * PanRate
  }

  /** Left drag by (dx, dy) pixels: eye and lookat move together by -dx steps
      along the pan basis' right vector and dy steps along its up vector, a step
      being 0.007 times the distance to lookat. The view direction and distance
      are kept and the move is sideways (orthogonal to the viewing direction). */
  function Pan(v: View, dx: int, dy: int, lib: Libm): (r: View)
    requires lib.Valid() && CanPan(v)
    ensures r.Forward() == v.Forward()
    ensures r.eye.Add(v.eye.Scale(-1.0)) == r.lookat.Add(v.lookat.Scale(-1.0))
    ensures r.eye.Add(v.eye.Scale(-1.0)).Dot(v.Forward()) == 0.0
    ensures r.eye.Add(v.eye.Scale(-1.0)) == Along(PanBasis(v.Forward(), lib), -(dx as real), dy as real, PanStep(v, lib))
  {
    var offset := Along(PanBasis(v.Forward(), lib), -(dx as real), dy as real, PanStep(v, lib));
    ShiftedView(v, offset);
    PanOffsetIsSideways(v, -(dx as real), dy as real, PanStep(v, lib), lib);
    View(v.eye.Add(offset), v.lookat.Add(offset))
  }

  /** Moving eye and lookat by the same d keeps f, and moves each by d. */
  lemma ShiftedView(v: View, d: Vec3)
    ensures View(v.eye.Add(d), v.lookat.Add(d)).Forward() == v.Forward()
    ensures v.eye.Add(d).Add(v.eye.Scale(-1.0)) == d && v.lookat.Add(d).Add(v.lookat.Scale(-1.0)) == d
  {
  }

  /** Any offset along the pan basis is orthogonal to f, since f x up and
      (f x up) x f are. */
  lemma PanOffsetIsSideways(v: View, a: real, b: real, step: real, lib: Libm)
    requires lib.Valid() && CanPan(v)
    ensures Along(PanBasis(v.Forward(), lib), a, b, step).Dot(v.Forward()) == 0.0
  {
    PanBasisOrthonormal(v.Forward(), lib);
    SidewaysCombination(v.Forward(), PanBasis(v.Forward(), lib), a, b, step);
  }

  lemma SidewaysCombination(f: Vec3, basis: Basis, a: real, b: real, step: real)
    requires basis.right.Dot(f) == 0.0 && basis.up.Dot(f) == 0.0
    ensures Along(basis, a, b, step).Dot(f) == 0.0
  {
    DotScale(basis.right, a * step, f);
    DotScale(basis.up, b * step, f);
    DotAdd(basis.right.Scale(a * step), basis.up.Scale(b * step), f);
  }

  /** Pan's result written out: eye and lookat plus the offset. */
  lemma PanValue(v: View, dx: int, dy: int, lib: Libm)
    requires lib.Valid() && CanPan(v)
    ensures Pan(v, dx, dy, lib)
         == View(v.eye.Add(Along(PanBasis(v.Forward(), lib), -(dx as real), dy as real, PanStep(v, lib))),
                 v.lookat.Add(Along(PanBasis(v.Forward(), lib), -(dx as real), dy as real, PanStep(v, lib))))
  {
  }

  /** The source's way of adding the offset, -dx * step along rightN and then
      dy * step along upN, each scaled one factor at a time, adds the same
      combination. */
  lemma PanShiftValue(p: Vec3, rightN: Vec3, upN: Vec3, dx: real, dy: real, step: real)
    ensures p.Add(rightN.Scale(-1.0).Scale(dx).Scale(step)).Add(upN.Scale(dy).Scale(step))
         == p.Add(Along(Basis(rightN, upN), -dx, dy, step))
  {
    Reassociate(rightN.x, dx, step);
    Reassociate(rightN.y, dx, step);
    Reassociate(rightN.z, dx, step);
  }

  lemma Reassociate(a: real, d: real, step: real)
    ensures a * -1.0 * d * step == a * (-d * step)
  {
  }

  /** A pan by (dx, dy) moves the eye by PanRate * |f| * sqrt(dx^2 + dy^2):
      the squared length of the shift is PanRate^2 |f|^2 (dx^2 + dy^2). */
  lemma PanDistance(v: View, dx: int, dy: int, lib: Libm)
    requires lib.Valid() && CanPan(v)
    ensures Pan(v, dx, dy, lib).eye.Add(v.eye.Scale(-1.0)).NormSquared()
         == PanRate * PanRate * v.DistanceSquared() * ((dx * dx + dy * dy) as real)
  {
    PanBasisOrthonormal(v.Forward(), lib);
    OffsetLength(PanBasis(v.Forward(), lib), dx, dy, PanStep(v, lib), v.Forward().Norm(lib), v.DistanceSquared());
  }

  /** The squared length of -dx steps along one unit vector and dy steps along
      an orthogonal one, for a step of PanRate * len. */
  lemma OffsetLength(basis: Basis, dx: int, dy: int, step: real, len: real, n: real)
    requires basis.right.NormSquared() == 1.0 && basis.up.NormSquared() == 1.0 && basis.right.Dot(basis.up) == 0.0
    requires step == len * PanRate && len * len == n
    ensures Along(basis, -(dx as real), dy as real, step).NormSquared()
         == PanRate * PanRate * n * ((dx * dx + dy * dy) as real)
  {
    var c, s := -(dx as real) * step, (dy as real) * step;
    OrthonormalCombination(basis.right, basis.up, c, s);
    StepSquares(c * c + s * s, dx, dy, len, step, n, c, s);
  }

  /** The squared length of -dx * step * right + dy * step * up, for a step of
      PanRate * len, on scalars. */
  lemma StepSquares(length: real, dx: int, dy: int, len: real, step: real, n: real, c: real, s: real)
    requires length == c * c + s * s && len * len == n && step == len * PanRate
    requires c == -(dx as real) * step && s == (dy as real) * step
    ensures length == PanRate * PanRate * n * ((dx * dx + dy * dy) as real)
  {
    assert ((dx * dx + dy * dy) as real) == (dx as real) * (dx as real) + (dy as real) * (dy as real);
  }

  /** A left "drag" of zero pixels leaves the view where it was. */
  lemma PanByNothing(v: View, lib: Libm)
    requires lib.Valid() && CanPan(v)
    ensures Pan(v, 0, 0, lib) == v
  {
    PanValue(v, 0, 0, lib);
    AlongNothing(PanBasis(v.Forward(), lib), PanStep(v, lib));
    ConstructorsLaws(0.0, v.eye);
    ConstructorsLaws(0.0, v.lookat);
  }

  lemma AlongNothing(basis: Basis, step: real)
    ensures Along(basis, -(0 as real), 0 as real, step) == Vec3.Zero()
  {
  }

  // ----- middle drag: dolly -----

  /** Dollying normalizes f: eye and lookat must differ. */
  predicate CanDolly(v: View) {
    v.Forward() != Vec3.Zero()
  }

  /** The distance after a middle drag by dx pixels: len - sqrt(len) * dx * 0.03. */
  function DollyLength(len: real, dx: int, lib: Libm): real {
    len - lib.sqrt(len) * (dx as real) * DollyRate
  }

  /** Middle drag by dx pixels: the eye moves along the viewing direction to the
      new distance; when that distance falls below 1 the lookat point is pushed
      ahead to stay exactly 1 in front of the eye. The viewing direction never
      changes, the eye never comes closer than 1 to lookat, and lookat only moves
      when the new distance is below 1. */
  function Dolly(v: View, dx: int, lib: Libm): (r: View)
    requires lib.Valid() && CanDolly(v)
    ensures CanDolly(r) && r.Forward().Normalized(lib) == v.Forward().Normalized(lib)
    ensures 1.0 <= r.DistanceSquared()
    ensures r.lookat == v.lookat <==> 1.0 <= DollyLength(v.Forward().Norm(lib), dx, lib)
    ensures var fN := v.Forward().Normalized(lib);
      var n := DollyLength(v.Forward().Norm(lib), dx, lib);
      && r.eye == v.lookat.Add(fN.Scale(-1.0).Scale(n))
      && (1.0 <= n ==> r.Forward() == fN.Scale(n))
      && (n < 1.0 ==> r.Forward() == fN)
  {
    var f := v.Forward();
    var len := f.Norm(lib);
    var fN := f.Normalized(lib);
    var newLen := DollyLength(len, dx, lib);
    var eye := v.lookat.Add(fN.Scale(-1.0).Scale(newLen));
    DollyFacts(v.lookat, fN, newLen, lib);
    if newLen < 1.0 then View(eye, eye.Add(fN)) else View(eye, v.lookat)
  }

  /** The two outcomes of a dolly, in terms of the unit direction fN and the new
      distance: forward is fN * newLen, or fN itself once lookat is pushed. */
  lemma DollyFacts(lookat: Vec3, fN: Vec3, newLen: real, lib: Libm)
    requires lib.Valid() && fN.NormSquared() == 1.0
    ensures var eye := lookat.Add(fN.Scale(-1.0).Scale(newLen));
      && fN != Vec3.Zero()
      && fN.Normalized(lib) == fN
      && (newLen < 1.0 ==> View(eye, eye.Add(fN)).Forward() == fN && eye.Add(fN) != lookat)
      && (1.0 <= newLen ==>
            && View(eye, lookat).Forward() == fN.Scale(newLen)
            && fN.Scale(newLen) != Vec3.Zero() && fN.Scale(newLen).Normalized(lib) == fN
            && 1.0 <= fN.Scale(newLen).NormSquared())
  {
    NormSquaredZero(fN);
    NormalizedOfPositiveMultiple(fN, 1.0, lib);
    ScaleLaws(fN, 1.0);
    if newLen < 1.0 {
      DollyPushesLookat(lookat, fN, newLen);
    } else {
      DollyKeepsLookat(lookat, fN, newLen, lib);
    }
  }

  /** Below distance 1, lookat is pushed to eye + fN, which is a real move. */
  lemma DollyPushesLookat(lookat: Vec3, fN: Vec3, newLen: real)
    requires fN.NormSquared() == 1.0 && newLen < 1.0
    ensures var eye := lookat.Add(fN.Scale(-1.0).Scale(newLen));
      View(eye, eye.Add(fN)).Forward() == fN && eye.Add(fN) != lookat
  {
    var eye := lookat.Add(fN.Scale(-1.0).Scale(newLen));
    if eye.Add(fN) == lookat {
      assert fN.Scale(1.0 - newLen) == Vec3.Zero();
      NormSquaredScale(fN, 1.0 - newLen);
      MulPositive(1.0 - newLen, 1.0 - newLen);
      assert false;
    }
  }

  /** From distance 1 on, lookat stays and the forward vector is fN * newLen. */
  lemma DollyKeepsLookat(lookat: Vec3, fN: Vec3, newLen: real, lib: Libm)
    requires lib.Valid() && fN.NormSquared() == 1.0 && 1.0 <= newLen
    ensures var eye := lookat.Add(fN.Scale(-1.0).Scale(newLen));
      && View(eye, lookat).Forward() == fN.Scale(newLen)
      && fN.Scale(newLen) != Vec3.Zero() && fN.Scale(newLen).Normalized(lib) == fN
      && 1.0 <= fN.Scale(newLen).NormSquared()
  {
    NormalizedOfPositiveMultiple(fN, newLen, lib);
    NormSquaredScale(fN, newLen);
    AtLeastOneSquared(newLen);
  }

  lemma AtLeastOneSquared(a: real)
    requires 1.0 <= a
    ensures 1.0 <= a * a
  {
    if 1.0 < a {
      MulPositive(a - 1.0, a + 1.0);
    }
  }

  /** A middle "drag" of zero pixels keeps the view, unless the eye was closer
      than 1 to lookat, in which case lookat is pushed to distance 1. */
  lemma DollyByNothing(v: View, lib: Libm)
    requires lib.Valid() && CanDolly(v) && 1.0 <= v.Forward().Norm(lib)
    ensures Dolly(v, 0, lib) == v
  {
  }

  // ----- right drag: orbit -----

  /** neye rotated by theta about the vertical axis through lookat. */
  function Swing(neye: Vec3, theta: real, lib: Libm): (r: Vec3)
    requires lib.Valid()
    ensures r.y == neye.y
    ensures r.NormSquared() == neye.NormSquared()
  {
    var c, s := lib.cos(theta), lib.sin(theta);
    SwingKeepsLength(neye, c, s);
    Vec3(c * neye.x + s * neye.z, neye.y, -s * neye.x + c * neye.z)
  }

  lemma SwingKeepsLength(n: Vec3, c: real, s: real)
    requires s * s + c * c == 1.0
    ensures var r := Vec3(c * n.x + s * n.z, n.y, -s * n.x + c * n.z);
      r.NormSquared() == n.NormSquared()
  {
    var p, q := c * n.x + s * n.z, -s * n.x + c * n.z;
    assert p * p + q * q == (s * s + c * c) * (n.x * n.x + n.z * n.z);
  }

  /** The horizontal angle of a right drag by dx pixels: -dx * 0.007. */
  function OrbitAngle(d: int): real {
    (-d) as real * OrbitRate
  }

  /** Orbiting normalizes f = -(eye - lookat swung by the horizontal angle) and
      its up vector: after the swing the view must not be vertical. */
  predicate CanOrbit(v: View, dx: int, lib: Libm)
    requires lib.Valid()
  {
    Swing(v.eye.Add(v.lookat.Scale(-1.0)), OrbitAngle(dx), lib).Scale(-1.0).Cross(WorldUp) != Vec3.Zero()
  }

  /** Right drag by (dx, dy) pixels: the eye first swings by -dx * 0.007 about the
      vertical through lookat, then tilts by -dy * 0.007 in the vertical plane
      through lookat. lookat stays where it is. */
  function Orbit(v: View, dx: int, dy: int, lib: Libm): (r: View)
    requires lib.Valid() && CanOrbit(v, dx, lib)
    ensures r.lookat == v.lookat
  {
    var neye := v.eye.Add(v.lookat.Scale(-1.0));
    var swung := Swing(neye, OrbitAngle(dx), lib);
    var tilt := OrbitAngle(dy);
    var f := swung.Scale(-1.0);
    var right := f.Cross(WorldUp);
    var up := right.Cross(f);
    BasisNonDegenerate(f, WorldUp);
    var len := f.Norm(lib);
    var fN, upN := f.Normalized(lib), up.Normalized(lib);
    var tilted := fN.Scale(lib.cos(tilt)).Add(upN.Scale(lib.sin(tilt))).Scale(len);
    View(v.lookat.Add(tilted.Scale(-1.0)), v.lookat)
  }

  /** Orbiting keeps the eye at the same distance from lookat. */
  lemma OrbitKeepsDistance(v: View, dx: int, dy: int, lib: Libm)
    requires lib.Valid() && CanOrbit(v, dx, lib)
    ensures Orbit(v, dx, dy, lib).DistanceSquared() == v.DistanceSquared()
  {
    var neye := v.eye.Add(v.lookat.Scale(-1.0));
    var swung := Swing(neye, OrbitAngle(dx), lib);
    var tilt := OrbitAngle(dy);
    var f := swung.Scale(-1.0);
    var right := f.Cross(WorldUp);
    var up := right.Cross(f);
    BasisNonDegenerate(f, WorldUp);
    var len := f.Norm(lib);
    var fN, upN := f.Normalized(lib), up.Normalized(lib);
    var c, s := lib.cos(tilt), lib.sin(tilt);
    var dir := fN.Scale(c).Add(upN.Scale(s));
    // fN and upN are orthonormal, so the tilted direction is a unit vector
    CrossLaws(right, f);
    DotSymmetric(f, right.Cross(f));
    NormalizedKeepsOrthogonality(up, f, lib);
    DotSymmetric(upN, f);
    NormalizedKeepsOrthogonality(f, upN, lib);
    UnitCombination(fN, upN, c, s);
    // the tilted offset has the length of f, which has the length of neye
    NormSquaredScale(dir, len);
    NormSquaredScale(swung, -1.0);
    var r := Orbit(v, dx, dy, lib);
    assert r.Forward() == dir.Scale(len);
    assert r.DistanceSquared() == len * len;
    assert neye.NormSquared() == v.DistanceSquared() by {
      NormSquaredScale(v.Forward(), -1.0);
      assert neye == v.Forward().Scale(-1.0);
    }
  }

  /** c * a + s * b has unit length when a and b are orthonormal and c^2 + s^2 = 1. */
  lemma UnitCombination(a: Vec3, b: Vec3, c: real, s: real)
    requires a.NormSquared() == 1.0 && b.NormSquared() == 1.0 && a.Dot(b) == 0.0
    requires s * s + c * c == 1.0
    ensures a.Scale(c).Add(b.Scale(s)).NormSquared() == 1.0
  {
    OrthonormalCombination(a, b, c, s);
  }

  /** For orthonormal a and b, |c * a + s * b|^2 = c^2 + s^2. */
  lemma OrthonormalCombination(a: Vec3, b: Vec3, c: real, s: real)
    requires a.NormSquared() == 1.0 && b.NormSquared() == 1.0 && a.Dot(b) == 0.0
    ensures a.Scale(c).Add(b.Scale(s)).NormSquared() == c * c + s * s
  {
    CombinationSum(a.x, a.y, a.z, b.x, b.y, b.z, c, s);
  }

  /** OrthonormalCombination on coordinates. */
  lemma CombinationSum(p1: real, p2: real, p3: real, q1: real, q2: real, q3: real, c: real, s: real)
    requires p1 * p1 + p2 * p2 + p3 * p3 == 1.0 && q1 * q1 + q2 * q2 + q3 * q3 == 1.0
    requires p1 * q1 + p2 * q2 + p3 * q3 == 0.0
    ensures (p1 * c + q1 * s) * (p1 * c + q1 * s) + (p2 * c + q2 * s) * (p2 * c + q2 * s)
          + (p3 * c + q3 * s) * (p3 * c + q3 * s) == c * c + s * s
  {
    SquaredCombination(p1, q1, c, s);
    SquaredCombination(p2, q2, c, s);
    SquaredCombination(p3, q3, c, s);
    FactorOut(c * c, p1 * p1, p2 * p2, p3 * p3);
    FactorOut(2.0 * c * s, p1 * q1, p2 * q2, p3 * q3);
    FactorOut(s * s, q1 * q1, q2 * q2, q3 * q3);
  }

  lemma FactorOut(k: real, u: real, v: real, w: real)
    ensures k * u + k * v + k * w == k * (u + v + w)
  {
  }

  lemma SquaredCombination(p: real, q: real, c: real, s: real)
    ensures (p * c + q * s) * (p * c + q * s) == c * c * (p * p) + 2.0 * c * s * (p * q) + s * s * (q * q)
  {
  }

  /** A right "drag" of zero pixels leaves the view where it was. */
  lemma OrbitByNothing(v: View, lib: Libm)
    requires lib.Valid() && CanOrbit(v, 0, lib)
    ensures Orbit(v, 0, 0, lib) == v
  {
    var neye := v.eye.Add(v.lookat.Scale(-1.0));
    assert OrbitAngle(0) == 0.0;
    assert Swing(neye, 0.0, lib) == neye;
    var f := neye.Scale(-1.0);
    assert f.Normalized(lib).Scale(f.Norm(lib)) == f;
    ScaleLaws(f.Normalized(lib), 1.0);
  }

  // ----- the mouse motion callback, as a function of the old state -----

  /** What myGlutMotion does to the view with `button` held, for a drag of (dx, dy). */
  predicate CanDrag(v: View, button: int, dx: int, lib: Libm)
    requires lib.Valid()
  {
    && (button == LeftButton ==> CanPan(v))
    && (button == MiddleButton ==> CanDolly(v))
    && (button == RightButton ==> CanOrbit(v, dx, lib))
  }

  function Drag(v: View, button: int, dx: int, dy: int, lib: Libm): (r: View)
    requires lib.Valid() && CanDrag(v, button, dx, lib)
    ensures button !in {LeftButton, MiddleButton, RightButton} ==> r == v
    ensures button == LeftButton ==> r.Forward() == v.Forward()
    ensures button == MiddleButton ==> 1.0 <= r.DistanceSquared()
    ensures button == RightButton ==> r.lookat == v.lookat
  {
    if button == LeftButton then Pan(v, dx, dy, lib)
    else if button == MiddleButton then Dolly(v, dx, lib)
    else if button == RightButton then Orbit(v, dx, dy, lib)
    else v
  }

  /** `!ambientOcclusionState`: the C negation of an int used as a flag. */
  function Toggled(flag: int): (r: int)
    ensures r == 0 || r == 1
    ensures r != 0 <==> flag == 0
  {
    if flag == 0 then 1 else 0
  }

  /** Toggling twice restores any 0/1 flag. */
  lemma ToggleTwice(flag: int)
    requires flag == 0 || flag == 1
    ensures Toggled(Toggled(flag)) == flag
  {
  }

  /** The radius after a special key: doubled on the up arrow, halved on the down
      arrow, unchanged otherwise. */
  function AdjustedRadius(radius: real, key: int): (r: real)
    ensures key == ArrowUp ==> r == 2.0 * radius
    ensures key == ArrowDown ==> 2.0 * r == radius
    ensures key != ArrowUp && key != ArrowDown ==> r == radius
    ensures 0.0 < radius ==> 0.0 < r
  {
    if key == ArrowUp then radius * 2.0
    else if key == ArrowDown then radius * 0.5
    else radius
  }

  /** Up then down (or down then up) gives back the radius. */
  lemma RadiusUpDown(radius: real)
    ensures AdjustedRadius(AdjustedRadius(radius, ArrowUp), ArrowDown) == radius
    ensures AdjustedRadius(AdjustedRadius(radius, ArrowDown), ArrowUp) == radius
  {
  }

  // ----- the three cases of myGlutMotion, step by step -----

  /** The left-button case of myGlutMotion. */
  method PanMove(v: View, dx: int, dy: int, lib: Libm) returns (r: View)
    requires lib.Valid() && CanPan(v)
    ensures r == Pan(v, dx, dy, lib)
  {
    var eye, lookat := v.eye, v.lookat;
    var f := lookat.Add(eye.Scale(-1.0));
    var u := WorldUp;
    var scale := f.Norm(lib) * PanRate;
    var right := f.Cross(u);
    u := right.Cross(f);
    BasisNonDegenerate(f, WorldUp);
    right := Normalize(right, lib);
    u := Normalize(u, lib);
    assert scale == PanStep(v, lib);
    assert Basis(right, u) == PanBasis(v.Forward(), lib);
    PanMoveResult(v, dx, dy, lib, right, u);
    eye := eye.Add(right.Scale(-1.0).Scale(dx as real).Scale(scale));
    eye := eye.Add(u.Scale(dy as real).Scale(scale));
    lookat := lookat.Add(right.Scale(-1.0).Scale(dx as real).Scale(scale));
    lookat := lookat.Add(u.Scale(dy as real).Scale(scale));
    r := View(eye, lookat);
  }

  /** What PanMove's four additions amount to, given the basis it computes. */
  lemma PanMoveResult(v: View, dx: int, dy: int, lib: Libm, right: Vec3, up: Vec3)
    requires lib.Valid() && CanPan(v)
    requires Basis(right, up) == PanBasis(v.Forward(), lib)
    ensures View(v.eye.Add(right.Scale(-1.0).Scale(dx as real).Scale(PanStep(v, lib)))
                      .Add(up.Scale(dy as real).Scale(PanStep(v, lib))),
                 v.lookat.Add(right.Scale(-1.0).Scale(dx as real).Scale(PanStep(v, lib)))
                         .Add(up.Scale(dy as real).Scale(PanStep(v, lib))))
         == Pan(v, dx, dy, lib)
  {
    PanShiftValue(v.eye, right, up, dx as real, dy as real, PanStep(v, lib));
    PanShiftValue(v.lookat, right, up, dx as real, dy as real, PanStep(v, lib));
    PanValue(v, dx, dy, lib);
  }

  /** The middle-button case of myGlutMotion. */
  method DollyMove(v: View, dx: int, lib: Libm) returns (r: View)
    requires lib.Valid() && CanDolly(v)
    ensures r == Dolly(v, dx, lib)
  {
    var eye, lookat := v.eye, v.lookat;
    var f := lookat.Add(eye.Scale(-1.0));
    var len := f.Norm(lib);
    f := Normalize(f, lib);
    len := len - lib.sqrt(len) * (dx as real) * DollyRate;
    assert len == DollyLength(v.Forward().Norm(lib), dx, lib);
    eye := lookat.Add(f.Scale(-1.0).Scale(len));
    if len < 1.0 {
      lookat := eye.Add(f);
    }
    r := View(eye, lookat);
  }

  /** The right-button case of myGlutMotion. */
  method OrbitMove(v: View, dx: int, dy: int, lib: Libm) returns (r: View)
    requires lib.Valid() && CanOrbit(v, dx, lib)
    ensures r == Orbit(v, dx, dy, lib)
  {
    var eye, lookat := v.eye, v.lookat;
    var neye := eye.Add(lookat.Scale(-1.0));
    var theta := OrbitAngle(dx);
    var neye2 := Vec3(lib.cos(theta) * neye.x + lib.sin(theta) * neye.z,
                      neye.y,
                      -lib.sin(theta) * neye.x + lib.cos(theta) * neye.z);
    assert neye2 == Swing(neye, OrbitAngle(dx), lib);
    theta := OrbitAngle(dy);
    var f := neye2.Scale(-1.0);
    var u := WorldUp;
    var right := f.Cross(u);
    u := right.Cross(f);
    BasisNonDegenerate(f, WorldUp);
    var len := f.Norm(lib);
    f := Normalize(f, lib);
    u := Normalize(u, lib);
    neye := f.Scale(lib.cos(theta)).Add(u.Scale(lib.sin(theta))).Scale(len);
    eye := lookat.Add(neye.Scale(-1.0));
    r := View(eye, lookat);
  }

  /** The globals of main.cpp that the input callbacks read and write. */
  class AppState {
    var eye: Vec3
    var lookat: Vec3
    var curButton: int
    var lastX: int
    var lastY: int
    var ambientOcclusionState: int
    var depthDiscontinuityRadius: real

    /** The ambient-occlusion flag only ever holds 0 or 1. */
    ghost predicate Valid()
      reads this
    {
      ambientOcclusionState == 0 || ambientOcclusionState == 1
    }

    function CurrentView(): View
      reads this
    {
      View(eye, lookat)
    }

    /** The state when glutMainLoop starts: setupState, the camera set in main,
        no button held, and the zero-initialised last_x, last_y. */
    constructor ()
      ensures Valid()
      ensures eye == Vec3(0.0, 1.5, 1.5) && lookat == Vec3.Zero()
      ensures curButton == NoButton && lastX == 0 && lastY == 0
      ensures ambientOcclusionState == 0 && depthDiscontinuityRadius == 0.01
    {
      ambientOcclusionState := 0;
      depthDiscontinuityRadius := 0.01;
      eye := Vec3(0.0, 1.5, 1.5);
      lookat := Vec3(0.0, 0.0, 0.0);
      curButton := -1;
      lastX := 0;
      lastY := 0;
    }

    /** myGlutMouse: a press records the button, a release of the recorded
        button clears it; the pointer position is remembered either way. */
    method Mouse(button: int, state: int, x: int, y: int)
      modifies this
      ensures curButton == (if state == ButtonDown then button
                            else if button == old(curButton) then NoButton
                            else old(curButton))
      ensures lastX == x && lastY == y
      ensures eye == old(eye) && lookat == old(lookat)
      ensures ambientOcclusionState == old(ambientOcclusionState)
      ensures depthDiscontinuityRadius == old(depthDiscontinuityRadius)
    {
      if state == ButtonDown {
        curButton := button;
      } else {
        if button == curButton {
          curButton := -1;
        }
      }
      lastX := x;
      lastY := y;
    }

    /** myGlutMotion: moves the camera according to the held button by the
        pointer's change since the last event, then remembers the position. */
    method Motion(x: int, y: int, lib: Libm)
      requires lib.Valid() && CanDrag(CurrentView(), curButton, x - lastX, lib)
      modifies this
      ensures CurrentView() == Drag(old(CurrentView()), old(curButton), x - old(lastX), y - old(lastY), lib)
      ensures lastX == x && lastY == y
      ensures curButton == old(curButton)
      ensures ambientOcclusionState == old(ambientOcclusionState)
      ensures depthDiscontinuityRadius == old(depthDiscontinuityRadius)
    {
      var dx := x - lastX;
      var dy := y - lastY;
      var v := View(eye, lookat);
      if curButton == LeftButton {
        v := PanMove(v, dx, dy, lib);
      } else if curButton == MiddleButton {
        v := DollyMove(v, dx, lib);
      } else if curButton == RightButton {
        v := OrbitMove(v, dx, dy, lib);
      }
      eye, lookat := v.eye, v.lookat;
      lastX := x;
      lastY := y;
    }

    /** myGlutKeyboard: 'a' or 'A' toggles ambient occlusion; escape, 'q' or 'Q'
        ask the program to exit (the result), changing nothing; other keys do nothing. */
    method Keyboard(key: int) returns (quit: bool)
      requires Valid()
      modifies this
      ensures Valid()
      ensures quit <==> key == Escape || key == 'q' as int || key == 'Q' as int
      ensures ambientOcclusionState == (if key == 'a' as int || key == 'A' as int
                                        then Toggled(old(ambientOcclusionState))
                                        else old(ambientOcclusionState))
      ensures eye == old(eye) && lookat == old(lookat) && curButton == old(curButton)
      ensures lastX == old(lastX) && lastY == old(lastY)
      ensures depthDiscontinuityRadius == old(depthDiscontinuityRadius)
    {
      quit := false;
      if key == 'a' as int || key == 'A' as int {
        ambientOcclusionState := if ambientOcclusionState == 0 then 1 else 0;
      } else if key == Escape || key == 'q' as int || key == 'Q' as int {
        quit := true;
      }
    }

    /** myGlutSpecial: the up arrow doubles the depth-discontinuity radius, the
        down arrow halves it. */
    method Special(key: int)
      modifies this
      ensures depthDiscontinuityRadius == AdjustedRadius(old(depthDiscontinuityRadius), key)
      ensures eye == old(eye) && lookat == old(lookat) && curButton == old(curButton)
      ensures lastX == old(lastX) && lastY == old(lastY)
      ensures ambientOcclusionState == old(ambientOcclusionState)
    {
      if key == ArrowUp {
        depthDiscontinuityRadius := depthDiscontinuityRadius * 2.0;
      } else if key == ArrowDown {
        depthDiscontinuityRadius := depthDiscontinuityRadius * 0.5;
      }
    }
  }
}
