/** The model-view compositions of the render loop, over 4x4 real matrices.
    `rotate(deg, axis)` is taken as an abstract pair (c, s) for the cosine and
    sine of the angle, so every fact below holds whatever sign convention the
    matrix library uses for its rotations: a different convention is the same
    matrix for the pair (c, -s). */
module Transforms {
  import opened Vectors

  /** A matrix as its four rows. */
  datatype Mat4 = Mat4(r0: Vec4, r1: Vec4, r2: Vec4, r3: Vec4)

  function Dot4(a: Vec4, b: Vec4): real {
    a.x * b.x + a.y * b.y + a.z * b.z + a.w * b.w
  }

  function Col0(m: Mat4): Vec4 { Vec4(m.r0.x, m.r1.x, m.r2.x, m.r3.x) }
  function Col1(m: Mat4): Vec4 { Vec4(m.r0.y, m.r1.y, m.r2.y, m.r3.y) }
  function Col2(m: Mat4): Vec4 { Vec4(m.r0.z, m.r1.z, m.r2.z, m.r3.z) }
  function Col3(m: Mat4): Vec4 { Vec4(m.r0.w, m.r1.w, m.r2.w, m.r3.w) }

  function MulRow(r: Vec4, b: Mat4): Vec4 {
    Vec4(Dot4(r, Col0(b)), Dot4(r, Col1(b)), Dot4(r, Col2(b)), Dot4(r, Col3(b)))
  }

  /** `mult(a, b)`: the matrix product a * b. */
  function Mul(a: Mat4, b: Mat4): Mat4 {
    Mat4(MulRow(a.r0, b), MulRow(a.r1, b), MulRow(a.r2, b), MulRow(a.r3, b))
  }

  /** The matrix applied to a column vector. */
  function Apply(m: Mat4, p: Vec4): Vec4 {
    Vec4(Dot4(m.r0, p), Dot4(m.r1, p), Dot4(m.r2, p), Dot4(m.r3, p))
  }

  /** Distribution of a product over a four-term sum, on either side. */
  lemma DistributeLeft(a: real, b: real, c: real, d: real, k: real)
    ensures (a + b + c + d) * k == a * k + b * k + c * k + d * k
  {
  }

  lemma DistributeRight(k: real, a: real, b: real, c: real, d: real)
    ensures k * (a + b + c + d) == k * a + k * b + k * c + k * d
  {
  }

  /** The sum over i and j of r_i * b_ij * p_j, grouped by column or by row. */
  lemma Regroup(r0: real, r1: real, r2: real, r3: real,
                b00: real, b01: real, b02: real, b03: real, b10: real, b11: real, b12: real, b13: real,
                b20: real, b21: real, b22: real, b23: real, b30: real, b31: real, b32: real, b33: real,
                p0: real, p1: real, p2: real, p3: real)
    ensures (r0 * b00 + r1 * b10 + r2 * b20 + r3 * b30) * p0 + (r0 * b01 + r1 * b11 + r2 * b21 + r3 * b31) * p1 +
            (r0 * b02 + r1 * b12 + r2 * b22 + r3 * b32) * p2 + (r0 * b03 + r1 * b13 + r2 * b23 + r3 * b33) * p3 ==
            r0 * (b00 * p0 + b01 * p1 + b02 * p2 + b03 * p3) + r1 * (b10 * p0 + b11 * p1 + b12 * p2 + b13 * p3) +
            r2 * (b20 * p0 + b21 * p1 + b22 * p2 + b23 * p3) + r3 * (b30 * p0 + b31 * p1 + b32 * p2 + b33 * p3)
  {
    DistributeLeft(r0 * b00, r1 * b10, r2 * b20, r3 * b30, p0);
    DistributeLeft(r0 * b01, r1 * b11, r2 * b21, r3 * b31, p1);
    DistributeLeft(r0 * b02, r1 * b12, r2 * b22, r3 * b32, p2);
    DistributeLeft(r0 * b03, r1 * b13, r2 * b23, r3 * b33, p3);
    DistributeRight(r0, b00 * p0, b01 * p1, b02 * p2, b03 * p3);
    DistributeRight(r1, b10 * p0, b11 * p1, b12 * p2, b13 * p3);
    DistributeRight(r2, b20 * p0, b21 * p1, b22 * p2, b23 * p3);
    DistributeRight(r3, b30 * p0, b31 * p1, b32 * p2, b33 * p3);
  }

  /** A product row applied to p, written out entry by entry. */
  lemma UnfoldProductRow(r: Vec4, b: Mat4, p: Vec4)
    ensures Dot4(MulRow(r, b), p) ==
            (r.x * b.r0.x + r.y * b.r1.x + r.z * b.r2.x + r.w * b.r3.x) * p.x +
            (r.x * b.r0.y + r.y * b.r1.y + r.z * b.r2.y + r.w * b.r3.y) * p.y +
            (r.x * b.r0.z + r.y * b.r1.z + r.z * b.r2.z + r.w * b.r3.z) * p.z +
            (r.x * b.r0.w + r.y * b.r1.w + r.z * b.r2.w + r.w * b.r3.w) * p.w
  {
  }

  /** A row applied to b's image of p, written out entry by entry. */
  lemma UnfoldRowOfImage(r: Vec4, b: Mat4, p: Vec4)
    ensures Dot4(r, Apply(b, p)) ==
            r.x * (b.r0.x * p.x + b.r0.y * p.y + b.r0.z * p.z + b.r0.w * p.w) +
            r.y * (b.r1.x * p.x + b.r1.y * p.y + b.r1.z * p.z + b.r1.w * p.w) +
            r.z * (b.r2.x * p.x + b.r2.y * p.y + b.r2.z * p.z + b.r2.w * p.w) +
            r.w * (b.r3.x * p.x + b.r3.y * p.y + b.r3.z * p.z + b.r3.w * p.w)
  {
  }

  /** One row of a product applied to p is the row applied to b's image of p. */
  lemma DotMulRow(r: Vec4, b: Mat4, p: Vec4)
    ensures Dot4(MulRow(r, b), p) == Dot4(r, Apply(b, p))
  {
    UnfoldProductRow(r, b, p);
    UnfoldRowOfImage(r, b, p);
    Regroup(r.x, r.y, r.z, r.w, b.r0.x, b.r0.y, b.r0.z, b.r0.w, b.r1.x, b.r1.y, b.r1.z, b.r1.w,
            b.r2.x, b.r2.y, b.r2.z, b.r2.w, b.r3.x, b.r3.y, b.r3.z, b.r3.w, p.x, p.y, p.z, p.w);
  }

  /** Applying a product is applying its right factor, then its left one. */
  lemma ApplyMul(a: Mat4, b: Mat4, p: Vec4)
    ensures Apply(Mul(a, b), p) == Apply(a, Apply(b, p))
  {
    DotMulRow(a.r0, b, p);
    DotMulRow(a.r1, b, p);
    DotMulRow(a.r2, b, p);
    DotMulRow(a.r3, b, p);
  }

  /** Column j of a product is the left factor applied to column j of the right one. */
  lemma ColumnsOfMul(b: Mat4, c: Mat4)
    ensures Col0(Mul(b, c)) == Apply(b, Col0(c)) && Col1(Mul(b, c)) == Apply(b, Col1(c))
    ensures Col2(Mul(b, c)) == Apply(b, Col2(c)) && Col3(Mul(b, c)) == Apply(b, Col3(c))
  {
  }

  /** One row of a product of three matrices, grouped either way. */
  lemma MulRowAssoc(r: Vec4, b: Mat4, c: Mat4)
    ensures MulRow(MulRow(r, b), c) == MulRow(r, Mul(b, c))
  {
    ColumnsOfMul(b, c);
    DotMulRow(r, b, Col0(c));
    DotMulRow(r, b, Col1(c));
    DotMulRow(r, b, Col2(c));
    DotMulRow(r, b, Col3(c));
  }

  /** `mult` is associative, so a chain of model-view products may be grouped
      either way. */
  lemma MulAssoc(a: Mat4, b: Mat4, c: Mat4)
    ensures Mul(Mul(a, b), c) == Mul(a, Mul(b, c))
  {
    MulRowAssoc(a.r0, b, c);
    MulRowAssoc(a.r1, b, c);
    MulRowAssoc(a.r2, b, c);
    MulRowAssoc(a.r3, b, c);
  }

  const Identity: Mat4 :=
    Mat4(Vec4(1.0, 0.0, 0.0, 0.0), Vec4(0.0, 1.0, 0.0, 0.0), Vec4(0.0, 0.0, 1.0, 0.0), Vec4(0.0, 0.0, 0.0, 1.0))

  /** `translate(x, y, z)`. */
  function Translate(x: real, y: real, z: real): Mat4 {
    Mat4(Vec4(1.0, 0.0, 0.0, x), Vec4(0.0, 1.0, 0.0, y), Vec4(0.0, 0.0, 1.0, z), Vec4(0.0, 0.0, 0.0, 1.0))
  }

  /** `rotate(angle, vec3(0, 1, 0))` for t = (cos, sin) of the angle. */
  function RotateY(t: Vec2): Mat4 {
    Mat4(Vec4(t.x, 0.0, t.y, 0.0), Vec4(0.0, 1.0, 0.0, 0.0), Vec4(-t.y, 0.0, t.x, 0.0), Vec4(0.0, 0.0, 0.0, 1.0))
  }

  /** `rotate(angle, vec3(0, 0, 1))` for t = (cos, sin) of the angle. */
  function RotateZ(t: Vec2): Mat4 {
    Mat4(Vec4(t.x, -t.y, 0.0, 0.0), Vec4(t.y, t.x, 0.0, 0.0), Vec4(0.0, 0.0, 1.0, 0.0), Vec4(0.0, 0.0, 0.0, 1.0))
  }

  /** The pair is the cosine and sine of some angle. */
  predicate Unit(t: Vec2) {
    t.x * t.x + t.y * t.y == 1.0
  }

  /** Height of the yaw pivot and of the rotor axis. */
  const YawPivot: real := 0.2
  const RotorPivot: real := 0.25

  /** yawTransform: translate(0, 0.2, 0) * rotate(yaw, y) * translate(0, -0.2, 0). */
  function YawTransform(t: Vec2): Mat4 {
    Mul(Translate(0.0, YawPivot, 0.0), Mul(RotateY(t), Translate(0.0, -YawPivot, 0.0)))
  }

  /** hubTransform: translate(0, 0.25, 0) * rotate(rotorAngle, z) * translate(0, -0.25, 0). */
  function HubTransform(t: Vec2): Mat4 {
    Mul(Translate(0.0, RotorPivot, 0.0), Mul(RotateZ(t), Translate(0.0, -RotorPivot, 0.0)))
  }

  /** bladeTransform: translate(0, 0.25, 0) * rotate(bladeAngle + i * 90, z). */
  function BladeTransform(t: Vec2): Mat4 {
    Mul(Translate(0.0, RotorPivot, 0.0), RotateZ(t))
  }

  /** The angle, in degrees, of blade i of the four. */
  function BladeTurn(bladeAngle: real, i: nat): real {
    bladeAngle + i as real * 90.0
  }

  /** A plane rotation by (c, s) scales squared lengths by c*c + s*s. */
  lemma RotationKeepsLength(c: real, s: real, a: real, b: real)
    ensures (c * a - s * b) * (c * a - s * b) + (s * a + c * b) * (s * a + c * b) == (c * c + s * s) * (a * a + b * b)
  {
    var ca, sb, sa, cb := c * a, s * b, s * a, c * b;
    assert (ca - sb) * (ca - sb) == ca * ca - 2.0 * ca * sb + sb * sb;
    assert (sa + cb) * (sa + cb) == sa * sa + 2.0 * sa * cb + cb * cb;
    assert ca * sb == sa * cb;
    assert ca * ca == c * c * (a * a) && sb * sb == s * s * (b * b);
    assert sa * sa == s * s * (a * a) && cb * cb == c * c * (b * b);
  }

  /** The yaw pivot lies on the rotation axis, so the pivoted yaw is the plain
      rotation about y. */
  lemma YawIsRotation(t: Vec2)
    ensures YawTransform(t) == RotateY(t)
  {
    var inner := Mul(RotateY(t), Translate(0.0, -YawPivot, 0.0));
    assert inner == Mat4(Vec4(t.x, 0.0, t.y, 0.0), Vec4(0.0, 1.0, 0.0, -YawPivot),
                         Vec4(-t.y, 0.0, t.x, 0.0), Vec4(0.0, 0.0, 0.0, 1.0));
  }

  /** m turns p about the vertical axis x = z = 0 as the rotation (c, s) = t
      does: the height is kept, a point on the axis is fixed, and for a true
      rotation the horizontal distance to the axis is kept. */
  ghost predicate TurnsAboutVertical(m: Mat4, t: Vec2, p: Vec4) {
    var q := Apply(m, p);
    q.y == p.y && q.w == p.w && (p.x == 0.0 && p.z == 0.0 ==> q == p) &&
    (Unit(t) ==> q.x * q.x + q.z * q.z == p.x * p.x + p.z * p.z)
  }

  /** m turns the point p about the rotor axis x = 0, y = 0.25 as the rotation
      t does: z is kept, a point on the axis is fixed, and for a true rotation
      the distance to the axis is kept. */
  ghost predicate TurnsAboutRotor(m: Mat4, t: Vec2, p: Vec4) {
    var q := Apply(m, p);
    q.z == p.z && q.w == 1.0 && (p.x == 0.0 && p.y == RotorPivot ==> q == p) &&
    (Unit(t) ==> q.x * q.x + (q.y - RotorPivot) * (q.y - RotorPivot) == p.x * p.x + (p.y - RotorPivot) * (p.y - RotorPivot))
  }

  /** m turns the point p of a blade about the blade's origin and lifts the
      origin onto the rotor pivot: z is kept, and for a true rotation the
      distance from the pivot equals the distance from the blade's origin. */
  ghost predicate PlacesOnPivot(m: Mat4, t: Vec2, p: Vec4) {
    var q := Apply(m, p);
    q.z == p.z && q.w == 1.0 &&
    (Unit(t) ==> q.x * q.x + (q.y - RotorPivot) * (q.y - RotorPivot) == p.x * p.x + p.y * p.y)
  }

  lemma RotateYTurns(t: Vec2, p: Vec4)
    ensures TurnsAboutVertical(RotateY(t), t, p)
  {
    var q := Apply(RotateY(t), p);
    var c, s, x, z := t.x, t.y, p.x, p.z;
    assert q.x == s * z + c * x;
    assert q.z == c * z - s * x;
    RotationKeepsLength(c, s, z, x);
    assert q.x * q.x + q.z * q.z == (c * c + s * s) * (z * z + x * x);
  }

  /** The yaw turns every point about the vertical axis through the pivot. */
  lemma YawTurns(t: Vec2, p: Vec4)
    ensures TurnsAboutVertical(YawTransform(t), t, p)
  {
    YawIsRotation(t);
    RotateYTurns(t, p);
  }

  /** The hub matrix written out. */
  function HubMatrix(t: Vec2): Mat4 {
    Mat4(Vec4(t.x, -t.y, 0.0, RotorPivot * t.y), Vec4(t.y, t.x, 0.0, RotorPivot - RotorPivot * t.x),
         Vec4(0.0, 0.0, 1.0, 0.0), Vec4(0.0, 0.0, 0.0, 1.0))
  }

  lemma HubForm(t: Vec2)
    ensures HubTransform(t) == HubMatrix(t)
  {
    var inner := Mul(RotateZ(t), Translate(0.0, -RotorPivot, 0.0));
    assert inner == Mat4(Vec4(t.x, -t.y, 0.0, RotorPivot * t.y), Vec4(t.y, t.x, 0.0, -RotorPivot * t.x),
                         Vec4(0.0, 0.0, 1.0, 0.0), Vec4(0.0, 0.0, 0.0, 1.0));
  }

  lemma HubMatrixTurns(t: Vec2, p: Vec4)
    requires p.w == 1.0
    ensures TurnsAboutRotor(HubMatrix(t), t, p)
  {
    var q := Apply(HubMatrix(t), p);
    var c, s, x, dy := t.x, t.y, p.x, p.y - RotorPivot;
    assert q.x == c * x - s * dy;
    assert q.y - RotorPivot == s * x + c * dy;
    RotationKeepsLength(c, s, x, dy);
    assert q.x * q.x + (q.y - RotorPivot) * (q.y - RotorPivot) == (c * c + s * s) * (x * x + dy * dy);
  }

  /** The hub spins in its own plane about the rotor axis. */
  lemma HubTurns(t: Vec2, p: Vec4)
    requires p.w == 1.0
    ensures TurnsAboutRotor(HubTransform(t), t, p)
  {
    HubForm(t);
    HubMatrixTurns(t, p);
  }

  /** The blade matrix written out. */
  function BladeMatrix(t: Vec2): Mat4 {
    Mat4(Vec4(t.x, -t.y, 0.0, 0.0), Vec4(t.y, t.x, 0.0, RotorPivot), Vec4(0.0, 0.0, 1.0, 0.0), Vec4(0.0, 0.0, 0.0, 1.0))
  }

  /** The blade placement is the hub's rotation applied to the blade lifted
      onto the pivot, so blades and hub turn as one rotor. */
  lemma BladeIsHubLifted(t: Vec2)
    ensures BladeTransform(t) == BladeMatrix(t)
    ensures BladeTransform(t) == Mul(HubTransform(t), Translate(0.0, RotorPivot, 0.0))
  {
    HubForm(t);
  }

  lemma BladeMatrixPlaces(t: Vec2, p: Vec4)
    requires p.w == 1.0
    ensures PlacesOnPivot(BladeMatrix(t), t, p)
  {
    var q := Apply(BladeMatrix(t), p);
    var c, s, x, y := t.x, t.y, p.x, p.y;
    assert q.x == c * x - s * y;
    assert q.y - RotorPivot == s * x + c * y;
    RotationKeepsLength(c, s, x, y);
    assert q.x * q.x + (q.y - RotorPivot) * (q.y - RotorPivot) == (c * c + s * s) * (x * x + y * y);
  }

  /** A blade's origin lands on the rotor pivot (0, 0.25, 0) and the blade
      turns rigidly about it. */
  lemma BladeOnPivot(t: Vec2, p: Vec4)
    requires p.w == 1.0
    ensures Apply(BladeTransform(t), Point(0.0, 0.0, 0.0)) == Point(0.0, RotorPivot, 0.0)
    ensures PlacesOnPivot(BladeTransform(t), t, p)
  {
    BladeIsHubLifted(t);
    BladeMatrixPlaces(t, p);
  }

  /** Which model-view composition a draw call uses: the view alone (the
      base), the yawed view (motor housing, rod, frame), the yawed view with
      the hub spin, or the yawed view with one blade's placement. Angles are
      in degrees. */
  datatype Pose =
    | Still
    | Yawed(yaw: real)
    | HubSpun(yaw: real, rotorAngle: real)
    | BladeSpun(yaw: real, bladeTurn: real)

  /** The model-view matrix of a pose under the camera's view matrix. */
  function ModelView(view: Mat4, turn: real -> Vec2, pose: Pose): Mat4 {
    match pose
    case Still => view
    case Yawed(yaw) => Mul(view, YawTransform(turn(yaw)))
    case HubSpun(yaw, rotorAngle) => Mul(Mul(view, YawTransform(turn(yaw))), HubTransform(turn(rotorAngle)))
    case BladeSpun(yaw, bladeTurn) => Mul(Mul(view, YawTransform(turn(yaw))), BladeTransform(turn(bladeTurn)))
  }

  /** A blade's model-view matrix is the hub's, for the same angle, after
      lifting the blade onto the rotor pivot: blades and hub are drawn as one
      rotor under the same yawed view. */
  lemma BladeViewIsHubView(view: Mat4, turn: real -> Vec2, yaw: real, angle: real)
    ensures ModelView(view, turn, BladeSpun(yaw, angle)) ==
      Mul(ModelView(view, turn, HubSpun(yaw, angle)), Translate(0.0, RotorPivot, 0.0))
  {
    var yawed, hub, lift := Mul(view, YawTransform(turn(yaw))), HubTransform(turn(angle)), Translate(0.0, RotorPivot, 0.0);
    assert BladeTransform(turn(angle)) == Mul(hub, lift) by {
      BladeIsHubLifted(turn(angle));
    }
    assert ModelView(view, turn, BladeSpun(yaw, angle)) == Mul(yawed, Mul(hub, lift));
    MulAssoc(yawed, hub, lift);
  }

  /** On screen the hub spins about the yawed rotor axis, which stays where
      the yawed frame puts it, and every blade's origin is drawn at the yawed
      rotor pivot, whatever the rotor and blade angles. */
  lemma PivotsOnScreen(view: Mat4, turn: real -> Vec2, yaw: real, rotorAngle: real, bladeTurn: real, z: real)
    ensures Apply(ModelView(view, turn, HubSpun(yaw, rotorAngle)), Point(0.0, RotorPivot, z)) ==
      Apply(ModelView(view, turn, Yawed(yaw)), Point(0.0, RotorPivot, z))
    ensures Apply(ModelView(view, turn, BladeSpun(yaw, bladeTurn)), Point(0.0, 0.0, 0.0)) ==
      Apply(ModelView(view, turn, Yawed(yaw)), Point(0.0, RotorPivot, 0.0))
  {
    var yawed := Mul(view, YawTransform(turn(yaw)));
    ApplyMul(yawed, HubTransform(turn(rotorAngle)), Point(0.0, RotorPivot, z));
    HubTurns(turn(rotorAngle), Point(0.0, RotorPivot, z));
    ApplyMul(yawed, BladeTransform(turn(bladeTurn)), Point(0.0, 0.0, 0.0));
    BladeOnPivot(turn(bladeTurn), Point(0.0, 0.0, 0.0));
  }

  /** The four blades sit a quarter turn apart, and a fifth would land on the
      first one turned a full circle. */
  lemma BladesQuarterApart(bladeAngle: real, i: nat)
    ensures BladeTurn(bladeAngle, i + 1) - BladeTurn(bladeAngle, i) == 90.0
    ensures BladeTurn(bladeAngle, 4) == BladeTurn(bladeAngle, 0) + 360.0
  {
  }
}
