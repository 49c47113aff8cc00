/** What each primitive emitter of kipasAngin.js appends to the three streams,
    as a function of its arguments. Every loop emitter is a `Sweep` of a step
    function: `XSteps(args)(i)` is what iteration i pushes. The trigonometry
    comes from the `circle` table; `normalize` stays symbolic. */
module Shapes {
  import opened Vectors
  import opened Meshes

  const Up: Normal := Exact(Vec3(0.0, 1.0, 0.0))
  const Down: Normal := Exact(Vec3(0.0, -1.0, 0.0))
  const Front: Normal := Exact(Vec3(0.0, 0.0, 1.0))
  const Back: Normal := Exact(Vec3(0.0, 0.0, -1.0))

  /** The lateral normal at `p` of a cylinder along y through `c`: normalize of
      the horizontal offset of `p` from the axis. */
  predicate RadialY(n: Normal, p: Vec4, c: Vec3) {
    n == NormalizeOf(Vec3(p.x - c.x, 0.0, p.z - c.z))
  }

  /** The lateral normal at `p` of a cylinder along z through `c`. */
  predicate RadialZ(n: Normal, p: Vec4, c: Vec3) {
    n == NormalizeOf(Vec3(p.x - c.x, p.y - c.y, 0.0))
  }

  /** `n` is pushed as given, lies in the xy plane, and `p` sits at signed
      distance `r` from `c` along it (in x and y). For a unit `n` this is the
      wall normal of a ring of radius |r| about `c`; r < 0 means `n` points
      towards the centre. */
  predicate OnRadial(n: Normal, p: Vec4, c: Vec3, r: real) {
    n.Exact? && n.v.z == 0.0 && p.x - c.x == r * n.v.x && p.y - c.y == r * n.v.y
  }

  /** `n` is normalize(v) for a v pointing away from `c` as seen from `p`. */
  predicate Outward(n: Normal, p: Vec4, c: Vec3) {
    n.NormalizeOf? && Dot(n.v, From(c, p)) > 0.0
  }

  /** The point at distance r from c along the direction d, at height z. */
  function RingPoint(c: Vec3, r: real, d: Vec2, z: real): Vec4 {
    Point(c.x + r * d.x, c.y + r * d.y, z)
  }

  // ---------------------------------------------------------------- addCylinderY

  /** Iteration i of the lateral-strip loop of addCylinderY. */
  function CylinderYSide(radius: real, height: real, segments: nat, center: Vec3, color: Color, circle: Circle, i: nat): Mesh {
    var a, b := circle(i, segments), circle(i + 1, segments);
    var x1, z1, x2, z2 := a.x * radius, a.y * radius, b.x * radius, b.y * radius;
    var yBottom, yTop := center.y - height / 2.0, center.y + height / 2.0;
    var n1, n2 := NormalizeOf(Vec3(x1, 0.0, z1)), NormalizeOf(Vec3(x2, 0.0, z2));
    Quad(Point(center.x + x1, yBottom, center.z + z1), Point(center.x + x2, yBottom, center.z + z2),
         Point(center.x + x2, yTop, center.z + z2), Point(center.x + x1, yTop, center.z + z1),
         n1, n2, n2, n1, color)
  }

  function CylinderYSides(radius: real, height: real, segments: nat, center: Vec3, color: Color, circle: Circle): nat -> Mesh {
    (i: nat) => CylinderYSide(radius, height, segments, center, color, circle, i)
  }

  /** Iteration i of the top-cap loop of addCylinderY. */
  function CylinderYTop(radius: real, height: real, segments: nat, center: Vec3, color: Color, circle: Circle, i: nat): Mesh {
    var a, b := circle(i, segments), circle(i + 1, segments);
    var x1, z1, x2, z2 := a.x * radius, a.y * radius, b.x * radius, b.y * radius;
    var yTop := center.y + height / 2.0;
    Triangle(Point(center.x, yTop, center.z), Point(center.x + x1, yTop, center.z + z1),
             Point(center.x + x2, yTop, center.z + z2), Up, Up, Up, color)
  }

  function CylinderYTops(radius: real, height: real, segments: nat, center: Vec3, color: Color, circle: Circle): nat -> Mesh {
    (i: nat) => CylinderYTop(radius, height, segments, center, color, circle, i)
  }

  /** Iteration i of the bottom-cap loop of addCylinderY. */
  function CylinderYBottom(radius: real, height: real, segments: nat, center: Vec3, color: Color, circle: Circle, i: nat): Mesh {
    var a, b := circle(i, segments), circle(i + 1, segments);
    var x1, z1, x2, z2 := a.x * radius, a.y * radius, b.x * radius, b.y * radius;
    var yBottom := center.y - height / 2.0;
    Triangle(Point(center.x, yBottom, center.z), Point(center.x + x2, yBottom, center.z + z2),
             Point(center.x + x1, yBottom, center.z + z1), Down, Down, Down, color)
  }

  function CylinderYBottoms(radius: real, height: real, segments: nat, center: Vec3, color: Color, circle: Circle): nat -> Mesh {
    (i: nat) => CylinderYBottom(radius, height, segments, center, color, circle, i)
  }

  /** addCylinderY: all lateral quads, then the top cap fan, then the bottom cap fan. */
  function CylinderY(radius: real, height: real, segments: nat, center: Vec3, color: Color, circle: Circle): Mesh {
    Sweep(segments, CylinderYSides(radius, height, segments, center, color, circle))
      .Append(Sweep(segments, CylinderYTops(radius, height, segments, center, color, circle)))
      .Append(Sweep(segments, CylinderYBottoms(radius, height, segments, center, color, circle)))
  }

  lemma CylinderYSidesShape(radius: real, height: real, segments: nat, center: Vec3, color: Color, circle: Circle)
    ensures var m := Sweep(segments, CylinderYSides(radius, height, segments, center, color, circle));
      m.Valid() && m.Size() == 6 * segments && Colored(m, color) &&
      forall j :: 0 <= j < m.Size() ==> RadialY(m.normals[j], m.points[j], center)
  {
    var steps := CylinderYSides(radius, height, segments, center, color, circle);
    forall i | 0 <= i < segments
      ensures steps(i).Valid() && steps(i).Size() == 6 && Colored(steps(i), color)
      ensures forall r :: 0 <= r < 6 ==> RadialY(steps(i).normals[r], steps(i).points[r], center)
    {
    }
    SweepSize(segments, steps, 6);
    SweepColored(segments, steps, color);
    forall j | 0 <= j < 6 * segments ensures RadialY(Sweep(segments, steps).normals[j], Sweep(segments, steps).points[j], center) {
      SweepIndex(segments, steps, 6, j);
    }
  }

  lemma CylinderYTopsShape(radius: real, height: real, segments: nat, center: Vec3, color: Color, circle: Circle)
    ensures var m := Sweep(segments, CylinderYTops(radius, height, segments, center, color, circle));
      m.Valid() && m.Size() == 3 * segments && Colored(m, color) &&
      forall j :: 0 <= j < m.Size() ==> m.normals[j] == Up && m.points[j].y == center.y + height / 2.0
  {
    var steps := CylinderYTops(radius, height, segments, center, color, circle);
    forall i | 0 <= i < segments
      ensures steps(i).Valid() && steps(i).Size() == 3 && Colored(steps(i), color)
      ensures forall r :: 0 <= r < 3 ==> steps(i).normals[r] == Up && steps(i).points[r].y == center.y + height / 2.0
    {
    }
    SweepSize(segments, steps, 3);
    SweepColored(segments, steps, color);
    forall j | 0 <= j < 3 * segments
      ensures Sweep(segments, steps).normals[j] == Up && Sweep(segments, steps).points[j].y == center.y + height / 2.0
    {
      SweepIndex(segments, steps, 3, j);
    }
  }

  lemma CylinderYBottomsShape(radius: real, height: real, segments: nat, center: Vec3, color: Color, circle: Circle)
    ensures var m := Sweep(segments, CylinderYBottoms(radius, height, segments, center, color, circle));
      m.Valid() && m.Size() == 3 * segments && Colored(m, color) &&
      forall j :: 0 <= j < m.Size() ==> m.normals[j] == Down && m.points[j].y == center.y - height / 2.0
  {
    var steps := CylinderYBottoms(radius, height, segments, center, color, circle);
    forall i | 0 <= i < segments
      ensures steps(i).Valid() && steps(i).Size() == 3 && Colored(steps(i), color)
      ensures forall r :: 0 <= r < 3 ==> steps(i).normals[r] == Down && steps(i).points[r].y == center.y - height / 2.0
    {
    }
    SweepSize(segments, steps, 3);
    SweepColored(segments, steps, color);
    forall j | 0 <= j < 3 * segments
      ensures Sweep(segments, steps).normals[j] == Down && Sweep(segments, steps).points[j].y == center.y - height / 2.0
    {
      SweepIndex(segments, steps, 3, j);
    }
  }

  /** addCylinderY pushes 12 vertices per segment in its colour: the lateral
      strip first, with radial normals perpendicular to the y axis, then the
      top fan with normal (0, 1, 0) at the top height, then the bottom fan with
      normal (0, -1, 0) at the bottom height. */
  lemma CylinderYShape(radius: real, height: real, segments: nat, center: Vec3, color: Color, circle: Circle)
    ensures var m := CylinderY(radius, height, segments, center, color, circle);
      m.Valid() && m.Size() == 12 * segments && Colored(m, color)
    ensures var m := CylinderY(radius, height, segments, center, color, circle);
      forall j :: 0 <= j < 6 * segments ==> RadialY(m.normals[j], m.points[j], center)
    ensures var m := CylinderY(radius, height, segments, center, color, circle);
      forall j :: 6 * segments <= j < 9 * segments ==>
        m.normals[j] == Up && m.points[j].y == center.y + height / 2.0
    ensures var m := CylinderY(radius, height, segments, center, color, circle);
      forall j :: 9 * segments <= j < 12 * segments ==>
        m.normals[j] == Down && m.points[j].y == center.y - height / 2.0
  {
    CylinderYSidesShape(radius, height, segments, center, color, circle);
    CylinderYTopsShape(radius, height, segments, center, color, circle);
    CylinderYBottomsShape(radius, height, segments, center, color, circle);
    var s := Sweep(segments, CylinderYSides(radius, height, segments, center, color, circle));
    var t := Sweep(segments, CylinderYTops(radius, height, segments, center, color, circle));
    var b := Sweep(segments, CylinderYBottoms(radius, height, segments, center, color, circle));
    AppendColored(s, t, color);
    AppendColored(s.Append(t), b, color);
    var m := s.Append(t).Append(b);
    forall j | 6 * segments <= j < 9 * segments
      ensures m.normals[j] == Up && m.points[j].y == center.y + height / 2.0
    {
      assert m.normals[j] == t.normals[j - 6 * segments] && m.points[j] == t.points[j - 6 * segments];
    }
    forall j | 9 * segments <= j < 12 * segments
      ensures m.normals[j] == Down && m.points[j].y == center.y - height / 2.0
    {
      assert m.normals[j] == b.normals[j - 9 * segments] && m.points[j] == b.points[j - 9 * segments];
    }
  }

  // ---------------------------------------------------------------- addCylinder

  /** Iteration i of addCylinder: lateral quad, top-cap triangle, bottom-cap triangle. */
  function CylinderStep(radius: real, height: real, segments: nat, center: Vec3, color: Color, circle: Circle, i: nat): Mesh {
    var a, b := circle(i, segments), circle(i + 1, segments);
    var x1, z1, x2, z2 := radius * a.x, radius * a.y, radius * b.x, radius * b.y;
    var yBottom, yTop := center.y - height / 2.0, center.y + height / 2.0;
    var p1 := Point(center.x + x1, yBottom, center.z + z1);
    var p2 := Point(center.x + x2, yBottom, center.z + z2);
    var p3 := Point(center.x + x2, yTop, center.z + z2);
    var p4 := Point(center.x + x1, yTop, center.z + z1);
    var n1, n2 := NormalizeOf(Vec3(x1, 0.0, z1)), NormalizeOf(Vec3(x2, 0.0, z2));
    Quad(p1, p2, p3, p4, n1, n2, n2, n1, color)
      .Append(Triangle(Point(center.x, yTop, center.z), p4, p3, Up, Up, Up, color))
      .Append(Triangle(Point(center.x, yBottom, center.z), p2, p1, Down, Down, Down, color))
  }

  function CylinderSteps(radius: real, height: real, segments: nat, center: Vec3, color: Color, circle: Circle): nat -> Mesh {
    (i: nat) => CylinderStep(radius, height, segments, center, color, circle, i)
  }

  function Cylinder(radius: real, height: real, segments: nat, center: Vec3, color: Color, circle: Circle): Mesh {
    Sweep(segments, CylinderSteps(radius, height, segments, center, color, circle))
  }

  /** Vertex r of iteration i of Cylinder. */
  lemma CylinderStepAt(radius: real, height: real, segments: nat, center: Vec3, color: Color, circle: Circle, i: nat, r: nat)
    requires r < 12
    ensures var st := CylinderStep(radius, height, segments, center, color, circle, i);
      st.Valid() && st.Size() == 12 && Colored(st, color) &&
      (r < 6 ==> RadialY(st.normals[r], st.points[r], center)) &&
      (6 <= r < 9 ==> st.normals[r] == Up && st.points[r].y == center.y + height / 2.0) &&
      (9 <= r ==> st.normals[r] == Down && st.points[r].y == center.y - height / 2.0)
  {
  }

  lemma CylinderShape(radius: real, height: real, segments: nat, center: Vec3, color: Color, circle: Circle)
    ensures var m := Cylinder(radius, height, segments, center, color, circle);
      m.Valid() && m.Size() == 12 * segments && Colored(m, color)
    ensures var m := Cylinder(radius, height, segments, center, color, circle);
      forall j :: 0 <= j < m.Size() && j % 12 < 6 ==> RadialY(m.normals[j], m.points[j], center)
    ensures var m := Cylinder(radius, height, segments, center, color, circle);
      forall j :: 0 <= j < m.Size() && 6 <= j % 12 < 9 ==>
        m.normals[j] == Up && m.points[j].y == center.y + height / 2.0
    ensures var m := Cylinder(radius, height, segments, center, color, circle);
      forall j :: 0 <= j < m.Size() && 9 <= j % 12 ==>
        m.normals[j] == Down && m.points[j].y == center.y - height / 2.0
  {
    var steps := CylinderSteps(radius, height, segments, center, color, circle);
    forall i | 0 <= i < segments
      ensures steps(i).Valid() && steps(i).Size() == 12 && Colored(steps(i), color)
    {
      CylinderStepAt(radius, height, segments, center, color, circle, i, 0);
    }
    SweepSize(segments, steps, 12);
    SweepColored(segments, steps, color);
    var m := Sweep(segments, steps);
    forall j | 0 <= j < 12 * segments
      ensures j % 12 < 6 ==> RadialY(m.normals[j], m.points[j], center)
      ensures 6 <= j % 12 < 9 ==> m.normals[j] == Up && m.points[j].y == center.y + height / 2.0
      ensures 9 <= j % 12 ==> m.normals[j] == Down && m.points[j].y == center.y - height / 2.0
    {
      SweepIndex(segments, steps, 12, j);
      CylinderStepAt(radius, height, segments, center, color, circle, j / 12, j % 12);
    }
  }

  // ---------------------------------------------------------------- addCylinderZ

  /** Iteration i of addCylinderZ: lateral quad, front-cap triangle, back-cap triangle. */
  function CylinderZStep(radius: real, height: real, segments: nat, center: Vec3, color: Color, circle: Circle, i: nat): Mesh {
    var a, b := circle(i, segments), circle(i + 1, segments);
    var x1, y1, x2, y2 := radius * a.x, radius * a.y, radius * b.x, radius * b.y;
    var zFront, zBack := center.z + height / 2.0, center.z - height / 2.0;
    var p1 := Point(center.x + x1, center.y + y1, zBack);
    var p2 := Point(center.x + x2, center.y + y2, zBack);
    var p3 := Point(center.x + x2, center.y + y2, zFront);
    var p4 := Point(center.x + x1, center.y + y1, zFront);
    var n1, n2 := NormalizeOf(Vec3(x1, y1, 0.0)), NormalizeOf(Vec3(x2, y2, 0.0));
    Quad(p1, p2, p3, p4, n1, n2, n2, n1, color)
      .Append(Triangle(Point(center.x, center.y, zFront), p4, p3, Front, Front, Front, color))
      .Append(Triangle(Point(center.x, center.y, zBack), p2, p1, Back, Back, Back, color))
  }

  function CylinderZSteps(radius: real, height: real, segments: nat, center: Vec3, color: Color, circle: Circle): nat -> Mesh {
    (i: nat) => CylinderZStep(radius, height, segments, center, color, circle, i)
  }

  function CylinderZ(radius: real, height: real, segments: nat, center: Vec3, color: Color, circle: Circle): Mesh {
    Sweep(segments, CylinderZSteps(radius, height, segments, center, color, circle))
  }

  /** Vertex r of iteration i of CylinderZ. */
  lemma CylinderZStepAt(radius: real, height: real, segments: nat, center: Vec3, color: Color, circle: Circle, i: nat, r: nat)
    requires r < 12
    ensures var st := CylinderZStep(radius, height, segments, center, color, circle, i);
      st.Valid() && st.Size() == 12 && Colored(st, color) &&
      (r < 6 ==> RadialZ(st.normals[r], st.points[r], center)) &&
      (6 <= r < 9 ==> st.normals[r] == Front && st.points[r].z == center.z + height / 2.0) &&
      (9 <= r ==> st.normals[r] == Back && st.points[r].z == center.z - height / 2.0)
  {
  }

  lemma CylinderZShape(radius: real, height: real, segments: nat, center: Vec3, color: Color, circle: Circle)
    ensures var m := CylinderZ(radius, height, segments, center, color, circle);
      m.Valid() && m.Size() == 12 * segments && Colored(m, color)
    ensures var m := CylinderZ(radius, height, segments, center, color, circle);
      forall j :: 0 <= j < m.Size() && j % 12 < 6 ==> RadialZ(m.normals[j], m.points[j], center)
    ensures var m := CylinderZ(radius, height, segments, center, color, circle);
      forall j :: 0 <= j < m.Size() && 6 <= j % 12 < 9 ==>
        m.normals[j] == Front && m.points[j].z == center.z + height / 2.0
    ensures var m := CylinderZ(radius, height, segments, center, color, circle);
      forall j :: 0 <= j < m.Size() && 9 <= j % 12 ==>
        m.normals[j] == Back && m.points[j].z == center.z - height / 2.0
  {
    var steps := CylinderZSteps(radius, height, segments, center, color, circle);
    forall i | 0 <= i < segments
      ensures steps(i).Valid() && steps(i).Size() == 12 && Colored(steps(i), color)
    {
      CylinderZStepAt(radius, height, segments, center, color, circle, i, 0);
    }
    SweepSize(segments, steps, 12);
    SweepColored(segments, steps, color);
    var m := Sweep(segments, steps);
    forall j | 0 <= j < 12 * segments
      ensures j % 12 < 6 ==> RadialZ(m.normals[j], m.points[j], center)
      ensures 6 <= j % 12 < 9 ==> m.normals[j] == Front && m.points[j].z == center.z + height / 2.0
      ensures 9 <= j % 12 ==> m.normals[j] == Back && m.points[j].z == center.z - height / 2.0
    {
      SweepIndex(segments, steps, 12, j);
      CylinderZStepAt(radius, height, segments, center, color, circle, j / 12, j % 12);
    }
  }

  // ---------------------------------------------------------------- addCircleRingXY

  /** The front face of one ring segment, facing (0, 0, 1) at height z. */
  function RingFrontFace(center: Vec3, radius: real, inner: real, a: Vec2, b: Vec2, z: real, color: Color): (m: Mesh)
    ensures m.Valid() && m.Size() == 6 && Colored(m, color)
    ensures forall r :: 0 <= r < 6 ==> m.normals[r] == Front && m.points[r].z == z
  {
    FlatQuad(RingPoint(center, inner, a, z), RingPoint(center, radius, a, z),
             RingPoint(center, radius, b, z), RingPoint(center, inner, b, z), Front, color)
  }

  /** The back face of one ring segment, facing (0, 0, -1) at height z. */
  function RingBackFace(center: Vec3, radius: real, inner: real, a: Vec2, b: Vec2, z: real, color: Color): (m: Mesh)
    ensures m.Valid() && m.Size() == 6 && Colored(m, color)
    ensures forall r :: 0 <= r < 6 ==> m.normals[r] == Back && m.points[r].z == z
  {
    FlatQuad(RingPoint(center, radius, a, z), RingPoint(center, inner, a, z),
             RingPoint(center, inner, b, z), RingPoint(center, radius, b, z), Back, color)
  }

  /** The outer wall of one ring segment, from height z1 to z2 at distance r,
      with the unit directions a and b as its normals. */
  function OuterWall(center: Vec3, r: real, a: Vec2, b: Vec2, z1: real, z2: real, color: Color): (m: Mesh)
    ensures m.Valid() && m.Size() == 6 && Colored(m, color)
    ensures forall k :: 0 <= k < 6 ==> OnRadial(m.normals[k], m.points[k], center, r)
  {
    var n1, n2 := Exact(Vec3(a.x, a.y, 0.0)), Exact(Vec3(b.x, b.y, 0.0));
    Quad(RingPoint(center, r, a, z1), RingPoint(center, r, a, z2),
         RingPoint(center, r, b, z2), RingPoint(center, r, b, z1), n1, n1, n2, n2, color)
  }

  /** The inner wall of one ring segment, from height z1 to z2 at distance r,
      with the negated directions as its normals. */
  function InnerWall(center: Vec3, r: real, a: Vec2, b: Vec2, z1: real, z2: real, color: Color): (m: Mesh)
    ensures m.Valid() && m.Size() == 6 && Colored(m, color)
    ensures forall k :: 0 <= k < 6 ==> OnRadial(m.normals[k], m.points[k], center, -r)
  {
    var n1, n2 := Exact(Vec3(-a.x, -a.y, 0.0)), Exact(Vec3(-b.x, -b.y, 0.0));
    NegMul(r, a.x);
    NegMul(r, a.y);
    NegMul(r, b.x);
    NegMul(r, b.y);
    Quad(RingPoint(center, r, a, z1), RingPoint(center, r, a, z2),
         RingPoint(center, r, b, z2), RingPoint(center, r, b, z1), n1, n1, n2, n2, color)
  }

  lemma NegMul(r: real, x: real)
    ensures r * x == (-r) * (-x)
  {
  }

  /** Iteration i of addCircleRingXY: front face, back face, outer wall, inner wall. */
  function CircleRingStep(radius: real, thickness: real, segments: nat, center: Vec3, color: Color, circle: Circle, i: nat): Mesh {
    var inner := radius - thickness;
    var a, b := circle(i, segments), circle(i + 1, segments);
    var zFront, zBack := center.z + thickness / 2.0, center.z - thickness / 2.0;
    RingFrontFace(center, radius, inner, a, b, zFront, color)
      .Append(RingBackFace(center, radius, inner, a, b, zBack, color))
      .Append(OuterWall(center, radius, a, b, zBack, zFront, color))
      .Append(InnerWall(center, inner, a, b, zFront, zBack, color))
  }

  function CircleRingSteps(radius: real, thickness: real, segments: nat, center: Vec3, color: Color, circle: Circle): nat -> Mesh {
    (i: nat) => CircleRingStep(radius, thickness, segments, center, color, circle, i)
  }

  function CircleRingXY(radius: real, thickness: real, segments: nat, center: Vec3, color: Color, circle: Circle): Mesh {
    Sweep(segments, CircleRingSteps(radius, thickness, segments, center, color, circle))
  }

  /** Vertex r of iteration i of addCircleRingXY. */
  lemma CircleRingStepAt(radius: real, thickness: real, segments: nat, center: Vec3, color: Color, circle: Circle, i: nat, r: nat)
    requires r < 24
    ensures var st := CircleRingStep(radius, thickness, segments, center, color, circle, i);
      st.Valid() && st.Size() == 24 && Colored(st, color) &&
      (r < 6 ==> st.normals[r] == Front && st.points[r].z == center.z + thickness / 2.0) &&
      (6 <= r < 12 ==> st.normals[r] == Back && st.points[r].z == center.z - thickness / 2.0) &&
      (12 <= r < 18 ==> OnRadial(st.normals[r], st.points[r], center, radius)) &&
      (18 <= r ==> OnRadial(st.normals[r], st.points[r], center, thickness - radius))
  {
    var inner := radius - thickness;
    var a, b := circle(i, segments), circle(i + 1, segments);
    var zFront, zBack := center.z + thickness / 2.0, center.z - thickness / 2.0;
    var f := RingFrontFace(center, radius, inner, a, b, zFront, color);
    var k := RingBackFace(center, radius, inner, a, b, zBack, color);
    var o := OuterWall(center, radius, a, b, zBack, zFront, color);
    var n := InnerWall(center, inner, a, b, zFront, zBack, color);
    var st := f.Append(k).Append(o).Append(n);
    AppendColored(f, k, color);
    AppendColored(f.Append(k), o, color);
    AppendColored(f.Append(k).Append(o), n, color);
    At4(f, k, o, n, r);
  }

  /** addCircleRingXY pushes 24 vertices per segment in its colour: a front
      face with normal (0, 0, 1) at z = center.z + thickness/2, a back face with
      normal (0, 0, -1) at z = center.z - thickness/2, an outer wall whose
      normals point out from the centre at distance `radius`, and an inner wall
      whose normals point back at the centre from distance radius - thickness. */
  lemma CircleRingShape(radius: real, thickness: real, segments: nat, center: Vec3, color: Color, circle: Circle)
    ensures var m := CircleRingXY(radius, thickness, segments, center, color, circle);
      m.Valid() && m.Size() == 24 * segments && Colored(m, color)
    ensures var m := CircleRingXY(radius, thickness, segments, center, color, circle);
      forall j :: 0 <= j < m.Size() && j % 24 < 6 ==>
        m.normals[j] == Front && m.points[j].z == center.z + thickness / 2.0
    ensures var m := CircleRingXY(radius, thickness, segments, center, color, circle);
      forall j :: 0 <= j < m.Size() && 6 <= j % 24 < 12 ==>
        m.normals[j] == Back && m.points[j].z == center.z - thickness / 2.0
    ensures var m := CircleRingXY(radius, thickness, segments, center, color, circle);
      forall j :: 0 <= j < m.Size() && 12 <= j % 24 < 18 ==> OnRadial(m.normals[j], m.points[j], center, radius)
    ensures var m := CircleRingXY(radius, thickness, segments, center, color, circle);
      forall j :: 0 <= j < m.Size() && 18 <= j % 24 ==> OnRadial(m.normals[j], m.points[j], center, thickness - radius)
  {
    var steps := CircleRingSteps(radius, thickness, segments, center, color, circle);
    forall i | 0 <= i < segments
      ensures steps(i).Valid() && steps(i).Size() == 24 && Colored(steps(i), color)
    {
      CircleRingStepAt(radius, thickness, segments, center, color, circle, i, 0);
    }
    SweepSize(segments, steps, 24);
    SweepColored(segments, steps, color);
    var m := Sweep(segments, steps);
    forall j | 0 <= j < 24 * segments
      ensures j % 24 < 6 ==> m.normals[j] == Front && m.points[j].z == center.z + thickness / 2.0
      ensures 6 <= j % 24 < 12 ==> m.normals[j] == Back && m.points[j].z == center.z - thickness / 2.0
      ensures 12 <= j % 24 < 18 ==> OnRadial(m.normals[j], m.points[j], center, radius)
      ensures 18 <= j % 24 ==> OnRadial(m.normals[j], m.points[j], center, thickness - radius)
    {
      SweepIndex(segments, steps, 24, j);
      CircleRingStepAt(radius, thickness, segments, center, color, circle, j / 24, j % 24);
    }
  }

  // ---------------------------------------------------------------- addSpokesXY

  const SpokeThickness: real := 0.01

  /** A thin triangle at height z from the centre `c` out to `e`, with its two
      rim corners at e - perp and e + perp in the order `first`, `second`. */
  function SpokeFace(c: Vec3, first: Vec2, second: Vec2, z: real, n: Normal, color: Color): (m: Mesh)
    ensures m.Valid() && m.Size() == 3 && Colored(m, color)
    ensures forall r :: 0 <= r < 3 ==> m.normals[r] == n && m.points[r].z == z
    ensures m.points[0].x == c.x && m.points[0].y == c.y
  {
    Triangle(Point(c.x, c.y, z), Point(first.x, first.y, z), Point(second.x, second.y, z), n, n, n, color)
  }

  /** Iteration i of addSpokesXY: a thin front triangle and a thin back
      triangle from the centre out to the rim. */
  function SpokeStep(radius: real, numSpokes: nat, center: Vec3, color: Color, circle: Circle, i: nat): Mesh {
    var a := circle(i, numSpokes);
    var xEnd, yEnd := a.x * radius, a.y * radius;
    var perpX, perpY := -a.y * SpokeThickness, a.x * SpokeThickness;
    var minus := Vec2(center.x + xEnd - perpX, center.y + yEnd - perpY);
    var plus := Vec2(center.x + xEnd + perpX, center.y + yEnd + perpY);
    SpokeFace(center, minus, plus, center.z + 0.01, Front, color)
      .Append(SpokeFace(center, plus, minus, center.z - 0.01, Back, color))
  }

  function SpokeSteps(radius: real, numSpokes: nat, center: Vec3, color: Color, circle: Circle): nat -> Mesh {
    (i: nat) => SpokeStep(radius, numSpokes, center, color, circle, i)
  }

  function SpokesXY(radius: real, numSpokes: nat, center: Vec3, color: Color, circle: Circle): Mesh {
    Sweep(numSpokes, SpokeSteps(radius, numSpokes, center, color, circle))
  }

  lemma SpokeStepShape(radius: real, numSpokes: nat, center: Vec3, color: Color, circle: Circle, i: nat)
    ensures var st := SpokeStep(radius, numSpokes, center, color, circle, i);
      st.Valid() && st.Size() == 6 && Colored(st, color) &&
      (forall r :: 0 <= r < 3 ==> st.normals[r] == Front && st.points[r].z == center.z + 0.01) &&
      (forall r :: 3 <= r < 6 ==> st.normals[r] == Back && st.points[r].z == center.z - 0.01) &&
      st.points[0].x == center.x && st.points[0].y == center.y &&
      st.points[3].x == center.x && st.points[3].y == center.y
  {
    var a := circle(i, numSpokes);
    var xEnd, yEnd := a.x * radius, a.y * radius;
    var perpX, perpY := -a.y * SpokeThickness, a.x * SpokeThickness;
    var minus := Vec2(center.x + xEnd - perpX, center.y + yEnd - perpY);
    var plus := Vec2(center.x + xEnd + perpX, center.y + yEnd + perpY);
    AppendColored(SpokeFace(center, minus, plus, center.z + 0.01, Front, color),
                  SpokeFace(center, plus, minus, center.z - 0.01, Back, color), color);
  }

  /** addSpokesXY pushes 6 vertices per spoke in its colour: a front triangle
      with normal (0, 0, 1) just in front of the centre, then a back triangle
      with normal (0, 0, -1) just behind it; each triangle starts at the centre. */
  lemma SpokesShape(radius: real, numSpokes: nat, center: Vec3, color: Color, circle: Circle)
    ensures var m := SpokesXY(radius, numSpokes, center, color, circle);
      m.Valid() && m.Size() == 6 * numSpokes && Colored(m, color)
    ensures var m := SpokesXY(radius, numSpokes, center, color, circle);
      forall j :: 0 <= j < m.Size() && j % 6 < 3 ==> m.normals[j] == Front && m.points[j].z == center.z + 0.01
    ensures var m := SpokesXY(radius, numSpokes, center, color, circle);
      forall j :: 0 <= j < m.Size() && 3 <= j % 6 ==> m.normals[j] == Back && m.points[j].z == center.z - 0.01
    ensures var m := SpokesXY(radius, numSpokes, center, color, circle);
      forall j :: 0 <= j < m.Size() && j % 3 == 0 ==> m.points[j].x == center.x && m.points[j].y == center.y
  {
    var steps := SpokeSteps(radius, numSpokes, center, color, circle);
    forall i | 0 <= i < numSpokes
      ensures steps(i).Valid() && steps(i).Size() == 6 && Colored(steps(i), color)
      ensures forall r :: 0 <= r < 3 ==> steps(i).normals[r] == Front && steps(i).points[r].z == center.z + 0.01
      ensures forall r :: 3 <= r < 6 ==> steps(i).normals[r] == Back && steps(i).points[r].z == center.z - 0.01
      ensures steps(i).points[0].x == center.x && steps(i).points[0].y == center.y
      ensures steps(i).points[3].x == center.x && steps(i).points[3].y == center.y
    {
      SpokeStepShape(radius, numSpokes, center, color, circle, i);
    }
    SweepSize(numSpokes, steps, 6);
    SweepColored(numSpokes, steps, color);
    var m := Sweep(numSpokes, steps);
    forall j | 0 <= j < 6 * numSpokes
      ensures j % 6 < 3 ==> m.normals[j] == Front && m.points[j].z == center.z + 0.01
      ensures 3 <= j % 6 ==> m.normals[j] == Back && m.points[j].z == center.z - 0.01
      ensures j % 6 == 0 || j % 6 == 3 ==> m.points[j].x == center.x && m.points[j].y == center.y
    {
      SweepIndex(numSpokes, steps, 6, j);
    }
    forall j | 0 <= j < 6 * numSpokes && j % 3 == 0 ensures j % 6 == 0 || j % 6 == 3 {
      ModThree(j);
    }
  }

  lemma ModThree(j: nat)
    requires j % 3 == 0
    ensures j % 6 == 0 || j % 6 == 3
  {
    var q := j / 3;
    assert j == 3 * q;
    if q % 2 == 0 {
      assert j == 6 * (q / 2);
    } else {
      assert j == 6 * (q / 2) + 3;
    }
  }

  // ---------------------------------------------------------------- addConnectingRing

  /** The vertex lies on the front or the back ring, at signed distance r
      along its normal from that ring's centre. */
  predicate OnEitherRing(n: Normal, p: Vec4, centerFront: Vec3, centerBack: Vec3, r: real) {
    (p.z == centerFront.z && OnRadial(n, p, centerFront, r)) ||
    (p.z == centerBack.z && OnRadial(n, p, centerBack, r))
  }

  /** The outer wall of one connecting segment, from the front ring to the back ring. */
  function ConnectingOuter(radius: real, centerFront: Vec3, centerBack: Vec3, a: Vec2, b: Vec2, color: Color): (m: Mesh)
    ensures m.Valid() && m.Size() == 6 && Colored(m, color)
    ensures forall k :: 0 <= k < 6 ==> OnEitherRing(m.normals[k], m.points[k], centerFront, centerBack, radius)
  {
    var n1, n2 := Exact(Vec3(a.x, a.y, 0.0)), Exact(Vec3(b.x, b.y, 0.0));
    Quad(RingPoint(centerFront, radius, a, centerFront.z), RingPoint(centerBack, radius, a, centerBack.z),
         RingPoint(centerBack, radius, b, centerBack.z), RingPoint(centerFront, radius, b, centerFront.z),
         n1, n1, n2, n2, color)
  }

  /** The inner wall of one connecting segment: two triangles split along the
      diagonal from direction a on the front ring to direction b on the back ring. */
  function ConnectingInner(inner: real, centerFront: Vec3, centerBack: Vec3, a: Vec2, b: Vec2, color: Color): (m: Mesh)
    ensures m.Valid() && m.Size() == 6 && Colored(m, color)
    ensures forall k :: 0 <= k < 6 ==> OnEitherRing(m.normals[k], m.points[k], centerFront, centerBack, -inner)
  {
    var n1i, n2i := Exact(Vec3(-a.x, -a.y, 0.0)), Exact(Vec3(-b.x, -b.y, 0.0));
    var p1iF, p2iF := RingPoint(centerFront, inner, a, centerFront.z), RingPoint(centerFront, inner, b, centerFront.z);
    var p1iB, p2iB := RingPoint(centerBack, inner, a, centerBack.z), RingPoint(centerBack, inner, b, centerBack.z);
    NegMul(inner, a.x);
    NegMul(inner, a.y);
    NegMul(inner, b.x);
    NegMul(inner, b.y);
    Triangle(p1iF, p2iB, p1iB, n1i, n2i, n1i, color)
      .Append(Triangle(p1iF, p2iF, p2iB, n1i, n2i, n2i, color))
  }

  /** Iteration i of addConnectingRing: the outer wall, then the inner wall. */
  function ConnectingStep(radius: real, thickness: real, segments: nat, centerFront: Vec3, centerBack: Vec3,
                          color: Color, circle: Circle, i: nat): Mesh {
    var a, b := circle(i, segments), circle(i + 1, segments);
    ConnectingOuter(radius, centerFront, centerBack, a, b, color)
      .Append(ConnectingInner(radius - thickness, centerFront, centerBack, a, b, color))
  }

  function ConnectingSteps(radius: real, thickness: real, segments: nat, centerFront: Vec3, centerBack: Vec3,
                           color: Color, circle: Circle): nat -> Mesh {
    (i: nat) => ConnectingStep(radius, thickness, segments, centerFront, centerBack, color, circle, i)
  }

  function ConnectingRing(radius: real, thickness: real, segments: nat, centerFront: Vec3, centerBack: Vec3,
                          color: Color, circle: Circle): Mesh {
    Sweep(segments, ConnectingSteps(radius, thickness, segments, centerFront, centerBack, color, circle))
  }

  lemma ConnectingStepShape(radius: real, thickness: real, segments: nat, centerFront: Vec3, centerBack: Vec3,
                            color: Color, circle: Circle, i: nat)
    ensures var st := ConnectingStep(radius, thickness, segments, centerFront, centerBack, color, circle, i);
      st.Valid() && st.Size() == 12 && Colored(st, color) &&
      (forall r :: 0 <= r < 6 ==> OnEitherRing(st.normals[r], st.points[r], centerFront, centerBack, radius)) &&
      (forall r :: 6 <= r < 12 ==> OnEitherRing(st.normals[r], st.points[r], centerFront, centerBack, thickness - radius))
  {
    var a, b := circle(i, segments), circle(i + 1, segments);
    var o := ConnectingOuter(radius, centerFront, centerBack, a, b, color);
    var n := ConnectingInner(radius - thickness, centerFront, centerBack, a, b, color);
    AppendColored(o, n, color);
    var st := o.Append(n);
    forall r | 6 <= r < 12 ensures st.normals[r] == n.normals[r - 6] && st.points[r] == n.points[r - 6] {
    }
  }

  /** addConnectingRing pushes 12 vertices per segment in its colour, each on
      the front or the back ring: the outer wall first, with normals pointing
      out from distance `radius`, then the inner wall, with normals pointing
      back at the centre from distance radius - thickness. */
  lemma ConnectingRingShape(radius: real, thickness: real, segments: nat, centerFront: Vec3, centerBack: Vec3,
                            color: Color, circle: Circle)
    ensures var m := ConnectingRing(radius, thickness, segments, centerFront, centerBack, color, circle);
      m.Valid() && m.Size() == 12 * segments && Colored(m, color)
    ensures var m := ConnectingRing(radius, thickness, segments, centerFront, centerBack, color, circle);
      forall j :: 0 <= j < m.Size() && j % 12 < 6 ==>
        OnEitherRing(m.normals[j], m.points[j], centerFront, centerBack, radius)
    ensures var m := ConnectingRing(radius, thickness, segments, centerFront, centerBack, color, circle);
      forall j :: 0 <= j < m.Size() && 6 <= j % 12 ==>
        OnEitherRing(m.normals[j], m.points[j], centerFront, centerBack, thickness - radius)
  {
    var steps := ConnectingSteps(radius, thickness, segments, centerFront, centerBack, color, circle);
    forall i | 0 <= i < segments
      ensures steps(i).Valid() && steps(i).Size() == 12 && Colored(steps(i), color)
      ensures forall r :: 0 <= r < 6 ==> OnEitherRing(steps(i).normals[r], steps(i).points[r], centerFront, centerBack, radius)
      ensures forall r :: 6 <= r < 12 ==>
        OnEitherRing(steps(i).normals[r], steps(i).points[r], centerFront, centerBack, thickness - radius)
    {
      ConnectingStepShape(radius, thickness, segments, centerFront, centerBack, color, circle, i);
    }
    SweepSize(segments, steps, 12);
    SweepColored(segments, steps, color);
    var m := Sweep(segments, steps);
    forall j | 0 <= j < 12 * segments
      ensures j % 12 < 6 ==> OnEitherRing(m.normals[j], m.points[j], centerFront, centerBack, radius)
      ensures 6 <= j % 12 ==> OnEitherRing(m.normals[j], m.points[j], centerFront, centerBack, thickness - radius)
    {
      SweepIndex(segments, steps, 12, j);
    }
  }

  // ---------------------------------------------------------------- addFrameSpokes

  const FrameSpokeThickness: real := 0.015

  /** Iteration i of addFrameSpokes: one front-facing quad from 0.15 out to the rim.
      The four back corners the source also computes are never pushed. */
  function FrameSpokeStep(radius: real, numSpokes: nat, center: Vec3, color: Color, circle: Circle, i: nat): Mesh {
    var d := circle(i, numSpokes);
    var p1 := RingPoint(center, 0.15, d, center.z);
    var p2 := RingPoint(center, radius, d, center.z);
    var perpX, perpY := -d.y * FrameSpokeThickness, d.x * FrameSpokeThickness;
    var z := center.z + FrameSpokeThickness;
    var v5 := Point(p1.x + perpX, p1.y + perpY, z);
    var v6 := Point(p1.x - perpX, p1.y - perpY, z);
    var v7 := Point(p2.x - perpX, p2.y - perpY, z);
    var v8 := Point(p2.x + perpX, p2.y + perpY, z);
    FlatQuad(v5, v6, v7, v8, Front, color)
  }

  function FrameSpokeSteps(radius: real, numSpokes: nat, center: Vec3, color: Color, circle: Circle): nat -> Mesh {
    (i: nat) => FrameSpokeStep(radius, numSpokes, center, color, circle, i)
  }

  function FrameSpokes(radius: real, numSpokes: nat, center: Vec3, color: Color, circle: Circle): Mesh {
    Sweep(numSpokes, FrameSpokeSteps(radius, numSpokes, center, color, circle))
  }

  /** addFrameSpokes pushes 6 vertices per spoke in its colour, every one with
      normal (0, 0, 1) on the plane z = center.z + 0.015. */
  lemma FrameSpokesShape(radius: real, numSpokes: nat, center: Vec3, color: Color, circle: Circle)
    ensures var m := FrameSpokes(radius, numSpokes, center, color, circle);
      m.Valid() && m.Size() == 6 * numSpokes && Colored(m, color)
    ensures var m := FrameSpokes(radius, numSpokes, center, color, circle);
      forall j :: 0 <= j < m.Size() ==> m.normals[j] == Front && m.points[j].z == center.z + FrameSpokeThickness
  {
    var steps := FrameSpokeSteps(radius, numSpokes, center, color, circle);
    forall i | 0 <= i < numSpokes
      ensures steps(i).Valid() && steps(i).Size() == 6 && Colored(steps(i), color)
      ensures forall r :: 0 <= r < 6 ==> steps(i).normals[r] == Front && steps(i).points[r].z == center.z + FrameSpokeThickness
    {
    }
    SweepSize(numSpokes, steps, 6);
    SweepColored(numSpokes, steps, color);
    var m := Sweep(numSpokes, steps);
    forall j | 0 <= j < 6 * numSpokes
      ensures m.normals[j] == Front && m.points[j].z == center.z + FrameSpokeThickness
    {
      SweepIndex(numSpokes, steps, 6, j);
    }
  }

  // ---------------------------------------------------------------- addCube and addBladeXY

  /** A face of a box as four indices into its corner list. */
  datatype Face = Face(a: nat, b: nat, c: nat, d: nat)

  predicate FaceIn(f: Face, n: nat) {
    f.a < n && f.b < n && f.c < n && f.d < n
  }

  /** One face of a box: every vertex gets normalize((v[b] - v[a]) x (v[c] - v[b])),
      and the quad is split as [a, b, c, a, c, d]. */
  function FaceQuad(v: seq<Vec4>, f: Face, color: Color): (m: Mesh)
    requires FaceIn(f, |v|)
    ensures m.Valid() && m.Size() == 6 && Colored(m, color)
    ensures forall r :: 0 <= r < 6 ==> m.points[r] in v
  {
    var n := NormalizeOf(Cross(Xyz(Sub(v[f.b], v[f.a])), Xyz(Sub(v[f.c], v[f.b]))));
    FlatQuad(v[f.a], v[f.b], v[f.c], v[f.d], n, color)
  }

  /** Iteration k of `for (let f of faces)`. */
  function FaceStep(v: seq<Vec4>, faces: seq<Face>, color: Color, k: nat): Mesh {
    if k < |faces| && FaceIn(faces[k], |v|) then FaceQuad(v, faces[k], color) else Empty
  }

  function FaceSteps(v: seq<Vec4>, faces: seq<Face>, color: Color): nat -> Mesh {
    (k: nat) => FaceStep(v, faces, color, k)
  }

  /** What the face loop of addCube and addBladeXY pushes. */
  function Solid(v: seq<Vec4>, faces: seq<Face>, color: Color): Mesh {
    Sweep(|faces|, FaceSteps(v, faces, color))
  }

  /** The eight corners of addCube: front (z + sz) then back (z - sz), each
      going (-x, -y), (-x, +y), (+x, +y), (+x, -y). */
  function CubeCorners(center: Vec3, size: Vec3): (v: seq<Vec4>)
    ensures |v| == 8
  {
    var sx, sy, sz := size.x / 2.0, size.y / 2.0, size.z / 2.0;
    [Point(center.x - sx, center.y - sy, center.z + sz), Point(center.x - sx, center.y + sy, center.z + sz),
     Point(center.x + sx, center.y + sy, center.z + sz), Point(center.x + sx, center.y - sy, center.z + sz),
     Point(center.x - sx, center.y - sy, center.z - sz), Point(center.x - sx, center.y + sy, center.z - sz),
     Point(center.x + sx, center.y + sy, center.z - sz), Point(center.x + sx, center.y - sy, center.z - sz)]
  }

  const CubeFaces: seq<Face> :=
    [Face(1, 0, 3, 2), Face(2, 3, 7, 6), Face(3, 0, 4, 7), Face(6, 5, 1, 2), Face(4, 5, 6, 7), Face(5, 4, 0, 1)]

  function Cube(center: Vec3, size: Vec3, color: Color): Mesh {
    Solid(CubeCorners(center, size), CubeFaces, color)
  }

  /** Face k of a solid pushes vertices that are corners, with normals that
      point away from `c`. */
  ghost predicate FaceOutward(v: seq<Vec4>, faces: seq<Face>, color: Color, c: Vec3, k: nat) {
    var m := FaceStep(v, faces, color, k);
    m.Valid() && m.Size() == 6 && Colored(m, color) &&
    forall r :: 0 <= r < 6 ==> m.points[r] in v && Outward(m.normals[r], m.points[r], c)
  }

  /** A face loop whose every face is outward pushes 6 vertices per face, all
      corners, all in the colour, all with outward normals. */
  lemma SolidShape(v: seq<Vec4>, faces: seq<Face>, color: Color, c: Vec3)
    requires forall k :: 0 <= k < |faces| ==> FaceOutward(v, faces, color, c, k)
    ensures var m := Solid(v, faces, color);
      m.Valid() && m.Size() == 6 * |faces| && Colored(m, color) &&
      forall j :: 0 <= j < m.Size() ==> m.points[j] in v && Outward(m.normals[j], m.points[j], c)
  {
    var steps := FaceSteps(v, faces, color);
    forall k | 0 <= k < |faces|
      ensures steps(k).Valid() && steps(k).Size() == 6 && Colored(steps(k), color)
      ensures forall r :: 0 <= r < 6 ==> steps(k).points[r] in v && Outward(steps(k).normals[r], steps(k).points[r], c)
    {
      assert FaceOutward(v, faces, color, c, k);
    }
    SweepSize(|faces|, steps, 6);
    SweepColored(|faces|, steps, color);
    var m := Sweep(|faces|, steps);
    forall j | 0 <= j < 6 * |faces| ensures m.points[j] in v && Outward(m.normals[j], m.points[j], c) {
      SweepIndex(|faces|, steps, 6, j);
    }
  }

  /** A face loop over faces that index into the corner list pushes 6
      vertices per face, in the colour, every one a corner, whatever the
      corners are. */
  lemma SolidSize(v: seq<Vec4>, faces: seq<Face>, color: Color)
    requires forall k :: 0 <= k < |faces| ==> FaceIn(faces[k], |v|)
    ensures var m := Solid(v, faces, color);
      m.Valid() && m.Size() == 6 * |faces| && Colored(m, color) &&
      forall j :: 0 <= j < m.Size() ==> m.points[j] in v
  {
    var steps := FaceSteps(v, faces, color);
    forall k | 0 <= k < |faces|
      ensures steps(k).Valid() && steps(k).Size() == 6 && Colored(steps(k), color)
      ensures forall r :: 0 <= r < 6 ==> steps(k).points[r] in v
    {
      assert steps(k) == FaceQuad(v, faces[k], color);
    }
    SweepSize(|faces|, steps, 6);
    SweepColored(|faces|, steps, color);
    var m := Sweep(|faces|, steps);
    forall j | 0 <= j < 6 * |faces| ensures m.points[j] in v {
      SweepIndex(|faces|, steps, 6, j);
    }
  }

  lemma PosMul(a: real, b: real)
    requires a > 0.0 && b > 0.0
    ensures a * b > 0.0
  {
  }

  /** A face whose edge cross product w has a positive dot product with each
      of its corners, seen from c, has outward normals. */
  lemma FaceQuadOutward(v: seq<Vec4>, f: Face, color: Color, c: Vec3, w: Vec3)
    requires FaceIn(f, |v|)
    requires Cross(Xyz(Sub(v[f.b], v[f.a])), Xyz(Sub(v[f.c], v[f.b]))) == w
    requires Dot(w, From(c, v[f.a])) > 0.0 && Dot(w, From(c, v[f.b])) > 0.0
    requires Dot(w, From(c, v[f.c])) > 0.0 && Dot(w, From(c, v[f.d])) > 0.0
    ensures forall r :: 0 <= r < 6 ==> Outward(FaceQuad(v, f, color).normals[r], FaceQuad(v, f, color).points[r], c)
  {
  }

  /** Every face of addCube's list winds so that its normal points out of the box. */
  lemma CubeFacesOutward(center: Vec3, size: Vec3, color: Color, k: nat)
    requires size.x > 0.0 && size.y > 0.0 && size.z > 0.0 && k < 6
    ensures FaceOutward(CubeCorners(center, size), CubeFaces, color, center, k)
  {
    if k == 0 {
      CubeFrontOutward(center, size, color);
    } else if k == 1 {
      CubeRightOutward(center, size, color);
    } else if k == 2 {
      CubeBottomOutward(center, size, color);
    } else if k == 3 {
      CubeTopOutward(center, size, color);
    } else if k == 4 {
      CubeBackOutward(center, size, color);
    } else {
      CubeLeftOutward(center, size, color);
    }
  }

  /** Face 0 of the cube, on its front side, winds outward: its edges cross to Vec3(0.0, 0.0, size.x * size.y). */
  lemma CubeFrontOutward(center: Vec3, size: Vec3, color: Color)
    requires size.x > 0.0 && size.y > 0.0 && size.z > 0.0
    ensures FaceOutward(CubeCorners(center, size), CubeFaces, color, center, 0)
  {
    PosMul(size.x * size.y, size.z / 2.0);
    FaceQuadOutward(CubeCorners(center, size), CubeFaces[0], color, center, Vec3(0.0, 0.0, size.x * size.y));
  }

  /** Face 1 of the cube, on its right side, winds outward: its edges cross to Vec3(size.y * size.z, 0.0, 0.0). */
  lemma CubeRightOutward(center: Vec3, size: Vec3, color: Color)
    requires size.x > 0.0 && size.y > 0.0 && size.z > 0.0
    ensures FaceOutward(CubeCorners(center, size), CubeFaces, color, center, 1)
  {
    PosMul(size.y * size.z, size.x / 2.0);
    FaceQuadOutward(CubeCorners(center, size), CubeFaces[1], color, center, Vec3(size.y * size.z, 0.0, 0.0));
  }

  /** Face 2 of the cube, on its bottom side, winds outward: its edges cross to Vec3(0.0, -(size.x * size.z), 0.0). */
  lemma CubeBottomOutward(center: Vec3, size: Vec3, color: Color)
    requires size.x > 0.0 && size.y > 0.0 && size.z > 0.0
    ensures FaceOutward(CubeCorners(center, size), CubeFaces, color, center, 2)
  {
    PosMul(size.x * size.z, size.y / 2.0);
    FaceQuadOutward(CubeCorners(center, size), CubeFaces[2], color, center, Vec3(0.0, -(size.x * size.z), 0.0));
  }

  /** Face 3 of the cube, on its top side, winds outward: its edges cross to Vec3(0.0, size.x * size.z, 0.0). */
  lemma CubeTopOutward(center: Vec3, size: Vec3, color: Color)
    requires size.x > 0.0 && size.y > 0.0 && size.z > 0.0
    ensures FaceOutward(CubeCorners(center, size), CubeFaces, color, center, 3)
  {
    PosMul(size.x * size.z, size.y / 2.0);
    FaceQuadOutward(CubeCorners(center, size), CubeFaces[3], color, center, Vec3(0.0, size.x * size.z, 0.0));
  }

  /** Face 4 of the cube, on its back side, winds outward: its edges cross to Vec3(0.0, 0.0, -(size.x * size.y)). */
  lemma CubeBackOutward(center: Vec3, size: Vec3, color: Color)
    requires size.x > 0.0 && size.y > 0.0 && size.z > 0.0
    ensures FaceOutward(CubeCorners(center, size), CubeFaces, color, center, 4)
  {
    PosMul(size.x * size.y, size.z / 2.0);
    FaceQuadOutward(CubeCorners(center, size), CubeFaces[4], color, center, Vec3(0.0, 0.0, -(size.x * size.y)));
  }

  /** Face 5 of the cube, on its left side, winds outward: its edges cross to Vec3(-(size.y * size.z), 0.0, 0.0). */
  lemma CubeLeftOutward(center: Vec3, size: Vec3, color: Color)
    requires size.x > 0.0 && size.y > 0.0 && size.z > 0.0
    ensures FaceOutward(CubeCorners(center, size), CubeFaces, color, center, 5)
  {
    PosMul(size.y * size.z, size.x / 2.0);
    FaceQuadOutward(CubeCorners(center, size), CubeFaces[5], color, center, Vec3(-(size.y * size.z), 0.0, 0.0));
  }

  /** addCube pushes 36 vertices in its colour, every one a corner of the box,
      for any centre and size. */
  lemma CubeSize(center: Vec3, size: Vec3, color: Color)
    ensures var m := Cube(center, size, color);
      m.Valid() && m.Size() == 36 && Colored(m, color) &&
      forall j :: 0 <= j < m.Size() ==> m.points[j] in CubeCorners(center, size)
  {
    SolidSize(CubeCorners(center, size), CubeFaces, color);
  }

  /** For a box of positive size, in addition every normal addCube pushes
      points out of the box. */
  lemma CubeShape(center: Vec3, size: Vec3, color: Color)
    requires size.x > 0.0 && size.y > 0.0 && size.z > 0.0
    ensures var m := Cube(center, size, color);
      m.Valid() && m.Size() == 36 && Colored(m, color) &&
      forall j :: 0 <= j < m.Size() ==> m.points[j] in CubeCorners(center, size) && Outward(m.normals[j], m.points[j], center)
  {
    forall k | 0 <= k < 6 ensures FaceOutward(CubeCorners(center, size), CubeFaces, color, center, k) {
      CubeFacesOutward(center, size, color, k);
    }
    SolidShape(CubeCorners(center, size), CubeFaces, color, center);
  }

  /** The eight corners of addBladeXY: a trapezoid along +y from radiusStart
      (width `width`) to radiusEnd (width 0.4 * width), 0.03 thick in z; front
      corners first, each side going hub-left, hub-right, tip-right, tip-left. */
  function BladeCorners(radiusStart: real, radiusEnd: real, width: real): (v: seq<Vec4>)
    ensures |v| == 8
    ensures forall i :: 0 <= i < 4 ==> v[i].z == 0.015 && v[i + 4] == v[i].(z := -0.015)
    ensures v[0].y == v[1].y == radiusStart && v[2].y == v[3].y == radiusEnd
    ensures v[1].x - v[0].x == width && v[2].x - v[3].x == 0.4 * width
    ensures v[0].x == -v[1].x && v[3].x == -v[2].x
  {
    var thick := 0.03;
    var widthBase, widthTip := width, width * 0.4;
    [Point(-widthBase / 2.0, radiusStart, thick / 2.0), Point(widthBase / 2.0, radiusStart, thick / 2.0),
     Point(widthTip / 2.0, radiusEnd, thick / 2.0), Point(-widthTip / 2.0, radiusEnd, thick / 2.0),
     Point(-widthBase / 2.0, radiusStart, -thick / 2.0), Point(widthBase / 2.0, radiusStart, -thick / 2.0),
     Point(widthTip / 2.0, radiusEnd, -thick / 2.0), Point(-widthTip / 2.0, radiusEnd, -thick / 2.0)]
  }

  /** Front, back, hub end, tip end, left side, right side. */
  const BladeFaces: seq<Face> :=
    [Face(0, 1, 2, 3), Face(5, 4, 7, 6), Face(4, 5, 1, 0), Face(3, 2, 6, 7), Face(4, 0, 3, 7), Face(1, 5, 6, 2)]

  function BladeXY(radiusStart: real, radiusEnd: real, width: real, color: Color): Mesh {
    Solid(BladeCorners(radiusStart, radiusEnd, width), BladeFaces, color)
  }

  /** The point halfway along the blade's axis, inside the blade. */
  function BladeMiddle(radiusStart: real, radiusEnd: real): Vec3 {
    Vec3(0.0, (radiusStart + radiusEnd) / 2.0, 0.0)
  }

  /** Every face of addBladeXY's list winds so that its normal points out of
      the blade, for a blade of positive width that extends outwards. */
  lemma BladeFacesOutward(radiusStart: real, radiusEnd: real, width: real, color: Color, k: nat)
    requires width > 0.0 && radiusStart < radiusEnd && k < 6
    ensures FaceOutward(BladeCorners(radiusStart, radiusEnd, width), BladeFaces, color, BladeMiddle(radiusStart, radiusEnd), k)
  {
    if k == 0 {
      BladeFrontOutward(radiusStart, radiusEnd, width, color);
    } else if k == 1 {
      BladeBackOutward(radiusStart, radiusEnd, width, color);
    } else if k == 2 {
      BladeHubOutward(radiusStart, radiusEnd, width, color);
    } else if k == 3 {
      BladeTipOutward(radiusStart, radiusEnd, width, color);
    } else if k == 4 {
      BladeLeftOutward(radiusStart, radiusEnd, width, color);
    } else {
      BladeRightOutward(radiusStart, radiusEnd, width, color);
    }
  }

  /** Face 0 of the blade, its front, winds outward: its edges cross to Vec3(0.0, 0.0, width * (radiusEnd - radiusStart)). */
  lemma BladeFrontOutward(radiusStart: real, radiusEnd: real, width: real, color: Color)
    requires width > 0.0 && radiusStart < radiusEnd
    ensures FaceOutward(BladeCorners(radiusStart, radiusEnd, width), BladeFaces, color, BladeMiddle(radiusStart, radiusEnd), 0)
  {
    PosMul(width, radiusEnd - radiusStart);
    FaceQuadOutward(BladeCorners(radiusStart, radiusEnd, width), BladeFaces[0], color, BladeMiddle(radiusStart, radiusEnd),
                    Vec3(0.0, 0.0, width * (radiusEnd - radiusStart)));
  }

  /** Face 1 of the blade, its back, winds outward: its edges cross to Vec3(0.0, 0.0, -(width * (radiusEnd - radiusStart))). */
  lemma BladeBackOutward(radiusStart: real, radiusEnd: real, width: real, color: Color)
    requires width > 0.0 && radiusStart < radiusEnd
    ensures FaceOutward(BladeCorners(radiusStart, radiusEnd, width), BladeFaces, color, BladeMiddle(radiusStart, radiusEnd), 1)
  {
    PosMul(width, radiusEnd - radiusStart);
    FaceQuadOutward(BladeCorners(radiusStart, radiusEnd, width), BladeFaces[1], color, BladeMiddle(radiusStart, radiusEnd),
                    Vec3(0.0, 0.0, -(width * (radiusEnd - radiusStart))));
  }

  /** Face 2 of the blade, its hub end, winds outward: its edges cross to Vec3(0.0, -0.03 * width, 0.0). */
  lemma BladeHubOutward(radiusStart: real, radiusEnd: real, width: real, color: Color)
    requires width > 0.0 && radiusStart < radiusEnd
    ensures FaceOutward(BladeCorners(radiusStart, radiusEnd, width), BladeFaces, color, BladeMiddle(radiusStart, radiusEnd), 2)
  {
    FaceQuadOutward(BladeCorners(radiusStart, radiusEnd, width), BladeFaces[2], color, BladeMiddle(radiusStart, radiusEnd),
                    Vec3(0.0, -0.03 * width, 0.0));
  }

  /** Face 3 of the blade, its tip end, winds outward: its edges cross to Vec3(0.0, 0.012 * width, 0.0). */
  lemma BladeTipOutward(radiusStart: real, radiusEnd: real, width: real, color: Color)
    requires width > 0.0 && radiusStart < radiusEnd
    ensures FaceOutward(BladeCorners(radiusStart, radiusEnd, width), BladeFaces, color, BladeMiddle(radiusStart, radiusEnd), 3)
  {
    FaceQuadOutward(BladeCorners(radiusStart, radiusEnd, width), BladeFaces[3], color, BladeMiddle(radiusStart, radiusEnd),
                    Vec3(0.0, 0.012 * width, 0.0));
  }

  /** Face 4 of the blade, its left side, winds outward: its edges cross to Vec3(-0.03 * (radiusEnd - radiusStart), 0.009 * width, 0.0). */
  lemma BladeLeftOutward(radiusStart: real, radiusEnd: real, width: real, color: Color)
    requires width > 0.0 && radiusStart < radiusEnd
    ensures FaceOutward(BladeCorners(radiusStart, radiusEnd, width), BladeFaces, color, BladeMiddle(radiusStart, radiusEnd), 4)
  {
    FaceQuadOutward(BladeCorners(radiusStart, radiusEnd, width), BladeFaces[4], color, BladeMiddle(radiusStart, radiusEnd),
                    Vec3(-0.03 * (radiusEnd - radiusStart), 0.009 * width, 0.0));
  }

  /** Face 5 of the blade, its right side, winds outward: its edges cross to Vec3(0.03 * (radiusEnd - radiusStart), 0.009 * width, 0.0). */
  lemma BladeRightOutward(radiusStart: real, radiusEnd: real, width: real, color: Color)
    requires width > 0.0 && radiusStart < radiusEnd
    ensures FaceOutward(BladeCorners(radiusStart, radiusEnd, width), BladeFaces, color, BladeMiddle(radiusStart, radiusEnd), 5)
  {
    FaceQuadOutward(BladeCorners(radiusStart, radiusEnd, width), BladeFaces[5], color, BladeMiddle(radiusStart, radiusEnd),
                    Vec3(0.03 * (radiusEnd - radiusStart), 0.009 * width, 0.0));
  }

  /** addBladeXY pushes 36 vertices in its colour, every one a corner of the
      blade, for any radii and width. */
  lemma BladeXYSize(radiusStart: real, radiusEnd: real, width: real, color: Color)
    ensures var m := BladeXY(radiusStart, radiusEnd, width, color);
      m.Valid() && m.Size() == 36 && Colored(m, color) &&
      forall j :: 0 <= j < m.Size() ==> m.points[j] in BladeCorners(radiusStart, radiusEnd, width)
  {
    SolidSize(BladeCorners(radiusStart, radiusEnd, width), BladeFaces, color);
  }

  /** For a blade of positive width that extends outwards, in addition every
      normal addBladeXY pushes points out of the blade. */
  lemma BladeShape(radiusStart: real, radiusEnd: real, width: real, color: Color)
    requires width > 0.0 && radiusStart < radiusEnd
    ensures var m := BladeXY(radiusStart, radiusEnd, width, color);
      m.Valid() && m.Size() == 36 && Colored(m, color) &&
      forall j :: 0 <= j < m.Size() ==>
        m.points[j] in BladeCorners(radiusStart, radiusEnd, width) &&
        Outward(m.normals[j], m.points[j], BladeMiddle(radiusStart, radiusEnd))
  {
    var c := BladeMiddle(radiusStart, radiusEnd);
    forall k | 0 <= k < 6 ensures FaceOutward(BladeCorners(radiusStart, radiusEnd, width), BladeFaces, color, c, k) {
      BladeFacesOutward(radiusStart, radiusEnd, width, color, k);
    }
    SolidShape(BladeCorners(radiusStart, radiusEnd, width), BladeFaces, color, c);
  }

  // ---------------------------------------------------------------- addCurvedBlade

  /** A four-cornered face with one normal, as a point predicate holds at each corner. */
  function Sheet(p1: Vec4, p2: Vec4, p3: Vec4, p4: Vec4, n: Normal, color: Color): (m: Mesh)
    ensures m.Valid() && m.Size() == 6 && Colored(m, color)
    ensures forall r :: 0 <= r < 6 ==>
      m.normals[r] == n && (m.points[r] == p1 || m.points[r] == p2 || m.points[r] == p3 || m.points[r] == p4)
  {
    FlatQuad(p1, p2, p3, p4, n, color)
  }

  /** Iteration i of addCurvedBlade: front and back sheets (each pushed as two
      triangles [p1, p2, p3], [p1, p3, p4]), then the top and bottom strips. The
      blade's local constants are radius 0.25 at both ends, width 0, curve 0.25
      and thickness 0.02; sin(t * pi / 2) for t = i/12 is the sine of i/48 of a turn. */
  function CurvedBladeStep(color: Color, circle: Circle, i: nat): Mesh {
    var segments := 12.0;
    var radiusStart, radiusEnd, width, curve, thick := 0.25, 0.25, 0.0, 0.25, 0.02;
    var t1, t2 := i as real / segments, (i + 1) as real / segments;
    var r1, r2 := radiusStart + (radiusEnd - radiusStart) * t1, radiusStart + (radiusEnd - radiusStart) * t2;
    var z1, z2 := curve * circle(i, 48).y, curve * circle(i + 1, 48).y;
    var w1, w2 := width * (1.0 - t1 * 0.3), width * (1.0 - t2 * 0.3);
    var p1, p2 := Point(0.0, r1 - w1 / 2.0, z1), Point(0.0, r1 + w1 / 2.0, z1);
    var p3, p4 := Point(0.0, r2 + w2 / 2.0, z2), Point(0.0, r2 - w2 / 2.0, z2);
    var p5, p6 := Point(-thick, r1 - w1 / 2.0, z1), Point(-thick, r1 + w1 / 2.0, z1);
    var p7, p8 := Point(-thick, r2 + w2 / 2.0, z2), Point(-thick, r2 - w2 / 2.0, z2);
    var front := Cross(Xyz(Sub(p2, p1)), Xyz(Sub(p4, p1)));
    var nTop := NormalizeOf(Cross(Xyz(Sub(p6, p2)), Xyz(Sub(p7, p6))));
    var nBot := NormalizeOf(Cross(Xyz(Sub(p1, p5)), Xyz(Sub(p4, p1))));
    Sheet(p1, p2, p3, p4, NormalizeOf(front), color)
      .Append(Sheet(p6, p5, p8, p7, NegatedNormalizeOf(front), color))
      .Append(Sheet(p2, p6, p7, p3, nTop, color))
      .Append(Sheet(p5, p1, p4, p8, nBot, color))
  }

  function CurvedBladeSteps(color: Color, circle: Circle): nat -> Mesh {
    (i: nat) => CurvedBladeStep(color, circle, i)
  }

  function CurvedBlade(color: Color, circle: Circle): Mesh {
    Sweep(12, CurvedBladeSteps(color, circle))
  }

  /** The point lies on the blade's front (x = 0) or back (x = -0.02) edge
      line at radius 0.25. */
  predicate OnBladeLine(p: Vec4) {
    p.y == 0.25 && (p.x == 0.0 || p.x == -0.02)
  }

  /** An iteration of addCurvedBlade with its hard-coded constants worked out:
      every front corner is (0, 0.25, z) and every back corner (-0.02, 0.25, z),
      for z = z1 at the start of the segment and z = z2 at its end. */
  function FlatCurvedBladeStep(color: Color, z1: real, z2: real): Mesh {
    var p1, p3 := Point(0.0, 0.25, z1), Point(0.0, 0.25, z2);
    var p5, p7 := Point(-0.02, 0.25, z1), Point(-0.02, 0.25, z2);
    var zero := Vec3(0.0, 0.0, 0.0);
    Sheet(p1, p1, p3, p3, NormalizeOf(zero), color)
      .Append(Sheet(p5, p5, p7, p7, NegatedNormalizeOf(zero), color))
      .Append(Sheet(p1, p5, p7, p3, NormalizeOf(Cross(Xyz(Sub(p5, p1)), Xyz(Sub(p7, p5)))), color))
      .Append(Sheet(p5, p1, p3, p7, NormalizeOf(Cross(Xyz(Sub(p1, p5)), Xyz(Sub(p3, p1)))), color))
  }

  lemma CurvedBladeStepIsFlat(color: Color, circle: Circle, i: nat)
    ensures CurvedBladeStep(color, circle, i) == FlatCurvedBladeStep(color, 0.25 * circle(i, 48).y, 0.25 * circle(i + 1, 48).y)
  {
    var t1, t2 := i as real / 12.0, (i + 1) as real / 12.0;
    var r1, r2 := 0.25 + (0.25 - 0.25) * t1, 0.25 + (0.25 - 0.25) * t2;
    var w1, w2 := 0.0 * (1.0 - t1 * 0.3), 0.0 * (1.0 - t2 * 0.3);
    var z1, z2 := 0.25 * circle(i, 48).y, 0.25 * circle(i + 1, 48).y;
    var p1, p2 := Point(0.0, r1 - w1 / 2.0, z1), Point(0.0, r1 + w1 / 2.0, z1);
    var p3, p4 := Point(0.0, r2 + w2 / 2.0, z2), Point(0.0, r2 - w2 / 2.0, z2);
    var p5, p6 := Point(-0.02, r1 - w1 / 2.0, z1), Point(-0.02, r1 + w1 / 2.0, z1);
    var p7, p8 := Point(-0.02, r2 + w2 / 2.0, z2), Point(-0.02, r2 - w2 / 2.0, z2);
    assert r1 == 0.25 && r2 == 0.25 && w1 == 0.0 && w2 == 0.0;
    assert p1 == p2 == Point(0.0, 0.25, z1) && p3 == p4 == Point(0.0, 0.25, z2);
    assert p5 == p6 == Point(-0.02, 0.25, z1) && p7 == p8 == Point(-0.02, 0.25, z2);
    assert Xyz(Sub(p2, p1)) == Vec3(0.0, 0.0, 0.0);
    CrossOfZero(Xyz(Sub(p4, p1)));
  }

  lemma CrossOfZero(b: Vec3)
    ensures Cross(Vec3(0.0, 0.0, 0.0), b) == Vec3(0.0, 0.0, 0.0)
  {
  }

  /** Vertex r of iteration i of addCurvedBlade. */
  lemma CurvedBladeStepAt(color: Color, circle: Circle, i: nat, r: nat)
    requires r < 24
    ensures var st := CurvedBladeStep(color, circle, i);
      st.Valid() && st.Size() == 24 && Colored(st, color) && OnBladeLine(st.points[r]) &&
      (r < 6 ==> st.normals[r] == NormalizeOf(Vec3(0.0, 0.0, 0.0))) &&
      (6 <= r < 12 ==> st.normals[r] == NegatedNormalizeOf(Vec3(0.0, 0.0, 0.0)))
  {
    var z1, z2 := 0.25 * circle(i, 48).y, 0.25 * circle(i + 1, 48).y;
    var p1, p3 := Point(0.0, 0.25, z1), Point(0.0, 0.25, z2);
    var p5, p7 := Point(-0.02, 0.25, z1), Point(-0.02, 0.25, z2);
    var zero := Vec3(0.0, 0.0, 0.0);
    var a := Sheet(p1, p1, p3, p3, NormalizeOf(zero), color);
    var b := Sheet(p5, p5, p7, p7, NegatedNormalizeOf(zero), color);
    var c := Sheet(p1, p5, p7, p3, NormalizeOf(Cross(Xyz(Sub(p5, p1)), Xyz(Sub(p7, p5)))), color);
    var d := Sheet(p5, p1, p3, p7, NormalizeOf(Cross(Xyz(Sub(p1, p5)), Xyz(Sub(p3, p1)))), color);
    CurvedBladeStepIsFlat(color, circle, i);
    AppendColored(a, b, color);
    AppendColored(a.Append(b), c, color);
    AppendColored(a.Append(b).Append(c), d, color);
    At4(a, b, c, d, r);
  }

  /** Any number n of curved-blade iterations pushes 24 vertices each, all on
      the two edge lines, with degenerate front and back normals. */
  lemma CurvedBladeSweepShape(color: Color, circle: Circle, n: nat)
    ensures var m := Sweep(n, CurvedBladeSteps(color, circle));
      m.Valid() && m.Size() == 24 * n && Colored(m, color) &&
      (forall j :: 0 <= j < m.Size() ==> OnBladeLine(m.points[j])) &&
      (forall j :: 0 <= j < m.Size() && j % 24 < 6 ==> m.normals[j] == NormalizeOf(Vec3(0.0, 0.0, 0.0))) &&
      (forall j :: 0 <= j < m.Size() && 6 <= j % 24 < 12 ==> m.normals[j] == NegatedNormalizeOf(Vec3(0.0, 0.0, 0.0)))
  {
    var steps := CurvedBladeSteps(color, circle);
    forall i | 0 <= i < n
      ensures steps(i).Valid() && steps(i).Size() == 24 && Colored(steps(i), color)
    {
      CurvedBladeStepAt(color, circle, i, 0);
    }
    SweepSize(n, steps, 24);
    SweepColored(n, steps, color);
    var m := Sweep(n, steps);
    forall j | 0 <= j < n * 24
      ensures OnBladeLine(m.points[j])
      ensures j % 24 < 6 ==> m.normals[j] == NormalizeOf(Vec3(0.0, 0.0, 0.0))
      ensures 6 <= j % 24 < 12 ==> m.normals[j] == NegatedNormalizeOf(Vec3(0.0, 0.0, 0.0))
    {
      SweepIndex(n, steps, 24, j);
      CurvedBladeStepAt(color, circle, j / 24, j % 24);
    }
  }

  /** addCurvedBlade pushes 288 vertices (12 segments of 24) in its colour.
      With its hard-coded zero width and equal radii every vertex lies on one
      of two lines at radius 0.25, and the front and back normals are
      normalize of the zero vector. */
  lemma CurvedBladeShape(color: Color, circle: Circle)
    ensures var m := CurvedBlade(color, circle);
      m.Valid() && m.Size() == 288 && Colored(m, color) &&
      (forall j :: 0 <= j < m.Size() ==> OnBladeLine(m.points[j])) &&
      (forall j :: 0 <= j < m.Size() && j % 24 < 6 ==> m.normals[j] == NormalizeOf(Vec3(0.0, 0.0, 0.0))) &&
      (forall j :: 0 <= j < m.Size() && 6 <= j % 24 < 12 ==> m.normals[j] == NegatedNormalizeOf(Vec3(0.0, 0.0, 0.0)))
  {
    CurvedBladeSweepShape(color, circle, 12);
  }
}
