/** The vertex buffer of the fan: the parts `buildFanGeometry` emits, one after
    another, with the hard-coded parameters of that function, and the draw
    calls `render` issues by walking the recorded part sizes with an
    accumulating offset. */
module Layout {
  import opened Vectors
  import opened Meshes
  import opened Shapes
  import opened Transforms

  /** The arguments of an addCylinderZ or addCylinderY call. */
  datatype CylinderArgs = CylinderArgs(radius: real, height: real, segments: nat, center: Vec3, color: Color)

  /** The size arguments of an addCircleRingXY or addConnectingRing call. */
  datatype RingArgs = RingArgs(radius: real, thickness: real, segments: nat)

  /** The arguments `buildFanGeometry` passes to the emitters, part by part:
      the motor housing and hanging rod cylinders; the three rings and the
      spokes of each wire guard, the guards' centres and colours; the ring
      joining the guards; the hub cylinder; the blade. */
  datatype Dims = Dims(
    housing: CylinderArgs, rod: CylinderArgs,
    outer: RingArgs, middle: RingArgs, inner: RingArgs, spokeRadius: real, spokes: nat,
    guardFront: Vec3, guardBack: Vec3, frontColor: Color, backColor: Color,
    connector: RingArgs, connectorColor: Color,
    hub: CylinderArgs,
    bladeStart: real, bladeEnd: real, bladeWidth: real, bladeColor: Color)

  /** The values `buildFanGeometry` hard-codes. */
  const FanDims: Dims := Dims(
    CylinderArgs(0.3, 0.25, 24, Vec3(0.0, 0.2, -0.15), Vec4(0.25, 0.25, 0.25, 1.0)),
    CylinderArgs(0.02, 1.5, 12, Vec3(0.0, 0.95, -0.15), Vec4(0.3, 0.3, 0.3, 1.0)),
    RingArgs(0.55, 0.02, 60), RingArgs(0.35, 0.015, 48), RingArgs(0.15, 0.01, 32), 0.55, 16,
    Vec3(0.0, 0.2, 0.05), Vec3(0.0, 0.2, -0.25), Vec4(0.15, 0.15, 0.15, 1.0), Vec4(0.12, 0.12, 0.12, 1.0),
    RingArgs(0.55, 0.02, 60), Vec4(0.13, 0.13, 0.13, 1.0),
    CylinderArgs(0.08, 0.06, 20, Vec3(0.0, 0.25, 0.0), Vec4(0.35, 0.35, 0.35, 1.0)),
    0.08, 0.5, 0.12, Vec4(0.5, 0.5, 0.5, 1.0))

  // The parts, each from its arguments.

  function MotorHousing(d: Dims, circle: Circle): Mesh {
    var c := d.housing;
    CylinderZ(c.radius, c.height, c.segments, c.center, c.color, circle)
  }

  function HangingRod(d: Dims, circle: Circle): Mesh {
    var c := d.rod;
    CylinderY(c.radius, c.height, c.segments, c.center, c.color, circle)
  }

  function Ring(r: RingArgs, center: Vec3, color: Color, circle: Circle): Mesh {
    CircleRingXY(r.radius, r.thickness, r.segments, center, color, circle)
  }

  /** One wire guard: outer, middle and inner ring, then the radial spokes. */
  function Guard(d: Dims, center: Vec3, color: Color, circle: Circle): Mesh {
    Ring(d.outer, center, color, circle)
      .Append(Ring(d.middle, center, color, circle))
      .Append(Ring(d.inner, center, color, circle))
      .Append(SpokesXY(d.spokeRadius, d.spokes, center, color, circle))
  }

  /** The ring joining the front guard to the back guard. */
  function Connector(d: Dims, circle: Circle): Mesh {
    var r := d.connector;
    ConnectingRing(r.radius, r.thickness, r.segments, d.guardFront, d.guardBack, d.connectorColor, circle)
  }

  /** The frame: front guard, back guard and the ring joining them. */
  function FrameGuard(d: Dims, circle: Circle): Mesh {
    Guard(d, d.guardFront, d.frontColor, circle)
      .Append(Guard(d, d.guardBack, d.backColor, circle))
      .Append(Connector(d, circle))
  }

  function Hub(d: Dims, circle: Circle): Mesh {
    var c := d.hub;
    CylinderZ(c.radius, c.height, c.segments, c.center, c.color, circle)
  }

  /** The single blade, drawn four times. */
  function Blade(d: Dims): Mesh {
    BladeXY(d.bladeStart, d.bladeEnd, d.bladeWidth, d.bladeColor)
  }

  /** The parts in buffer and drawing order: base (never emitted, so empty),
      motor housing, hanging rod, frame, hub, blade. */
  function Parts(d: Dims, circle: Circle): seq<Mesh> {
    [Part(d, circle, 0), Part(d, circle, 1), Part(d, circle, 2), Part(d, circle, 3), Part(d, circle, 4), Part(d, circle, 5)]
  }

  /** Part k of `Parts`, named by its index. */
  function Part(d: Dims, circle: Circle, k: nat): Mesh
    requires k < 6
  {
    if k == 0 then Empty else if k == 1 then MotorHousing(d, circle) else if k == 2 then HangingRod(d, circle)
    else if k == 3 then FrameGuard(d, circle) else if k == 4 then Hub(d, circle) else Blade(d)
  }

  /** The parts, each one reached by naming it as `Part(d, circle, k)`. */
  lemma IndexedParts(d: Dims, circle: Circle) returns (parts: seq<Mesh>)
    ensures |parts| == 6 && forall k {:trigger Part(d, circle, k)} :: 0 <= k < 6 ==> parts[k] == Part(d, circle, k)
  {
    parts := seq(6, k requires 0 <= k < 6 => Part(d, circle, k));
  }

  /** Parts named one by one as `Part(d, circle, k)` are the fan's parts. */
  lemma NamedParts(d: Dims, circle: Circle, parts: seq<Mesh>)
    requires |parts| == 6 && forall k {:trigger Part(d, circle, k)} :: 0 <= k < 6 ==> parts[k] == Part(d, circle, k)
    ensures parts == Parts(d, circle)
  {
    assert parts[0] == Part(d, circle, 0) && parts[1] == Part(d, circle, 1) && parts[2] == Part(d, circle, 2);
    assert parts[3] == Part(d, circle, 3) && parts[4] == Part(d, circle, 4) && parts[5] == Part(d, circle, 5);
  }

  /** The parts pushed one after another. */
  function Concat(parts: seq<Mesh>): Mesh
    decreases |parts|
  {
    if |parts| == 0 then Empty else Concat(parts[..|parts| - 1]).Append(parts[|parts| - 1])
  }

  /** The whole vertex buffer. */
  function FanMesh(d: Dims, circle: Circle): Mesh {
    Concat(Parts(d, circle))
  }

  /** The vertex counter of each part. */
  function Sizes(parts: seq<Mesh>): seq<nat> {
    seq(|parts|, k requires 0 <= k < |parts| => parts[k].Size())
  }

  function Total(counts: seq<nat>): nat
    decreases |counts|
  {
    if |counts| == 0 then 0 else Total(counts[..|counts| - 1]) + counts[|counts| - 1]
  }

  /** Where part k starts: the sizes of the parts before it, added up. */
  function Offset(counts: seq<nat>, k: nat): nat
    requires k <= |counts|
  {
    Total(counts[..k])
  }

  predicate AllValid(parts: seq<Mesh>) {
    forall k :: 0 <= k < |parts| ==> parts[k].Valid()
  }

  /** Pushing lockstep parts gives a lockstep buffer as long as all of them. */
  lemma {:induction false} ConcatSize(parts: seq<Mesh>)
    requires AllValid(parts)
    ensures Concat(parts).Valid() && Concat(parts).Size() == Total(Sizes(parts))
    decreases |parts|
  {
    if |parts| > 0 {
      var init := parts[..|parts| - 1];
      ConcatSize(init);
      assert Sizes(init) == Sizes(parts)[..|parts| - 1];
    }
  }

  lemma {:induction false} OffsetStep(counts: seq<nat>, k: nat)
    requires k < |counts|
    ensures Offset(counts, k + 1) == Offset(counts, k) + counts[k]
  {
    assert counts[..k + 1][..k] == counts[..k];
  }

  lemma {:induction false} OffsetWithin(counts: seq<nat>, k: nat)
    requires k <= |counts|
    ensures Offset(counts, k) <= Total(counts)
    decreases |counts| - k
  {
    if k < |counts| {
      OffsetStep(counts, k);
      OffsetWithin(counts, k + 1);
    } else {
      assert counts[..k] == counts;
    }
  }

  /** Vertex j of part k sits at index Offset(k) + j of the buffer. */
  lemma ConcatAt(parts: seq<Mesh>, k: nat, j: nat)
    requires AllValid(parts) && k < |parts| && j < parts[k].Size()
    ensures Concat(parts).Valid() && Offset(Sizes(parts), k) + j < Concat(parts).Size()
    ensures Concat(parts).points[Offset(Sizes(parts), k) + j] == parts[k].points[j]
    ensures Concat(parts).normals[Offset(Sizes(parts), k) + j] == parts[k].normals[j]
    ensures Concat(parts).colors[Offset(Sizes(parts), k) + j] == parts[k].colors[j]
  {
    var o := Offset(Sizes(parts), k);
    PartSpan(parts, k);
    assert Spans(Concat(parts), o, parts[k]);
    SpansAt(Concat(parts), o, parts[k], j);
  }

  /** Part k occupies exactly the span [Offset(k), Offset(k) + size) of the
      buffer: the parts are contiguous, in order, and cover the buffer. */
  lemma {:induction false} PartSpan(parts: seq<Mesh>, k: nat)
    requires AllValid(parts) && k < |parts|
    ensures Spans(Concat(parts), Offset(Sizes(parts), k), parts[k])
    decreases |parts|
  {
    var n := |parts|;
    var init, last := parts[..n - 1], parts[n - 1];
    OffsetInit(parts, k);
    ConcatSize(init);
    if k < n - 1 {
      PartSpan(init, k);
      SpansAppend(Concat(init), Offset(Sizes(init), k), init[k], last);
    } else {
      assert Sizes(init)[..k] == Sizes(init);
      SpansPushed(Concat(init), last);
    }
  }

  /** Dropping the last part moves none of the others. */
  lemma OffsetInit(parts: seq<Mesh>, k: nat)
    requires k < |parts|
    ensures Offset(Sizes(parts), k) == Offset(Sizes(parts[..|parts| - 1]), k)
  {
    assert Sizes(parts)[..k] == Sizes(parts[..|parts| - 1])[..k];
  }

  /** A guard pushes 24 vertices per segment of each of its rings and 6 per
      spoke, all in its colour. */
  lemma GuardSize(d: Dims, center: Vec3, color: Color, circle: Circle)
    ensures var g := Guard(d, center, color, circle);
      g.Valid() && g.Size() == 24 * (d.outer.segments + d.middle.segments + d.inner.segments) + 6 * d.spokes &&
      Colored(g, color)
  {
    var r1, r2 := Ring(d.outer, center, color, circle), Ring(d.middle, center, color, circle);
    var r3, sp := Ring(d.inner, center, color, circle), SpokesXY(d.spokeRadius, d.spokes, center, color, circle);
    CircleRingShape(d.outer.radius, d.outer.thickness, d.outer.segments, center, color, circle);
    CircleRingShape(d.middle.radius, d.middle.thickness, d.middle.segments, center, color, circle);
    CircleRingShape(d.inner.radius, d.inner.thickness, d.inner.segments, center, color, circle);
    SpokesShape(d.spokeRadius, d.spokes, center, color, circle);
    AppendColored(r1, r2, color);
    AppendColored(r1.Append(r2), r3, color);
    AppendColored(r1.Append(r2).Append(r3), sp, color);
  }

  /** The frame counts both guards and the 12 vertices per segment of the
      connecting ring. */
  lemma FrameSize(d: Dims, circle: Circle)
    ensures FrameGuard(d, circle).Valid()
    ensures FrameGuard(d, circle).Size() ==
      2 * (24 * (d.outer.segments + d.middle.segments + d.inner.segments) + 6 * d.spokes) + 12 * d.connector.segments
  {
    GuardSize(d, d.guardFront, d.frontColor, circle);
    GuardSize(d, d.guardBack, d.backColor, circle);
    var r := d.connector;
    ConnectingRingShape(r.radius, r.thickness, r.segments, d.guardFront, d.guardBack, d.connectorColor, circle);
  }

  /** The cylinders push 12 vertices per segment. */
  lemma CylinderPartSizes(d: Dims, circle: Circle)
    ensures MotorHousing(d, circle).Valid() && MotorHousing(d, circle).Size() == 12 * d.housing.segments
    ensures HangingRod(d, circle).Valid() && HangingRod(d, circle).Size() == 12 * d.rod.segments
    ensures Hub(d, circle).Valid() && Hub(d, circle).Size() == 12 * d.hub.segments
  {
    var h, r, u := d.housing, d.rod, d.hub;
    CylinderZShape(h.radius, h.height, h.segments, h.center, h.color, circle);
    CylinderYShape(r.radius, r.height, r.segments, r.center, r.color, circle);
    CylinderZShape(u.radius, u.height, u.segments, u.center, u.color, circle);
  }

  /** The blade part pushes 36 vertices, whatever its radii and width. */
  lemma BladeSize(d: Dims)
    ensures Blade(d).Valid() && Blade(d).Size() == 36
  {
    BladeXYSize(d.bladeStart, d.bladeEnd, d.bladeWidth, d.bladeColor);
  }

  /** The sizes of the six parts with the hard-coded arguments. */
  lemma PartSizes(circle: Circle)
    ensures AllValid(Parts(FanDims, circle))
    ensures Sizes(Parts(FanDims, circle)) == [0, 288, 144, 7632, 240, 36]
  {
    var d := FanDims;
    CylinderPartSizes(d, circle);
    FrameSize(d, circle);
    BladeSize(d);
    SixSizes(Empty, MotorHousing(d, circle), HangingRod(d, circle), FrameGuard(d, circle), Hub(d, circle), Blade(d));
  }

  lemma SixSizes(a: Mesh, b: Mesh, c: Mesh, d: Mesh, e: Mesh, f: Mesh)
    ensures a.Valid() && b.Valid() && c.Valid() && d.Valid() && e.Valid() && f.Valid() ==> AllValid([a, b, c, d, e, f])
    ensures Sizes([a, b, c, d, e, f]) == [a.Size(), b.Size(), c.Size(), d.Size(), e.Size(), f.Size()]
  {
  }

  /** Six parts pushed one after another onto empty streams. */
  lemma SixConcat(a: Mesh, b: Mesh, c: Mesh, d: Mesh, e: Mesh, f: Mesh)
    ensures Concat([a, b, c, d, e, f]) == Empty.Append(a).Append(b).Append(c).Append(d).Append(e).Append(f)
  {
    assert [a, b, c, d, e, f][..5] == [a, b, c, d, e];
    assert [a, b, c, d, e][..4] == [a, b, c, d];
    assert [a, b, c, d][..3] == [a, b, c];
    assert [a, b, c][..2] == [a, b];
    assert [a, b][..1] == [a];
    assert [a][..0] == [];
    assert Concat([a]) == Empty.Append(a);
    assert Concat([a, b]) == Concat([a]).Append(b);
    assert Concat([a, b, c]) == Concat([a, b]).Append(c);
    assert Concat([a, b, c, d]) == Concat([a, b, c]).Append(d);
    assert Concat([a, b, c, d, e]) == Concat([a, b, c, d]).Append(e);
    assert Concat([a, b, c, d, e, f]) == Concat([a, b, c, d, e]).Append(f);
  }

  /** The buffer is the five emitted parts pushed in order onto empty
      streams, as `buildFanGeometry` pushes them. */
  lemma FanLayout(d: Dims, circle: Circle)
    ensures FanMesh(d, circle) == Empty.Append(MotorHousing(d, circle)).Append(HangingRod(d, circle))
      .Append(FrameGuard(d, circle)).Append(Hub(d, circle)).Append(Blade(d))
  {
    SixConcat(Empty, MotorHousing(d, circle), HangingRod(d, circle), FrameGuard(d, circle), Hub(d, circle), Blade(d));
    AppendEmpty(Empty);
  }

  /** Streams grown from empty by parts 1 to 5 in order hold all six parts
      pushed one after another, when part 0 is empty. */
  lemma Assembled(parts: seq<Mesh>, s1: Mesh, s2: Mesh, s3: Mesh, s4: Mesh, s5: Mesh)
    requires |parts| == 6 && parts[0] == Empty
    requires s1 == Empty.Append(parts[1]) && s2 == s1.Append(parts[2])
    requires s3 == s2.Append(parts[3]) && s4 == s3.Append(parts[4]) && s5 == s4.Append(parts[5])
    ensures s5 == Concat(parts)
  {
    assert parts == [parts[0], parts[1], parts[2], parts[3], parts[4], parts[5]];
    SixConcat(parts[0], parts[1], parts[2], parts[3], parts[4], parts[5]);
    AppendEmpty(Empty);
  }

  /** Where each of six parts starts: the sizes before it added up. */
  lemma SixOffsets(c: seq<nat>)
    requires |c| == 6
    ensures Offset(c, 0) == 0 && Offset(c, 1) == c[0] && Offset(c, 2) == c[0] + c[1] &&
      Offset(c, 3) == c[0] + c[1] + c[2] && Offset(c, 4) == c[0] + c[1] + c[2] + c[3] &&
      Offset(c, 5) == c[0] + c[1] + c[2] + c[3] + c[4] && Total(c) == c[0] + c[1] + c[2] + c[3] + c[4] + c[5]
  {
    assert c[..0] == [];
    OffsetStep(c, 0);
    OffsetStep(c, 1);
    OffsetStep(c, 2);
    OffsetStep(c, 3);
    OffsetStep(c, 4);
    OffsetStep(c, 5);
    assert c[..6] == c;
  }

  /** The offsets of the fan's parts: 0, 0, 288, 432, 8064, 8304, and 8340 in all. */
  lemma FanOffsets()
    ensures var c: seq<nat> := [0, 288, 144, 7632, 240, 36];
      Offset(c, 0) == 0 && Offset(c, 1) == 0 && Offset(c, 2) == 288 && Offset(c, 3) == 432 &&
      Offset(c, 4) == 8064 && Offset(c, 5) == 8304 && Total(c) == 8340
  {
    SixOffsets([0, 288, 144, 7632, 240, 36]);
  }

  /** With the hard-coded arguments the parts have 0, 288, 144, 7632, 240 and
      36 vertices, 8340 in all, and the buffer is lockstep. */
  lemma FanSizes(circle: Circle)
    ensures AllValid(Parts(FanDims, circle))
    ensures Sizes(Parts(FanDims, circle)) == [0, 288, 144, 7632, 240, 36]
    ensures FanMesh(FanDims, circle).Valid() && FanMesh(FanDims, circle).Size() == 8340
  {
    PartSizes(circle);
    ConcatSize(Parts(FanDims, circle));
    FanOffsets();
  }

  /** One `gl.drawArrays(gl.TRIANGLES, first, count)` under the model-view
      matrix of a pose. */
  datatype Draw = Draw(first: nat, count: nat, pose: Pose)

  /** The draws of one part: none when it is empty, else one per pose. */
  function DrawsOf(first: nat, count: nat, views: seq<Pose>): seq<Draw> {
    if count == 0 then [] else seq(|views|, i requires 0 <= i < |views| => Draw(first, count, views[i]))
  }

  /** Drawing one more pose's worth of a part. */
  lemma DrawsOfNext(first: nat, count: nat, views: seq<Pose>, i: nat)
    requires i < |views|
    ensures DrawsOf(first, count, views[..i + 1]) ==
      DrawsOf(first, count, views[..i]) + (if count > 0 then [Draw(first, count, views[i])] else [])
  {
    if count > 0 {
      var a, b := DrawsOf(first, count, views[..i + 1]), DrawsOf(first, count, views[..i]);
      assert |a| == |b| + 1;
      forall j | 0 <= j < |a| ensures a[j] == (b + [Draw(first, count, views[i])])[j] {
        if j < i {
          assert views[..i + 1][j] == views[..i][j];
        }
      }
    }
  }

  /** The draws of parts k onward: each part is drawn at the total size of the
      parts before it, once per matrix given for it, and skipped when empty. */
  function Walk(counts: seq<nat>, views: seq<seq<Pose>>, k: nat): seq<Draw>
    requires |views| == |counts| && k <= |counts|
    decreases |counts| - k
  {
    if k == |counts| then [] else DrawsOf(Offset(counts, k), counts[k], views[k]) + Walk(counts, views, k + 1)
  }

  /** Every draw of the walk covers one whole non-empty part, inside the buffer. */
  lemma {:induction false} WalkInBuffer(counts: seq<nat>, views: seq<seq<Pose>>, k: nat)
    requires |views| == |counts| && k <= |counts|
    ensures forall d :: d in Walk(counts, views, k) ==>
      d.count > 0 && d.first + d.count <= Total(counts) &&
      exists p :: k <= p < |counts| && d.first == Offset(counts, p) && d.count == counts[p] && d.pose in views[p]
    decreases |counts| - k
  {
    if k < |counts| {
      WalkInBuffer(counts, views, k + 1);
      OffsetStep(counts, k);
      OffsetWithin(counts, k + 1);
      var here := DrawsOf(Offset(counts, k), counts[k], views[k]);
      forall d | d in here
        ensures d.count > 0 && d.first + d.count <= Total(counts)
        ensures d.first == Offset(counts, k) && d.count == counts[k] && d.pose in views[k]
      {
        var i :| 0 <= i < |here| && here[i] == d;
      }
    }
  }

  /** The poses `render` draws each part in: the base with the view alone,
      motor housing, rod and frame yawed, the hub yawed and spun, and each of
      the four blades yawed and placed. */
  function FanPoses(yaw: real, rotorAngle: real, bladeAngle: real): seq<seq<Pose>> {
    [[Still], [Yawed(yaw)], [Yawed(yaw)], [Yawed(yaw)], [HubSpun(yaw, rotorAngle)], BladePoses(yaw, bladeAngle)]
  }

  /** Blade i of four is placed at `bladeAngle + i * 90`. */
  function BladePoses(yaw: real, bladeAngle: real): seq<Pose> {
    seq(4, i requires 0 <= i < 4 => BladeSpun(yaw, BladeTurn(bladeAngle, i)))
  }

  /** The walk over the fan's part sizes for any poses: one draw per part
      except the empty base, and four for the blade. */
  lemma FanWalk(v: seq<seq<Pose>>)
    requires |v| == 6 && |v[1]| == 1 && |v[2]| == 1 && |v[3]| == 1 && |v[4]| == 1 && |v[5]| == 4
    ensures Walk([0, 288, 144, 7632, 240, 36], v, 0) ==
      [Draw(0, 288, v[1][0]), Draw(288, 144, v[2][0]), Draw(432, 7632, v[3][0]), Draw(8064, 240, v[4][0]),
       Draw(8304, 36, v[5][0]), Draw(8304, 36, v[5][1]), Draw(8304, 36, v[5][2]), Draw(8304, 36, v[5][3])]
  {
    var c: seq<nat> := [0, 288, 144, 7632, 240, 36];
    FanOffsets();
    var d1, d2, d3, d4 := Draw(0, 288, v[1][0]), Draw(288, 144, v[2][0]), Draw(432, 7632, v[3][0]), Draw(8064, 240, v[4][0]);
    var blades := [Draw(8304, 36, v[5][0]), Draw(8304, 36, v[5][1]), Draw(8304, 36, v[5][2]), Draw(8304, 36, v[5][3])];
    WalkLast(c, v, 8304, 36);
    assert DrawsOf(8304, 36, v[5]) == blades;
    WalkOne(c, v, 4, 5, 8064, 240);
    WalkOne(c, v, 3, 4, 432, 7632);
    WalkOne(c, v, 2, 3, 288, 144);
    WalkOne(c, v, 1, 2, 0, 288);
    assert Walk(c, v, 0) == Walk(c, v, 1);
    PrependFour(d1, d2, d3, d4, blades);
  }

  /** Part k of several, non-empty and drawn in one pose, is one draw ahead of
      the walk from `next` = k + 1. */
  lemma WalkOne(c: seq<nat>, v: seq<seq<Pose>>, k: nat, next: nat, first: nat, count: nat)
    requires |v| == |c| && k < |c| && next == k + 1 && |v[k]| == 1
    requires Offset(c, k) == first && c[k] == count && count > 0
    ensures Walk(c, v, k) == [Draw(first, count, v[k][0])] + Walk(c, v, next)
  {
    assert DrawsOf(first, count, v[k]) == [Draw(first, count, v[k][0])];
  }

  /** The last part's draws are the whole walk from it. */
  lemma WalkLast(c: seq<nat>, v: seq<seq<Pose>>, first: nat, count: nat)
    requires |v| == |c| > 0 && Offset(c, |c| - 1) == first && c[|c| - 1] == count
    ensures Walk(c, v, |c| - 1) == DrawsOf(first, count, v[|c| - 1])
  {
    ConcatEmpty(DrawsOf(first, count, v[|c| - 1]));
  }

  /** Four single draws in front of the rest are one four-element prefix. */
  lemma PrependFour<T>(a: T, b: T, c: T, d: T, rest: seq<T>)
    ensures [a] + ([b] + ([c] + ([d] + rest))) == [a, b, c, d] + rest
  {
  }

  /** Walking part k, drawn from `first` for `count` vertices in `views`,
      after the draws of the parts before it: the draws so far, then part k's,
      then the walk of the parts from `next` = k + 1 on, are the whole walk. */
  lemma WalkStep(c: seq<nat>, v: seq<seq<Pose>>, k: nat, next: nat, done: seq<Draw>, first: nat, count: nat, views: seq<Pose>)
    requires |v| == |c| && k < |c| && next == k + 1 && done + Walk(c, v, k) == Walk(c, v, 0)
    requires Offset(c, k) == first && c[k] == count && v[k] == views
    ensures (done + DrawsOf(first, count, views)) + Walk(c, v, next) == Walk(c, v, 0)
  {
    ConcatAssoc(done, DrawsOf(first, count, views), Walk(c, v, next));
  }

  /** The empty sequence is neutral for concatenation. */
  lemma ConcatEmpty<T>(s: seq<T>)
    ensures [] + s == s && s + [] == s
  {
  }

  /** Concatenation is associative. */
  lemma ConcatAssoc<T>(a: seq<T>, b: seq<T>, c: seq<T>)
    ensures (a + b) + c == a + (b + c)
  {
  }

  /** The fan as built: the empty base is skipped, the parts are drawn at
      offsets 0, 288, 432 and 8064, yawed (the hub also spun), and the blade
      span at 8304 is drawn four times, a quarter turn apart, ending at the
      last of the 8340 vertices. */
  lemma FanDraws(yaw: real, rotorAngle: real, bladeAngle: real)
    ensures Walk([0, 288, 144, 7632, 240, 36], FanPoses(yaw, rotorAngle, bladeAngle), 0) ==
      [Draw(0, 288, Yawed(yaw)), Draw(288, 144, Yawed(yaw)), Draw(432, 7632, Yawed(yaw)),
       Draw(8064, 240, HubSpun(yaw, rotorAngle)),
       Draw(8304, 36, BladeSpun(yaw, bladeAngle)), Draw(8304, 36, BladeSpun(yaw, bladeAngle + 90.0)),
       Draw(8304, 36, BladeSpun(yaw, bladeAngle + 180.0)), Draw(8304, 36, BladeSpun(yaw, bladeAngle + 270.0))]
  {
    var v := FanPoses(yaw, rotorAngle, bladeAngle);
    FanWalk(v);
  }
}
