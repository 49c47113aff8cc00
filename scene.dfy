/** The fan's mutable state, held in module-level variables of the script, as
    one object: the three vertex streams and the part counters that
    `buildFanGeometry` fills, the animation state, the oscillation controls and
    the frame-rate monitor. Its methods are the emitters, the builder, the
    per-frame steps of `render` and `updateFPS`. The trigonometry and the
    `rotate` angle-to-(cos, sin) conversion are the oracles `circle`, `sine`
    and `turn`. */
module Scene {
  import opened Vectors
  import opened Meshes
  import opened Shapes
  import opened Transforms
  import opened Animation
  import opened LevelOfDetail
  import opened Layout

  class Fan {
    /** (cos, sin) of i/n of a turn, as the emitters compute it. */
    const circle: Circle
    /** `Math.sin`, for the oscillation. */
    const sine: real -> real
    /** The (cos, sin) pair `rotate` uses for an angle in degrees. */
    const turn: real -> Vec2

    /** The arguments `buildFanGeometry` passes to the emitters: `FanDims`. */
    const dims: Dims
    /** The six parts of the buffer, in order: `Parts(dims, circle)`. */
    ghost const parts: seq<Mesh>

    /** The `points`, `normals` and `colors` arrays, which every push extends
        in lockstep, held as one value. */
    var streams: Mesh

    /** Declared with the other part counters but never assigned. */
    const baseVertices: nat := 0
    var hangingRodVertices: nat
    var motorHousingVertices: nat
    var frameVertices: nat
    var rotorVertices: nat
    var bladeVertices: nat

    var yaw: real
    var bladeAngle: real
    var rotorAngle: real
    var targetSpeed: real
    var currentSpeed: real

    var isOscillating: bool
    var oscillateSpeed: real
    var oscillateRange: real
    var oscillateAngle: real

    var frameCount: nat
    var lastFPSUpdate: real
    var currentFPS: nat
    var currentLOD: Level

    /** How many times the geometry has been built. */
    ghost var builds: nat

    /** The part counters in buffer order. */
    function Counts(): seq<nat>
      reads this`motorHousingVertices, this`hangingRodVertices, this`frameVertices, this`rotorVertices, this`bladeVertices
    {
      [baseVertices, motorHousingVertices, hangingRodVertices, frameVertices, rotorVertices, bladeVertices]
    }

    function MotionState(): Motion
      reads this`currentSpeed, this`targetSpeed, this`bladeAngle, this`rotorAngle
    {
      Motion(currentSpeed, targetSpeed, bladeAngle, rotorAngle)
    }

    function SwingState(): Swing
      reads this`isOscillating, this`oscillateSpeed, this`oscillateRange, this`oscillateAngle, this`yaw
    {
      Swing(isOscillating, oscillateSpeed, oscillateRange, oscillateAngle, yaw)
    }

    function MonitorState(): Monitor
      reads this`frameCount, this`lastFPSUpdate, this`currentFPS, this`currentLOD
    {
      Monitor(frameCount, lastFPSUpdate, currentFPS, currentLOD)
    }

    /** The buffer holds the fan as `buildFanGeometry` lays it out and the
        counters record its parts. */
    ghost predicate Built()
      reads this
    {
      Shaped() && streams == Concat(parts) && Counts() == Sizes(parts)
    }

    /** `parts` are the fan's parts: part k is `Part(dims, circle, k)`. */
    ghost predicate Shaped() {
      |parts| == 6 && forall k {:trigger Part(dims, circle, k)} :: 0 <= k < 6 ==> parts[k] == Part(dims, circle, k)
    }

    /** Built streams hold the whole fan and the counters the sizes of its parts. */
    lemma BuiltIsFan()
      requires Built()
      ensures streams == FanMesh(dims, circle) && Counts() == Sizes(Parts(dims, circle))
    {
      NamedParts(dims, circle, parts);
    }

    /** `window.onload`: the clock reading `now` starts the frame-rate monitor,
        then the geometry is built; the controls take their initial values. */
    constructor (circle: Circle, sine: real -> real, turn: real -> Vec2, now: real)
      ensures this.circle == circle && this.sine == sine && this.turn == turn && dims == FanDims
      ensures Built() && builds == 1
      ensures yaw == 0.0 && MotionState() == Motion(0.0, 0.0, 0.0, 0.0)
      ensures SwingState() == Swing(false, 1.0, 60.0, 0.0, 0.0)
      ensures MonitorState() == Start(now)
    {
      ghost var indexed := IndexedParts(FanDims, circle);
      this.circle := circle;
      this.sine := sine;
      this.turn := turn;
      dims := FanDims;
      parts := indexed;
      streams := Mesh([], [], []);
      hangingRodVertices, motorHousingVertices, frameVertices, rotorVertices, bladeVertices := 0, 0, 0, 0, 0;
      yaw, bladeAngle, rotorAngle, targetSpeed, currentSpeed := 0.0, 0.0, 0.0, 0.0, 0.0;
      isOscillating, oscillateSpeed, oscillateRange, oscillateAngle := false, 1.0, 60.0, 0.0;
      frameCount, lastFPSUpdate, currentFPS, currentLOD := 0, now, 60, High;
      builds := 0;
      new;
      BuildFanGeometry();
    }

    /** Push a fragment onto the three streams in lockstep. */
    method Emit(m: Mesh)
      modifies this`streams
      ensures streams == old(streams).Append(m)
    {
      streams := Mesh(streams.points + m.points, streams.normals + m.normals, streams.colors + m.colors);
    }

    /** `for (let i = 0; i < n; i++)` whose iteration i pushes `step(i)`. */
    method EmitSweep(n: nat, step: nat -> Mesh)
      modifies this`streams
      ensures streams == old(streams).Append(Sweep(n, step))
    {
      AppendEmpty(streams);
      SweepNext(0, step);
      var i := 0;
      while i < n
        invariant 0 <= i <= n
        invariant streams == old(streams).Append(Sweep(i, step))
      {
        SweepNext(i, step);
        AppendAssoc(old(streams), Sweep(i, step), step(i));
        Emit(step(i));
        i := i + 1;
      }
    }

    method AddCylinderY(radius: real, height: real, segments: nat, center: Vec3, color: Color)
      modifies this`streams
      ensures streams == old(streams).Append(CylinderY(radius, height, segments, center, color, circle))
    {
      var sides := CylinderYSides(radius, height, segments, center, color, circle);
      var tops := CylinderYTops(radius, height, segments, center, color, circle);
      var bottoms := CylinderYBottoms(radius, height, segments, center, color, circle);
      EmitSweep(segments, sides);
      EmitSweep(segments, tops);
      EmitSweep(segments, bottoms);
      AppendAssoc(old(streams), Sweep(segments, sides), Sweep(segments, tops));
      AppendAssoc(old(streams), Sweep(segments, sides).Append(Sweep(segments, tops)), Sweep(segments, bottoms));
    }

    method AddCylinder(radius: real, height: real, segments: nat, center: Vec3, color: Color)
      modifies this`streams
      ensures streams == old(streams).Append(Cylinder(radius, height, segments, center, color, circle))
    {
      EmitSweep(segments, CylinderSteps(radius, height, segments, center, color, circle));
    }

    method AddCylinderZ(radius: real, height: real, segments: nat, center: Vec3, color: Color)
      modifies this`streams
      ensures streams == old(streams).Append(CylinderZ(radius, height, segments, center, color, circle))
    {
      EmitSweep(segments, CylinderZSteps(radius, height, segments, center, color, circle));
    }

    method AddCircleRingXY(radius: real, thickness: real, segments: nat, center: Vec3, color: Color)
      modifies this`streams
      ensures streams == old(streams).Append(CircleRingXY(radius, thickness, segments, center, color, circle))
    {
      EmitSweep(segments, CircleRingSteps(radius, thickness, segments, center, color, circle));
    }

    method AddSpokesXY(radius: real, numSpokes: nat, center: Vec3, color: Color)
      modifies this`streams
      ensures streams == old(streams).Append(SpokesXY(radius, numSpokes, center, color, circle))
    {
      EmitSweep(numSpokes, SpokeSteps(radius, numSpokes, center, color, circle));
    }

    method AddConnectingRing(radius: real, thickness: real, segments: nat, centerFront: Vec3, centerBack: Vec3, color: Color)
      modifies this`streams
      ensures streams == old(streams).Append(ConnectingRing(radius, thickness, segments, centerFront, centerBack, color, circle))
    {
      EmitSweep(segments, ConnectingSteps(radius, thickness, segments, centerFront, centerBack, color, circle));
    }

    method AddFrameSpokes(radius: real, numSpokes: nat, center: Vec3, color: Color)
      modifies this`streams
      ensures streams == old(streams).Append(FrameSpokes(radius, numSpokes, center, color, circle))
    {
      EmitSweep(numSpokes, FrameSpokeSteps(radius, numSpokes, center, color, circle));
    }

    method AddCube(center: Vec3, size: Vec3, color: Color)
      modifies this`streams
      ensures streams == old(streams).Append(Cube(center, size, color))
    {
      var v := CubeCorners(center, size);
      EmitSweep(|CubeFaces|, FaceSteps(v, CubeFaces, color));
    }

    method AddBladeXY(radiusStart: real, radiusEnd: real, width: real, color: Color)
      modifies this`streams
      ensures streams == old(streams).Append(BladeXY(radiusStart, radiusEnd, width, color))
    {
      var v := BladeCorners(radiusStart, radiusEnd, width);
      EmitSweep(|BladeFaces|, FaceSteps(v, BladeFaces, color));
    }

    method AddCurvedBlade(color: Color)
      modifies this`streams
      ensures streams == old(streams).Append(CurvedBlade(color, circle))
    {
      EmitSweep(12, CurvedBladeSteps(color, circle));
    }

    /** One wire guard: three rings and the spokes. */
    method AddGuard(center: Vec3, color: Color)
      modifies this`streams
      ensures streams == old(streams).Append(Guard(dims, center, color, circle))
    {
      var outer, middle, inner := dims.outer, dims.middle, dims.inner;
      AddCircleRingXY(outer.radius, outer.thickness, outer.segments, center, color);
      AddCircleRingXY(middle.radius, middle.thickness, middle.segments, center, color);
      AddCircleRingXY(inner.radius, inner.thickness, inner.segments, center, color);
      AddSpokesXY(dims.spokeRadius, dims.spokes, center, color);
      AppendFour(old(streams), Ring(outer, center, color, circle), Ring(middle, center, color, circle),
                 Ring(inner, center, color, circle), SpokesXY(dims.spokeRadius, dims.spokes, center, color, circle));
    }

    /** The motor housing block of `buildFanGeometry`: emit the part and
        record how many vertices it pushed. */
    method BuildMotorHousing()
      modifies this`streams, this`motorHousingVertices
      requires Shaped()
      ensures streams == old(streams).Append(parts[1])
      ensures motorHousingVertices == parts[1].Size()
    {
      var start := |streams.points|;
      var c := dims.housing;
      AddCylinderZ(c.radius, c.height, c.segments, c.center, c.color);
      assert parts[1] == Part(dims, circle, 1);
      AppendGrows(old(streams), parts[1], streams);
      motorHousingVertices := |streams.points| - start;
    }

    /** The hanging rod block of `buildFanGeometry`. */
    method BuildHangingRod()
      modifies this`streams, this`hangingRodVertices
      requires Shaped()
      ensures streams == old(streams).Append(parts[2])
      ensures hangingRodVertices == parts[2].Size()
    {
      var start := |streams.points|;
      var c := dims.rod;
      AddCylinderY(c.radius, c.height, c.segments, c.center, c.color);
      assert parts[2] == Part(dims, circle, 2);
      AppendGrows(old(streams), parts[2], streams);
      hangingRodVertices := |streams.points| - start;
    }

    /** The frame block of `buildFanGeometry`: front guard, back guard and the
        connecting ring, counted together. */
    method BuildFrameGuard()
      modifies this`streams, this`frameVertices
      requires Shaped()
      ensures streams == old(streams).Append(parts[3])
      ensures frameVertices == parts[3].Size()
    {
      var start := |streams.points|;
      AddGuard(dims.guardFront, dims.frontColor);
      AddGuard(dims.guardBack, dims.backColor);
      var r := dims.connector;
      AddConnectingRing(r.radius, r.thickness, r.segments, dims.guardFront, dims.guardBack, dims.connectorColor);
      AppendThree(old(streams), Guard(dims, dims.guardFront, dims.frontColor, circle),
                  Guard(dims, dims.guardBack, dims.backColor, circle), Connector(dims, circle));
      assert parts[3] == Part(dims, circle, 3);
      AppendGrows(old(streams), parts[3], streams);
      frameVertices := |streams.points| - start;
    }

    /** The hub block of `buildFanGeometry`. */
    method BuildHub()
      modifies this`streams, this`rotorVertices
      requires Shaped()
      ensures streams == old(streams).Append(parts[4])
      ensures rotorVertices == parts[4].Size()
    {
      var start := |streams.points|;
      var c := dims.hub;
      AddCylinderZ(c.radius, c.height, c.segments, c.center, c.color);
      assert parts[4] == Part(dims, circle, 4);
      AppendGrows(old(streams), parts[4], streams);
      rotorVertices := |streams.points| - start;
    }

    /** The blade block of `buildFanGeometry`: one blade, drawn four times. */
    method BuildBlade()
      modifies this`streams, this`bladeVertices
      requires Shaped()
      ensures streams == old(streams).Append(parts[5])
      ensures bladeVertices == parts[5].Size()
    {
      var start := |streams.points|;
      AddBladeXY(dims.bladeStart, dims.bladeEnd, dims.bladeWidth, dims.bladeColor);
      assert parts[5] == Part(dims, circle, 5);
      AppendGrows(old(streams), parts[5], streams);
      bladeVertices := |streams.points| - start;
    }

    /** `buildFanGeometry`: empty the streams, emit the parts in order and
        record how many vertices each part pushed. */
    method BuildFanGeometry()
      modifies this`streams, this`builds
      modifies this`motorHousingVertices, this`hangingRodVertices, this`frameVertices, this`rotorVertices, this`bladeVertices
      requires Shaped()
      ensures Built() && builds == old(builds) + 1
    {
      streams := Mesh([], [], []);
      BuildMotorHousing();
      ghost var s1 := streams;
      BuildHangingRod();
      ghost var s2 := streams;
      BuildFrameGuard();
      ghost var s3 := streams;
      BuildHub();
      ghost var s4 := streams;
      BuildBlade();
      builds := builds + 1;
      assert parts[0] == Part(dims, circle, 0);
      Assembled(parts, s1, s2, s3, s4, streams);
    }

    /** The oscillation step at the top of `render`. */
    method Oscillate()
      modifies this`oscillateAngle, this`yaw
      ensures SwingState() == Oscillated(old(SwingState()), sine)
    {
      if isOscillating {
        oscillateAngle := oscillateAngle + oscillateSpeed * PhaseRate;
        yaw := sine(oscillateAngle) * oscillateRange;
      }
    }

    /** The draw calls of `render`: an offset starts at 0 and grows by each
        part's counter; a part is drawn only when its counter is positive; the
        blade span is drawn once per blade without advancing the offset. */
    method DrawCalls() returns (draws: seq<Draw>)
      ensures draws == Walk(Counts(), FanPoses(yaw, rotorAngle, bladeAngle), 0)
    {
      ghost var c := Counts();
      ghost var v := FanPoses(yaw, rotorAngle, bladeAngle);
      SixOffsets(c);

      var offset: nat := 0;
      draws := [];
      ConcatEmpty(Walk(c, v, 0));

      // each block draws one part from `offset`; the walk from that part on
      // is what remains to be drawn
      var base := DrawPart(offset, baseVertices, Still);
      WalkStep(c, v, 0, 1, draws, offset, baseVertices, [Still]);
      draws := draws + base;
      offset := offset + baseVertices;

      var motorHousing := DrawPart(offset, motorHousingVertices, Yawed(yaw));
      WalkStep(c, v, 1, 2, draws, offset, motorHousingVertices, [Yawed(yaw)]);
      draws := draws + motorHousing;
      offset := offset + motorHousingVertices;

      var hangingRod := DrawPart(offset, hangingRodVertices, Yawed(yaw));
      WalkStep(c, v, 2, 3, draws, offset, hangingRodVertices, [Yawed(yaw)]);
      draws := draws + hangingRod;
      offset := offset + hangingRodVertices;

      var frame := DrawPart(offset, frameVertices, Yawed(yaw));
      WalkStep(c, v, 3, 4, draws, offset, frameVertices, [Yawed(yaw)]);
      draws := draws + frame;
      offset := offset + frameVertices;

      var rotor := DrawPart(offset, rotorVertices, HubSpun(yaw, rotorAngle));
      WalkStep(c, v, 4, 5, draws, offset, rotorVertices, [HubSpun(yaw, rotorAngle)]);
      draws := draws + rotor;
      offset := offset + rotorVertices;

      var bladeDraws := DrawBlades(offset);
      WalkStep(c, v, 5, 6, draws, offset, bladeVertices, BladePoses(yaw, bladeAngle));
      draws := draws + bladeDraws;
      assert Walk(c, v, 6) == [];
      ConcatEmpty(draws);
    }

    /** One part's block of `render`: a draw of `count` vertices from `first`
        in `pose`, issued only when the part is not empty. */
    static method DrawPart(first: nat, count: nat, pose: Pose) returns (drawn: seq<Draw>)
      ensures drawn == DrawsOf(first, count, [pose])
    {
      drawn := [];
      if count > 0 {
        drawn := [Draw(first, count, pose)];
      }
    }

    /** The blade loop of `render`: blade i of four is drawn from the same
        offset, yawed and turned by `bladeAngle + i * 90` about the rotor
        pivot, and not at all when the blade span is empty. */
    method DrawBlades(offset: nat) returns (draws: seq<Draw>)
      ensures draws == DrawsOf(offset, bladeVertices, BladePoses(yaw, bladeAngle))
    {
      ghost var blades := BladePoses(yaw, bladeAngle);
      draws := [];
      assert DrawsOf(offset, bladeVertices, blades[..0]) == [];
      var i := 0;
      while i < 4
        invariant 0 <= i <= 4
        invariant draws == DrawsOf(offset, bladeVertices, blades[..i])
      {
        var pose := BladeSpun(yaw, bladeAngle + i as real * 90.0);
        assert pose == blades[i];
        if bladeVertices > 0 {
          draws := draws + [Draw(offset, bladeVertices, pose)];
        }
        DrawsOfNext(offset, bladeVertices, blades, i);
        i := i + 1;
      }
      assert blades[..4] == blades;
    }

    /** The momentum and angle update at the end of `render`. */
    method Tick()
      modifies this`currentSpeed, this`bladeAngle, this`rotorAngle
      ensures MotionState() == Advance(old(MotionState()))
    {
      if Abs(currentSpeed - targetSpeed) > DeadBand {
        if currentSpeed < targetSpeed {
          currentSpeed := Min(targetSpeed, currentSpeed + Acceleration);
        } else {
          currentSpeed := Max(targetSpeed, currentSpeed - Acceleration);
        }
      }
      bladeAngle := bladeAngle + currentSpeed * BladeRate;
      rotorAngle := rotorAngle + RotorStep;
    }

    /** `updateFPS` at clock reading `now`. A level change rebuilds the
        geometry, which with the hard-coded parameters reproduces the same
        buffer. */
    method UpdateFPS(now: real)
      requires Built()
      modifies this`frameCount, this`lastFPSUpdate, this`currentFPS, this`currentLOD
      modifies this`streams, this`builds
      modifies this`motorHousingVertices, this`hangingRodVertices, this`frameVertices, this`rotorVertices, this`bladeVertices
      ensures MonitorState() == Sample(old(MonitorState()), now).0
      ensures builds == old(builds) + (if Sample(old(MonitorState()), now).1 then 1 else 0)
      ensures Built() && streams == old(streams) && Counts() == old(Counts())
    {
      if now - lastFPSUpdate >= SampleInterval {
        currentFPS := frameCount;
        frameCount := 0;
        lastFPSUpdate := now;
        if currentFPS < SlowFps && currentLOD != Low {
          currentLOD := Low;
          BuildFanGeometry();
        } else if currentFPS > FastFps && currentLOD == Low {
          currentLOD := High;
          BuildFanGeometry();
        }
      }
      frameCount := frameCount + 1;
    }

    /** One frame of `render`: oscillate, issue the draw calls with the new
        yaw and the previous blade and hub angles, advance the animation, then
        sample the frame rate. */
    method Render(now: real) returns (draws: seq<Draw>)
      requires Built()
      modifies this`oscillateAngle, this`yaw, this`currentSpeed, this`bladeAngle, this`rotorAngle
      modifies this`frameCount, this`lastFPSUpdate, this`currentFPS, this`currentLOD
      modifies this`streams, this`builds
      modifies this`motorHousingVertices, this`hangingRodVertices, this`frameVertices, this`rotorVertices, this`bladeVertices
      ensures Built()
      ensures SwingState() == Oscillated(old(SwingState()), sine)
      ensures draws == Walk(Counts(), FanPoses(yaw, old(rotorAngle), old(bladeAngle)), 0)
      ensures MotionState() == Advance(old(MotionState()))
      ensures MonitorState() == Sample(old(MonitorState()), now).0
    {
      Oscillate();
      draws := DrawCalls();
      Tick();
      UpdateFPS(now);
    }
  }
}
