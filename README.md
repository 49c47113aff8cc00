# Table fan: geometry builder, buffer layout and animation

This project models the core of `kipasAngin.js`, a WebGL table fan, in Dafny.
The model has four parts:

- **The primitive mesh emitters** (`addCylinderY`, `addCylinder`,
  `addCylinderZ`, `addCircleRingXY`, `addSpokesXY`, `addConnectingRing`,
  `addFrameSpokes`, `addCube`, `addBladeXY`, `addCurvedBlade`).
  - Each one is a specification function that gives the vertices it pushes.
  - Each one is also a method of the `Fan` class that pushes onto the
    `points`, `normals` and `colors` streams in a `for` loop. The method is
    proved to push exactly what the function gives.
  - Shape lemmas state the vertex count, the colour and the cap, face and
    wall normals, and where the cap vertices lie.
- **`buildFanGeometry`**.
  - It resets the streams and emits the motor housing, hanging rod, frame
    guard, hub and blade in order, recording each part's vertex counter.
  - The buffer is proved to be the parts concatenated. Each counter is proved
    to be its part's size, and each part is proved to sit at the sum of the
    sizes before it.
  - With the hard-coded arguments the counts are 0, 288, 144, 7632, 240 and
    36, and the buffer has 8340 vertices.
- **`render`**.
  - The oscillation step.
  - The draw walk: an accumulating offset, a part skipped when its counter is
    zero, and the blade span drawn four times, a quarter turn apart.
  - The speed easing, with step 0.5 and dead band 0.1.
  - The angle updates.
  - The pivot compositions of the yaw, hub and blade transforms, as 4×4 real
    matrices over an abstract rotation (c, s).
- **`updateFPS`**: the frame-rate sample and the level-of-detail switch that
  rebuilds the geometry.

Modules:

- `Vectors`: vectors, and symbolic normals.
- `Meshes`: a lockstep triple of streams, and `Sweep`, the mesh a `for` loop
  of n iterations pushes.
- `Shapes`: the emitters.
- `Transforms`: the matrices, and the `Pose` of a draw call.
- `Animation`: easing, motion and oscillation.
- `LevelOfDetail`: `updateFPS`.
- `Layout`: the parts, offsets and the draw walk.
- `Scene`: the class `Fan`, which holds the script's global state.

### What the code does not do

- `LODLevels` is declared at `kipasAngin.js:47` and never read. Every segment
  and spoke count is hard-coded in `buildFanGeometry`, so a level-of-detail
  switch rebuilds the same buffer.
  - `Scene.Fan.UpdateFPS` proves the streams and counters unchanged across a
    rebuild.
  - `LevelOfDetail.FromStart` proves that the medium level is never reached.
- `baseVertices` is declared at `kipasAngin.js:58` and never assigned. The
  base is therefore an empty part, and its guarded draw at
  `kipasAngin.js:862` never runs.
- No emitter validates its segment or spoke count. The emitters take any
  natural number of segments, including 0, which pushes nothing, and no
  precondition restricts it. A negative or fractional count, which
  JavaScript would accept, is outside the model's `nat`.

## Model

The specification functions are definitions and have no row of their own:
`Sweep`, the emitter functions, `Concat`, `Sizes`, `Offset`, `DrawsOf`,
`Walk`, `FanPoses`, `BladePoses` and `ModelView`. What is proved about
them is in the lemmas below. `Layout.IndexedParts` and `Layout.NamedParts`
are helpers that name the fan's part list one entry at a time; they have
no row either. The `Fan` methods are proved to compute exactly these
functions.

| member | source | states |
|---|---|---|
| Meshes.Mesh.Append | kipasAngin.js:400 | pushing a fragment adds its size to the buffer's size and keeps the three streams in lockstep |
| Meshes.Triangle | kipasAngin.js:507 | one pushed triangle is three lockstep records in the given colour |
| Meshes.SweepNext | kipasAngin.js:408-443 | a loop of no iterations pushes nothing; n + 1 iterations push the first n and then iteration n |
| Meshes.SweepSize | kipasAngin.js:408-443 | a loop whose every iteration pushes k lockstep records pushes n·k records in lockstep |
| Meshes.SweepAt | kipasAngin.js:408-443 | record r of iteration i lands at index i·k + r of what the loop pushes |
| Meshes.SweepIndex | kipasAngin.js:408-443 | record j of the loop is record j mod k of iteration j div k |
| Meshes.SweepColored | kipasAngin.js:426-442 | if every iteration pushes only the given colour, so does the loop |
| Meshes.AppendGrows | kipasAngin.js:330-332 | after a part is pushed, the length of `points` has grown by the part's size, which is what `points.length - start` records |
| Meshes.SpansPushed | kipasAngin.js:330-332 | a part pushed onto the buffer occupies the span that starts at the old length |
| Meshes.SpansAppend | kipasAngin.js:335-376 | later pushes leave every earlier part's span intact |
| Meshes.SpansAt | kipasAngin.js:330-332 | vertex j of a part is vertex offset + j of the buffer, in all three streams |
| Shapes.CylinderYSidesShape | kipasAngin.js:407-443 | the side strip pushes 6 records per segment in the colour, each normal being normalize of the point's horizontal offset from the axis |
| Shapes.CylinderYTopsShape | kipasAngin.js:445-465 | the top fan pushes 3 records per segment with normal (0, 1, 0) at height center.y + height/2 |
| Shapes.CylinderYBottomsShape | kipasAngin.js:467-487 | the bottom fan pushes 3 records per segment with normal (0, -1, 0) at height center.y - height/2 |
| Shapes.CylinderYShape | kipasAngin.js:406-488 | addCylinderY pushes 12·segments records in the colour: sides with radial normals, then the top cap, then the bottom cap, each cap with its constant normal and height |
| Shapes.CylinderStepAt | kipasAngin.js:492-517 | iteration i of addCylinder pushes 12 records: 6 side records with radial normals, 3 top records with (0, 1, 0) at the top, 3 bottom records with (0, -1, 0) at the bottom |
| Shapes.CylinderShape | kipasAngin.js:491-518 | addCylinder pushes 12·segments records in the colour, with the per-iteration layout of radial, top and bottom normals |
| Shapes.CylinderZStepAt | kipasAngin.js:577-617 | iteration i of addCylinderZ pushes 6 side records with radial normals about the z axis, 3 front records with (0, 0, 1) at z = center.z + height/2, and 3 back records with (0, 0, -1) at z = center.z - height/2 |
| Shapes.CylinderZShape | kipasAngin.js:576-618 | addCylinderZ pushes 12·segments records in the colour; every front-cap point lies at z = center.z + height/2 and every back-cap point at z = center.z - height/2 |
| Shapes.RingFrontFace | kipasAngin.js:534-550 | the front face of a ring segment is 6 records with normal (0, 0, 1) at z = center.z + thickness/2 |
| Shapes.RingBackFace | kipasAngin.js:541-555 | the back face is 6 records with normal (0, 0, -1) at z = center.z - thickness/2 |
| Shapes.OuterWall | kipasAngin.js:557-564 | the outer wall's normals are (cos, sin, 0), and each point lies at distance `radius` from the centre along its normal |
| Shapes.InnerWall | kipasAngin.js:566-571 | the inner wall's normals are (-cos, -sin, 0), pointing back at the centre from distance radius - thickness |
| Shapes.CircleRingStepAt | kipasAngin.js:523-572 | iteration i of addCircleRingXY pushes 24 records: front face, back face, outer wall, inner wall, in that order |
| Shapes.CircleRingShape | kipasAngin.js:521-573 | addCircleRingXY pushes 24·segments records in the colour, each group of 24 laid out as front, back, outer wall and inner wall |
| Shapes.SpokeFace | kipasAngin.js:633-651 | one spoke triangle is 3 records with one normal in one z plane, starting at the centre |
| Shapes.SpokeStepShape | kipasAngin.js:624-652 | one spoke pushes a front triangle with (0, 0, 1) at z = center.z + 0.01, then a back triangle with (0, 0, -1) at z = center.z - 0.01 |
| Shapes.SpokesShape | kipasAngin.js:621-653 | addSpokesXY pushes 6·numSpokes records in the colour; each triangle starts at the centre |
| Shapes.ConnectingOuter | kipasAngin.js:692-700 | the outer connecting face's normals point out from the front or back ring centre at distance `radius` |
| Shapes.ConnectingInner | kipasAngin.js:703-709 | the inner connecting face's normals point back at the centre from distance radius - thickness |
| Shapes.ConnectingStepShape | kipasAngin.js:659-710 | one segment of addConnectingRing pushes 6 outer records and then 6 inner records |
| Shapes.ConnectingRingShape | kipasAngin.js:656-711 | addConnectingRing pushes 12·segments records in the colour, each on the front or back ring, outer wall first |
| Shapes.FrameSpokesShape | kipasAngin.js:714-734 | addFrameSpokes pushes 6·numSpokes records in the colour, all with normal (0, 0, 1) at z = center.z + 0.015 |
| Shapes.FaceQuad | kipasAngin.js:395-401 | one face splits into the two triangles [f0, f1, f2, f0, f2, f3]: 6 records in the colour, every point a corner |
| Shapes.CubeCorners | kipasAngin.js:381-391 | the box has 8 corners |
| Shapes.SolidShape | kipasAngin.js:395-402 | a face loop whose every face winds outward pushes 6 records per face, all corners, all in the colour, all with outward normals |
| Shapes.FaceQuadOutward | kipasAngin.js:396-398 | a face whose edge cross product points away from the centre at every corner gets outward normals |
| Shapes.CubeFacesOutward | kipasAngin.js:392-402 | for a box of positive size, each of the six faces of addCube winds outward |
| Shapes.CubeFrontOutward | kipasAngin.js:393-398 | face [1,0,3,2] winds outward, towards +z |
| Shapes.CubeRightOutward | kipasAngin.js:393-398 | face [2,3,7,6] winds outward, towards +x |
| Shapes.CubeBottomOutward | kipasAngin.js:393-398 | face [3,0,4,7] winds outward, towards -y |
| Shapes.CubeTopOutward | kipasAngin.js:393-398 | face [6,5,1,2] winds outward, towards +y |
| Shapes.CubeBackOutward | kipasAngin.js:393-398 | face [4,5,6,7] winds outward, towards -z |
| Shapes.CubeLeftOutward | kipasAngin.js:393-398 | face [5,4,0,1] winds outward, towards -x |
| Shapes.SolidSize | kipasAngin.js:392-402 | a face loop over faces that index into the corner list pushes 6 records per face, all in the colour and all corners, for any corners |
| Shapes.CubeSize | kipasAngin.js:380-403 | addCube pushes 36 records in the colour, every point a corner of the box, for any centre and size |
| Shapes.CubeShape | kipasAngin.js:392-402 | for a box of positive size, in addition every normal addCube pushes points out of the box |
| Shapes.BladeCorners | kipasAngin.js:788-806 | the blade has 8 corners: the front four at z = 0.015, each back corner its front twin at z = -0.015 (a depth of 0.03); the hub edge at y = radiusStart is `width` wide, the tip edge at y = radiusEnd is 0.4·width wide, both centred on x = 0 |
| Shapes.BladeFacesOutward | kipasAngin.js:808-825 | for a blade of positive width that extends outwards, each of the six faces of addBladeXY winds outward |
| Shapes.BladeFrontOutward | kipasAngin.js:808-820 | the front face winds towards +z |
| Shapes.BladeBackOutward | kipasAngin.js:808-820 | the back face winds towards -z |
| Shapes.BladeHubOutward | kipasAngin.js:808-820 | the hub-end face winds towards -y |
| Shapes.BladeTipOutward | kipasAngin.js:808-820 | the tip-end face winds towards +y |
| Shapes.BladeLeftOutward | kipasAngin.js:808-820 | the left side winds outward, towards -x |
| Shapes.BladeRightOutward | kipasAngin.js:808-820 | the right side winds outward, towards +x |
| Shapes.BladeXYSize | kipasAngin.js:787-827 | addBladeXY pushes 36 records in the colour, every point a corner of the blade, for any radii and width |
| Shapes.BladeShape | kipasAngin.js:808-826 | for a blade of positive width that extends outwards, in addition every normal addBladeXY pushes points out of the blade |
| Shapes.Sheet | kipasAngin.js:767-782 | a four-point sheet is 6 records in one normal and colour, with the points in the order p1, p2, p3, p1, p3, p4 |
| Shapes.CurvedBladeStepIsFlat | kipasAngin.js:738-765 | with the hard-coded zero width and equal radii, the eight points of an iteration collapse to four, all at radius 0.25, and the front edge cross product is the zero vector |
| Shapes.CurvedBladeStepAt | kipasAngin.js:743-783 | iteration i of addCurvedBlade pushes 24 records on the blade's two edge lines; the front normals are normalize of the zero vector and the back normals their negation |
| Shapes.CurvedBladeSweepShape | kipasAngin.js:743-783 | n iterations of addCurvedBlade push 24·n records with the per-iteration layout |
| Shapes.CurvedBladeShape | kipasAngin.js:737-784 | addCurvedBlade pushes 288 records in the colour, all on the two lines x = 0 and x = -0.02 at y = 0.25 |
| Transforms.YawIsRotation | kipasAngin.js:866-872 | the yaw pivot lies on the rotation axis, so translate·rotate_y·translate-back is the plain rotation about y |
| Transforms.RotateYTurns | kipasAngin.js:869 | rotate about y keeps the height, fixes the vertical axis and, for a true rotation, keeps the distance from the axis |
| Transforms.YawTurns | kipasAngin.js:866-872 | the yaw transform keeps every point's y, fixes the axis x = z = 0 and, for a true rotation, keeps the distance from it |
| Transforms.HubForm | kipasAngin.js:894-900 | the hub transform written out as one matrix |
| Transforms.HubMatrixTurns | kipasAngin.js:894-900 | that matrix keeps z, fixes the rotor axis (0, 0.25, z) and, for a true rotation, keeps the distance from it |
| Transforms.HubTurns | kipasAngin.js:894-900 | the hub transform turns points about the rotor axis as described above |
| Transforms.BladeIsHubLifted | kipasAngin.js:894-911 | a blade's transform is the hub's rotation applied after lifting the blade onto the pivot, so blades and hub turn as one rotor |
| Transforms.BladeMatrixPlaces | kipasAngin.js:911 | the blade matrix keeps z and, for a true rotation, maps the distance from the blade's origin to the distance from the pivot |
| Transforms.BladeOnPivot | kipasAngin.js:911 | a blade's origin lands on the rotor pivot (0, 0.25, 0), and the blade turns rigidly about it |
| Transforms.MulAssoc | kipasAngin.js:866-873 | `mult` is associative, so a chain of transforms such as `mult(viewMatrix, mult(translate, mult(rotate, translate)))` may be grouped either way |
| Transforms.BladeViewIsHubView | kipasAngin.js:892-912 | a blade's model-view matrix `bladeMV` is the hub's `hubMV` for the same angle followed by the lift `translate(0, 0.25, 0)`, for every view, yaw and angle |
| Transforms.PivotsOnScreen | kipasAngin.js:866-912 | under `hubMV` every point of the rotor axis (0, 0.25, z) is drawn where `yawMV` draws it, whatever the rotor angle, and under `bladeMV` a blade's origin is drawn where `yawMV` draws the pivot (0, 0.25, 0), whatever the blade angle |
| Transforms.BladesQuarterApart | kipasAngin.js:908-911 | consecutive blades are 90 degrees apart, and a fifth would be the first turned a full circle |
| Animation.Eased | kipasAngin.js:922-928 | within the dead band 0.1 the speed is unchanged; outside it, the speed moves toward the target by at most 0.5, never passes it, and its distance to the target shrinks by exactly 0.5 or to zero |
| Animation.BladesUseEasedSpeed | kipasAngin.js:922-931 | the blade angle grows by the freshly eased speed × 0.15, so a fan starting from rest turns in its first frame |
| Animation.RotorTurnsSteadily | kipasAngin.js:932 | after n frames the rotor has turned exactly 2n degrees, whatever the speed, and the target is unchanged |
| Animation.SpinUp | kipasAngin.js:922-928 | from rest with target 60 the speed is exactly k/2 after k ≤ 120 frames and exactly 60 from frame 120 on |
| Animation.Settled | kipasAngin.js:922 | once within the dead band the speed never changes again: there is no final snap onto the target |
| Animation.Converges | kipasAngin.js:922-928 | after n frames the distance to the target is at most the larger of (initial distance - 0.5n) and 0.1 |
| Animation.BladesNeverReverse | kipasAngin.js:922-931 | with a non-negative speed and target the speed stays non-negative and the blade angle never decreases |
| Animation.ScaleWithin | kipasAngin.js:836 | a sine value in [-1, 1] times a non-negative range lies within ± range |
| Animation.SwingWithinRange | kipasAngin.js:834-836 | while oscillating, the yaw stays within ± oscillateRange |
| Animation.PhaseAdvances | kipasAngin.js:834-835 | after n frames the phase has advanced by n × speed × 0.02 when oscillating and not at all otherwise; the controls never change |
| LevelOfDetail.SwitchRule | kipasAngin.js:113-121 | below 30 fps the level becomes low; above 55 fps a low level becomes high; otherwise, and always between the thresholds, it is kept; the geometry is rebuilt exactly when the level changes |
| LevelOfDetail.SampleCounts | kipasAngin.js:104-124 | a due sample (at least 1000 ms since the last) takes the frame count as the rate, records the time and restarts the count, which the call then bumps to 1; otherwise the call only counts a frame and does not rebuild |
| LevelOfDetail.RebuildIffChanged | kipasAngin.js:113-121 | one call rebuilds the geometry exactly when it changes the level |
| LevelOfDetail.NeverMedium | kipasAngin.js:113-121 | a monitor that is not at medium never reaches medium, whatever the frame rates |
| LevelOfDetail.FromStart | kipasAngin.js:42-46 | from the initial monitor (high, started at load time), every reachable level is high or low |
| Layout.ConcatSize | kipasAngin.js:323-377 | the concatenated parts form a lockstep buffer whose size is the sum of the part sizes |
| Layout.OffsetStep | kipasAngin.js:863-905 | each part's offset is the previous part's offset plus the previous part's counter |
| Layout.OffsetWithin | kipasAngin.js:856-905 | every offset lies within the buffer's total size |
| Layout.PartSpan | kipasAngin.js:326-376 | part k occupies the span of the buffer that starts at the sum of the sizes before it |
| Layout.ConcatAt | kipasAngin.js:326-376 | vertex j of part k is vertex offset(k) + j of the buffer, in all three streams |
| Layout.GuardSize | kipasAngin.js:342-360 | a wire guard pushes 24 records per segment of each of its three rings and 6 per spoke |
| Layout.FrameSize | kipasAngin.js:340-366 | the frame counts both guards plus 12 records per segment of the connecting ring |
| Layout.CylinderPartSizes | kipasAngin.js:331-370 | the motor housing, rod and hub cylinders push 12 records per segment |
| Layout.BladeSize | kipasAngin.js:375 | the blade part pushes 36 lockstep records, whatever its radii and width |
| Layout.PartSizes | kipasAngin.js:323-377 | with the hard-coded arguments the parts have 0, 288, 144, 7632, 240 and 36 vertices |
| Layout.FanLayout | kipasAngin.js:323-377 | the buffer is the five emitted parts pushed in order onto empty streams |
| Layout.Assembled | kipasAngin.js:323-377 | pushing parts 1 to 5 in turn onto empty streams yields the concatenation of all six parts |
| Layout.SixOffsets | kipasAngin.js:856-905 | the offsets of the six parts are the running sums of their counters |
| Layout.FanOffsets | kipasAngin.js:856-905 | with the hard-coded arguments the parts start at 0, 0, 288, 432, 8064 and 8304, and the buffer ends at 8340 |
| Layout.FanSizes | kipasAngin.js:323-377 | the hard-coded fan buffer is lockstep with 8340 vertices |
| Layout.DrawsOfNext | kipasAngin.js:909-916 | one more blade iteration appends one draw, or none when the blade span is empty |
| Layout.WalkInBuffer | kipasAngin.js:856-916 | every draw covers one whole non-empty part at that part's offset, inside the buffer, in one of its poses |
| Layout.WalkStep | kipasAngin.js:858-916 | the draws so far, then part k's draws, then the walk of the later parts, make up the whole walk |
| Layout.WalkOne | kipasAngin.js:875-905 | a non-empty part drawn in one pose is one draw ahead of the walk of the later parts |
| Layout.WalkLast | kipasAngin.js:907-916 | the last part's draws make up the whole walk from it |
| Layout.FanWalk | kipasAngin.js:856-916 | over the fan's sizes the walk skips the empty base and makes one draw each for the housing, rod, frame and hub, then four for the blade |
| Layout.FanDraws | kipasAngin.js:856-916 | the hard-coded fan is drawn at offsets 0, 288, 432 and 8064 (yawed; the hub also spun), then the blade span at 8304 four times, a quarter turn apart |
| Scene.Fan.BuiltIsFan | kipasAngin.js:323-377 | once built, the streams are the whole fan and the counters are its part sizes |
| Scene.Fan.constructor | kipasAngin.js:15-63 | the globals take their initial values, the frame-rate monitor starts at load time and the geometry is built once |
| Scene.Fan.Emit | kipasAngin.js:400 | a push extends all three streams by the fragment |
| Scene.Fan.EmitSweep | kipasAngin.js:408-443 | a `for` loop of n iterations pushes exactly the sweep of its iterations |
| Scene.Fan.AddCylinderY | kipasAngin.js:406-488 | the three loops of addCylinderY push exactly `CylinderY` |
| Scene.Fan.AddCylinder | kipasAngin.js:491-518 | the loop pushes exactly `Cylinder` |
| Scene.Fan.AddCylinderZ | kipasAngin.js:576-618 | the loop pushes exactly `CylinderZ` |
| Scene.Fan.AddCircleRingXY | kipasAngin.js:521-573 | the loop pushes exactly `CircleRingXY` |
| Scene.Fan.AddSpokesXY | kipasAngin.js:621-653 | the loop pushes exactly `SpokesXY` |
| Scene.Fan.AddConnectingRing | kipasAngin.js:656-711 | the loop pushes exactly `ConnectingRing` |
| Scene.Fan.AddFrameSpokes | kipasAngin.js:714-734 | the loop pushes exactly `FrameSpokes` |
| Scene.Fan.AddCube | kipasAngin.js:380-403 | the face loop pushes exactly `Cube` |
| Scene.Fan.AddBladeXY | kipasAngin.js:787-827 | the face loop pushes exactly `BladeXY` |
| Scene.Fan.AddCurvedBlade | kipasAngin.js:737-784 | the loop pushes exactly `CurvedBlade` |
| Scene.Fan.AddGuard | kipasAngin.js:342-350 | three rings and the spokes push exactly one `Guard` |
| Scene.Fan.BuildMotorHousing | kipasAngin.js:330-332 | the motor housing block pushes part 1 and records its size |
| Scene.Fan.BuildHangingRod | kipasAngin.js:335-337 | the hanging rod block pushes part 2 and records its size |
| Scene.Fan.BuildFrameGuard | kipasAngin.js:340-366 | the frame block pushes part 3 (both guards and the connecting ring) and records its size |
| Scene.Fan.BuildHub | kipasAngin.js:369-371 | the hub block pushes part 4 and records its size |
| Scene.Fan.BuildBlade | kipasAngin.js:374-376 | the blade block pushes part 5 once and records its size |
| Scene.Fan.BuildFanGeometry | kipasAngin.js:323-377 | after a build, the streams are the concatenated parts and every counter is its part's size |
| Scene.Fan.Oscillate | kipasAngin.js:834-839 | the oscillation step advances the phase and sets the yaw only while oscillating |
| Scene.Fan.DrawCalls | kipasAngin.js:856-916 | the draw calls are the walk over the counters: each part at the running offset, skipped when empty, the blade four times at one offset |
| Scene.Fan.DrawPart | kipasAngin.js:862-863 | one part's block draws its span once in its pose, or not at all when the part is empty |
| Scene.Fan.DrawBlades | kipasAngin.js:907-916 | the blade loop draws the blade span four times at the same offset, placed at bladeAngle + 90i |
| Scene.Fan.Tick | kipasAngin.js:919-932 | the end of a frame is one `Advance`: eased speed, blade angle by the new speed, rotor by 2 |
| Scene.Fan.UpdateFPS | kipasAngin.js:104-124 | the monitor takes one `Sample` step; a level change rebuilds the geometry, which leaves the streams and counters as they were |
| Scene.Fan.Render | kipasAngin.js:830-941 | one frame: oscillate, draw with the new yaw and the previous blade and hub angles, advance the motion, sample the frame rate; the buffer stays built |

## Left out

- WebGL, shaders, buffer upload (`initBuffers`), uniforms, the camera,
  mouse, DOM, audio, motion blur and `requestAnimationFrame`. These are
  foreign calls and I/O with no logic of their own. A draw call is modelled
  as the `Draw` record it would issue; `ModelView` gives the matrix it would
  upload.
- The matrix library (`rotate`, `translate`, `mult`, `normalize`, `cross`) is
  not part of this model.
  - `translate` and `mult` are written out over reals.
  - `rotate` is the oracle `turn`, which gives the (cos, sin) pair for an
    angle.
  - `normalize` is kept symbolic (`NormalizeOf`), so no square roots or unit
    lengths are claimed.
- `Math.sin` and `Math.cos` are the oracles `circle` and `sine`. Floating
  point is modelled as exact reals.
- The clocks `performance.now()` and `Date.now()` are the parameter `now`.
  The time since the last speed change is computed by the source but never
  used.
- `Animation.SwingWithinRange`: assumes that the `sine` oracle returns values
  in [-1, 1], because the model has no trigonometry.
- The level-of-detail table, `isNightMode` and the camera state are declared
  by the source but never affect the modelled core, so they are not fields of
  `Fan`.
- The three global arrays are one `Mesh` value whose three sequences grow
  together. Aliasing between them cannot occur in the source either.
- `buildFanGeometry`'s hard-coded arguments are the constant `FanDims`.
