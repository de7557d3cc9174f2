# Gear-train demo: cylinder mesh and gear kinematics in Dafny

This project models the algorithmic core of an OpenGL demo that draws seven
interlocking gears (src/multiple_lights.cpp):

- **CreateCylinderMesh** builds the gear-hub mesh. It is a unit cylinder with a
  top cap, a bottom cap and a side wall, stored as an interleaved float buffer
  (8 floats per vertex) and a triangle-list index buffer. The model keeps every
  pushed float as a symbolic attribute (`CylinderMesh.Attr`). Constants are exact
  reals. Values the source computes with `cos`/`sin` stay abstract. Everything
  about counts, offsets, index ranges, regions and winding is integer arithmetic
  and is proved exactly.
- **DrawGearTeeth** issues one unit-cube draw per tooth. It is modelled as a method
  that returns the list of per-tooth placements (angle, radial offset, scale and
  cube vertex range).
- **The per-gear angle rule in `main`**: gear k turns at `omega1 * N1 / Nk`, with a
  fixed sign and a fixed phase. It is modelled over the reals, with pi as a parameter.

Modules: `CylinderMesh` (cylinder_mesh.dfy) holds the buffers, the reference
vertex and triangle sequences, and the builder methods that mirror the source's
loops. `CylinderTopology` (cylinder_topology.dfy) holds what the buffers promise.
`GearTeeth` (gear_teeth.dfy) holds the tooth loop. `GearTrain` (gear_train.dfy)
holds the gear constants, the rate and phase rule, and the per-frame draws.

Facts about the code that shape the model:

- **Vertex count.** For s segments the code pushes 1 + s + 1 + s + 2·(s + 1) =
  4s + 4 vertices. For the hub's 64 segments that is 260.
  `CylinderTopology.VertexCountFormula` and `CylinderTopology.BuildHubMesh` state it.
- **Angle reduction.** The code reduces each gear angle with `std::fmod(ang, TWO_PI)`
  (src/multiple_lights.cpp:517-523). `std::fmod` keeps the sign of its argument, so
  the reduced angles are not confined to [0, 2π).
  - Gear 2's rate is negative, so its reduced angle `fmod(ang2)` is ≤ 0. It is drawn at
    `fmod(ang2) + phase2`, which is positive for small t.
  - Gear 3's angle `-(…)·t + phase2` is positive until about t = 0.27 s and negative after.
  - The model works with the unreduced angles and states no wrap property.
- **Segment count.** `segments` may be any `int`, and the model takes any `int` with no
  precondition.
  - The rim and index loops (`i < segments`) do not run for `segments <= 0`.
  - The side loop (`i <= segments`) runs `segments + 1` times. For `segments = 0`
    that is once, so s = 0 gives 4 vertices and 0 indices. The only side column there
    has `u = 0/0`, which is NaN (`CylinderTopology.WallTexture`).
  - For a negative count only the two cap centres are pushed: 2 vertices, 0 indices.
- **Gear 3's phase.** Gear 3's phase is π/N2, half a tooth of gear 2, not half a
  tooth of gear 3 (src/multiple_lights.cpp:510). The model keeps this
  (`GearTrain.Phase`, `GearTrain.StartPhases`).

## Model

| member | source | states |
|---|---|---|
| CylinderMesh.Encode | src/multiple_lights.cpp:48-52 | one push appends exactly 8 floats, and decoding those 8 floats gives the vertex back |
| CylinderMesh.RatioValue | src/multiple_lights.cpp:92 | the side texture coordinate `(float)i / segments` has a value exactly when segments != 0, and that value times segments is i |
| CylinderMesh.PushRim | src/multiple_lights.cpp:61-65 | the rim loop of a cap appends the floats of rim vertices 0..s-1 in angle order, with z and normal sign set by the cap |
| CylinderMesh.EmitFan | src/multiple_lights.cpp:66-85 | a cap's index loop appends the fan triangles: (centre, rim i, rim (i+1) mod s) on top, with the two rim corners swapped on the bottom |
| CylinderMesh.PushWall | src/multiple_lights.cpp:89-97 | the side loop appends, for each of the s+1 columns, a top-row vertex (v = 1) and then a bottom-row vertex (v = 0), both with u = i/s |
| CylinderMesh.EmitStrip | src/multiple_lights.cpp:98-105 | the side index loop appends (t0, b0, t1) and then (t1, b0, b1) for each quad |
| CylinderMesh.BuildCap | src/multiple_lights.cpp:57-85 | a cap block reads its centre index as the float count / 8, its rim start as the next index, and appends the cap's vertices and fan |
| CylinderMesh.CreateCylinderMesh | src/multiple_lights.cpp:43-125 | the builder's float buffer is the reference vertex sequence flattened, its index buffer is the reference triangle sequence flattened, `indexCount` is the index buffer's length, and the region starts are 0, 1, s+1, s+2, 2s+2 |
| CylinderMesh.FlattenAppend | src/multiple_lights.cpp:45-52 | pushing two vertex lists in turn fills the float buffer with the floats of their concatenation |
| CylinderMesh.IndicesAppend | src/multiple_lights.cpp:46 | emitting two triangle lists in turn fills the index buffer with the indices of their concatenation |
| CylinderTopology.VertexCountFormula | src/multiple_lights.cpp:58-97 | the vertex count is 4s + 4 for s >= 0 (2 when no loop runs), and the float buffer holds 8 floats per vertex |
| CylinderTopology.IndexCountFormula | src/multiple_lights.cpp:66-105 | there are 4s triangles and 12s indices: 3 per top-cap triangle, 3 per bottom-cap triangle, 6 per side quad |
| CylinderTopology.DecodeFlatten | src/multiple_lights.cpp:58-88 | floats 8k..8k+7 of the buffer are vertex k, so `V.size() / 8` before a push is the index of the vertex being pushed |
| CylinderTopology.IndicesAt | src/multiple_lights.cpp:66-105 | index-buffer entries 3k, 3k+1, 3k+2 are the corners of triangle k in winding order |
| CylinderTopology.IndicesBounded | src/multiple_lights.cpp:66-105 | if every triangle's corners lie in [lo, hi), so does every index-buffer entry |
| CylinderTopology.VertexAt | src/multiple_lights.cpp:57-97 | region starts: vertex 0 is the top centre, 1..s the top rim, s+1 the bottom centre, s+2..2s+1 the bottom rim, and 2s+2.. the side columns in top/bottom pairs |
| CylinderTopology.CapNormals | src/multiple_lights.cpp:59-96 | the z-normal is +1 exactly on top-cap vertices, -1 exactly on bottom-cap vertices and 0 exactly on side vertices; the caps sit at z = +0.5 and -0.5 |
| CylinderTopology.WallColumn | src/multiple_lights.cpp:89-97 | side column i has its top-row vertex (v = 1) at wall start + 2i and its bottom-row vertex (v = 0) at wall start + 2i + 1, both with u = i/s |
| CylinderTopology.WallTexture | src/multiple_lights.cpp:92 | for s > 0 every side u lies in [0, 1], column 0 has u = 0 and column s has u = 1 (the duplicated seam); for s = 0 the only u is NaN |
| CylinderTopology.WrapNext | src/multiple_lights.cpp:69 | `(i + 1) % segments` is the next rim vertex, wrapping to 0 after the last |
| CylinderTopology.FanCorners | src/multiple_lights.cpp:66-85 | the corner numbers of cap triangle i on both caps; the wrapped neighbour stays on the rim and differs from i once s >= 2 |
| CylinderTopology.CapWinding | src/multiple_lights.cpp:66-85 | top-cap triangle i is (0, 1+i, 1+(i+1) mod s), and bottom-cap triangle i is that triangle shifted by s+1 with its winding reversed |
| CylinderTopology.TopFanVertices | src/multiple_lights.cpp:57-70 | top-cap triangle i joins the top centre, rim vertex i and rim vertex (i+1) mod s |
| CylinderTopology.BottomFanVertices | src/multiple_lights.cpp:72-85 | bottom-cap triangle i joins the bottom centre, rim vertex (i+1) mod s and rim vertex i |
| CylinderTopology.QuadWinding | src/multiple_lights.cpp:98-105 | side quad i emits (t0, b0, t1) and then (t1, b0, b1), and these name the top/bottom vertices of columns i and i+1 |
| CylinderTopology.TopFanTriangle | src/multiple_lights.cpp:66-70 | every top-cap triangle names existing top-cap vertices only, and its corners are distinct once s >= 2 |
| CylinderTopology.BottomFanTriangle | src/multiple_lights.cpp:81-85 | every bottom-cap triangle names existing bottom-cap vertices only, and its corners are distinct once s >= 2 |
| CylinderTopology.StripTriangle | src/multiple_lights.cpp:98-105 | every side triangle names existing side-wall vertices only, and its corners are always distinct |
| CylinderTopology.TriangleAt | src/multiple_lights.cpp:66-105 | triangle k lies in one region (the top cap for k < s, the bottom cap for k < 2s, the side after that), names existing vertices, and is non-degenerate once s >= 2 |
| CylinderTopology.TrianglesWellFormed | src/multiple_lights.cpp:66-105 | every triangle stays in one region and names existing vertices; for s >= 2 no triangle repeats an index |
| CylinderTopology.IndicesInRange | src/multiple_lights.cpp:66-105 | every emitted index is non-negative and below the vertex count |
| CylinderTopology.SingleSegmentDegenerate | src/multiple_lights.cpp:66-70 | with one segment the first cap triangle is (0, 1, 1), so the s >= 2 bound for distinct corners is tight |
| CylinderTopology.BuildHubMesh | src/multiple_lights.cpp:323 | the hub mesh built with 64 segments has 260 vertices (2080 floats) and 768 indices, all below 260 |
| GearTeeth.ToothAngle | src/multiple_lights.cpp:171 | tooth i of an N-tooth gear sits i/N of a full turn past the gear's angle: N · (angle − angleRad) = i · 2π |
| GearTeeth.ToothSpacing | src/multiple_lights.cpp:171 | consecutive tooth angles differ by exactly 2π/N, and N pitches make a full turn |
| GearTeeth.TeethWithinOneTurn | src/multiple_lights.cpp:170-171 | for positive π, any two of the N teeth are strictly ordered and less than a full turn apart, so no two coincide |
| GearTeeth.DrawGearTeeth | src/multiple_lights.cpp:164-181 | exactly N draws (none when N <= 0); draw i is at angle `angleRad + i·2π/N`; every tooth has the same centre and scale, its inner face at `baseRadius` and its outer face at `baseRadius + toothLen`, and each draws 36 cube vertices from 0 |
| GearTrain.Rate | src/multiple_lights.cpp:507-514 | gear k's rate times its tooth count is ± omega1 · N1, so every gear's teeth cross its pitch circle as fast as gear 1's; the rate is negative exactly for gears 2 and 3 |
| GearTrain.Phase | src/multiple_lights.cpp:501-514 | the phase in gear k's angle is half a tooth of gear 2 for gear 3, half a tooth of its own for gears 5 and 7, and 0 for gears 1, 2, 4 and 6 |
| GearTrain.DrawPhase | src/multiple_lights.cpp:530 | the extra phase added only when gear 2's teeth are drawn is half a tooth of gear 2; other gears get none |
| GearTrain.Angle | src/multiple_lights.cpp:508-514 | the single rate-plus-phase rule gives, for each gear, the angle its own line of code computes: ang1 = 0.5t, ang2 = −(0.5 · 18/28)t, ang3 = −(0.5 · 18/22)t + π/28, and so on to ang7 |
| GearTrain.DrawAngle | src/multiple_lights.cpp:526-545 | the angle each gear's teeth are drawn at is rate · t plus half a tooth of gear 2 for gears 2 and 3, half a tooth of its own for gears 5 and 7, and nothing for gears 1, 4 and 6 |
| GearTrain.PitchLineSpeed | src/multiple_lights.cpp:507-514 | rate·Nk = ±omega1·N1 for every gear; the rate is negative exactly for gears 2 and 3 and positive for gears 1 and 4 to 7 |
| GearTrain.MeshingGearsAgree | src/multiple_lights.cpp:492-514 | for each pair of meshing gears (1-2, 1-3, 3-4, 3-6, 2-5, 2-7) the pitch-line tooth speeds are equal and opposite, so the gears turn in opposite directions |
| GearTrain.AngleAdvance | src/multiple_lights.cpp:506-514 | a gear's drawn angle changes by rate·Δt between any two times |
| GearTrain.StartPhases | src/multiple_lights.cpp:501-530 | at t = 0 gears 2 and 3 are drawn half a tooth of gear 2 round (gear 2's phase is added only at draw time), gears 5 and 7 half a tooth of their own, and gears 1, 4 and 6 at 0 |
| GearTrain.OneToothPerPeriod | src/multiple_lights.cpp:507-514 | in the time gear 1 takes to turn one tooth, every gear turns exactly one of its own teeth in its own direction |
| GearTrain.TeethRepeatAfterPeriod | src/multiple_lights.cpp:507-530 | after that period, tooth i of each gear is drawn where tooth i ± 1 was, so the drawn tooth pattern repeats |
| GearTrain.DrawGearTrain | src/multiple_lights.cpp:526-545 | per frame, gear k gets Nk tooth draws. Tooth i is at the gear's drawn angle plus i pitches, with its inner face on the gear's pitch radius and its outer face 0.25 further out. It is scaled to 0.25 × 0.20 × 0.20, draws the 36 cube vertices from 0, and sits around the gear's centre |

## Left out

- GL buffer and vertex-array creation, upload and attribute layout (src/multiple_lights.cpp:107-123, 297-320), every draw call as a side effect, and resource deletion (585-590). These are foreign API calls. The model keeps the buffers and the draw parameters they would receive.
- Vertex positions, normals and cap texture coordinates computed with `cos`/`sin` on floats (62-64, 77-79, 90-91). These stay symbolic (`Wave`, `TexWave`), so the model says nothing about their numeric values.
- CylinderMesh.CreateCylinderMesh: does not model 32-bit `int` overflow, and its ensures `indexCount == |indices|` does not hold of the code once that overflow happens. `m.indexCount = (int)I.size()` (line 125) leaves `int` range once 12s > 2^31 − 1, that is from s = 178,956,971. The side corner `b1 = 4s + 3` (lines 101-104) overflows from s = 2^29. The program builds the mesh only with 64 segments (line 323).
- CylinderMesh.RatioValue: the side texture coordinate `u = (float)i / segments` (line 92) is rounded float division. The model gives it the exact rational value i/s, so "u · s = i", "u(s) = 1" and "0 ≤ u ≤ 1" are stated over the reals, not for the rounded float.
- GearTrain.DrawAngle: the `std::fmod(ang, TWO_PI)` reduction (517-523) is not modelled. The drawn angle is the unreduced one. The reduction shifts it by a whole multiple of the double constant `TWO_PI` and keeps its sign, so it does not wrap into [0, 2π).
- GearTrain.Rate: float and double rounding are not modelled. This covers the `(float)` casts of the tooth ratios, the `(float)` cast of the angle passed to `DrawGearTeeth`, and the difference between `glm::pi<float>()` and `glm::pi<double>()`. All arithmetic is over the reals with one abstract π.
- GearTeeth.DrawGearTeeth: the `parent` matrix and the glm matrix composition are not modelled. A draw records its translate/rotate/translate/scale parameters instead of a 4×4 matrix.
- The hand-tuned gear centre positions (492-498) are a parameter of `GearTrain.DrawGearTrain`. The meshing pairs in `GearTrain.Meshes` are read off those positions and are not computed.
- `DrawGearHub` (151-162) is not modelled. It only composes a matrix and draws the cylinder mesh's `indexCount` indices.
- The unit-cube vertex array (232-275) is modelled only by its vertex count (36) and its half extent (0.5).
- Star generation (343-375) is not modelled. It uses `rand()`, float trigonometry and an HSV to RGB conversion with `fmod`/`fabs`.
- Light uniforms (398-467), camera, view and projection matrices are not modelled. They are uniform-passing glue.
- Window and context setup, input callbacks, `processInput` (183-223, 601-653) and `loadTexture` (657-692) are not modelled. They are I/O and library glue.
