# SSAO demo: a Dafny model of its vector algebra, loader, camera and frame passes

The demo renders a PLY mesh with screen-space ambient occlusion (SSAO). This project models the host-side C++ core of the demo:

- **`Vec3`** (`Vectors` module, `vec3.dfy`): the 3-component float vector. Every member is modelled as a function on a datatype. The in-place `normalize` is a method that takes the old value and returns the new one.
- **`Mat4`** (`Matrices` module, `mat4.dfy`):
  - the 4×4 matrix with its column-i-row-j field naming;
  - the row-by-row 16-argument constructor;
  - `add` and both `multiply` overloads;
  - the rotation, scaling, translation, look-at, perspective, viewport and identity factories.
- **The model loader** (`ModelLoading` module, `model_loading.dfy`):
  - the two rply callbacks that fill `modelVertices` and `faceIndices` and track `maxValue`;
  - `loadModel`, which resizes the vectors, handles a failed read, and packs each triangle into `allModelData` (an array): 18 floats per triangle, each of the three corners followed by the face normal;
  - the upload of the packed data and the draw count, and the clearing of the vectors.
- **The input callbacks** (`Camera` module, `camera.dfy`): mouse, motion, keyboard and special keys, acting on the globals `eye`, `lookat`, `cur_button`, `last_x`, `last_y`, `ambientOcclusionState` and `depthDiscontinuityRadius`.
  - The three camera moves (pan, dolly, orbit) are pure functions of the old view.
  - The motion callback performs them step by step and is proved to agree with them.
- **The frame passes** (`Rendering` module, `rendering.dfy`): `myGlutDisplay`, `drawModel`, `doSSAO` and `doBlur`.
  - The passes run over an abstract GL context that holds the bound framebuffer, the attachments and draw buffers of the offscreen framebuffer object, the program, and the texture units.
  - A trace records every clear, draw and swap with a snapshot of the target it writes and of the textures it samples.

## Modelling decisions

- **Floats.** `float` is read as `real`, so there is no rounding, NaN or infinity.
- **The math library.** `sqrtf`, `sinf`, `cosf`, `tanf` and `atan2` are the fields of `MathLib.Libm`, a record passed as a parameter. The only facts assumed about them are the ones in `Libm.Valid()`:
  - `sqrt` is the non-negative square root on non-negative arguments;
  - `cos 0 = 1` and `sin 0 = 0`;
  - `sin² + cos² = 1`.
- **Undefined operations.** Where the source would divide by zero, the model puts the condition in a `requires`:
  - normalizing the zero vector;
  - a look-at or pan direction parallel to the up vector;
  - a degenerate triangle or a face index out of range while packing;
  - a zero scale factor for the inverse scaling;
  - a degenerate perspective.
- **Matrix layout.** `Mat4` keeps the sixteen fields in memory order `m11, m12, …, m44`, where `mij` is column i, row j. `At(row, col)` reads `m<col><row>`. `Mat4.FromRows` is the 16-argument constructor.
- **Coordinate bounds.** The loader's comment says the vertices are scaled "to unit cube" (`FinalProject/src/main.cpp`, lines 410 and 423). The code scales by `1/maxValue` and then lowers y alone by half a unit, so the placed model is not confined to a cube of side 1 centred at the origin:
  - x and z lie in [-1, 1] and y in [-1.5, 0.5] (`ModelLoading.PlacedBounds`);
  - the bound is reached (`ModelLoading.CubeCornerPlacement`).

## Model

| member | source | states |
|---|---|---|
| `Vectors.Vec3.Norm` | FinalProject/src/vec3.cpp:18-21 | the norm is a non-negative root of x²+y²+z², and it is zero exactly for the zero vector |
| `Vectors.Vec3.Normalized` | FinalProject/src/vec3.cpp:31-36 | for a non-zero receiver, the copy has squared norm 1, is non-zero, and scaling it by the receiver's norm gives back the receiver |
| `Vectors.Normalize` | FinalProject/src/vec3.cpp:23-29 | dividing x, then y, then z by the precomputed norm gives exactly `normalized()`, a vector of squared norm 1 |
| `Vectors.NormalizedHasUnitNorm` | FinalProject/src/vec3.h:38-48 | after normalizing a non-zero vector, `norm()` is exactly 1 |
| `Vectors.NormalizedKeepsOrthogonality` | FinalProject/src/vec3.cpp:31-36 | a normalized vector is orthogonal to exactly the same vectors as the original |
| `Vectors.NormalizedOfPositiveMultiple` | FinalProject/src/vec3.cpp:31-36 | a unit vector scaled by k > 0 is non-zero and normalizes back to itself |
| `Vectors.ConstructorsLaws` | FinalProject/src/vec3.cpp:12-16 | `Vec3()` is `Vec3(0)`, `Vec3(s)` is the all-ones vector scaled by s, and the zero vector is neutral for add |
| `Vectors.AddLaws` | FinalProject/src/vec3.cpp:38-41 | add is commutative and associative |
| `Vectors.SubtractLaws` | FinalProject/src/vec3.cpp:43-46 | subtract is this − v: adding v back restores the receiver, it equals add of v scaled by −1, and swapping the operands negates it |
| `Vectors.DotSymmetric` | FinalProject/src/vec3.cpp:48-51 | dot is symmetric |
| `Vectors.DotAdd` | FinalProject/src/vec3.cpp:38-51 | dot distributes over vector addition |
| `Vectors.CrossLaws` | FinalProject/src/vec3.cpp:53-56 | cross is anticommutative, a×a is zero, and a×b is orthogonal to both a and b |
| `Vectors.ScaleLaws` | FinalProject/src/vec3.cpp:58-66 | scale(s) equals scale(s, s, s), and scale(1) is the identity |
| `Vectors.DotScale` | FinalProject/src/vec3.cpp:48-66 | scaling either operand of dot by s multiplies the dot product by s |
| `Vectors.NormSquaredScale` | FinalProject/src/vec3.cpp:63-66 | scaling by s multiplies the squared norm by s² |
| `Vectors.Lagrange` | FinalProject/src/vec3.cpp:48-56 | the squared norm of a×b equals the product of the squared norms minus the squared dot product |
| `Vectors.CrossOfOrthogonalNonZero` | FinalProject/src/vec3.cpp:53-56 | the cross product of two non-zero orthogonal vectors is non-zero |
| `Vectors.CrossNonZeroOperand` | FinalProject/src/vec3.cpp:53-56 | if a×b is non-zero, then a and b are non-zero |
| `Vectors.BasisNonDegenerate` | FinalProject/src/mat4.cpp:175-181 | if look×up is non-zero, then look and (look×up)×look are non-zero, so the frame built from them never normalizes a zero vector |
| `Matrices.Mat4.Elements` | FinalProject/src/mat4.h:73-93 | the sixteen fields in declaration order are column 1, then column 2, then column 3, then column 4 |
| `Matrices.ElementsAreColumnMajor` | FinalProject/src/mat4.h:14-18 | the entry at (row, col) is stored at offset 4·(col−1) + (row−1) |
| `Matrices.Mat4.FromRows` | FinalProject/src/mat4.cpp:21-28 | the arguments are taken row by row: (m11, m21, m31, m41) is row 1, …, (m14, m24, m34, m44) is row 4 |
| `Matrices.Mat4.Filled` | FinalProject/src/mat4.cpp:16-19 | every entry of `Mat4(scalar)` is scalar |
| `Matrices.Identity` | FinalProject/src/mat4.cpp:231-237 | the identity has entry 1 on the diagonal and 0 elsewhere |
| `Matrices.MulIsMatrixProduct` | FinalProject/src/mat4.cpp:38-63 | `this.multiply(m)` at (r, c) is the sum over k of this(r, k)·m(k, c), the product this·m in that order |
| `Matrices.IdentityIsUnit` | FinalProject/src/mat4.cpp:231-237 | the identity is a two-sided unit of multiply |
| `Matrices.AddLaws` | FinalProject/src/mat4.cpp:30-36 | add is entry-wise and commutative |
| `Matrices.TransformUsesBlock` | FinalProject/src/mat4.cpp:65-74 | matrix times Vec3 is the dot product of each of the first three rows' 3×3 block with v; the fourth row and column are never read |
| `Matrices.TranslationsFixVectors` | FinalProject/src/mat4.cpp:157-171 | both translation matrices leave every Vec3 unchanged under matrix times Vec3 |
| `Matrices.TranslationInvtIsInverseTranspose` | FinalProject/src/mat4.cpp:157-171 | T(t)·T(−t) is the identity, and `translationInvtMatrix(t)` is the transpose of `translationMatrix(−t)` |
| `Matrices.ScalingInvtIsInverse` | FinalProject/src/mat4.cpp:141-155 | for non-zero factors, the scaling matrix and its inverse multiply to the identity in both orders |
| `Matrices.RotationsFixTheirAxes` | FinalProject/src/mat4.cpp:91-113 | for any sin and cos values, the rotations about X, Y and Z fix their own basis vector |
| `Matrices.RotationsByZero` | FinalProject/src/mat4.cpp:91-113 | rotation by angle 0 about X, Y or Z is the identity |
| `Matrices.RotationAboutZeroAxis` | FinalProject/src/mat4.cpp:115-139 | `rotationAboutAxisMatrix` with the zero axis is the identity for every theta |
| `Matrices.AlignedRotationZeroAxis` | FinalProject/src/mat4.cpp:120-138 | after the special cases, the five-factor product for the zero axis is the identity, whatever beta was computed |
| `Matrices.BetaRadicandNegative` | FinalProject/src/mat4.cpp:118 | as written, the radicand for axis (0, −1, 0) is −2, the square root of a negative number |
| `Matrices.CorrectedBetaRadicand` | FinalProject/src/mat4.cpp:118 | the intended radicand x² + y² is never negative, and it is zero exactly when the axis lies on z |
| `Matrices.CorrectedRotationAboutZeroAxis` | FinalProject/src/mat4.cpp:115-139 | with the corrected radicand, the zero axis still gives the identity |
| `Matrices.ViewBasis` | FinalProject/src/mat4.cpp:175-177 | look = spot − eye, right = look×up and nUp = right×look are mutually orthogonal, and a non-zero right implies look and nUp are non-zero |
| `Matrices.LookAt` | FinalProject/src/mat4.cpp:173-190 | both outputs share the 3×3 block whose rows are the normalized right, nUp and −look. posTransform's fourth column is that block applied to −eye above a 1, and its last row is (0, 0, 0, 1). normalTransform's fourth column is e4 and its last row is (eye, 1) |
| `Matrices.TranslateRigid` | FinalProject/src/mat4.cpp:188-189 | multiplying a rigid block by T(t) puts block·t in the fourth column, and multiplying it by the inverse-transpose translation puts −t in the last row; both keep the block |
| `Matrices.LookAtBasisOrthonormal` | FinalProject/src/mat4.cpp:175-186 | the three rows of the look-at block are unit vectors and mutually orthogonal |
| `Matrices.LookAtMovesEyeToOrigin` | FinalProject/src/mat4.h:121-127 | posTransform maps the eye point to the origin |
| `Matrices.CancelsPoint` | FinalProject/src/mat4.cpp:188 | a matrix whose fourth column is its block applied to −e maps the point e to the origin |
| `Matrices.LookAtAlignsBasis` | FinalProject/src/mat4.h:121-127 | posTransform turns the viewing direction into −z, the new up into +y and the right vector into +x |
| `Matrices.PerspectiveInverse` | FinalProject/src/mat4.cpp:192-218 | for tan(fovY/2), aspect, near and far non-zero and near ≠ far, the perspective matrix and its closed-form inverse multiply to the identity in both orders |
| `Matrices.DepthRowsInverse` | FinalProject/src/mat4.cpp:197-217 | the rational identities in near and far that make the depth rows of the two perspective matrices inverse |
| `Matrices.Viewport` | FinalProject/src/mat4.cpp:220-229 | the product I·T(x, y, 0)·S(w/2, h/2, 1/2)·T(1, 1, 1) has diagonal (w/2, h/2, 1/2, 1) and fourth column (x + w/2, y + h/2, 1/2, 1) |
| `Matrices.ViewportMapsCube` | FinalProject/src/mat4.cpp:220-229 | the viewport maps the canonical corner (−1, −1, −1) to (x, y, 0) and (1, 1, 1) to (x + w, y + h, 1) |
| `Camera.Pan` | FinalProject/src/main.cpp:515-537 | a left drag moves eye and lookat by the same offset, and that offset is −dx steps along the normalized r = f × (0, 1, 0) plus dy steps along the normalized u = r × f, a step being 0.007·‖f‖; the offset is orthogonal to f and lookat − eye is unchanged |
| `Camera.PanBasisOrthonormal` | FinalProject/src/main.cpp:525-529 | the normalized r and u are unit vectors, orthogonal to each other and to f |
| `Camera.PanOffsetIsSideways` | FinalProject/src/main.cpp:525-535 | any combination of the normalized r and u is orthogonal to f |
| `Camera.PanShiftValue` | FinalProject/src/main.cpp:531-535 | adding r·(−1)·dx·scale and then u·dy·scale, one factor at a time, adds −dx·scale along r plus dy·scale along u |
| `Camera.PanDistance` | FinalProject/src/main.cpp:523-535 | the eye moves a squared distance of 0.007²·‖f‖²·(dx² + dy²): 0.007·‖f‖ per pixel of drag, in any direction |
| `Camera.PanByNothing` | FinalProject/src/main.cpp:531-535 | a pan of zero pixels leaves the view unchanged |
| `Camera.Dolly` | FinalProject/src/main.cpp:539-558 | the eye moves to lookat − f·len' with len' = len − sqrt(len)·dx·0.03 and f the unit viewing direction; when len' < 1, lookat becomes eye + f, so forward is exactly f, otherwise lookat stays and forward is f·len'. The direction never changes, the distance is at least 1, and lookat moves exactly when len' < 1 |
| `Camera.DollyFacts` | FinalProject/src/main.cpp:547-556 | with eye = lookat − f·len for a unit f: if len < 1, resetting lookat to eye + f really moves it and leaves it exactly f ahead of the eye; otherwise the forward vector is f·len, of squared length at least 1, normalizing back to f |
| `Camera.DollyPushesLookat` | FinalProject/src/main.cpp:548-555 | when the shortened offset would fall below 1, lookat is reset to eye + f, which differs from the old lookat and leaves the normalized forward vector equal to f |
| `Camera.DollyKeepsLookat` | FinalProject/src/main.cpp:546-548 | when the new length is at least 1, the forward vector is f·len: non-zero, normalizing back to f, of squared length at least 1 |
| `Camera.DollyByNothing` | FinalProject/src/main.cpp:539-558 | a dolly of zero pixels changes nothing when the eye is already at least 1 away |
| `Camera.Swing` | FinalProject/src/main.cpp:566-569 | the horizontal rotation keeps the height and the length of eye − lookat |
| `Camera.Orbit` | FinalProject/src/main.cpp:560-591 | a right drag never changes lookat |
| `Camera.OrbitKeepsDistance` | FinalProject/src/main.cpp:563-589 | a right drag keeps the eye's distance from lookat |
| `Camera.OrbitByNothing` | FinalProject/src/main.cpp:560-591 | an orbit of zero pixels leaves the view unchanged |
| `Camera.Drag` | FinalProject/src/main.cpp:504-598 | dispatches on the held button: pan keeps lookat − eye, dolly keeps distance ≥ 1, orbit keeps lookat, and any other button leaves the view unchanged |
| `Camera.PanMove` | FinalProject/src/main.cpp:515-537 | the left-button statements, executed in order, produce exactly `Pan` |
| `Camera.DollyMove` | FinalProject/src/main.cpp:539-558 | the middle-button statements, executed in order, produce exactly `Dolly` |
| `Camera.OrbitMove` | FinalProject/src/main.cpp:560-591 | the right-button statements, executed in order, produce exactly `Orbit` |
| `Camera.Toggled` | FinalProject/src/main.cpp:607 | C's `!flag` yields 0 or 1, and it is non-zero exactly when the flag is 0 |
| `Camera.ToggleTwice` | FinalProject/src/main.cpp:605-607 | two 'a' presses restore a 0/1 flag |
| `Camera.AdjustedRadius` | FinalProject/src/main.cpp:626-640 | up-arrow doubles the radius, down-arrow halves it, any other key keeps it, and positivity is kept |
| `Camera.RadiusUpDown` | FinalProject/src/main.cpp:630-636 | up then down, or down then up, restores the radius |
| `Camera.AppState.constructor` | FinalProject/src/main.cpp:190-194 | initial state: AO off, radius 0.01, eye (0, 1.5, 1.5), lookat at the origin, no button held |
| `Camera.AppState.Mouse` | FinalProject/src/main.cpp:489-501 | a press records the button. A release resets it to −1 only if it is the recorded button. last_x and last_y are always updated, and nothing else changes |
| `Camera.AppState.Motion` | FinalProject/src/main.cpp:504-598 | the new view is `Drag` of the old view by the pointer's change since the last event. last_x and last_y become the new position, and the button and AO state are kept |
| `Camera.AppState.Keyboard` | FinalProject/src/main.cpp:601-624 | 'a' and 'A' toggle the AO flag, and every other key keeps it. Escape, 'q' and 'Q' request exit. The flag stays 0/1 |
| `Camera.AppState.Special` | FinalProject/src/main.cpp:626-640 | the radius becomes `AdjustedRadius` of the old radius, and nothing else changes |
| `ModelLoading.PropertyOffset` | FinalProject/src/main.cpp:344-353 | the coordinate slot is 1 exactly for a name starting with 'y', 2 exactly for 'z', and 0 otherwise |
| `ModelLoading.Abs` | FinalProject/src/main.cpp:355-356 | fabs: a non-negative value equal to a or −a |
| `ModelLoading.FaceTriangle` | FinalProject/src/main.cpp:414-433 | the packed triangle has the three placed corners vi1, vi2, vi3 in order; its normal is the unit vector that (v2 − v1) × (v3 − v1) is a positive multiple of (scaled by that cross product's length it gives the cross product back), so it is orthogonal to both edges and points the way the winding says |
| `ModelLoading.NormalIsOrthogonal` | FinalProject/src/main.cpp:432-433 | normalize(cross(v2 − v1, v3 − v1)) is orthogonal to both edges |
| `ModelLoading.NormalFollowsWinding` | FinalProject/src/main.cpp:432-433 | normalize((v2 − v1) × (v3 − v1)) has a positive dot product with that cross product, so the normal keeps the orientation of the corners' winding |
| `ModelLoading.Record` | FinalProject/src/main.cpp:435-452 | the 18 floats of one triangle: corner positions at +0, +6 and +12, and the same normal at +3, +9 and +15 |
| `ModelLoading.Triangles` | FinalProject/src/main.cpp:413 | the loop's triangles, one per face, in face order |
| `ModelLoading.Interleaved` | FinalProject/src/main.cpp:398 | the packed buffer holds 18 floats per triangle |
| `ModelLoading.InterleavedLayout` | FinalProject/src/main.cpp:435-452 | triangle k occupies exactly slots 18k to 18k+17 of the packed buffer, holding its own record |
| `ModelLoading.InterleavedSnoc` | FinalProject/src/main.cpp:413-453 | packing one more triangle appends its record |
| `ModelLoading.PackedPrefixGrows` | FinalProject/src/main.cpp:413-453 | a buffer holding the records of the first f triangles followed by the record of triangle f holds the records of the first f + 1 |
| `ModelLoading.PlacedBounds` | FinalProject/src/main.cpp:411-430 | with every coordinate bounded by maxValue > 0, the placed corners lie in [−1, 1] × [−1.5, 0.5] × [−1, 1] |
| `ModelLoading.CubeCornerPlacement` | FinalProject/src/main.cpp:411-430 | for maxValue 1, the corners (1, 1, 1) and (−1, −1, −1) are placed at (1, 0.5, 1) and (−1, −1.5, −1), so x and z are not re-centred |
| `ModelLoading.UnitQuotient` | FinalProject/src/main.cpp:411 | dividing by maxValue brings a coordinate bounded by maxValue into [−1, 1] |
| `ModelLoading.ShiftedUnitQuotient` | FinalProject/src/main.cpp:411-430 | a coordinate bounded by maxValue, scaled by 1 / maxValue and lowered by 0.5, lies in [−1.5, 0.5] |
| `ModelLoading.PlacedCoordinates` | FinalProject/src/main.cpp:424-430 | placing a vertex scales each coordinate by the scale factor and lowers y alone by half a unit |
| `ModelLoading.ModelLoader.constructor` | FinalProject/src/main.cpp:326 | before loading: empty vectors, maxValue 0, nothing uploaded, count 0 |
| `ModelLoading.ModelLoader.Prepare` | FinalProject/src/main.cpp:381-399 | if the open or the header read fails, it returns having changed nothing. Otherwise it sizes the vectors zero-filled to 3·vertexCount, 3·triCount and 18·triCount |
| `ModelLoading.ModelLoader.ReadVertex` | FinalProject/src/main.cpp:333-360 | the value lands at element·3 + offset of the property name. maxValue becomes the larger of itself and |value|, so it still bounds every stored coordinate |
| `ModelLoading.ModelLoader.ReadFace` | FinalProject/src/main.cpp:362-376 | list entry k ≥ 0 of face e lands at 3e + k, with no bound on k, and the list length (valueIndex −1) lands at 3e; nothing else changes |
| `ModelLoading.QuadLosesFourthCorner` | FinalProject/src/main.cpp:362-376 | a quad's fourth entry lands in slot 0 of the next face, which that face's list length overwrites, while the quad keeps its first three corners |
| `ModelLoading.ModelLoader.Finish` | FinalProject/src/main.cpp:401-466 | after a successful read, the uploaded buffer is the interleaved records of all faces and the count is the number of face indices. After a failed read, nothing is uploaded and the count is 0. Either way the buffer holds 6 floats per counted vertex and the vectors are cleared |
| `ModelLoading.PackTriangles` | FinalProject/src/main.cpp:411-453 | the loop leaves allModelData equal to the interleaved records of every face |
| `ModelLoading.BuildTriangle` | FinalProject/src/main.cpp:414-433 | one iteration's reads, scaling, shift and normal computation give `FaceTriangle` |
| `ModelLoading.StoreTriangle` | FinalProject/src/main.cpp:435-452 | the eighteen stores write the triangle's record at 18·faceIndex and leave every slot before and after that record untouched |
| `ModelLoading.StoreVertex` | FinalProject/src/main.cpp:435-440 | six stores write a corner and then the normal, and touch nothing else |
| `Rendering.SamplerUnits` | FinalProject/src/main.cpp:755-788 | the units a program's samplers read are 0, 1, … in order: three for the ssao shader, two for blur, none for phong (ssao's units set at lines 755-757, blur's at 787-788) |
| `Rendering.SampledTextures` | FinalProject/src/main.cpp:741-747 | the textures bound on the given units, in order, or none where a unit is empty |
| `Rendering.GlContext.CurrentTarget` | FinalProject/src/main.cpp:646-654 | a draw goes to the window exactly when framebuffer 0 is bound; otherwise it goes to the framebuffer object with its current attachments |
| `Rendering.GlContext.constructor` | FinalProject/src/main.cpp:196-278 | after initialization nothing is attached, unit 0 is active and holds the random texture (the last one bound there), and nothing has been drawn |
| `Rendering.DrawModel` | FinalProject/src/main.cpp:643-722 | emits a clear and the two phong draws (model, floor). With ssao they go into COLOR0 = color, COLOR1 = normal, DEPTH = depth texture with two draw buffers; without ssao they go to the window |
| `Rendering.DoSsao` | FinalProject/src/main.cpp:724-772 | emits the clear and quad of the occlusion pass into COLOR0 = ao, COLOR1 none, DEPTH = renderbuffer, one draw buffer, sampling depth, normal and random on units 0, 1, 2 |
| `Rendering.AttachOcclusionTarget` | FinalProject/src/main.cpp:733-739 | leaves the framebuffer object bound and configured as the occlusion target, with program, texture units and trace unchanged |
| `Rendering.BindOcclusionInputs` | FinalProject/src/main.cpp:742-749 | binds depth, normal and random textures to units 0, 1, 2 and leaves unit 0 active, touching nothing else |
| `Rendering.DoBlur` | FinalProject/src/main.cpp:774-799 | emits a clear of the window and a quad sampling ao and color on units 0 and 1 |
| `Rendering.Display` | FinalProject/src/main.cpp:108-135 | a frame appends exactly `FrameEvents` of the AO flag and the vertex count, and ends with the window bound |
| `Rendering.FrameIsFeedbackFree` | FinalProject/src/main.cpp:733-748 | in every frame, no draw samples a texture that is attached to the framebuffer it renders into |
| `Rendering.OcclusionPassIffEnabled` | FinalProject/src/main.cpp:119-129 | the occlusion program draws in a frame if and only if ambient occlusion is on |
| `Rendering.SampledAfterWritten` | FinalProject/src/main.cpp:119-129 | every texture a draw samples (except the uploaded random directions) was rendered by an earlier draw of the same frame: geometry, then occlusion, then blur |
| `Rendering.FramePresentsWindow` | FinalProject/src/main.cpp:119-134 | a frame ends with its only swap, preceded by a draw into the window |
| `Rendering.ToggleTwiceSameFrame` | FinalProject/src/main.cpp:605-607 | toggling AO twice gives back the same frame |

## Left out

- **Floating-point rounding, NaN and infinity.** Everything is over `real`. The source's 32-bit `float` results (and the `double` intermediates of `sqrt`, `cos`, `sin`) are not modelled.
- **The math library.** `sqrtf`, `sinf`, `cosf`, `tanf` and `atan2` are not modelled beyond the facts in `MathLib.Libm.Valid`. The general case of `rotationAboutAxisMatrix` is stated only for the zero axis, because a claim that it rotates about `axis` would need trigonometric identities for `atan2`, and the radicand is wrong as written (see Findings).
- **`Mat4()`.** The uninitialised constructor is not modelled: every model matrix is fully defined.
- **Operators.** `operator+`, `operator-` and `operator*` of both classes are the same functions as `add`, `subtract` and `multiply` in the model, since each only delegates.
- **The rply driver** (`ply_open`, `ply_read_header`, `ply_set_read_cb`, `ply_read`, `ply_close`, `load_error_cb`). The driver is a foreign library. Its outcomes (file opened, header read, element counts, read succeeded) are parameters of `ModelLoader.Prepare` and `ModelLoader.Finish`, and the callbacks are methods it would call.
- ModelLoading.ModelLoader.ReadFace: takes a non-negative index value. The source stores the double that rply hands over into an unsigned `GLuint` without a check. It also requires the slot 3·element + valueIndex to lie inside `faceIndices`. The source has no such guard: list entry 3 or beyond of the LAST face (a quad or larger polygon at the end of the file) is written past the end of the vector sized to 3·faces, which is undefined behaviour in C++ that the model does not represent.
- ModelLoading.ModelLoader.Finish: requires every face to be in range and non-degenerate. The source checks neither: an out-of-range index is an out-of-bounds read, and a degenerate face normalizes a zero vector.
- ModelLoading.ScaleFactor: is 0 when maxValue is 0, where the source computes an infinite `1.0f / maxValue`. That value is only used when there are faces, and then every face is degenerate, which `Finish` excludes.
- **GL work outside the frame state.** Uniform uploads (matrices, lights, materials, the sample offsets and the radius), vertex attribute setup, buffer uploads, texture allocation and parameters, the shaders, `glClearColor`, `glGetError`, `glutPostRedisplay` and the window setup are not modelled. A draw records only its program, its target, the textures it samples and its vertex count.
- **The AO pass's mismatched constants.** The "pi" of `doSSAO` is `acos(0)·0.5`, and its matrix and inverse use different aspect literals. No claim relates them to the geometry pass.
- **The baked constant tables** (`randomDirections`, `offsets`, `floorData`) are not modelled.
- **Process exit.** `printf`/`fprintf` logging, the exit on Escape/'q'/'Q' (the model returns `quit`), and the unused `frameNum` counter of `myGlutDisplay` are not modelled.
- **Integer width.** `dx`/`dy` and the `long` element offsets are unbounded `int`/`nat`, so overflow is not modelled.
- **`shaders.cpp`/`shaders.h`.** These are not part of this model: they only do file reading and GL compile/link calls.

## Findings

| source | as written | input that shows it | evidently intended | confidence | as-written member | corrected member |
|---|---|---|---|---|---|---|
| FinalProject/src/mat4.cpp:118 | `beta = atan2(sqrt(axis.x*axis.x + axis.y + axis.y), axis.z)` | axis (0, −1, 0): the radicand is −2, so `sqrt` is taken of a negative number (NaN) | `axis.x*axis.x + axis.y*axis.y`, which is never negative and is zero only on the z axis | high; not executed | `Matrices.BetaRadicandNegative` | `Matrices.CorrectedBetaRadicand` |
