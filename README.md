# FluidSim2024 core, modelled in Dafny

FluidSim2024 is a Direct3D 12 application. It simulates a 2-D fluid with the
Material Point Method (MPM) and draws the particles as instanced spheres.
This project models the parts of it that compute or keep state:

- **The MPM solver** (`MPMSolver`). This covers:
  - construction of the grid and the per-particle physics data;
  - the four CPU stages: clear the grid, scatter particles to the grid (P2G), update the grid, gather from the grid back to the particles (G2P);
  - the neo-Hookean stress;
  - dispatch sizing and the order of the GPU stages.
- **The 4x4 matrix and vector library** (`Math3D`, `Math3DLemmas`). Matrices are stored column-major.
- **The fluid object** (`Fluids`): its jittered particle lattice, its solver parameters and the gating of its per-frame update.
- **The descriptor-heap block allocator and its move-only allocations** (`DescriptorHeap`).
- **The pipeline-state builder** (`PSO`). This covers:
  - root-parameter register numbering;
  - the 8-slot render-target array;
  - the root signatures shared by all builders.
- **Primitive objects** (`Primitives`): type-wide buffers with a reference count.
- **Sphere mesh generation** (`Sphere`).
- **The scene** (`Scenes`): its per-type render groups.
- **The object transform** (`Objects`).
- **The shader compiler** (`Shaders`): its last-known-good cache and its FIFO work queue.
- **The renderer** (`Rendering`): command-allocator and command-list pooling gated by fence values, the upload rule, the resize guard and the fence wait.

Modelling conventions:

- Scalars are Dafny `real`, which idealises the source's 32-bit floats.
- Direct3D objects, blobs, lists and allocators are opaque `nat` ids.
- Anything the program gets from outside is an input to the model:
  - what the GPU has completed (a fence value);
  - the outcome of a shader compile;
  - `rand()`;
  - `std::log`;
  - the object a Direct3D create call returns;
  - the order in which an `unordered_map` is walked.

Loops that update state in place are methods with loop invariants. Each such
method is proved against a specification function, and the properties are
proved about those functions as lemmas.

## Model

| member | source | states |
|---|---|---|
| Math3D.Cross | src/util/3DMath.cpp:213-220 | the result has w = 1 and is orthogonal, under the 3-D dot product, to both operands |
| Math3D.Vec4Add | src/util/3DMath.cpp:263-266 | x, y, z are the sums of the operands' components; w is the left operand's |
| Math3D.Vec4Sub | src/util/3DMath.cpp:253-261 | x, y, z are the differences; w is the left operand's |
| Math3D.Vec4Scale | src/util/3DMath.cpp:296-299 | x, y, z are scaled; w is kept |
| Math3D.Vec4AddAssign | src/util/3DMath.cpp:268-274 | `+=` adds x, y, z and leaves w untouched |
| Math3D.Vec4DivAssign | src/util/3DMath.cpp:301-308 | `/=` divides all four components, w included |
| Math3D.Elems | src/util/3DMath.h:11-26 | the array view has 16 entries; entry 4c + r is the field at row r, column c (column-major) |
| Math3D.FromArray | src/util/3DMath.h:13-26 | the array constructor is the inverse of the array view: entry 4c + r lands at row r, column c |
| Math3D.Transpose | src/util/3DMath.cpp:93-100 | entry (r, c) of the result is entry (c, r) of the input |
| Math3D.MatAddElems | src/util/3DMath.cpp:113-132 | `+` adds each of the sixteen storage entries |
| Math3D.MatAddAssign | src/util/3DMath.cpp:155-162 | the in-place `+=` on the array leaves exactly the value of binary `+` |
| Math3D.MatVec | src/util/3DMath.cpp:276-284 | each component is the row of the matrix dotted with the 4-vector, w included |
| Math3D.VecMat | src/util/3DMath.cpp:286-294 | each component is the vector dotted with the matrix's column |
| Math3D.GetColumn | src/util/3DMath.cpp:194-197 | defined exactly for I in 0..3, and then it is column I |
| Math3D.GetRow | src/util/3DMath.cpp:190-193 | the code as written stays in bounds only for I = 0, where it returns row 0 |
| Math3D.GetRowFixed | src/util/3DMath.cpp:190-193 | the corrected row read: defined exactly for I in 0..3, and then it is row I |
| Math3D.Translate | src/util/3DMath.cpp:366-373 | identity in the first three columns, (T.x, T.y, T.z, 1) in the fourth |
| Math3D.TransformationMatrix | src/util/3DMath.cpp:384-391 | the rotation's first three columns, then (T.x, T.y, T.z, 1) |
| Math3D.TransformationMatrixScaled | src/util/3DMath.cpp:375-382 | as above, with the diagonal entries scaled by S's x, y and z |
| Math3D.Mult | src/util/3DMath.cpp:24-44 | the sixteen-entry product; its meaning is proved by `MultEntry` and `MultAt` (entry (r, c) is row r of A dotted with column c of B) and by `MultIdentityLeft`, `MultIdentityRight` and `MultZeroLeft` |
| Math3D.Inverse | src/util/3DMath.cpp:46-91 | the adjugate divided by the determinant, defined when the determinant is not 0; `InverseTranslate` and `IdentityInverseTranspose` prove it inverts translations and Identity |
| Math3D.Determinant | src/util/3DMath.cpp:102-111 | the cofactor expansion along the first row; `DeterminantIdentity` and `DeterminantTranspose` prove det(Identity) = 1 and det(transpose M) = det M |
| Math3D.MatAdd | src/util/3DMath.cpp:113-132 | the entrywise sum; `MatAddElems` states it on the sixteen storage entries and `MatAddSub` that `-` undoes it |
| Math3D.MatSub | src/util/3DMath.cpp:134-153 | the entrywise difference; `MatAddSub` proves (A + B) - B = A |
| Math3D.MatScale | src/util/3DMath.cpp:169-188 | every entry times the scalar; `ScaledStressOfZero` and `AffineOfNoStress` use that it keeps the zero matrix zero |
| Math3D.OuterProduct | src/util/3DMath.cpp:222-242 | the outer product laid out transposed; `OuterProductEntry`, the four `OuterProductColumn` lemmas and `OuterProductTransposed` state its entries against a textbook definition |
| Math3D.MultColumn0 | src/util/3DMath.cpp:24-44 | column 0 of `Mult` is the textbook row-times-column product |
| Math3D.MultColumn1 | src/util/3DMath.cpp:24-44 | the same for column 1 |
| Math3D.MultColumn2 | src/util/3DMath.cpp:24-44 | the same for column 2 |
| Math3D.MultColumn3 | src/util/3DMath.cpp:24-44 | the same for column 3 |
| Math3D.MultEntry | src/util/3DMath.cpp:24-44 | every entry (r, c) of `Mult(A, B)` is row r of A dotted with column c of B |
| Math3D.MultAt | src/util/3DMath.cpp:24-44 | the same, for all sixteen entries at once |
| Math3D.OuterProductColumn0 | src/util/3DMath.cpp:222-242 | column 0 of `a.OuterProduct(b)` is b scaled by a[0] |
| Math3D.OuterProductColumn1 | src/util/3DMath.cpp:222-242 | column 1 is b scaled by a[1] |
| Math3D.OuterProductColumn2 | src/util/3DMath.cpp:222-242 | column 2 is b scaled by a[2] |
| Math3D.OuterProductColumn3 | src/util/3DMath.cpp:222-242 | column 3 is b scaled by a[3] |
| Math3D.OuterProductEntry | src/util/3DMath.cpp:222-242 | entry (r, c) is a[c] * b[r]: the transpose of the textbook outer product |
| Math3D.Vec2Pow | src/util/3DMath.cpp:426-432 | each component raised to the power p; `Vec2PowSquare` proves the p = 2 case the kernels use |
| Math3D.Vec2PowSquare | src/util/3DMath.cpp:426-432 | the generic `Pow(2)` squares each component |
| Math3D.IntPowerAdd | src/util/3DMath.cpp:434-443 | b^(m+n) = b^m * b^n, which is what repeated squaring relies on |
| Math3D.Vec2iPowSquaring | src/util/3DMath.cpp:434-443 | what the integer `Pow` loop computes: each component raised to 2^(p - 1), and the vector unchanged for p < 1; `Vec2iPowSquaringLowPowers` and `Vec2iPowSquaringCounterexample` show where that is and is not the p-th power |
| Math3D.Vec2iPow | src/util/3DMath.cpp:434-443 | the loop squares each component Power - 1 times |
| Math3D.Vec2iPowFixed | src/util/3DMath.cpp:434-443 | the corrected loop leaves each component raised to the p-th power |
| Math3DLemmas.MatrixExt | src/util/3DMath.h:11-26 | two matrices with equal entries are equal |
| Math3DLemmas.IdentityAt | src/util/3DMath.h:45-49 | `Identity` has 1 on the diagonal and 0 elsewhere, given in constructor order |
| Math3DLemmas.MultIdentityLeft | src/util/3DMath.cpp:24-44 | Identity is a left unit of `Mult` |
| Math3DLemmas.MultIdentityRight | src/util/3DMath.cpp:24-44 | Identity is a right unit of `Mult` |
| Math3DLemmas.MultZeroLeft | src/util/3DMath.cpp:24-44 | the zero matrix annihilates from the left |
| Math3DLemmas.IdentityInverseTranspose | src/util/3DMath.cpp:46-100 | Identity is its own transpose, has determinant 1, and is the inverse of its transpose |
| Math3DLemmas.TransposeInvolution | src/util/3DMath.cpp:93-100 | transposing twice gives the matrix back |
| Math3DLemmas.OuterProductTransposed | src/util/3DMath.cpp:222-242 | `OuterProduct(a, b)` is the transposed textbook outer product, which is the textbook one of (b, a) |
| Math3DLemmas.TextbookOuterEntry | src/util/3DMath.cpp:222-242 | the reference outer product holds a[r] * b[c] at (r, c) |
| Math3DLemmas.VecMatIsTransposedMatVec | src/util/3DMath.cpp:276-294 | the row-vector product equals the column-vector product with the transpose |
| Math3DLemmas.DeterminantIdentity | src/util/3DMath.cpp:102-111 | det(Identity) = 1 |
| Math3DLemmas.DeterminantTranspose | src/util/3DMath.cpp:102-111 | the determinant is invariant under transposition |
| Math3DLemmas.InverseTranslate | src/util/3DMath.cpp:46-91 | a translation has determinant 1; `Inverse` yields the translation by -T, and M x Inverse(M) = Identity |
| Math3DLemmas.CrossAntiCommutative | src/util/3DMath.cpp:213-220 | swapping the operands negates x, y, z; both orders give w = 1 |
| Math3DLemmas.MatAddSub | src/util/3DMath.cpp:113-153 | matrix `-` undoes matrix `+` |
| Math3DLemmas.TransformationIsTranslateAfterRotate | src/util/3DMath.cpp:384-391 | for an affine rotation matrix, the model matrix equals Translate(T) x R |
| Math3DLemmas.TransformationOfIdentity | src/util/3DMath.cpp:384-391 | with Identity as the rotation, the model matrix is the translation |
| Math3DLemmas.TransformationUnitScale | src/util/3DMath.cpp:375-391 | a unit scale makes the three-argument overload equal the two-argument one |
| Math3DLemmas.Vec4AddAssignTwice | src/util/3DMath.cpp:268-274 | two `+=` equal one `+=` of the sum |
| Math3DLemmas.Vec4AddAssignIsAdd | src/util/3DMath.cpp:263-274 | `+=` leaves the value binary `+` returns |
| Math3DLemmas.GetRowFirstRow | src/util/3DMath.cpp:190-193 | for I = 0 the as-written and corrected `GetRow` agree on row 0 |
| Math3DLemmas.GetRowSecondRowOutOfRange | src/util/3DMath.cpp:190-193 | for I = 1 the as-written read leaves the 16 entries, although row 1 exists |
| Math3DLemmas.Vec2iPowSquaringLowPowers | src/util/3DMath.cpp:434-443 | for Power 1 and 2 the as-written loop computes the power |
| Math3DLemmas.Vec2iPowSquaringCounterexample | src/util/3DMath.cpp:434-443 | `Pow(3)` of (2, 2) gives (16, 16), not (8, 8); `Pow(0)` returns the vector unchanged, not (1, 1) |
| MPMKernels.MakeFluidParameters | src/fluids/MPMSolver.h:16-32 | Dx = Size / Resolution and InvDx = 1 / Dx; the second argument becomes Lamda, the third Mu |
| MPMKernels.Trunc | src/fluids/MPMSolver.cpp:154 | the float-to-int conversion rounds toward zero, for both signs |
| MPMKernels.QuadraticWeights | src/fluids/MPMSolver.cpp:158-160 | three weights per axis |
| MPMKernels.CellIndexOf | src/fluids/MPMSolver.cpp:154 | each axis truncates p * InvDx - 0.5 toward zero; `StencilOf` proves that for a particle at least half a cell in, its offset from that cell is in [0.5, 1.5) |
| MPMKernels.CellOffset | src/fluids/MPMSolver.cpp:155 | the particle's offset from its stencil's first cell, in cells; `StencilOf` bounds it to [0.5, 1.5) |
| MPMKernels.StencilOf | src/fluids/MPMSolver.cpp:153-160 | a particle at least half a cell from the low edge has a cell offset in [0.5, 1.5) |
| MPMKernels.StencilOfParts | src/fluids/MPMSolver.cpp:154-160 | the cell index, offset and weights the kernels compute one after the other form the particle's stencil |
| MPMKernels.StencilIndexInGrid | src/fluids/MPMSolver.cpp:175 | for a stencil inside the grid, every one of the nine indices is a valid grid index |
| MPMKernels.StencilIndexRowColumn | src/fluids/MPMSolver.cpp:175 | the grid index splits back into row ci.x + x and column ci.y + y |
| MPMKernels.StencilIndicesDistinct | src/fluids/MPMSolver.cpp:175 | the nine stencil cells are nine different grid cells |
| MPMKernels.WeightsPartitionOfUnity | src/fluids/MPMSolver.cpp:158-160 | the three weights sum to exactly 1 on each axis, for every offset |
| MPMKernels.WeightsNonNegative | src/fluids/MPMSolver.cpp:158-160 | on offsets in [0.5, 1.5] no weight is negative |
| MPMKernels.StencilWeightSumFactors | src/fluids/MPMSolver.cpp:166 | the nine products Weights[x].x * Weights[y].y sum to the product of the per-axis sums |
| MPMKernels.StencilWeightsSumToOne | src/fluids/MPMSolver.cpp:158-166 | the nine stencil weights of any particle sum to 1 |
| MPMKernels.ClampCoordinate | src/fluids/MPMSolver.cpp:225-226 | the as-written clamp lands in [DX, Size - DX] and leaves values already there unchanged |
| MPMKernels.ClampLetsStencilLeaveGrid | src/fluids/MPMSolver.cpp:154-226 | at resolution 64, x = 0.99 clamps to 63/64; its stencil starts at row 62, so stencil row 2 is row 64 and stencil cell 8 indexes past the 64 x 64 grid |
| MPMKernels.ClampWrapsIntoNextRow | src/fluids/MPMSolver.cpp:154-226 | on the y axis the same clamp stays in the array but reads the wrong cell: at y = 63/64 the stencil starts at column 62, and stencil cell (0, 2) is index (ci.x + 1) * 64, column 0 of the next row |
| MPMKernels.ClampCoordinateFixed | src/fluids/MPMSolver.cpp:225-226 | the corrected clamp lands in [DX, Size - 2 DX] and leaves values already there unchanged |
| MPMKernels.ClampFixedKeepsStencilInside | src/fluids/MPMSolver.cpp:154-226 | after the corrected clamp, on a grid of at least 3 cells, the stencil's cells 0..2 lie inside the grid on that axis |
| MPMKernels.ClampedFixedInside | src/fluids/MPMSolver.cpp:154-226 | clamping both x and y by the corrected rule puts the whole 3 x 3 stencil inside the grid |
| MPMKernels.PiolaKirchhoff | src/fluids/MPMSolver.cpp:240 | Mu (F - F^-T) + Lamda log(J) F^-T; `PiolaKirchhoffAtRest` proves it vanishes when F^-T = F and log J = 0 |
| MPMKernels.ScaledStress | src/fluids/MPMSolver.cpp:242 | P F^T scaled by -(V0 * 4 * InvDx^2); `ScaledStressOfZero` proves a zero P gives zero stress |
| MPMKernels.NeoHookeanStress | src/fluids/MPMSolver.cpp:233-243 | the stress with J = det F and F^-T from `Inverse`, defined for invertible F; `StressAtRest` proves an undeformed particle feels none |
| MPMKernels.PiolaKirchhoffAtRest | src/fluids/MPMSolver.cpp:233-243 | with F^-T = F and log J = 0, the Piola-Kirchhoff stress vanishes |
| MPMKernels.ScaledStressOfZero | src/fluids/MPMSolver.cpp:233-243 | a zero stress stays zero after the volume scaling |
| MPMKernels.StressAtRest | src/fluids/MPMSolver.cpp:233-243 | an undeformed particle (F = Identity, log 1 = 0) has det F = 1 and zero stress |
| MPMKernels.AffineMatrix | src/fluids/MPMSolver.cpp:153 | stress times dt plus C times the mass; `AffineOfNoStress` proves it is zero for a particle with no stress and C = 0 |
| MPMKernels.AffineOfNoStress | src/fluids/MPMSolver.cpp:153 | with no stress and C = 0 the affine term is the zero matrix, so such a particle (with `StressAtRest`, an undeformed one) carries only momentum to the grid |
| MPMKernels.MomentumOf | src/fluids/MPMSolver.cpp:172-173 | the particle's momentum carries w = 0, so it adds no mass |
| MPMKernels.CellContribution | src/fluids/MPMSolver.cpp:166-179 | what a stencil cell receives carries mass Mass * Weight in w |
| MPMKernels.Contributions | src/fluids/MPMSolver.cpp:162-180 | one contribution per stencil cell, nine in all |
| MPMKernels.AddToCell | src/fluids/MPMSolver.cpp:177-179 | adding to a cell raises its mass by the contribution's w and changes nothing but `VelocityMass` |
| MPMKernels.ScatterOf | src/fluids/MPMSolver.cpp:145-173 | a particle's P2G constants: its mass, a momentum with w = 0, and its stencil |
| MPMKernels.SumMassPrefix | src/fluids/MPMSolver.cpp:145-184 | the particles' total mass grows by one mass per particle |
| MPMKernels.TotalMassUpdate | src/fluids/MPMSolver.cpp:177-179 | replacing a cell changes the grid's mass by the difference of the two cell masses |
| MPMKernels.TotalMassSameMasses | src/fluids/MPMSolver.cpp:112-140 | grids with equal cell masses have equal total mass |
| MPMKernels.SumMassSameMasses | src/fluids/MPMSolver.cpp:186-231 | particle lists with equal masses have equal total mass |
| MPMKernels.MassShareFactors | src/fluids/MPMSolver.cpp:166-177 | the mass spread over n cells is the mass times the sum of their weights |
| MPMKernels.ContributionsMass | src/fluids/MPMSolver.cpp:166-177 | contributions carrying mass times weight carry the particle's share |
| MPMKernels.ScatterStencil | src/fluids/MPMSolver.cpp:162-180 | scattering to the stencil keeps the grid's size |
| MPMKernels.ScatterStencilMass | src/fluids/MPMSolver.cpp:162-180 | scattering to n stencil cells adds exactly the mass of the first n contributions |
| MPMKernels.ParticleContributionMass | src/fluids/MPMSolver.cpp:158-179 | a particle's nine contributions carry exactly its mass |
| MPMKernels.ScatterParticles | src/fluids/MPMSolver.cpp:145-184 | P2G over the first n particles keeps the grid's size |
| MPMKernels.ScatterParticlesNext | src/fluids/MPMSolver.cpp:145-184 | particle n's stencil is inside the grid, and P2G over n + 1 particles is P2G over n followed by particle n's stencil |
| MPMKernels.ParticleScatterMass | src/fluids/MPMSolver.cpp:145-184 | scattering one particle adds exactly its mass to the grid |
| MPMKernels.ScatterParticlesMassStep | src/fluids/MPMSolver.cpp:145-184 | scattering particle n adds exactly particle n's mass |
| MPMKernels.ScatterParticlesMass | src/fluids/MPMSolver.cpp:145-184 | P2G conserves mass: the grid gains exactly the total mass of the particles scattered |
| MPMKernels.ClearedGridMass | src/fluids/MPMSolver.cpp:104-107 | a cleared grid holds no mass |
| MPMKernels.UpdateCell | src/fluids/MPMSolver.cpp:112-140 | mass never changes and a cell with mass at most 0.00001 is untouched; heavier cells get velocity = momentum / mass and gravity on y; x (y) is zeroed in the two outermost columns (rows); z is never zeroed |
| MPMKernels.GridUpdateMass | src/fluids/MPMSolver.cpp:112-140 | the grid update leaves the total mass unchanged |
| MPMKernels.WeightedVelocity | src/fluids/MPMSolver.cpp:214 | the weighted velocity has w = 0 |
| MPMKernels.AdvectedPosition | src/fluids/MPMSolver.cpp:223-226 | z advances by velocity * dt and w is kept; x and y lie in [DX, Size - DX], the as-written clamp band, and a coordinate that moves to a point inside the band is not clamped |
| MPMKernels.AdvectedPositionFixed | src/fluids/MPMSolver.cpp:223-226 | the corrected advection moves z and keeps w the same way, and on a grid of at least 3 cells the particle's next stencil is inside the grid |
| MPMKernels.UpdatedDeformation | src/fluids/MPMSolver.cpp:228 | F becomes (Identity + C dt) F; `UpdatedDeformationStill` proves C = 0 keeps F |
| MPMKernels.UpdatedDeformationStill | src/fluids/MPMSolver.cpp:228 | with C = 0 the deformation gradient is unchanged |
| MPMKernels.GatherParticle | src/fluids/MPMSolver.cpp:186-231 | G2P of one particle keeps its mass and rest volume; the position is the advected one clamped as written, with w kept and x and y in [DX, Size - DX] |
| MPMKernels.GatherVelocity | src/fluids/MPMSolver.cpp:193-218 | the velocity summed over the first n stencil cells from `Vec4()`; `GatherStencil` proves the loops compute it and `GatherReproducesUniformVelocity` that it takes a uniform region's velocity exactly |
| MPMKernels.GatherB | src/fluids/MPMSolver.cpp:193-216 | B summed over the first n stencil cells from zero; `GatherStencil` proves the loops compute it and `GatherStillB` that it stays zero over a motionless stencil |
| MPMKernels.GatherUniformVelocity | src/fluids/MPMSolver.cpp:193-214 | over a stencil moving uniformly, the gathered velocity depends only on that velocity and the weights |
| MPMKernels.Vec4ScaleDistributes | src/util/3DMath.cpp:263-299 | a·s + a·t = a·(s + t) for the Vec4 operators |
| MPMKernels.UniformGatherScales | src/fluids/MPMSolver.cpp:193-214 | the uniform gather is `Vec4()` plus the velocity times the sum of the weights |
| MPMKernels.GatherReproducesUniformVelocity | src/fluids/MPMSolver.cpp:186-231 | a particle in a uniformly moving region takes exactly that velocity (with w = 1) |
| MPMKernels.GatherStillB | src/fluids/MPMSolver.cpp:216 | over a motionless stencil, B stays zero |
| MPMKernels.UniformGatherStill | src/fluids/MPMSolver.cpp:193-214 | over a motionless stencil, the velocity stays `Vec4()` |
| MPMKernels.AdvectedPositionStill | src/fluids/MPMSolver.cpp:223-226 | a particle with zero velocity is only clamped to [DX, Size - DX] |
| MPMKernels.GatherAtRest | src/fluids/MPMSolver.cpp:186-231 | over a motionless stencil a particle gets velocity `Vec4()` and C = 0, keeps F, and is only clamped in place to [DX, Size - DX] |
| MPMKernels.DispatchGroups | src/fluids/MPMSolver.cpp:48 | the number of groups is the fewest groups of 64 that cover n items |
| MPM.ClearedGrid | src/fluids/MPMSolver.cpp:104-107 | every cell's `VelocityMass` becomes (0, 0, 0, 0); nothing else changes |
| MPM.UpdatedGrid | src/fluids/MPMSolver.cpp:112-140 | same size; every cell keeps its mass; light cells are unchanged |
| MPM.StepConservesMass | src/fluids/MPMSolver.cpp:101-143 | after reset, P2G and grid update, the grid holds exactly the particles' total mass |
| MPM.MPMSolver.Dom | src/fluids/MPMSolver.cpp:33-41 | the kernels read the solver's resolution, cell width, inverse, size and Lamé parameters |
| MPM.MPMSolver.constructor | src/fluids/MPMSolver.cpp:33-41 | GridResolution² default cells, one default physics entry per particle, the given parameters |
| MPM.MPMSolver.ResetGrid | src/fluids/MPMSolver.cpp:104-107 | the grid becomes `ClearedGrid` of the old grid, with total mass 0 |
| MPM.MPMSolver.ParticleToGrid | src/fluids/MPMSolver.cpp:145-184 | the grid becomes P2G of all particles, as `ScatterParticles` defines it |
| MPM.MPMSolver.ScatterParticleOf | src/fluids/MPMSolver.cpp:147-183 | one loop iteration extends the P2G prefix by one particle |
| MPM.MPMSolver.ScatterParticle | src/fluids/MPMSolver.cpp:162-180 | the inner stencil loops add the particle's nine contributions |
| MPM.MPMSolver.UpdateGrid | src/fluids/MPMSolver.cpp:112-140 | the grid becomes `UpdatedGrid` of the old grid, with the same total mass |
| MPM.MPMSolver.GridToParticle | src/fluids/MPMSolver.cpp:186-231 | every particle and its physics data become its `GatherParticle`; data past the array is untouched |
| MPM.MPMSolver.GatherParticleOf | src/fluids/MPMSolver.cpp:188-230 | one loop iteration produces that particle's `GatherParticle` |
| MPM.MPMSolver.GatherStencil | src/fluids/MPMSolver.cpp:193-220 | the inner loops produce the gathered velocity and B over all nine cells |
| MPM.MPMSolver.CPUSolve | src/fluids/MPMSolver.cpp:101-143 | the grid is the reset, P2G and update of the old state, holding the particles' total mass; every particle becomes its G2P result |
| MPM.MPMSolver.CreatePipelineStateObject | src/fluids/MPMSolver.cpp:43-61 | the four pipelines are stored; dispatch sizes are ceil(cells/64), ceil(particles/64), ceil(cells/64), ceil(particles/64) |
| MPM.MPMSolver.GPUSolve | src/fluids/MPMSolver.cpp:89-99 | for each stage in order: set its pipeline, dispatch its groups, then UAV barriers on the grid, the particle data and the particles |
| MPM.ScatterOfLocals | src/fluids/MPMSolver.cpp:150-160 | the loop-body locals of P2G are the particle's `ScatterOf` |
| MPM.GatherParticleLocals | src/fluids/MPMSolver.cpp:188-230 | the values G2P writes back are the particle's `GatherParticle` |
| MPM.LoopCellIndex | src/fluids/MPMSolver.cpp:175-212 | loop cell (x, y) is stencil cell 3x + y, and its index is inside the grid |
| MPM.ScatterStep | src/fluids/MPMSolver.cpp:166-179 | one inner P2G iteration is exactly stencil cell 3x + y's contribution |
| MPM.GatherStep | src/fluids/MPMSolver.cpp:205-216 | one inner G2P iteration reads stencil cell 3x + y's weighted velocity and distance |
| MPM.GatherNext | src/fluids/MPMSolver.cpp:214-216 | one more cell extends the velocity by `+=` and B by the scaled outer product |
| Fluids.Rows | src/fluids/FluidObject.cpp:26 | Rows is the integer square root of PARTICLE_COUNT |
| Fluids.Delta | src/fluids/FluidObject.cpp:27 | the spacing is positive and Rows spacings make 0.8 |
| Fluids.JitterOf | src/fluids/FluidObject.cpp:30-31 | for r in [0, 1] the jitter lies in [-Delta/2, Delta/2] |
| Fluids.SolverParameters | src/fluids/FluidObject.cpp:35-40 | resolution 64, Dx 1/64, Lamda 40, Mu 20, step 0.002, size 1 |
| Fluids.FluidObject.constructor | src/fluids/FluidObject.cpp:24-42 | exactly PARTICLE_COUNT particles, particle i at its jittered lattice point; a fresh solver over them with those parameters |
| Fluids.FluidObject.CreateBuffers | src/fluids/FluidObject.cpp:69-88 | stores the heap allocation the update checks |
| Fluids.FluidObject.Update | src/fluids/FluidObject.cpp:104-121 | with no allocation, nothing is recorded and no fence is signalled; otherwise GPUSolve's stages then a barrier on the instance buffer, one execute and one flush |
| Fluids.LatticeBounds | src/fluids/FluidObject.cpp:26-32 | x lies in [0.1 - Delta/2, 0.9 - Delta/2], y in [0.1 - Delta/2, 0.9 + Delta/2], and z is 0 |
| Fluids.LastRowPastSquare | src/fluids/FluidObject.cpp:26-32 | the last particle is in row 316, at base height 0.9; 144 particles lie past the square |
| Fluids.LatticeInsideClampBand | src/fluids/FluidObject.cpp:24-41 | neither clamp moves an initial particle |
| DescriptorHeap.SlotIsHeapDescriptor | src/DescriptorHeapAllocator.cpp:26-52 | slot o of block b is heap descriptor b * 8 + o |
| DescriptorHeap.BlockSlotUnique | src/DescriptorHeapAllocator.h:30 | a descriptor index splits uniquely into block and slot |
| DescriptorHeap.SlotsDistinct | src/DescriptorHeapAllocator.cpp:26-52 | different (block, slot) pairs within blocks have different handles |
| DescriptorHeap.NinthSlotIsNextBlock | src/DescriptorHeapAllocator.cpp:54-64 | slot 8 of block b is slot 0 of block b + 1 |
| DescriptorHeap.Blocks | src/DescriptorHeapAllocator.cpp:3-11 | blocks 0..n-1 in ascending order |
| DescriptorHeap.DistinctCard | src/DescriptorHeapAllocator.cpp:18-38 | a queue without repeats holds as many blocks as it has entries |
| DescriptorHeap.BlockCount | src/DescriptorHeapAllocator.h:38-56 | queued and owned blocks number NumBlocks together |
| DescriptorHeap.DescriptorHeapAllocator.constructor | src/DescriptorHeapAllocator.cpp:3-11 | NumBlocks = NumDescriptors / 8, blocks queued in ascending order, none owned |
| DescriptorHeap.DescriptorHeapAllocator.GetAllocation | src/DescriptorHeapAllocator.cpp:18-33 | null iff the queue is empty; otherwise the front block, moved to owned, with handles at its first slot and 8 descriptors |
| DescriptorHeap.DescriptorHeapAllocator.Dealloc | src/DescriptorHeapAllocator.cpp:35-38 | the block joins the back of the queue; nothing else changes; the partition is kept for an owned block |
| DescriptorHeap.Allocation.constructor | src/DescriptorHeapAllocator.h:62-69 | a new allocation has the given fields and no descriptors |
| DescriptorHeap.Allocation.Move | src/DescriptorHeapAllocator.h:38-48 | every field is copied and the source's allocator is nulled |
| DescriptorHeap.Allocation.Destroy | src/DescriptorHeapAllocator.h:50-56 | the block returns to the queue iff the allocator is non-null |
| DescriptorHeap.Allocation.GetCPUHandle | src/DescriptorHeapAllocator.cpp:47-52 | base handle plus Offset descriptors; nothing changes |
| DescriptorHeap.Allocation.GetGPUHandle | src/DescriptorHeapAllocator.cpp:40-45 | the same in the GPU address space |
| DescriptorHeap.Allocation.CreateBufferUAV | src/DescriptorHeapAllocator.cpp:54-64 | writes a UAV at slot NumDescriptors, returns it and increments, with no bound check |
| DescriptorHeap.Allocation.CreateBufferCBV | src/DescriptorHeapAllocator.cpp:66-75 | writes a CBV at slot NumDescriptors, returns it and increments |
| DescriptorHeap.Allocation.CreateBufferUAVChecked | src/DescriptorHeapAllocator.cpp:54-64 | the corrected UAV write refuses iff the block is full, and otherwise acts as the source |
| DescriptorHeap.MoveThenDestroyBoth | src/DescriptorHeapAllocator.h:38-56 | moving and then destroying both allocations returns the block exactly once and keeps the partition |
| DescriptorHeap.CheckedSlotInOwnBlock | src/DescriptorHeapAllocator.cpp:54-64 | a slot below 8 never aliases a slot of another block |
| PSO.RegisterCount | src/PSOBuilder.cpp:113-143 | at most one register per parameter |
| PSO.RegistersAppend | src/PSOBuilder.cpp:113-143 | appending at the next register keeps registers in order and counts one more exactly for binding parameters |
| PSO.RegisterAt | src/PSOBuilder.cpp:113-143 | a binding parameter's register is the number of binding parameters before it |
| PSO.RegisterCountGrows | src/PSOBuilder.cpp:113-143 | the number of binding parameters before a later position is strictly greater |
| PSO.RegistersDistinct | src/PSOBuilder.cpp:113-143 | later binding parameters use strictly higher registers |
| PSO.RootSignatureStatics.constructor | src/PSOBuilder.cpp:7-8 | both shared root signatures start null |
| PSO.PSOBuilder.constructor | src/PSOBuilder.cpp:10-13 | no shaders or parameters, triangles, no render targets, register count 0 |
| PSO.PSOBuilder.SetShaders | src/PSOBuilder.cpp:78-83 | replaces only the vertex and fragment blobs and returns the builder |
| PSO.PSOBuilder.SetComputeShader | src/PSOBuilder.cpp:85-89 | replaces only the compute blob |
| PSO.PSOBuilder.SetPrimitiveType | src/PSOBuilder.cpp:107-111 | replaces only the topology type |
| PSO.PSOBuilder.AddInputLayoutParameter | src/PSOBuilder.cpp:91-95 | appends the element and keeps the earlier ones |
| PSO.PSOBuilder.AddRenderTargetFormat | src/PSOBuilder.cpp:97-106 | writes slot NumRenderTargets and increments, below 8; from 8 on nothing changes |
| PSO.PSOBuilder.AddConstantRootParameter | src/PSOBuilder.cpp:113-122 | appends constants at register ConstantBufferCount and increments it |
| PSO.PSOBuilder.AddDescriptorTableRootParameter | src/PSOBuilder.cpp:124-132 | appends a table; the register count is unchanged |
| PSO.PSOBuilder.AddConstantBufferViewRootParameter | src/PSOBuilder.cpp:134-143 | appends a root CBV at register ConstantBufferCount and increments it |
| PSO.PSOBuilder.BuildGraphicsRootSignature | src/PSOBuilder.cpp:15-32 | the signature from this builder's parameters overwrites the shared graphics static |
| PSO.PSOBuilder.BuildComputeRootSignature | src/PSOBuilder.cpp:34-46 | the same for the shared compute static |
| PSO.PSOBuilder.GraphicsStreamOf | src/PSOBuilder.cpp:48-64 | the stream uses the shared graphics root signature, D32 depth and the builder's fields |
| PSO.PSOBuilder.ComputeStreamOf | src/PSOBuilder.cpp:66-76 | the stream uses the shared compute root signature and the compute blob |
| PSO.LastRootSignatureWins | src/PSOBuilder.cpp:29-51 | a builder's stream uses whichever builder built the graphics root signature last |
| PSO.ApplicationGraphicsRootSignature | src/main.cpp:228-233 | the application's root signature is 32 constants at b0 plus one descriptor table |
| Sphere.VertexAt | src/primitives/Sphere.h:44-45 | position w = 1, normal w = 0, and the normal's x, y, z equal the position's |
| Sphere.VerticesUpTo | src/primitives/Sphere.h:32-47 | n vertices |
| Sphere.IndicesUpTo | src/primitives/Sphere.h:52-58 | six indices per vertex |
| Sphere.VertexInOrder | src/primitives/Sphere.h:32-47 | vertex v is the point at ring v / (Segments+1), segment v % (Segments+1) |
| Sphere.IndexInOrder | src/primitives/Sphere.h:48-58 | index k belongs to vertex k / 6 and lies within Segments + 2 above it |
| Sphere.LargestIndex | src/primitives/Sphere.h:48-58 | every index for n vertices is at most n + Segments + 1, and that bound is reached |
| Sphere.SphereData.constructor | src/primitives/Sphere.h:16-18 | both statics start empty |
| Sphere.SphereData.PushSegment | src/primitives/Sphere.h:42-58 | one iteration appends the next vertex and its six indices |
| Sphere.SphereData.GenerateSphereData | src/primitives/Sphere.h:22-60 | a no-op when data exists; otherwise all vertices in ring order and six indices per vertex |
| Sphere.SphereData.PushSegmentBounded | src/primitives/Sphere.h:42-58 | the corrected iteration emits the quad only below the last ring and segment |
| Sphere.SphereData.GenerateSphereDataBounded | src/primitives/Sphere.h:22-60 | the corrected generation: the same vertices, only in-range quads |
| Sphere.QuadInRange | src/primitives/Sphere.h:52-58 | a quad below the last ring and segment indexes inside the vertex array |
| Sphere.BoundedInRange | src/primitives/Sphere.h:52-58 | every index of the corrected generation lies inside the vertex array |
| Sphere.BoundedIndexCount | src/primitives/Sphere.h:52-58 | the corrected generation emits 6 * Rings * Segments indices |
| Sphere.SphereIndexOutOfRange | src/primitives/Sphere.h:48-58 | as written, 16 vertices get 96 indices, and the last one, 20, is past the vertex array |
| Sphere.GenerateTwice | src/primitives/Sphere.h:22-25 | generation is idempotent: a second call changes nothing |
| Primitives.SharedGeometry.constructor | src/primitives/Sphere.h:63-65 | no buffers, no holders, RefCount 0 |
| Primitives.PrimitiveObject.constructor | src/primitives/PrimitiveObject.h:30 | a new object holds no buffers |
| Primitives.PrimitiveObject.CreateBuffers | src/primitives/PrimitiveObject.cpp:59-101 | a no-op when initialised; otherwise it reuses the type's buffers when RefCount > 0 and creates and publishes them at 0, with RefCount up by one; views sized count x stride |
| Primitives.PrimitiveObject.DestroyBuffers | src/primitives/PrimitiveObject.cpp:129-145 | a no-op when not initialised; otherwise RefCount down by one, and the type's buffers released exactly when it reaches 0 |
| Primitives.PrimitiveObject.GetNumVertices | src/primitives/PrimitiveObject.cpp:124-127 | despite its name, the type's index count, which the draw call uses; `SphereDrawCount` proves a sphere draws 96 indices over 16 vertices |
| Primitives.SharedUntilLastRelease | src/primitives/PrimitiveObject.cpp:59-145 | two objects share one pair of buffers, which are released only after both let go |
| Primitives.SphereDrawCount | src/primitives/PrimitiveObject.cpp:123-127 | a sphere draws 96 indices over 16 vertices |
| Scenes.ObjectsOf | src/Scene.cpp:10-24 | one object per `AddObject` call, in call order |
| Scenes.GroupCommands | src/Scene.cpp:49-59 | one pipeline-state change plus one draw per object |
| Scenes.DrawsOf | src/Scene.cpp:53-57 | draw k is of object k |
| Scenes.Scene.constructor | src/Scene.h:36 | an empty scene |
| Scenes.Scene.AddObject | src/Scene.cpp:10-24 | an existing type's group gets the object at its end; a new type starts a group with its created pipeline state; the grouping invariant holds |
| Scenes.Scene.ReloadShaders | src/Scene.cpp:26-36 | every non-empty group takes the state rebuilt from its first object; objects and keys stay |
| Scenes.Scene.ReloadGroup | src/Scene.cpp:28-34 | one iteration reloads one group and leaves the others alone |
| Scenes.Scene.Update | src/Scene.cpp:38-47 | the objects updated, group after group in the visiting order |
| Scenes.Scene.Draw | src/Scene.cpp:49-59 | per group, its pipeline state and then one draw per object |
| Scenes.UpdateGroup | src/Scene.cpp:42-45 | one group's objects follow those updated before |
| Scenes.DrawGroup | src/Scene.cpp:51-58 | one group's commands follow those recorded before |
| Scenes.ReloadStep | src/Scene.cpp:28-34 | reloading one more group is one map update, and reloading twice equals reloading once |
| Scenes.ReloadedAll | src/Scene.cpp:26-36 | after a walk of every key, every group is reloaded |
| Scenes.DrawCommandsStep | src/Scene.cpp:49-59 | one more group's commands follow those before |
| Scenes.OfTypeAbsent | src/Scene.cpp:17-23 | a type never added has no objects |
| Scenes.OfTypePresent | src/Scene.cpp:12-16 | an added type has at least one object |
| Scenes.ReloadRebuildsEveryGroup | src/Scene.cpp:26-36 | in a valid scene every group is non-empty, so every group is rebuilt |
| Scenes.FlattenIsGrouped | src/Scene.cpp:38-47 | walking the groups equals walking each type's objects in turn |
| Scenes.GroupedSnoc | src/Scene.cpp:10-24 | one more `AddObject` adds its object once per visit of its type |
| Scenes.OfTypeSnoc | src/Scene.cpp:10-24 | a type's objects grow by the new object exactly when it is of that type |
| Scenes.CountInDistinct | src/Scene.h:36 | a key-visiting order names each key exactly once |
| Scenes.GroupedIsPermutation | src/Scene.cpp:38-47 | when each type is visited once, the walk is a permutation of the added objects |
| Scenes.GroupedEmpty | src/Scene.cpp:38-47 | an empty scene walks nothing |
| Scenes.UpdateVisitsEachAddOnce | src/Scene.cpp:38-47 | `Update` updates each added object exactly as often as it was added |
| Scenes.DrawCommandCount | src/Scene.cpp:49-59 | `Draw` records one command per group plus one per object |
| Objects.ObjectRenderer.constructor | src/ObjectRenderer.h:37-41 | identity rotation, translation `Vec4()`, triangle list |
| Objects.ObjectRenderer.ApplyRotation | src/ObjectRenderer.cpp:14-17 | rotation := Transform x Rotation; the translation stays |
| Objects.ObjectRenderer.ApplyTranslation | src/ObjectRenderer.cpp:19-22 | translation moves by x, y, z; w and rotation stay |
| Objects.ObjectRenderer.SetTranslation | src/ObjectRenderer.cpp:24-27 | translation replaced whole; rotation stays |
| Objects.ObjectRenderer.GetModelMatrix | src/ObjectRenderer.cpp:29-32 | the rotation's first three columns, then (T.x, T.y, T.z, 1) |
| Objects.ObjectRenderer.ModelViewMatrix | src/ObjectRenderer.cpp:34-38 | every entry is the textbook product of the view and model matrices |
| Objects.TranslateTwice | src/ObjectRenderer.cpp:19-22 | two translations equal one by their sum |
| Objects.TranslatedObject | src/ObjectRenderer.cpp:19-32 | a new object translated by T has the translation matrix as its model matrix |
| Shaders.KeyOf | src/ShaderCompiler.h:54 | as written the key is the file name alone; corrected it is the whole description |
| Shaders.ShaderCompiler.constructor | src/ShaderCompiler.h:54 | empty cache and empty queue |
| Shaders.ShaderCompiler.CompileShaderFromFile | src/ShaderCompiler.cpp:95-168 | success iff the compile produced a blob; the cache is written under the key on success and untouched on failure |
| Shaders.ShaderCompiler.CompileShaderNonAsync | src/ShaderCompiler.cpp:51-54 | the same compile, on the caller's thread |
| Shaders.ShaderCompiler.GetShader | src/ShaderCompiler.cpp:25-37 | a cached key returns the cached blob; otherwise the compile's outcome, which is cached on success |
| Shaders.ShaderCompiler.CompileShader | src/ShaderCompiler.cpp:39-49 | the request joins the back of the queue; the cache is untouched |
| Shaders.ShaderCompiler.RunNext | src/ShaderCompiler.cpp:56-93 | a worker takes the front request and compiles it; nothing happens on an empty queue |
| Shaders.MPMKernels | src/fluids/MPMSolver.cpp:11-29 | four distinct kernel descriptions from one file |
| Shaders.MPMKernelsShareSlot | src/fluids/MPMSolver.cpp:46-58 | as written, all four kernels get the clear-grid blob |
| Shaders.MPMKernelsOwnSlots | src/fluids/MPMSolver.cpp:46-58 | with whole-description keys, each kernel gets its own blob |
| Shaders.LastKnownGoodSurvivesFailure | src/ShaderCompiler.cpp:25-37 | a failed recompile keeps the last good blob served |
| Shaders.QueueIsFifo | src/ShaderCompiler.cpp:39-70 | requests are served first in, first out |
| Rendering.Renderer.constructor | src/Renderer.h:102-120 | fence 0, empty pools, the given client size |
| Rendering.Renderer.GetCommandList | src/Renderer.cpp:184-213 | the front allocator is reused iff the GPU has completed its fence, else the new one; a pooled list is reused, else the new one; the list records its allocator |
| Rendering.Renderer.ExecuteCommandList | src/Renderer.cpp:215-233 | the fence goes up by one; the allocator is tracked with it; the list returns to the pool; the result is the fence value truncated to 32 bits |
| Rendering.Renderer.ExecuteCommandListWide | src/Renderer.cpp:215-233 | the corrected call returns the full fence value |
| Rendering.Renderer.Flush | src/Renderer.cpp:277-282 | signals the next fence value and always waits for it |
| Rendering.Renderer.Resize | src/Renderer.cpp:284-318 | a zero or unchanged size does nothing; otherwise it flushes and takes the new size |
| Rendering.WaitForFenceValue | src/Renderer.cpp:344-351 | it waits iff the GPU has not reached the value |
| Rendering.FrontIsOldest | src/Renderer.cpp:188-197 | if the front allocator is not done, none behind it is |
| Rendering.AllocatorReusedAfterCompletion | src/Renderer.cpp:184-233 | an executed allocator is handed out again iff its fence has completed |
| Rendering.TruncatedFenceSkipsWait | src/Renderer.cpp:215-233 | at fence 2^32 - 1, the returned value wraps to 0 and waiting on it does not wait |
| Rendering.WideFenceWaits | src/Renderer.cpp:215-233 | with the full value, waiting on the last execute does wait |
| Rendering.UploadDefaultBufferResource | src/Renderer.cpp:140-173 | no data means no change; otherwise it copies count x size bytes, reusing existing resources and creating missing ones of that size |

## Left out

- Direct3D 12, DXGI, DXC and Win32 calls are not modelled. Their objects are opaque ids, and the ids they return are inputs. Error dialogs (`CreateDialogAndThrowIfFailed`, `ErrorOnFail`) are not modelled.
- Floating point is modelled as exact reals. Rounding, NaN and infinities are not modelled.
- Integer widths are not modelled:
  - the 32- and 64-bit wrap of descriptor handles, `NumDescriptors` and `FenceValue`;
  - `size_t` products in buffer sizes.
  The one exception is the `uint32_t` result of `ExecuteCommandList`.
- MPMKernels.Trunc: the `float` to `int32_t` conversion ignores the 32-bit range.
- Math3D.Vec2iPow: `int32_t` overflow of the squaring is not modelled.
- MPMKernels.NeoHookeanStress: `std::log` is an input function. The only fact assumed about it is log 1 = 0, and only where a lemma needs it.
- Math3DLemmas.InverseTranslate: M x Inverse(M) = Identity is proved only for translations and Identity. The general 4x4 adjugate identity is not proved.
- Math3D.Inverse: it requires a non-zero determinant. For det = 0 the source computes 1 / det, an IEEE infinity, which exact reals cannot express.
- The logging branch of `Inverse` for |det| <= 0.1 writes to a stream and changes nothing. It is not modelled.
- `Normalize`, `View`, `Perspective`, `Rotate` and the trigonometric sphere coordinates are not modelled. The sphere's point at each ring and segment is an input.
- MPM.MPMSolver.ParticleToGrid and MPM.MPMSolver.GridToParticle: they require every particle's stencil to be inside the grid. The source indexes `Grid` without a check. A stencil past the last row indexes past the array, which is undefined behaviour. A stencil past the last column stays in the array while rows remain below it, but it wraps into column 0 of the next row and reads or writes a cell that is not the particle's neighbour (`MPMKernels.ClampWrapsIntoNextRow`). Neither case is modelled as an operation.
- `RecompileShaders` and the GPU pipeline creation are not modelled. Pipeline states are ids supplied to `CreatePipelineStateObject`, and `Scene::ReloadShaders` takes the rebuilt state as the input `Rebuilt`.
- The `unordered_map` iteration order is an input, `Order`: every key once, in any order.
- Worker threads, mutexes, condition variables and the file watcher are not modelled. The shader queue is run one item at a time by `RunNext`, and completion callbacks are not modelled.
- Shaders.KeyOf: the source keys the cache by the `LPCWSTR` pointer. The model keys it by the file name, which assumes that identical string literals share one address.
- The `ObjectRenderer` base-class relationship is not modelled. Scene objects are ids, and `ObjectRenderer`, `PrimitiveObject` and `FluidObject` are separate classes.
- Fluids.FluidObject.CreateBuffers: only the allocation and the instance buffer it stores are modelled. The null allocation that `GetAllocation` can return is stored as `None` and is not dereferenced.
- Fluids.FluidObject.Update: the root-signature binding commands before the dispatches are not modelled.
- The `Draw` methods of `FluidObject` and `PrimitiveObject` are not modelled, beyond the index count a sphere draws.
- `rand()` is an input: one pair of values in [0, 1] per particle.
- The `PrimitiveObject` destructor is modelled as a call to `DestroyBuffers`.
- The PSO `Build*` calls are modelled as the stream values they hand to the device.
- The FluidObject's own particle buffers and their upload are not modelled.
- `Controller`, `View`, `Plane` and the window and input handling in `main.cpp` are not part of this model.

## Findings

| source | as written | input that shows it | evidently intended | confidence | as-written member | corrected member |
|---|---|---|---|---|---|---|
| src/fluids/MPMSolver.cpp:225-226 | positions are clamped to [DX, Size - DX] | resolution 64, x = 0.99: the stencil starts at row 62 and stencil cell (2, y) is row 64, past the grid (on the y axis the same clamp wraps into the next row instead) | clamp to [DX, Size - 2 DX] so the 3x3 stencil stays inside the grid | not executed | MPMKernels.ClampLetsStencilLeaveGrid | MPMKernels.AdvectedPositionFixed |
| src/util/3DMath.cpp:190-193 | `GetRow(I)` reads m[I*4], m[(I+1)*4], m[(I+2)*4], m[(I+3)*4] | I = 1 reads m[16], past the 16 entries | m[I], m[I+4], m[I+8], m[I+12] | not executed | Math3DLemmas.GetRowSecondRowOutOfRange | Math3D.GetRowFixed |
| src/util/3DMath.cpp:434-443 | integer `Pow(p)` squares each component p - 1 times | (2, 2) with p = 3 gives (16, 16) | (8, 8), the p-th power | not executed | Math3DLemmas.Vec2iPowSquaringCounterexample | Math3D.Vec2iPowFixed |
| src/DescriptorHeapAllocator.cpp:54-64 | `NumDescriptors` is never checked against `MaxDescriptors` | the ninth view in a block writes slot 0 of the next block | refuse once the block is full | not executed | DescriptorHeap.NinthSlotIsNextBlock | DescriptorHeap.CheckedSlotInOwnBlock |
| src/primitives/Sphere.h:48-58 | every vertex emits a quad towards the next ring and segment | 16 vertices: index 95 is 20, past the 16 vertices | emit quads only below the last ring and segment | not executed | Sphere.SphereIndexOutOfRange | Sphere.BoundedInRange |
| src/ShaderCompiler.cpp:25-37 | the cache is keyed by the file-name pointer only | the four MPM kernels name the same file; when the compiler pools the identical literals, all four get the first kernel's blob | key by the whole description | not executed | Shaders.MPMKernelsShareSlot | Shaders.MPMKernelsOwnSlots |
| src/Renderer.cpp:215-233 | the 64-bit fence value is returned as `uint32_t` | at fence 2^32 - 1 the result is 0, and a wait on it returns at once | return the full 64-bit value | not executed | Rendering.TruncatedFenceSkipsWait | Rendering.WideFenceWaits |
