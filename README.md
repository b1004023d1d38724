# SoftBodySolver in Dafny

A model of the `SoftBodySolver` class in `src/physics/SoftBodySolver.ts`, with proofs. The class is a
cloth simulator that keeps its state in flat, fixed-capacity typed buffers:

- `pos`, `prevPos` and `vel` hold three slots per particle;
- `invMass` holds one slot per particle, and 0 marks a pinned particle;
- `distanceConstraints` holds two slots per constraint;
- `restLengths` holds one slot per constraint;
- `indices` holds three slots per render triangle.

Its operations:

- **The constructor** allocates every buffer for `maxParticles` particles, each zero-filled.
- **`initGrid`** lays out a `cols x rows` sheet of particles in row-major order. It pins the two
  top corners. It then emits each cell's structural and shear distance constraints, with rest lengths
  measured on the fresh layout, and the two render triangles of each interior cell.
- **`update`** does nothing for `dt <= 0`. Otherwise it runs `substeps` substeps of length
  `dt / substeps`. Each substep does three things:
  - it predicts every free particle under gravity and clamps it to the ground `y = 0`;
  - it projects every live constraint once, in buffer order;
  - it rebuilds every free particle's velocity from its displacement.

  Pinned particles are skipped throughout.

The Dafny project has four modules:

- `Geometry` (`geometry.dfy`): points and distances.
- `Grid` (`grid.dfy`): what `initGrid` writes, as values. Cell `(i, j)` emits a sequence, and the
  cells are visited in the order of the source's nested loops. The lemmas give the counts, the
  order, index validity, the pinning rule and capacity.
- `Dynamics` (`dynamics.dfy`): what one call of `update` does to the particle buffers, as values.
  The predict, project and velocity loops are folds, with lemmas about pinned particles, the ground
  clamp and what one constraint projection does.
- `Solver` (`solver.dfy`): the class `SoftBodySolver`. Its fields are the source's buffers
  (`array<real>` and `array<nat>`) and counters. Its methods are written as loops over those arrays,
  and each one is proved to leave the buffers as the corresponding `Grid` or `Dynamics` definition
  says.

Arithmetic is exact (`real`). `Math.sqrt` is a parameter `sqrt: real -> real`. The lemmas that need
it to be a square root require `IsSqrt(sqrt)`.

The code guards against neither of two situations; the model makes each one explicit:

- `initGrid` has no capacity check (src/physics/SoftBodySolver.ts:47-75), so
  `cols * rows <= maxParticles` is a precondition of `InitGrid`.
- `solveDistanceConstraints` divides by `dist` without a guard (src/physics/SoftBodySolver.ts:201-203).
  It only skips a constraint whose inverse-mass sum is 0 (line 190).
  - `Dynamics.ProjectOne` returns `None` exactly when the computed distance `Distance(sqrt, a, b)` is 0
    and the inverse-mass sum is not.
  - The update methods require that this case does not arise; there is no invented fallback.

## Model

| member | source | states |
|---|---|---|
| Solver.SoftBodySolver.constructor | src/physics/SoftBodySolver.ts:28-42 | the three particle buffers have 3 * maxParticles slots, `invMass` has maxParticles, `distanceConstraints` has 12 * maxParticles (two per constraint, 6 * maxParticles constraints), and `restLengths` and `indices` have 6 * maxParticles; every buffer is zero-filled, and nothing is live |
| Solver.SoftBodySolver.InitGrid | src/physics/SoftBodySolver.ts:47-122 | `numParticles == cols * rows` and cols, rows are recorded; the live prefix holds the grid layout with prevPos == pos and vel == 0; inverse masses follow the pinning rule; the live constraints are exactly the grid's, with no constraint of an earlier grid, and their rest lengths are measured on the new layout; the indices buffer starts with the grid's triangles; past the new grid, every buffer (pos, prevPos, vel, invMass, the constraint pairs, the rest lengths and indices) is untouched; Valid() holds again |
| Solver.SoftBodySolver.LayoutParticles | src/physics/SoftBodySolver.ts:53-75 | the first loop writes the grid points to pos and prevPos, zeros to vel and the pinning rule to invMass, for particles 0 .. cols * rows - 1 in row-major order, and leaves every slot beyond them as it was |
| Solver.SoftBodySolver.LayoutRow | src/physics/SoftBodySolver.ts:56-74 | one pass of the outer layout loop appends row j's cols particles after those already placed, and idx advances by cols |
| Solver.SoftBodySolver.LayoutCell | src/physics/SoftBodySolver.ts:57-73 | particle (i, j) is written at index idx + i, at its grid point, at rest, with inverse mass 0 exactly when it is a top corner |
| Solver.SoftBodySolver.PlaceParticle | src/physics/SoftBodySolver.ts:58-71 | writing one particle's position, previous position (a copy of the position), zero velocity and inverse mass extends the placed prefix by that particle and leaves the rest of the buffers alone |
| Solver.SoftBodySolver.AddConstraint | src/physics/SoftBodySolver.ts:81-92 | slot cc of the constraint buffer becomes (p1, p2) and restLengths[cc] the current distance between p1 and p2; no other constraint or rest length changes; the counter advances by one |
| Solver.SoftBodySolver.EmitLink | src/physics/SoftBodySolver.ts:81-92 | a call of the closure appends (p1, p2) and its rest length to the constraints emitted so far; every constraint and rest-length slot after the new one is as it was before the pass |
| Solver.SoftBodySolver.EmitStructural | src/physics/SoftBodySolver.ts:98-100 | the horizontal constraint (id, id + 1) is appended when its guard holds, then the vertical one (id, id + cols) when its guard holds; the slots after them are as before the pass |
| Solver.SoftBodySolver.EmitShear | src/physics/SoftBodySolver.ts:102-106 | the shear constraints (id, id + cols + 1) and (id + 1, id + cols) are appended, in that order; the slots after them are as before the pass |
| Solver.SoftBodySolver.PutTriangle | src/physics/SoftBodySolver.ts:110-117 | three indices are written at the running index count, which advances by 3, and everything after them is untouched |
| Solver.SoftBodySolver.EmitTriangles | src/physics/SoftBodySolver.ts:108-118 | an interior cell appends the triangles (id, id + cols, id + 1) and (id + 1, id + cols, id + cols + 1) |
| Solver.SoftBodySolver.EmitCell | src/physics/SoftBodySolver.ts:96-118 | one pass of the inner constraint loop appends the cell's structural constraints, then its shear constraints, then its triangles, with the source's guards; every constraint, rest-length and index slot after them is as before the pass |
| Solver.SoftBodySolver.GridCell | src/physics/SoftBodySolver.ts:95-119 | cell (i, j) emits CellLinks(i, j) and CellTriangles(i, j) around particle id = j * cols + i, and the slots after them are as before the pass |
| Solver.SoftBodySolver.EmitRow | src/physics/SoftBodySolver.ts:95-119 | one pass of the outer constraint loop appends row j's constraints and triangles, cell by cell, in column order, and the slots after them are as before the pass |
| Solver.SoftBodySolver.EmitTopology | src/physics/SoftBodySolver.ts:77-121 | the constraint buffer holds exactly GridLinks followed by its old slots from constraintCount on, the rest-length buffer the rest lengths over the laid-out positions followed by its old slots, and the indices buffer exactly GridTriangles followed by its old slots; the constraint count it returns fits 6 * maxParticles |
| Solver.SoftBodySolver.PredictParticle | src/physics/SoftBodySolver.ts:139-160 | particle i's slots become Predicted of its old slots (velocity plus gravity * sdt, previous position the old position, movement by the new velocity, ground clamp), and no other particle changes |
| Solver.SoftBodySolver.PredictPositions | src/physics/SoftBodySolver.ts:136-161 | the predict loop leaves the particle buffers equal to Predict: every free live particle predicted, in index order, and pinned ones skipped |
| Solver.SoftBodySolver.ReconstructParticle | src/physics/SoftBodySolver.ts:170-174 | particle i's velocity becomes (pos - prevPos) / sdt; its positions and every other particle stay |
| Solver.SoftBodySolver.ReconstructVelocities | src/physics/SoftBodySolver.ts:167-175 | the velocity loop leaves the particle buffers equal to Reconstruct: every free live particle's velocity rebuilt, and pinned ones skipped |
| Solver.SoftBodySolver.ApplyCorrection | src/physics/SoftBodySolver.ts:205-214 | p1 is moved by -grad * w1 only when w1 > 0, then p2 by grad * w2 only when w2 > 0; only pos is written |
| Solver.SoftBodySolver.ProjectConstraint | src/physics/SoftBodySolver.ts:181-214 | one iteration of the constraint loop leaves pos equal to ProjectOne of live constraint k: skipped when w1 + w2 == 0, otherwise the endpoints are corrected along their separation by (dist - restLen) / wSum |
| Solver.SoftBodySolver.SolveDistanceConstraints | src/physics/SoftBodySolver.ts:179-216 | one pass over the live constraints in buffer order (Gauss-Seidel, each projection seeing the previous ones) leaves pos equal to Project; only pos is written, and dt is not read |
| Solver.SoftBodySolver.Substep | src/physics/SoftBodySolver.ts:135-175 | one round of the substep loop, predict, then constraint pass, then velocity update, is Dynamics.Substep of the old buffers |
| Solver.SoftBodySolver.RunSubsteps | src/physics/SoftBodySolver.ts:133-176 | the substep loop runs exactly n substeps in sequence, each on the result of the one before |
| Solver.SoftBodySolver.Update | src/physics/SoftBodySolver.ts:127-177 | with dt <= 0 the particle buffers are unchanged, and no counter or other buffer is ever written; otherwise the buffers are params.substeps substeps of length dt / params.substeps of the old state |
| Grid.Pinned | src/physics/SoftBodySolver.ts:70 | the pinning rule: row 0 and column 0 or cols - 1 |
| Grid.GridPoint | src/physics/SoftBodySolver.ts:58-60 | the point (x0 + (i - cols/2) * spacing, y0, z0 + (j - rows/2) * spacing), with cols/2 and rows/2 real halves |
| Grid.CellLinks | src/physics/SoftBodySolver.ts:96-106 | the constraints cell (i, j) adds around id = j * cols + i: (id, id + 1) when i < cols - 1, (id, id + cols) when j < rows - 1, then (id, id + cols + 1) and (id + 1, id + cols) when both hold |
| Grid.CellTriangles | src/physics/SoftBodySolver.ts:108-118 | the six indices id, id + cols, id + 1, id + 1, id + cols, id + cols + 1 of an interior cell, none otherwise |
| Grid.GridPositions | src/physics/SoftBodySolver.ts:53-75 | the grid points of all cells, row by row, each row in column order |
| Grid.GridInvMass | src/physics/SoftBodySolver.ts:53-75 | 0 for each pinned cell and 1 for every other, row by row |
| Grid.GridLinks | src/physics/SoftBodySolver.ts:94-120 | CellLinks of every cell, concatenated row by row, each row in column order |
| Grid.GridTriangles | src/physics/SoftBodySolver.ts:94-120 | CellTriangles of every cell, concatenated in the same order |
| Grid.RestLength | src/physics/SoftBodySolver.ts:85-89 | the distance, through sqrt, between the two endpoints' current positions |
| Grid.CellInOrder | src/physics/SoftBodySolver.ts:94-95 | in the row-major visit, what cell (i, j) emits follows what every earlier cell emits, and all of it is a prefix of what the grid emits |
| Grid.GridPointAt | src/physics/SoftBodySolver.ts:55-60 | particle (i, j) has index j * cols + i < cols * rows and sits at (x0 + (i - cols/2) * spacing, y0, z0 + (j - rows/2) * spacing) |
| Grid.PinningRule | src/physics/SoftBodySolver.ts:68-71 | invMass[j * cols + i] is 0 exactly when j == 0 and i is 0 or cols - 1, and 1 otherwise |
| Grid.PinnedCorners | src/physics/SoftBodySolver.ts:68-71 | the pinned particles are exactly {0, cols - 1}: two when cols >= 2, one when cols == 1; every inverse mass is 0 or 1 |
| Grid.CellSplit | src/physics/SoftBodySolver.ts:96-118 | a cell's constraints are its structural ones and then its shear ones, and its triangles are the interior-cell pair, all around id = j * cols + i |
| Grid.CellCorners | src/physics/SoftBodySolver.ts:96-106 | every particle index a cell uses (id, id + 1, id + cols, id + cols + 1), under the guard that uses it, is below cols * rows |
| Grid.CellLinksValid | src/physics/SoftBodySolver.ts:96-106 | every constraint of a cell joins two distinct particles of the grid |
| Grid.LinksValid | src/physics/SoftBodySolver.ts:94-120 | every emitted constraint (p1, p2) has p1 != p2 and both below cols * rows |
| Grid.TrianglesValid | src/physics/SoftBodySolver.ts:108-118 | every triangle index written is below cols * rows |
| Grid.LinkCount | src/physics/SoftBodySolver.ts:94-121 | the constraint count is (cols - 1) * rows + (rows - 1) * cols + 2 * (cols - 1) * (rows - 1), and 0 for an empty grid |
| Grid.LinkOrder | src/physics/SoftBodySolver.ts:94-106 | the constraints of cell (i, j) appear as one block at a computed offset, in the order (id, id+1), (id, id+cols), (id, id+cols+1), (id+1, id+cols), each only under its guard |
| Grid.TriangleCount | src/physics/SoftBodySolver.ts:108-118 | exactly 6 * (cols - 1) * (rows - 1) triangle indices are written, and none for an empty grid |
| Grid.TriangleOrder | src/physics/SoftBodySolver.ts:108-118 | the triangles of interior cell (i, j) sit at 6 * ((cols - 1) * j + i), in the source's vertex order |
| Grid.GridFits | src/physics/SoftBodySolver.ts:28-42 | with cols * rows <= maxParticles, the particles fit maxParticles slots, and constraints (at most 4 per particle) and triangle indices (at most 6 per particle) fit the 6 * maxParticles slots the constructor allocates |
| Grid.RestsOf | src/physics/SoftBodySolver.ts:85-89 | one rest length per constraint, in order, each the distance between that constraint's endpoints |
| Grid.RestsSnoc | src/physics/SoftBodySolver.ts:81-92 | adding one constraint adds exactly its rest length at the end |
| Grid.RestsOfPrefix | src/physics/SoftBodySolver.ts:85-89 | a rest length depends only on the positions of its endpoints |
| Grid.RestLengthsMeasure | src/physics/SoftBodySolver.ts:85-89 | with a true square root every grid rest length is non-negative, and its square is the squared distance between its endpoints as laid out |
| Dynamics.Predicted | src/physics/SoftBodySolver.ts:141-160 | one free particle's prediction: vel + g * sdt, prevPos the old pos, pos moved by the new velocity, and y and vel.y set to 0 when the new y is below 0 |
| Dynamics.MapFree | src/physics/SoftBodySolver.ts:136-137 | a loop over the first i particles that replaces each with invMass != 0 by f of itself, in index order, and skips the others; it keeps the buffers shaped |
| Dynamics.PredictUpTo | src/physics/SoftBodySolver.ts:136-161 | the predict loop after its first i particles: MapFree with Predicted |
| Dynamics.Predict | src/physics/SoftBodySolver.ts:136-161 | the whole predict loop, over the live particles |
| Dynamics.Gradient | src/physics/SoftBodySolver.ts:199-203 | (a - b) / dist scaled by (dist - restLength) / wSum, component by component |
| Dynamics.Pulled | src/physics/SoftBodySolver.ts:205-209 | p1 moved by -g * w when w > 0, unchanged otherwise |
| Dynamics.Pushed | src/physics/SoftBodySolver.ts:210-214 | p2 moved by g * w when w > 0, unchanged otherwise |
| Dynamics.ProjectStep | src/physics/SoftBodySolver.ts:180-215 | constraint k as one step on a position buffer: ProjectOne of it, or failure for a buffer the body does not fit or a k past the last constraint |
| Dynamics.ProjectUpTo | src/physics/SoftBodySolver.ts:180-215 | the constraint loop after its first k constraints, each step on the result of the one before; a success keeps pinned and non-live particles in place |
| Dynamics.Velocity | src/physics/SoftBodySolver.ts:172-174 | (x - prev) / sdt, component by component |
| Dynamics.Rebuilt | src/physics/SoftBodySolver.ts:170-174 | a particle with its positions kept and its velocity Velocity(pos, prevPos, sdt) |
| Dynamics.ReconstructUpTo | src/physics/SoftBodySolver.ts:167-175 | the velocity loop after its first i particles: MapFree with Rebuilt |
| Dynamics.Reconstruct | src/physics/SoftBodySolver.ts:167-175 | the whole velocity loop, over the live particles |
| Dynamics.SetParticle | src/physics/SoftBodySolver.ts:139-174 | a write to one particle's slots changes that particle and no other |
| Dynamics.PredictedMoves | src/physics/SoftBodySolver.ts:141-160 | after a prediction, vel += g * sdt, prevPos = the old pos, pos = old pos + vel * sdt, and pos.y >= 0; a particle that would go below the ground is put at y = 0 with vel.y = 0 |
| Dynamics.MapFreeAt | src/physics/SoftBodySolver.ts:136-137 | a loop that skips particles with invMass == 0 changes each free live particle once, and leaves every pinned particle and every particle beyond the live count alone |
| Dynamics.PredictAt | src/physics/SoftBodySolver.ts:136-161 | after the predict loop each free live particle is Predicted of itself, and every other particle is unchanged |
| Dynamics.PredictAboveGround | src/physics/SoftBodySolver.ts:155-161 | right after the predict loop every free live particle has pos.y >= 0, and its prevPos is its old pos; a particle the clamp caught (its predicted y was below 0) is on the ground with vel.y == 0 |
| Dynamics.Correct | src/physics/SoftBodySolver.ts:205-214 | the correction writes only endpoint p1 when w1 > 0 and endpoint p2 when w2 > 0; every other position stays |
| Dynamics.CorrectEndpoints | src/physics/SoftBodySolver.ts:205-214 | for distinct endpoints, p1 ends pulled against the gradient and p2 pushed along it |
| Dynamics.ProjectOne | src/physics/SoftBodySolver.ts:181-214 | projection fails exactly when wSum != 0, some endpoint has positive inverse mass (so a write uses the unguarded division) and the distance is 0; with wSum == 0 nothing moves; otherwise only endpoints with positive inverse mass move |
| Dynamics.ProjectOneEndpoints | src/physics/SoftBodySolver.ts:199-214 | with wSum != 0 and a non-zero distance the projection succeeds, and the new endpoint positions are the old ones moved by -grad * w1 and grad * w2, with grad = (a - b) / dist * (dist - restLen) / wSum |
| Dynamics.CorrectionRestores | src/physics/SoftBodySolver.ts:199-214 | the correction scales the endpoints' separation by restLength / dist, and w2 * (move of p1) + w1 * (move of p2) == 0 |
| Dynamics.ProjectOneRestores | src/physics/SoftBodySolver.ts:192-214 | projecting a constraint makes its endpoints restLength / dist times as far apart and keeps the mass-weighted centre |
| Dynamics.ProjectKeeps | src/physics/SoftBodySolver.ts:180-215 | the first k projections never move a pinned particle or one beyond the live count |
| Dynamics.Project | src/physics/SoftBodySolver.ts:179-216 | a successful constraint pass leaves every pinned particle and every particle beyond the live count where it was |
| Dynamics.VelocityCarries | src/physics/SoftBodySolver.ts:171-174 | the rebuilt velocity carries prevPos to pos in sdt |
| Dynamics.ReconstructAt | src/physics/SoftBodySolver.ts:167-175 | after the velocity loop each free live particle has velocity (pos - prevPos) / sdt; positions and every other particle are unchanged |
| Dynamics.Substep | src/physics/SoftBodySolver.ts:135-175 | a substep that succeeds keeps the buffers shaped to the body |
| Dynamics.UpdateSpec | src/physics/SoftBodySolver.ts:127-133 | update with dt <= 0, or with substeps <= 0 (the loop does not run), leaves the particles as they were |
| Dynamics.SubstepKeepsPinned | src/physics/SoftBodySolver.ts:135-175 | a pinned particle, or one beyond the live count, comes out of a substep with position, previous position and velocity unchanged |
| Dynamics.UpdateKeepsPinned | src/physics/SoftBodySolver.ts:127-177 | across a whole update, no pinned particle and no particle beyond the live count has its position, previous position or velocity changed |
| Dynamics.SubstepUnconstrained | src/physics/SoftBodySolver.ts:135-175 | without constraints, a free live particle goes through Predicted and then gets the velocity of its displacement |
| Dynamics.EulerStep | src/physics/SoftBodySolver.ts:141-174 | predict followed by velocity rebuild, without the clamp, is one semi-implicit Euler step: vel' = vel + g * sdt and pos' = pos + vel' * sdt |
| Dynamics.FreeFall | src/physics/SoftBodySolver.ts:135-175 | without constraints, a free particle that stays above the ground falls by one semi-implicit Euler step per substep |

## Left out

- `Math.sqrt` is a parameter `sqrt: real -> real`, not a library call. Only `Grid.RestLengthsMeasure` asks for `IsSqrt(sqrt)`; every other statement holds for any `sqrt`.
- Float32 storage and rounding are not modelled. Positions, velocities, masses and rest lengths are exact reals, so nothing about convergence or accuracy is claimed.
- Uint32 storage of the constraint and index buffers is modelled as `nat`. Under the capacity precondition no written value exceeds `cols * rows`.
- `cols` and `rows` are `nat`, and `substeps` is `int`. The source's numeric parameters could be fractional or negative.
- Solver.SoftBodySolver.InitGrid: requires `cols * rows <= maxParticles`, because the source has no capacity check. Without it, typed arrays silently drop out-of-range writes, and the model does not reproduce that.
- Solver.SoftBodySolver.Update: requires that no constraint projection meets endpoints whose computed distance `Distance(sqrt, a, b)` is 0 while their inverse-mass sum is non-zero and one of them has a positive inverse mass. The source divides by zero there and produces NaN; the model states that case as `Dynamics.ProjectOne` returning `None`.
- Solver.SoftBodySolver.SolveDistanceConstraints: the same zero-distance precondition. Substep, RunSubsteps and ProjectConstraint require it too.
- The `dt` argument of `solveDistanceConstraints`, `params.iterations` and `params.dt` are never read by the source, so they are received and ignored. There is no compliance, and there is one constraint pass per substep.
- The loop bodies of `initGrid` and `update` are split into helper methods (LayoutCell, GridCell, EmitCell, PredictParticle, ProjectConstraint and others). The final buffer contents are the same; only PredictParticle and ProjectConstraint order or skip writes differently, as the next lines say.
  - The source's two identical guards around the shear constraints and the triangles become one `if` in EmitCell. The order of writes is unchanged.
  - PredictParticle computes the clamped values before writing them. The source writes `pos.y` and `vel.y` and then overwrites them in the clamp; the final slot contents are the same.
  - ProjectConstraint returns before the correction when the distance is 0 and neither endpoint has a positive inverse mass. The source computes a NaN correction there and writes none of it, so pos is the same.
- The `cols` and `rows` fields are set by InitGrid but never read by the solver, so they play no part in the proofs.
- The UI, the Three.js scene and the render loop that calls `update`, as well as the declarations in `src/types` and `src/constants`, are not part of this model.
