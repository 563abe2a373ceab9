# Fast voxel traversal (3D DDA), modelled in Dafny

The repository provides one algorithm, the Amanatides–Woo voxel traversal. It
takes a segment from `ray_start` to `ray_end` and a visitor. It reports, in
order, each unit grid cell (voxel) it walks through, together with the normal
of the face it entered that cell through. It stops when it reaches the voxel
of `ray_end` or when the visitor answers "stop". `src/lib.rs` holds the
algorithm twice: `voxel_traversal` (f32) and `voxel_traversal_f64` (f64).
The two bodies are identical apart from the float width, so one model covers
both.

Files:

- `ext_real.dfy` (module `ExtReal`): parametric distances. A distance is
  either a finite real or `Inf`. `Inf` stands for the `f32::MAX` / `f64::MAX`
  sentinel that the source stores for an axis the ray does not move along.
  It compares above every finite value, is not below itself, and absorbs
  addition.
- `grid.dfy` (module `Grid`): axes, integer triples (voxels and normals), real
  triples (points), componentwise floor.
- `traversal.dfy` (module `Traversal`): the model. It has three layers.
  - Specification functions for the initialisation: `StepFor`, `Boundary`,
    `InitTMax`, `InitTDelta`, `Prepare`, `Origin`.
  - Specification functions for one loop iteration (`Choose`, `Advance`,
    `EntryNormal`), for the loop (`Walk`) and for the whole call (`Traverse`).
  - The imperative method `VoxelTraversal`, written like the source: mutable
    `currentVoxel`, `tMaxX/Y/Z` and `normal`, the same nested comparisons, and
    an early return on the visitor's answer. It is proved equal to `Traverse`.
- `properties.dfy` (module `TraversalProperties`): the tie-break, one
  iteration, the initialisation, and the state invariant that the loop keeps.
- `trace_properties.dfy` (module `TraceProperties`): properties of the whole
  sequence of visits.
- `scenarios.dfy` (module `Scenarios`): two concrete traversals worked out in
  exact arithmetic.

Modelling choices:

- Floats are exact `real`s, and `floor() as i32` is `real.Floor` into an
  unbounded `int`.
- The visitor is a function `answer: nat -> bool`. Its value at `k` is what
  the visitor returns on its k-th call, counting from 0. The visits the
  source passes to the visitor are returned as the `visits` sequence, with an
  `Outcome`: `Stopped` (the visitor said stop), `Reached` (the current voxel
  became `floor(ray_end)`) or `OutOfFuel`.
- The `while` loop runs at most `fuel` iterations. In exact arithmetic it is
  not guaranteed to end (see `Scenarios.CornerOvershoot`), so the bound is
  part of the model.

Two consequences of the code worth stating:

- Ties. The comparisons at src/lib.rs:108-126 give an exact tie to the axis
  compared later. So `x == y < z` steps Y, `x == z < y` steps Z,
  `y == z < x` steps Z, and a three-way tie steps Z
  (`ChooseTies`, `ChooseIsLastMinimum`).
- Termination. In exact arithmetic the loop need not reach
  `floor(ray_end)`: `CornerOvershoot` gives a segment that ends exactly on a
  grid corner. Y wins the tie there and is stepped past the end's voxel, after
  which that voxel is never visited.

## Model

| member | source | states |
|---|---|---|
| `Traversal.VoxelTraversal` | src/lib.rs:23-132 | The imperative traversal returns exactly the visits and outcome of the specification `Traverse`: the first visit and the early return at 99-101, then the loop that steps, reports, and returns on "stop". |
| `TraversalProperties.ChooseIsLastMinimum` | src/lib.rs:108-126 | The axis an iteration advances is the one with the least tMax. Among tied minima it is the one compared last. This characterises the choice in both directions. |
| `TraversalProperties.ChooseTies` | src/lib.rs:108-126 | On exact ties Y beats X, and Z beats both X and Y. |
| `TraversalProperties.ChooseAvoidsSentinel` | src/lib.rs:108-126 | If any tMax is finite, the chosen axis has a finite tMax, so an axis with the sentinel is never preferred to a moving one. |
| `TraversalProperties.AdvanceMovesOneAxis` | src/lib.rs:106-126 | One iteration adds the chosen axis's step to its voxel coordinate and that axis's tDelta to its tMax. The normal is `-step` on that axis. Every other coordinate and every other tMax is unchanged, and the other normal components are 0. |
| `TraversalProperties.DeltaTimesRay` | src/lib.rs:83-97 | For a non-zero ray component, tDelta is positive, and tDelta times the component equals the step. |
| `TraversalProperties.InitAxis` | src/lib.rs:44-97 | The step is +1 iff the ray component is >= 0, else -1. A zero component gives tMax = tDelta = sentinel. A non-zero one gives a finite tDelta > 0 with tDelta·\|d\| = 1. tMax then lies in [0, tDelta], and it is the parameter at which the ray meets the grid plane ahead in the step direction. |
| `TraversalProperties.InitAxisInv` | src/lib.rs:49-80 | For each axis, the initial voxel coordinate and tMax satisfy the state invariant. |
| `TraversalProperties.OriginInv` | src/lib.rs:27-97 | The state after initialisation satisfies the invariant on all three axes. |
| `TraversalProperties.StepAxisInv` | src/lib.rs:110-124 | Stepping an axis across its next plane keeps that axis's invariant and strictly increases its tMax. |
| `TraversalProperties.AdvanceInv` | src/lib.rs:104-126 | While the current voxel is not the last, an iteration advances an axis with a finite tMax, strictly increases that tMax, and preserves the invariant. The invariant: an axis the ray does not move along keeps the sentinel and the start's coordinate; on any other axis tMax is non-negative and is the parameter of the next boundary ahead of the current voxel. |
| `TraceProperties.EnteredIsFaceStep` | src/lib.rs:106-126 | A visit entered from the previous voxel is a face neighbour of it (Manhattan distance 1). Its normal is a unit vector whose non-zero component is minus that axis's step, and the new voxel is the old one minus the normal. |
| `TraceProperties.ChainAhead` | src/lib.rs:104-131 | Along the visits, each coordinate moves only in its axis's step direction. |
| `TraceProperties.ChainDistance` | src/lib.rs:104-131 | After j steps, each coordinate's displacement from the first voxel has the sign of its axis's step, and the voxel is at Manhattan distance exactly j from the first. |
| `TraceProperties.WalkChain` | src/lib.rs:104-131 | Every visit the loop reports was entered across one face from the voxel before it. The first loop visit was entered from the voxel the loop began in. |
| `TraceProperties.WalkAnswers` | src/lib.rs:104-131 | The loop calls the visitor once per visit. Every answer before the last was "go on". It returns early iff the last answer was "stop". It runs at most `fuel` iterations, and all of them when it runs out. |
| `TraceProperties.WalkEnds` | src/lib.rs:104-131 | The loop steps only out of a voxel different from the last voxel. It ends `Reached` only in the last voxel, and runs out of fuel only elsewhere. |
| `TraceProperties.WalkZeroAxis` | src/lib.rs:66-126 | An axis along which the ray does not move is never stepped by the loop. |
| `TraceProperties.WalkPastLast` | src/lib.rs:104-131 | Once a coordinate has passed the last voxel's coordinate in its step direction, the last voxel is never visited and the loop never ends by reaching it. |
| `TraceProperties.TraverseStartsAtOrigin` | src/lib.rs:99-101 | The first visit is `(floor(ray_start), (0,0,0))`, made before any stepping. A "stop" on that call ends the traversal there. |
| `TraceProperties.SingleVoxel` | src/lib.rs:27-104 | When `floor(ray_start) == floor(ray_end)`, exactly one voxel is visited. |
| `TraceProperties.TraverseFaceSteps` | src/lib.rs:41-131 | Every visit after the first is a face neighbour of the previous one, entered across one plane. Its normal is minus the step of that axis, and the step is fixed by the sign of the ray component. |
| `TraceProperties.TraverseAnswers` | src/lib.rs:99-130 | One visitor call per visit, in order. Every answer but the last was "go on". The traversal ended early iff the last answer was "stop". In total there are at most fuel + 1 visits. |
| `TraceProperties.EarlyStop` | src/lib.rs:128-130 | If the visitor first says "stop" on its N-th call, at most N visits occur, and exactly N when the traversal ended by that stop. |
| `TraceProperties.TraverseEnds` | src/lib.rs:104-131 | No visit follows one in `floor(ray_end)`. A traversal that ends `Reached` ends there, and one out of fuel ends elsewhere. |
| `TraceProperties.TraverseZeroAxis` | src/lib.rs:66-97 | An axis along which `ray_end - ray_start` is zero keeps the start's coordinate and a zero normal component in every visit. |
| `TraceProperties.TraverseMonotone` | src/lib.rs:44-126 | Each coordinate of the visited voxels is non-decreasing when the ray component is >= 0, and non-increasing otherwise. |
| `TraceProperties.ReachedVisitsManhattanPlusOne` | src/lib.rs:104-131 | A traversal that reaches `floor(ray_end)` visits exactly 1 + the Manhattan distance between the start's and the end's voxels. |
| `TraceProperties.TraverseNoRepeat` | src/lib.rs:104-131 | No voxel is visited twice: visits at different positions are in different voxels. |
| `Scenarios.AxisAlignedRay` | src/lib.rs:23-132 | From (0.5,0.5,0.5) to (3.5,0.5,0.5), the visits are (0,0,0),(1,0,0),(2,0,0),(3,0,0), with normal (-1,0,0) after the first. |
| `Scenarios.CornerOvershoot` | src/lib.rs:104-126 | From (0.5,1.5,0.5) to (1.0,0.0,0.5), the end's voxel (1,0,0) is never visited and the loop never ends by reaching it, for any iteration bound. |

## Left out

- IEEE-754 behaviour: rounding, NaN and infinite inputs, and the overflow
  of `f32::MAX + f32::MAX` to infinity. All arithmetic is exact over the
  reals.
- The sentinel `f32::MAX` / `f64::MAX` is the abstract value `Inf`, above
  every finite distance. In floats a finite tMax could grow to equal or pass
  the sentinel. The model does not capture that.
- Saturation of the `floor() as i32` casts, and 32-bit overflow of
  `current_voxel += step`. Voxel coordinates are unbounded integers.
- `voxel_traversal_f64` (src/lib.rs:134-243) is not modelled separately. It
  is the same algorithm as `voxel_traversal`, and the width-free model covers
  both.
- Termination of the `while` loop is not claimed. The loop is bounded by
  `fuel`, and every property is proved of the prefix it emits.
  `Scenarios.CornerOvershoot` shows that in exact arithmetic the bound is
  needed.
- The visitor's own side effects. Only its boolean answers, indexed by call
  number, are modelled.
- AdvanceInv: states the invariant through the grid plane ahead of the
  current voxel on each moving axis. It does not state that the current voxel
  equals `floor(ray_start + t * ray)` for the current parameter `t`, because
  that is false at exact corner ties: in `CornerOvershoot` the second step
  enters (0,-1,0), which the segment (y in [0, 1.5]) never meets.
