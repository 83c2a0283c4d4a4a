# UnityLearn scripts in Dafny

A model of five MonoBehaviour scripts from the UnityLearn tutorial
projects:

- **The hash visualiser** (`Hashing`). The reduced 32-bit xxHash
  `SmallXXHash`, the `HashJob` that hashes the centred coordinates of
  every cell of a `resolution * resolution` grid, and the keys. Space
  picks a new seed. The arrow keys change the resolution by five, within
  [5, 500], and rebuild.
- **The fractal** (`Fractal`). Level `l` is one native array of 5^l
  parts. Every frame, each part spins by `0.125 * PI * deltaTime` and
  is placed 1.5 scales from its parent along its direction. The parent
  of part `i` is part `i / 5` of the level above. The arrow keys change
  the depth within [1, 8] and rebuild.
- **The vibrant fractal** (`FractalVibrant`). The same tree, now with
  sag. A child is tilted towards the ground by at most its random
  maximum sag angle. The tilt is applied only when the sag axis
  `cross(up, upAxis)` has positive length. Each level gets a random
  sequence number. The deepest level is drawn as the leaf, and the
  others with a gradient position `i / (levels - 1)`. The depth keys
  depend on the build target:
  - standalone: the arrows, clamped to [3, 9];
  - Android: a double tap, wrapping from 6 back to 3.
- **The GPU graph** (`MathSurfacesGPU`). The state handed to the compute
  shader each frame:
  - resolution, step, function indices, transition flag and progress,
    time;
  - `ceil(resolution / 8)` thread groups;
  - `resolution^2` instances in a buffer sized for 1000^2.

  Also its controls:
  - The digit keys 1–5 pick a surface. A transition starts only when
    the surface changes, and it gains 0.1 per frame.
  - Holding an arrow key moves the resolution by one per frame, within
    [10, 1000].
- **The node graph** (`MathSurfaces`). The CPU version: one transform per
  grid cell.
  - Every frame the node loop places node `i` over column `i % resolution`
    and row `i / resolution`, on the current surface or on the blend from
    the last one.
  - Every digit key restarts a transition, which gains 0.05 per frame.

What is fixed about the model:

- 32-bit unsigned arithmetic is on integers modulo 2^32 (module `Word`).
- `float3`, `quaternion` and `float3x4` values are uninterpreted terms
  (module `Geometry`). What is proved about the fractals therefore holds
  whatever the float operations compute.
- Object state lives in classes whose methods change fields, native
  arrays (as Dafny arrays), and sequences of arrays. Each method is proved
  against a function of the old state: `Frame`, `NewLevel`,
  `DispatchFor`, `PressKeys`, `Tick`, and so on. The lemmas state what
  the scripts promise about those functions.

The byte step `Eat(byte)` in `HashVisual.cs` multiplies by primeC, whereas
the XXH32 algorithm (and the commented-out version above it) uses primeE.
The model follows the live code, and `XXHash.EatByteDiffersFromXXH32`
states exactly when the two agree. The hash job never calls the byte
step.

## Model

| member | source | states |
|---|---|---|
| `XXHash.ToUint` | Hashing/Assets/Scripts/HashVisual.cs:84 | The `(uint)` cast of an `int` is its two's-complement pattern: negatives gain 2^32, other values are unchanged. |
| `XXHash.SeedInjective` | Hashing/Assets/Scripts/HashVisual.cs:88 | Different seeds give different starting states. |
| `XXHash.EatInjective` | Hashing/Assets/Scripts/HashVisual.cs:84 | If two `int` steps give the same state, the states were equal exactly when the data were: the step loses nothing in either argument. |
| `XXHash.EatByteInjective` | Hashing/Assets/Scripts/HashVisual.cs:86 | From one state, different bytes give different states. |
| `XXHash.EatByteDiffersFromXXH32` | Hashing/Assets/Scripts/HashVisual.cs:77-86 | The live byte step (primeC) agrees with the commented-out XXH32 one (primeE) exactly when the byte is zero. |
| `XXHash.RotateLeftValue` | Hashing/Assets/Scripts/HashVisual.cs:90-91 | For a shift `s` in (0, 32), the rotation is the low `32 - s` bits moved up by `s` plus the high `s` bits moved down: a true 32-bit rotation. |
| `XXHash.RotateLeftInverses` | Hashing/Assets/Scripts/HashVisual.cs:90-91 | Rotating by 17 and then by 15 is the identity, either way round, and so is 11 and then 21. |
| `XXHash.XorShiftInverse` | Hashing/Assets/Scripts/HashVisual.cs:96-98 | For the shifts 13 and 15 of the avalanche, `a ^= a >> k` has a two-sided inverse. |
| `XXHash.XorShift16Inverse` | Hashing/Assets/Scripts/HashVisual.cs:100 | The final xor-shift by 16 is its own inverse. |
| `XXHash.MulPrimeInverses` | Hashing/Assets/Scripts/HashVisual.cs:59-63 | Multiplying by each prime used as a multiplier is undone by its inverse modulo 2^32. |
| `XXHash.UnavalancheAvalanche` | Hashing/Assets/Scripts/HashVisual.cs:93-102 | The avalanche (the conversion to `uint`) is undone by `Unavalanche`. |
| `XXHash.AvalancheUnavalanche` | Hashing/Assets/Scripts/HashVisual.cs:93-102 | `Unavalanche` is also a right inverse of the avalanche. |
| `XXHash.AvalancheBijective` | Hashing/Assets/Scripts/HashVisual.cs:93-102 | The avalanche is one-to-one and onto `uint`: different accumulators give different hashes, and every value is some hash. |
| `HashVisual.Coordinates` | Hashing/Assets/Scripts/HashVisual.cs:22-24 | With `u = column - resolution / 2` and `v = row - resolution / 2`, both lie in [-resolution/2, resolution - resolution/2) and together give back the cell index. |
| `HashVisual.SameRowDistinct` | Hashing/Assets/Scripts/HashVisual.cs:20-26 | Two cells of one row get the same stored hash only if they are the same cell. |
| `HashVisual.SameColumnDistinct` | Hashing/Assets/Scripts/HashVisual.cs:20-26 | Two cells of one column get the same stored hash only if they are the same cell. |
| `HashVisual.Execute` | Hashing/Assets/Scripts/HashVisual.cs:20-26 | Job index `i` stores the avalanche of `hash.Eat(u).Eat(v)` for its own cell and no other entry changes. |
| `HashVisual.RunHashJob` | Hashing/Assets/Scripts/HashVisual.cs:111-117 | After the parallel-for, every cell of the array holds its own cell hash under the seed. |
| `HashVisual.KeysInRange` | Hashing/Assets/Scripts/HashVisual.cs:160-171 | From any inspector resolution in [1, 512]: the up key lands in [6, 500] and the down key in [5, 507]. Each key moves the resolution its way exactly when the start is inside its bound. |
| `HashVisual.KeysUndo` | Hashing/Assets/Scripts/HashVisual.cs:160-171 | Away from the bounds, up then down (or down then up) restores the resolution. |
| `HashVisual.HashVisual.constructor` | Hashing/Assets/Scripts/HashVisual.cs:39-46 | Starts with seed 0, resolution 16, enabled and nothing allocated. |
| `HashVisual.HashVisual.OnEnable` | Hashing/Assets/Scripts/HashVisual.cs:105-126 | Allocates `resolution^2` fresh entries, each the cell hash under `Seed(seed)`; seed and resolution are kept. |
| `HashVisual.HashVisual.OnDisable` | Hashing/Assets/Scripts/HashVisual.cs:128-135 | Releases the buffers; seed, resolution and the enabled flag are kept. |
| `HashVisual.HashVisual.OnValidate` | Hashing/Assets/Scripts/HashVisual.cs:137-144 | Rebuilds the hashes only when buffers exist (and the component is enabled), and otherwise leaves them alone. |
| `HashVisual.HashVisual.SetEnabled` | Hashing/Assets/Scripts/HashVisual.cs:105-135 | Switching on allocates and hashes; switching off releases. Seed and resolution are kept. |
| `HashVisual.HashVisual.Update` | Hashing/Assets/Scripts/HashVisual.cs:146-173 | Space sets the seed to the drawn value. Up then down change the resolution as `UpKey` and `DownKey`. A pressed key rebuilds hashes consistent with the new seed and resolution; no key leaves the array as it was. |
| `Geometry.ParentInBounds` | Fractal/Assets/Scripts/Fractal.cs:77 | The parent `i / 5` of a part lies in the level above. |
| `Geometry.ChildrenOf` | Fractal/Assets/Scripts/Fractal.cs:114-119 | The children of part `p` are the parts 5p to 5p + 4 of the next level, with child kinds 0 to 4, and their parent is `p`. |
| `Geometry.ChildKind` | Fractal/Assets/Scripts/Fractal.cs:110-119 | The root is kind 0. Below it, part `i` is kind `i % 5` of the parent `i / 5`. |
| `Geometry.ScaleHalved` | Fractal/Assets/Scripts/Fractal.cs:160-164 | The scale of level `l` times 2^l is the object's scale. |
| `Geometry.NewLevels` | Fractal/Assets/Scripts/Fractal.cs:99-108 | Allocates `depth` fresh, pairwise distinct arrays. Level `l` has 5^l entries, all cleared. |
| `Geometry.AllocateLevels` | Fractal/Assets/Scripts/Fractal.cs:99-108 | The allocation loop of both fractals: `depth` fresh, pairwise distinct part and matrix arrays, level `l` with 5^l entries, every part and matrix cleared. |
| `Fractal.LayoutChildren` | Fractal/Assets/Scripts/Fractal.cs:110-121 | In the built layout, the five children of every part point up, right, left, forward and back with the matching rotations, in that order. The root is up with no rotation. |
| `Fractal.FrameAdvancesSpin` | Fractal/Assets/Scripts/Fractal.cs:148-174 | A frame adds exactly one spin step to every part and keeps its direction and rotation. The root keeps its position. |
| `Fractal.FrameFollowsParent` | Fractal/Assets/Scripts/Fractal.cs:75-88 | Below the root, a part after a frame is the job applied to its old value under its parent's new value, at its level's scale. |
| `Fractal.FrameLevel` | Fractal/Assets/Scripts/Fractal.cs:160-174 | Level `k` after a frame is the job on the old level `k` under the new level `k - 1`. |
| `Fractal.FrameSteps` | Fractal/Assets/Scripts/Fractal.cs:153-174 | A frame is the root step, followed by each level from the updated level above, top down. |
| `Fractal.FramesSpin` | Fractal/Assets/Scripts/Fractal.cs:150-155 | Over any run of frames, every part's spin grows by the sum of the frames' spin steps and by nothing else. |
| `Fractal.Execute` | Fractal/Assets/Scripts/Fractal.cs:75-88 | Job index `i` writes only part `i` (stepped under its parent `i / 5`) and matrix `i` (from that new part). |
| `Fractal.RunLevelJob` | Fractal/Assets/Scripts/Fractal.cs:165-174 | The finished level job leaves the level equal to `NewLevel` of its old contents and the parents, and the matrices equal to those of the new parts. |
| `Fractal.Fractal.constructor` | Fractal/Assets/Scripts/Fractal.cs:15-16 | Depth 4, enabled, nothing built. |
| `Fractal.Fractal.OnEnable` | Fractal/Assets/Scripts/Fractal.cs:97-124 | Builds exactly the layout for `depth`: fresh arrays of 5^l parts, each part made for its child kind, and cleared matrices. |
| `Fractal.Fractal.LayOut` | Fractal/Assets/Scripts/Fractal.cs:110-121 | Every part of every level becomes `CreatePart` of its child kind. |
| `Fractal.Fractal.FillLevel` | Fractal/Assets/Scripts/Fractal.cs:113-120 | The fill loops of one level give part `5p + c` kind `c`. |
| `Fractal.Fractal.OnDisable` | Fractal/Assets/Scripts/Fractal.cs:126-137 | Drops every level; the depth and the enabled flag are kept. |
| `Fractal.Fractal.OnValidate` | Fractal/Assets/Scripts/Fractal.cs:139-146 | When built, rebuilds: the layout for the current depth in fresh arrays, with every matrix cleared. When not built, the arrays are kept. |
| `Fractal.Fractal.UpdateParts` | Fractal/Assets/Scripts/Fractal.cs:150-174 | The parts become `Frame` of the old parts, and the matrices hold each level's parts at its scale. |
| `Fractal.Fractal.StepAll` | Fractal/Assets/Scripts/Fractal.cs:153-174 | The same as `UpdateParts`, over the arrays of a build. |
| `Fractal.Fractal.UpdateRoot` | Fractal/Assets/Scripts/Fractal.cs:153-158 | The root becomes the root step and its matrix is at the object's scale. Every other level is untouched. |
| `Fractal.Fractal.UpdateLevels` | Fractal/Assets/Scripts/Fractal.cs:160-174 | After the level loop, every level and its matrices equal the frame's target. |
| `Fractal.Fractal.StepLevel` | Fractal/Assets/Scripts/Fractal.cs:164-172 | Level `li` becomes `NewLevel` under the level above, its matrices follow, and every other level and matrix array is untouched. |
| `Fractal.Fractal.HandleDepthKeys` | Fractal/Assets/Scripts/Fractal.cs:197-208 | Up and then down move the depth within [1, 8]. Any press rebuilds: the layout for the new depth in fresh arrays with cleared matrices. No press keeps the arrays. |
| `Fractal.Fractal.Update` | Fractal/Assets/Scripts/Fractal.cs:148-213 | With no depth key: one frame of parts and matrices. With a depth key: the layout of the new depth in fresh arrays with cleared matrices. |
| `Fractal.DepthKeysInRange` | Fractal/Assets/Scripts/Fractal.cs:197-208 | The depth stays in [1, 8]. A lone up adds one below the maximum, and a lone down subtracts one above the minimum. |
| `FractalVibrant.SagAngleInRange` | FractalVibrant/Assets/Scripts/Fractal.cs:109-113 | A new part's maximum sag angle is the drawn degrees in radians, between the radians of the two inspector angles, and its rotation is that of its kind. |
| `FractalVibrant.LayoutChildren` | FractalVibrant/Assets/Scripts/Fractal.cs:130-141 | In the built layout, the children 5p to 5p + 4 carry the five rotations in order, each with the sag angle drawn for it. The root carries the identity. |
| `FractalVibrant.FrameAdvancesSpin` | FractalVibrant/Assets/Scripts/Fractal.cs:169-195 | A frame adds exactly one spin step to every part, keeps its rotation and sag angle, and keeps the root's position. |
| `FractalVibrant.FrameFollowsParent` | FractalVibrant/Assets/Scripts/Fractal.cs:86-106 | Below the root, a part after a frame is the sagging job applied to it under its parent's new value. |
| `FractalVibrant.FrameLevel` | FractalVibrant/Assets/Scripts/Fractal.cs:181-195 | Level `k` after a frame is the job on the old level under the new level above. |
| `FractalVibrant.FrameSteps` | FractalVibrant/Assets/Scripts/Fractal.cs:171-195 | A frame is the root step, followed by each level from the updated level above. |
| `FractalVibrant.ChildSags` | FractalVibrant/Assets/Scripts/Fractal.cs:91-102 | The world rotation is the part's own spun rotation on the parent's world rotation. It is tilted by the normalised sag axis and angle `maxSagAngle * length` exactly when the axis length is positive. The part sits 1.5 scales above its parent along its new up. |
| `FractalVibrant.Execute` | FractalVibrant/Assets/Scripts/Fractal.cs:86-106 | Job index `i` writes only part `i` (the sagging step under parent `i / 5`) and matrix `i`. |
| `FractalVibrant.RunLevelJob` | FractalVibrant/Assets/Scripts/Fractal.cs:183-195 | The finished level job leaves the level equal to `NewLevel` of its old contents, with matching matrices. |
| `FractalVibrant.LevelStyle` | FractalVibrant/Assets/Scripts/Fractal.cs:198-219 | A level is drawn as the leaf exactly when it is the last level. Any other level uses a gradient position in [0, 1). |
| `FractalVibrant.GradientIncreasing` | FractalVibrant/Assets/Scripts/Fractal.cs:215 | The gradient position starts at 0 for the root and grows strictly with depth. |
| `FractalVibrant.DrawStyles` | FractalVibrant/Assets/Scripts/Fractal.cs:198-223 | The draw loop picks, for every level, its `LevelStyle`. |
| `FractalVibrant.DepthKeysInRange` | FractalVibrant/Assets/Scripts/Fractal.cs:253-278 | The keys keep the depth in [3, 9] on standalone and [3, 6] on Android. |
| `FractalVibrant.ArrowKeysStep` | FractalVibrant/Assets/Scripts/Fractal.cs:255-267 | On standalone, up adds one up to 9, down subtracts one down to 3, and a double tap does nothing. |
| `FractalVibrant.DoubleTapWraps` | FractalVibrant/Assets/Scripts/Fractal.cs:271-276 | On Android, a double tap adds one level, except that from 6 it wraps to 3. |
| `FractalVibrant.DoubleTapCycle` | FractalVibrant/Assets/Scripts/Fractal.cs:271-276 | Four double taps return to the starting depth and fewer never do, so the taps cycle through 3, 4, 5, 6. |
| `FractalVibrant.FractalVibrant.constructor` | FractalVibrant/Assets/Scripts/Fractal.cs:14-21 | A build for the given platform, depth 4, enabled, nothing built. |
| `FractalVibrant.FractalVibrant.OnEnable` | FractalVibrant/Assets/Scripts/Fractal.cs:115-144 | Builds the layout for `depth`, with a drawn sag angle per part, one drawn sequence number per level, and cleared matrices. |
| `FractalVibrant.FractalVibrant.LayOut` | FractalVibrant/Assets/Scripts/Fractal.cs:130-141 | Every part becomes `CreatePart` of its child kind with its drawn sag angle. |
| `FractalVibrant.FractalVibrant.FillLevel` | FractalVibrant/Assets/Scripts/Fractal.cs:133-140 | The fill loops of one level give part `5p + c` kind `c` and its drawn sag angle. |
| `FractalVibrant.FractalVibrant.OnDisable` | FractalVibrant/Assets/Scripts/Fractal.cs:146-158 | Drops the levels and the sequence numbers; depth and enabled are kept. |
| `FractalVibrant.FractalVibrant.OnValidate` | FractalVibrant/Assets/Scripts/Fractal.cs:160-167 | When built, rebuilds: the layout, newly drawn sequence numbers, fresh arrays and cleared matrices. When not built, the arrays and the sequence numbers are kept. |
| `FractalVibrant.FractalVibrant.UpdateParts` | FractalVibrant/Assets/Scripts/Fractal.cs:171-195 | The parts become `Frame` of the old parts and the matrices follow them. |
| `FractalVibrant.FractalVibrant.StepAll` | FractalVibrant/Assets/Scripts/Fractal.cs:174-195 | The same as `UpdateParts`, over the arrays of a build. |
| `FractalVibrant.FractalVibrant.UpdateRoot` | FractalVibrant/Assets/Scripts/Fractal.cs:174-179 | The root becomes the root step with its matrix at the object's scale. Other levels are untouched. |
| `FractalVibrant.FractalVibrant.UpdateLevels` | FractalVibrant/Assets/Scripts/Fractal.cs:181-195 | After the level loop, every level and its matrices equal the frame's target. |
| `FractalVibrant.FractalVibrant.StepLevel` | FractalVibrant/Assets/Scripts/Fractal.cs:183-193 | Level `li` becomes `NewLevel` under the level above, and every other level is untouched. |
| `FractalVibrant.FractalVibrant.HandleKeys` | FractalVibrant/Assets/Scripts/Fractal.cs:253-278 | The build's depth keys give `DepthAfterKeys`. A depth key rebuilds (layout, drawn sequence numbers, fresh arrays, cleared matrices). Otherwise the arrays and sequence numbers are kept. |
| `FractalVibrant.FractalVibrant.Update` | FractalVibrant/Assets/Scripts/Fractal.cs:169-237 | Returns the leaf or gradient style of every level drawn. Without a depth key: one frame of parts and matrices, with the sequence numbers kept. With one: the new layout with newly drawn sequence numbers, in fresh arrays with cleared matrices. |
| `Surfaces.FunctionIndex` | MathSurfacesGPU/Assets/Scripts/GPUGraph.cs:159-160 | `(int)function` is below 5 and names the same surface in key order. |
| `Surfaces.KeysDistinct` | MathSurfacesGPU/Assets/Scripts/GPUGraph.cs:75-124 | The five digit keys pick five different surfaces, and each key's index is its surface's enum value. |
| `Surfaces.TickKeepsSane` | MathSurfacesGPU/Assets/Scripts/GPUGraph.cs:66-70 | A frame's step keeps the progress non-negative and below one while running, and leaves a stopped transition alone. |
| `Surfaces.TicksActive` | MathSurfaces/Assets/Scripts/Node.cs:55-59 | While `k` increments stay below one, a started transition is still running with progress equal to those `k` increments. |
| `Surfaces.TransitionLength` | MathSurfacesGPU/Assets/Scripts/GPUGraph.cs:66-70 | If the `n`-th increment is the first to reach one, the transition runs for exactly `n` frames and then stays stopped at that progress. |
| `Surfaces.NoKeysNoChange` | MathSurfaces/Assets/Scripts/Node.cs:62-96 | With no digit key down, the functions and the transition stay as they were. |
| `Surfaces.OneKey` | MathSurfacesGPU/Assets/Scripts/GPUGraph.cs:75-124 | With a single digit key down, the frame is exactly that key's press. |
| `GPUGraph.TransitionTakesTenFrames` | MathSurfacesGPU/Assets/Scripts/GPUGraph.cs:66-70 | At 0.1 per frame, a started transition runs for ten frames and then stays stopped. |
| `GPUGraph.PressSelects` | MathSurfacesGPU/Assets/Scripts/GPUGraph.cs:75-84 | A key makes its surface current and the previous one last. It restarts the transition only when the surface changes, and a sane transition stays sane. |
| `GPUGraph.PressKeysSane` | MathSurfacesGPU/Assets/Scripts/GPUGraph.cs:75-124 | After the digit keys, the transition is still sane, and the current surface is that of the last key down. |
| `GPUGraph.Held` | MathSurfacesGPU/Assets/Scripts/GPUGraph.cs:126-129 | A resolution key counts as held after the frame exactly when it was held or went down, and did not come up. |
| `GPUGraph.ResolutionInRange` | MathSurfacesGPU/Assets/Scripts/GPUGraph.cs:130-141 | The held keys keep the resolution in [10, 1000], move it by at most one, and with no key leave it alone. |
| `GPUGraph.BothKeysHeld` | MathSurfacesGPU/Assets/Scripts/GPUGraph.cs:130-141 | With both keys held, the resolution stays put, except that at 1000 it drops to 999. |
| `GPUGraph.HoldFor` | MathSurfacesGPU/Assets/Scripts/GPUGraph.cs:130-141 | Holding only up for `n` frames adds `n` up to 1000. Holding only down subtracts `n` down to 10. |
| `GPUGraph.GroupCount` | MathSurfacesGPU/Assets/Scripts/GPUGraph.cs:167 | The thread-group count is the least `g` with `8g >= resolution`. |
| `GPUGraph.DispatchFor` | MathSurfacesGPU/Assets/Scripts/GPUGraph.cs:155-175 | The shader parameters handed over: <br>• enough 8-wide groups to cover the grid; <br>• `resolution^2` instances, which fit the buffer; <br>• a positive step; <br>• the transition flag 1 or 0 exactly as the transition runs; <br>• the enum indices of the current and last surfaces; <br>• the progress. |
| `GPUGraph.GPUGraph.constructor` | MathSurfacesGPU/Assets/Scripts/GPUGraph.cs:9-19 | The inspector resolution and surface; last surface `Wave`, no transition, no key held, no buffer. |
| `GPUGraph.GPUGraph.OnEnable` | MathSurfacesGPU/Assets/Scripts/GPUGraph.cs:51-55 | Allocates a position buffer for 1000^2 points and keeps the rest of the state. |
| `GPUGraph.GPUGraph.OnDisable` | MathSurfacesGPU/Assets/Scripts/GPUGraph.cs:57-62 | Releases the buffer and keeps the rest of the state. |
| `GPUGraph.GPUGraph.Advance` | MathSurfacesGPU/Assets/Scripts/GPUGraph.cs:66-70 | The transition takes one `Tick` of 0.1; nothing else changes. |
| `GPUGraph.GPUGraph.UpdateFunctionOnGPU` | MathSurfacesGPU/Assets/Scripts/GPUGraph.cs:155-175 | Hands over `DispatchFor` of the current state, and its instances fit the allocated buffer. |
| `GPUGraph.GPUGraph.SelectFunction` | MathSurfacesGPU/Assets/Scripts/GPUGraph.cs:77-83 | One key's press, as `Press`; resolution and keys held are kept. |
| `GPUGraph.GPUGraph.DigitKey` | MathSurfacesGPU/Assets/Scripts/GPUGraph.cs:75-84 | A press when the key went down; otherwise no change. |
| `GPUGraph.GPUGraph.SelectFunctions` | MathSurfacesGPU/Assets/Scripts/GPUGraph.cs:75-124 | The five digit keys in order give `PressKeys` of the state before them. |
| `GPUGraph.GPUGraph.ResolutionKeys` | MathSurfacesGPU/Assets/Scripts/GPUGraph.cs:126-141 | Updates the held flags from the key events, then steps the resolution by the held keys. |
| `GPUGraph.GPUGraph.StepResolution` | MathSurfacesGPU/Assets/Scripts/GPUGraph.cs:130-141 | Up held adds one (at most 1000), then down held subtracts one (at least 10). |
| `GPUGraph.GPUGraph.Update` | MathSurfacesGPU/Assets/Scripts/GPUGraph.cs:64-153 | One frame, in order: <br>• advance the transition; <br>• hand over the advanced state with the old resolution (never a running progress of one); <br>• apply the digit keys; <br>• apply the held arrow keys. |
| `Node.TransitionTakesTwentyFrames` | MathSurfaces/Assets/Scripts/Node.cs:55-59 | At 0.05 per frame, a started transition runs for twenty frames and then stays stopped. |
| `Node.PressRestarts` | MathSurfaces/Assets/Scripts/Node.cs:62-68 | A key makes its surface current and the old one last, and always restarts the transition, even for the same surface. |
| `Node.CoordinateInside` | MathSurfaces/Assets/Scripts/Node.cs:47-49 | Every cell centre `(k + 0.5) * step - 1` lies strictly inside (-1, 1). |
| `Node.NodesDistinct` | MathSurfaces/Assets/Scripts/Node.cs:41-54 | Two different nodes sit over different cells. |
| `Node.GridIndex` | MathSurfaces/Assets/Scripts/Node.cs:41-48 | The loop's counters `x` and `z` are the column and the row of index `i`. |
| `Node.RowInRange` | MathSurfaces/Assets/Scripts/Node.cs:41-48 | While `i < resolution^2`, the row is in range, and so is the next row when a row wraps. |
| `Node.Node.constructor` | MathSurfaces/Assets/Scripts/Node.cs:8-18 | The inspector resolution and surface; last surface `Wave`, no transition. |
| `Node.Node.Awake` | MathSurfaces/Assets/Scripts/Node.cs:20-32 | Creates `resolution^2` nodes, each a prefab instance scaled by the cell width. |
| `Node.Node.PlaceNodes` | MathSurfaces/Assets/Scripts/Node.cs:36-54 | Every node gets the position over its own cell (on the surface, or on the blend while a transition runs) and keeps its scale. |
| `Node.Node.Advance` | MathSurfaces/Assets/Scripts/Node.cs:55-59 | The transition takes one `Tick` of 0.05; nothing else changes. |
| `Node.Node.SelectFunction` | MathSurfaces/Assets/Scripts/Node.cs:62-68 | One key's press, as `Press`. |
| `Node.Node.DigitKey` | MathSurfaces/Assets/Scripts/Node.cs:62-68 | A press when the key went down; otherwise no change. |
| `Node.Node.SelectFunctions` | MathSurfaces/Assets/Scripts/Node.cs:62-96 | The five keys in order give `PressKeys` of the state before them. |
| `Node.Node.Update` | MathSurfaces/Assets/Scripts/Node.cs:34-97 | Places every node with the state from before the frame, then advances the transition, then applies the keys. |

## Left out

- Engine calls are left out: compute buffers, material property blocks,
  `Graphics.DrawMeshInstancedProcedural`, `SetParent`, `Instantiate`
  beyond one value per node, the text displays, and `Application.Quit`
  on escape.
- The FPS counters (`frames`, `duration`) are left out. They only feed a
  text display.
- Burst jobs and `ScheduleParallel` become a sequential loop over the
  indices. Each index writes only its own entries, so the order does not
  change the result, but concurrency itself is not modelled.
- Floats are modelled as exact reals, so rounding is not modelled. Fixed
  points the code depends on:
  - A transition's progress is the repeated sum of its increment, so it
    reaches one after exactly 10 or 20 steps.
  - `HashVisual.Coordinates`: the row is the exact quotient
    `i / resolution`, not the single-precision `floor(i * (1 / resolution))`
    of the job. The model does not capture the case where rounding would
    make that floor differ.
- Values the engine provides are parameters of the methods that read
  them:
  - `Time.deltaTime`, `Time.time` and `transform.lossyScale.x`;
  - `transform.rotation`;
  - the `length` of a vector, taken as a function `norm`;
  - the `Random` draws: the seed, the sag degrees per part, and the
    sequence numbers per level.
- `verticalOffset` in the hash visualiser is left out. It is redrawn
  with the seed but only reaches the shader.
- Input arrives as booleans per frame: key down, key up, double tap.
  `CustomCamera.IsDoubleTap` is not part of this model.
- The surfaces' trigonometry in `FunctionLibrary` is left out, and so is
  the compute shader. A position is the term naming the surface or the
  blend at a point.
- `Clock.cs`, `Graph.cs` and the camera scripts are not part of this
  model.
- `Geometry.AllocateLevels`: all part arrays are allocated first, then
  all matrix arrays. Both `Fractal.cs` files allocate the two arrays of a level (and its
  compute buffer) in a single iteration of one loop. The results are the
  same fresh, cleared arrays.
- `FractalVibrant.FractalVibrant.OnEnable`: the script draws each level's
  sequence number inside the allocation loop, before the sag angles of
  the parts. Here the sequence numbers are set from `draws` after the
  layout. The draws are parameters, so the order of the random draws is
  not modelled.
- `Node.Node.constructor`: the resolution is fixed once the nodes exist.
  Changing it in the inspector at run time, which would desynchronise
  `nodes.Length`, is not modelled.
- `GPUGraph.GPUGraph.OnEnable`: a second enable without a disable in
  between replaces the buffer. The leak of the old buffer that this
  causes in `GPUGraph.cs` is not modelled.
- The transforms of the node graph are values in an array. Their identity
  as engine objects and their parenting are not modelled.
- `FractalVibrant.DrawStyles`: the choice of mesh and colours per level
  is kept as the style (leaf, or gradient position), not as the colours
  the gradients evaluate to.
