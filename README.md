# Circle packing and steered agents (threejs-circle-packing)

This project models the computational core of `main.js`.

**`calculatePositions(spots)`** packs non-overlapping circles onto a point cloud. It runs in two phases.

- **Phase 1.** It repeatedly tries a candidate circle at a randomly chosen spot with a random depth jitter (`addCircle`). The candidate is accepted only if it keeps clear of every existing circle. After each batch of up to 100 successes, one coarse growth pass runs (`growCircles` with step 0.18). Phase 1 ends once a batch makes more than 500 attempts.
- **Phase 2.** It marks every circle growing again. It then runs fine growth passes (step 0.001) until no circle grows.

**`Vehicles(circles)`** is a simulator with one agent per circle. Agent `i` is stored at indices `3i..3i+2` of flat position and velocity buffers. On each tick, every agent moves by its current velocity. Its velocity then gains the arrive force minus the flee force. `getProps(i)` reports the agent's position and its circle's radius.

Modules:

- `Vectors` (`vectors.dfy`): 3-D vectors and distance. `DistLess(p, q, s)` is "|p − q| < s". It is defined without a square root: false for `s <= 0`, and otherwise a comparison of squares. The check in `main.js` is exactly this one.
- `MathUtils` (`mathutils.dfy`): three.js `randInt` and `randFloatSpread`, taking as a parameter the value of `Math.random()` that each one consumes. The definitions used are three.js's own: `low + floor(u * (high - low + 1))` and `range * (0.5 - u)`.
- `Circles` (`circles.dfy`): the circle record and the packing invariant `Packed`. `Packed` means no two circles overlap and every radius is at least the initial one. This module also holds the pure definitions of a candidate test, of one growth turn and pass (`GrowTurn`, `GrowPass`), and of the phase-2 loop (`Relax`), together with the lemmas about them.
- `CirclePacking` (`packer.dfy`): the mutable `circles` array shared by the two closures, as class `Packer`. It holds `AddCircle`, `GrowCircles`, one phase-1 batch, the two phases, and `CalculatePositions`. Each phase-1 method is proved equal to a pure definition of its loop (`Attempt`, `BatchRun`, `Phase1Run`), and `CalculatePositions` to `Pack`; the lemmas beside them state what those definitions guarantee.
- `Steering` (`vehicles.dfy`): class `Vehicles`, with its position and velocity buffers as arrays, the tick `Behaviors`, `count` and `GetProps`.

Three behaviours of `main.js` that the model keeps as written:

- **Empty spot list.** `randInt(0, -1)` returns 0 (main.js:126), `spots[0]` is `undefined`, and destructuring it throws (main.js:127). The model returns `Failure(UndefinedSpot)`.
- **Attempt counter.** The counter counts every attempt within a batch, successful or not, and is reset only when a new batch starts (main.js:188-205).
- **Order of growth.** `growCircles` updates the circles one at a time in index order, so each turn sees the radii already changed by earlier circles (main.js:159-179). `GrowFrom` models this order.

## Model

| member | source | states |
|---|---|---|
| `Vectors.DistLessSymmetric` | main.js:133 | "closer than s" does not depend on which of the two centres is measured from |
| `Vectors.DistLessMonotone` | main.js:134 | a point closer than a bound is closer than every larger bound |
| `MathUtils.RandInt` | main.js:126 | for a random value in [0, 1) and low <= high, the index drawn lies in [low, high] |
| `MathUtils.RandFloatSpread` | main.js:128 | for a random value in [0, 1) and a positive range, the jitter lies in (−range/2, range/2] |
| `Circles.SpotIndexDefined` | main.js:126-127 | with no spots the index drawn is 0 whatever the draw, so no spot exists at it; with spots, a genuine draw always picks an existing spot |
| `Circles.ScanFits` | main.js:129-138 | the early-exit scan returns true exactly when the candidate is at least `step + other.r` from every existing circle |
| `Circles.PlacedKeepsPacked` | main.js:140-148 | pushing an accepted candidate of radius 0.18 keeps every pair apart when the clearance step is at least 0.18 |
| `Circles.ScanBlocked` | main.js:164-174 | the early-exit neighbour scan returns true exactly when some other circle is closer than `self.r + other.r + step` |
| `Circles.GrowPassOutcome` | main.js:159-179 | a pass keeps the number of circles and every centre; it skips non-growing circles unchanged; `growing` never becomes true; a radius rises by exactly `step` if and only if the circle is still growing |
| `Circles.GrowFromOutcome` | main.js:159-179 | the same frame for the turns from index i on, and circles before i are untouched |
| `Circles.GrowTurnKeepsApart` | main.js:160-178 | one circle's turn keeps all pairs apart, because it grows only when clear of every other circle at its enlarged radius |
| `Circles.GrowPassKeepsPacked` | main.js:159-179 | a whole pass with a non-negative step keeps the circles pairwise apart and no smaller than 0.18 |
| `Circles.LoneCircleGrows` | main.js:164-178 | a single growing circle is never blocked: a pass enlarges it by `step` and leaves it growing |
| `Circles.SameDiscsPacked` | main.js:215-217 | changing only `growing` flags preserves the packing |
| `Circles.ResetGrowing` | main.js:215-217 | the reset keeps every centre and radius and marks every circle growing |
| `Circles.GrowingOnes` | main.js:219-220 | the filter keeps only growing circles of the list, and is empty exactly when no circle grows |
| `Circles.RelaxOutcome` | main.js:218-225 | when the fine loop exits, no circle grows, no circle moved, no radius shrank, and the packing still holds |
| `Circles.LoneCircleNeverSettles` | main.js:218-225 | with exactly one circle, the fine loop never exits, however many passes it is allowed |
| `CirclePacking.Packer.AddCircle` | main.js:121-152 | with an undefined spot it fails and leaves the list unchanged; otherwise it returns whether the candidate fits; on true it appends exactly one circle (the spot's x and y, the jitter z, r = 0.18, growing) after the untouched earlier ones; on false the list is unchanged; the packing is preserved when step >= 0.18; the same outcome is the pure `Attempt` that the batch loop `BatchRun` is built from |
| `CirclePacking.Packer.GrowCircles` | main.js:154-181 | the new list is one growth pass of the old one, with the per-circle frame above, and the packing is preserved for a non-negative step |
| `CirclePacking.Packer.RunBatch` | main.js:188-206 | the circles and the result are exactly those of the batch loop `BatchRun` from the old list: one `addCircle` per draw, counting successes, until 100 successes or more than 500 attempts. A batch adds at most 100 circles and makes between 1 and 501 attempts. It is final exactly when the attempts exceed 500, and a non-final batch has exactly 100 successes. Earlier circles stay as a prefix and the packing is preserved. It runs out of draws only when fewer than 501 remain. With no spots it fails on its first draw |
| `CirclePacking.Packer.Phase1` | main.js:183-213 | the circles and the result are exactly those of `Phase1Run`: batches, each followed by one coarse growth pass, until a final batch. The packing is preserved; every earlier circle keeps its centre and no radius shrinks. With no spots it fails on the first draw |
| `CirclePacking.BatchRunFrame` | main.js:190-206 | a batch only appends circles of radius 0.18 that are growing, after the untouched earlier ones, and keeps the packing |
| `CirclePacking.BatchRunCounts` | main.js:190-206 | a successful batch adds one circle per success, at most 100 in all, and makes at most 501 attempts; it is final exactly when the attempts exceed 500; a non-final batch has 100 successes; started on no circles it places at least one |
| `CirclePacking.BatchRunErrors` | main.js:126-127 | a batch runs out of draws only when fewer than 501 remain; with no spots it fails with an undefined spot on its first attempt; genuine draws over spots never meet an undefined spot |
| `CirclePacking.Phase1RunOutcome` | main.js:187-213 | phase 1 keeps the packing; on success it consumes at least one draw per batch, keeps every earlier centre, never lowers a radius, and started on no circles leaves at least one circle |
| `CirclePacking.Packer.Phase2` | main.js:215-225 | the result is the fine loop applied to the reset list. When it exits, no circle grows, nothing moved, no radius is below its phase-1 value, and the packing holds. With no circles it exits at once. With one circle it never exits |
| `CirclePacking.CalculatePositions` | main.js:118-228 | the result is exactly `Pack`: phase 1 from no circles, then the flag reset and the fine loop. A completed packing has no two circles overlapping, every radius at least 0.18, no circle still growing, and at least two circles. An empty spot list fails with an undefined spot, and genuine draws over a non-empty spot list never do |
| `CirclePacking.PackOutcome` | main.js:118-228 | the same properties of `Pack` itself: a completed packing is pairwise clear, has no radius below 0.18, has no circle still growing and has at least two circles, because phase 1 places one and the fine loop never ends with exactly one |
| `Steering.Flee` | main.js:279-295 | the flee force is exactly zero when the repulsor is at distance 5 or more |
| `Steering.FarRepulsorOnlyArrives` | main.js:306-308 | with the repulsor at distance 5 or more, an agent's acceleration is its arrive force alone |
| `Steering.SetSlot` | main.js:310-317 | writing agent i touches only indices 3i..3i+2 of a buffer |
| `Steering.Vehicles.constructor` | main.js:230-245 | there is one agent per circle, each with its random start position and velocity in its own three slots |
| `Steering.Vehicles.Behaviors` | main.js:304-318 | for every agent, the new position is the old position plus the old velocity; the new velocity is the old velocity plus arrive minus flee, both computed from the agent's state before the tick |
| `Steering.Vehicles.GetProps` | main.js:332-341 | `getProps(i)` gives agent i's current position and the radius of circle i, for every i below `count = circles.length` |

## Left out

- Floating point: every JavaScript number is modelled as an exact real. Rounding is not modelled, so the packing invariant is proved exactly rather than up to an ε.
- Randomness: `Math.random()` values are caller-supplied (`Draw` for `addCircle`, `Seed` for the `Vehicles` constructor). The three.js helpers are modelled by their definitions rather than called.
- Termination of phase 1: the source relies on random draws. The model consumes a finite draw sequence and returns `Failure(DrawsExhausted)` when it runs out.
- Termination of phase 2: the model allows at most `maxPasses` passes and otherwise returns `Failure(PassesExhausted)`. It does prove that phase 2 never ends with exactly one circle, so a completed packing has at least two; it does not prove that phase 2 ends at all.
- `Steering.Flee`: the force inside the threshold comes from a caller-supplied function. The source computes it with `setLength`, `sub`, `clampLength` and `multiplyScalar(2.5)`, which need square roots.
- `arrive` (main.js:250-270) is a caller-supplied function for the same reason. The speed easing with `mapLinear` and the clamp to `maxforce` are not modelled, so the force-clamp bound is not stated.
- The instance-matrix writes in `behaviors` (main.js:319-327) and `setupMesh` are GPU-buffer calls.
- Rendering and scene setup (`init`, `animate`, `render`, `onWindowResize`), `setMouse` and `onPointerMove` are browser and three.js I/O.
- `prepareSpots` rasterises text on a canvas. The spot list is an input of the model.
- Circles are modelled as values in a sequence rather than shared objects. The source never aliases a circle outside the array, so only object identity is lost.
- The `positions` and `velocities` buffers are built with `push` in the source. The model allocates them at their final length, `3 * circles.length`.
- `Steering.Vehicles.GetProps` requires `i < count`: for a larger index, `circles[i]` is `undefined` and the source throws.
