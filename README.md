# ourbit: a verified model of the orbit toy's simulation core

ourbit is a small browser game. A ship, a moon and a smaller moon circle
EARTH under simplified gravity, and everything is redrawn on a 750 by 750
canvas every frame. This project models the simulation core of that game
in Dafny and proves its properties:

- `vector.dfy` (module `Vector`) is the immutable `Vector2` of
  `src/vector.ts` as a datatype. It holds the componentwise operations
  and the algebraic laws they obey. `Math.sqrt`, `Math.cos` and
  `Math.sin` are fields of a `MathLib` value passed in by the caller.
  `Lawful` states what the model assumes of them: `sqrt` of a
  non-negative number is the non-negative root, and `cos² + sin² = 1`.
- `simulation.dfy` (module `Simulation`) holds the rest of the core:
  - the `Body` record of `src/App.tsx`, as a class whose reassigned
    fields are `var`;
  - `Gravity`;
  - `WithinBounds` and the cull;
  - the gravity-and-collision pass, the move and the render selection
    of `GameLoop`, as loop methods over the registry;
  - `plotOrbit`'s predictor, which collects the points it would draw;
  - the velocities the key handler computes.

  Each loop method is proved against a specification function:
  - `Pulled` and `Collides` for the gravity pass;
  - `Cull` and `Undestroyed` for the cull and the render selection;
  - `Predict` for the orbit plot.
- `game.dfy` (module `Game`) holds the module-level state of
  `src/App.tsx` as the class `World`:
  - the four initial bodies;
  - `gravSources == [EARTH]`;
  - the mutable `bodies` registry.

  It also holds one frame (`GameLoop`) and one key press (`KeyDown`),
  with the invariant `Valid` that both keep.

Two facts about the code are worth stating:
- The canvas y axis grows downward. MOON's first pull toward EARTH takes
  its velocity from (0.3, 0) to (0.3, 2/3025): positive y, x unchanged
  (`Simulation.MoonFirstPull`).
- Only the list `gravSources` (src/App.tsx:209), which holds EARTH
  alone, pulls other bodies. MOON's `isGravSource` flag is carried but
  plays no part.

## Model

| member | source | states |
|---|---|---|
| Vector.FromIsCopy | src/vector.ts:7-9 | `From(p)` has exactly `p`'s coordinates |
| Vector.DirBetweenAntisymmetric | src/vector.ts:15-17 | the direction from `a` to `b` is minus the direction from `b` to `a`; adding it to `a` reaches `b`; it is zero exactly when `a == b` |
| Vector.PlusCommutes | src/vector.ts:33-35 | `plus` is commutative |
| Vector.MinusUndoesPlus | src/vector.ts:33-39 | `minus` undoes `plus`, and `plus` undoes `minus` |
| Vector.MultiplyByOne | src/vector.ts:29-31 | `multiply(1)` is the identity |
| Vector.MultiplyComposes | src/vector.ts:29-31 | `multiply(a).multiply(b) == multiply(a*b)` |
| Vector.MagnitudeFacts | src/vector.ts:21-23 | `magnitude` is non-negative, its square is `x*x + y*y`, and it is zero exactly for the zero vector |
| Vector.SqrtOfSquare | src/vector.ts:22 | under the host's square-root law, the square root of `a²` for `a >= 0` is `a` |
| Vector.SquaredLengthScales | src/vector.ts:21-31 | scaling by `k` scales the squared length by `k²` |
| Vector.MagnitudeScales | src/vector.ts:21-31 | scaling by `k >= 0` scales the magnitude by `k` |
| Vector.CompareBySquares | src/vector.ts:21-23 | comparing a magnitude with a non-negative bound, strictly or not, is the same as comparing the squared length with the squared bound |
| Vector.UnitVector | src/vector.ts:25-27 | for a non-zero vector, `toUnit()` has magnitude 1, and scaling it back by the positive magnitude gives the original vector |
| Vector.FromAngleIsUnit | src/vector.ts:11-13 | `FromAngle(r)` always has magnitude 1 |
| Simulation.Body.constructor | src/App.tsx:41-67 | a body holds exactly the given fields and is not destroyed |
| Simulation.Body.Copy | src/App.tsx:139 | `{ ...body }`: a new body with every field equal to the original's |
| Simulation.Body.Projectile | src/App.tsx:199-205 | the body the space key pushes: the ship's fields, except velocity `FromAngle(rotation) + ship.velocity`, radius 2, colour "red" and no `draw` |
| Simulation.AllApartPrefix | src/App.tsx:145-147 | a position apart from every source is apart from each one and from any prefix of them |
| Simulation.Gravity | src/App.tsx:173-181 | returns the distance between the two bodies; changes only the satellite's velocity, adding `scale` times the acceleration toward the planet |
| Simulation.Positions | src/App.tsx:240 | lists the sources' positions, one per source, in order |
| Simulation.GravityPass | src/App.tsx:238-262 | every body's velocity becomes its old velocity plus the pull of each source other than itself. Its destroyed flag becomes its old flag or'ed with "some other source lies within the sum of the radii". Positions and rotations are untouched |
| Simulation.PullOne | src/App.tsx:240-261 | the inner loop for one body: the pull of every source except the body itself, and the inclusive collision test |
| Simulation.PassStep | src/App.tsx:241-260 | one source adds nothing for the body itself; otherwise it adds its acceleration and its `<=` collision test |
| Simulation.Attract | src/App.tsx:242-260 | one source that is not the body: the body is flagged destroyed exactly when it is at distance `<=` the sum of the radii, and pulled whether flagged or not |
| Simulation.OtherPositionsOmit | src/App.tsx:240-241 | every source other than the body is among those that pull it |
| Simulation.OtherPositionsMembers | src/App.tsx:240-241 | a position pulls the body exactly when it is the position of a source other than the body; there are at most as many as there are sources |
| Simulation.OtherPositionsAppend | src/App.tsx:240-241 | the pulling positions of a concatenation of source lists are those of each part |
| Simulation.CollidesStep | src/App.tsx:245 | the collision test over one more source is the old test, or'ed with the inclusive test against that source if it is not the body |
| Simulation.CollidesBySquares | src/App.tsx:243-245 | a body collides exactly when the squared distance to some other source is at most the squared sum of the radii |
| Simulation.Integrate | src/App.tsx:264-268 | every body moves by its current (post-gravity) velocity and turns by `rv` when it has both fields. Its velocity, `rv` and destroyed flag are kept, so destroyed bodies move too |
| Simulation.SelectForDrawing | src/App.tsx:270-279 | the bodies drawn are exactly `Undestroyed(bodies)` |
| Simulation.UndestroyedMembers | src/App.tsx:272 | a body is drawn exactly when it is registered and not destroyed |
| Simulation.UndestroyedAppend | src/App.tsx:271-272 | the render selection keeps the registry's order |
| Simulation.CullMembers | src/App.tsx:220-223 | the cull keeps exactly the bodies that are not destroyed and lie within 500 of EARTH |
| Simulation.CullAppend | src/App.tsx:220-223 | the cull keeps the original order: culling a concatenation culls each part |
| Simulation.CullDistinct | src/App.tsx:220-223 | the cull never duplicates a body |
| Simulation.CullBoundaryInclusive | src/App.tsx:213-215 | a body exactly 500 from EARTH survives the cull |
| Simulation.CullBeyondBound | src/App.tsx:213-222 | a body 501 from EARTH is culled |
| Simulation.WithinBoundsBySquares | src/App.tsx:213-215 | `WithinBounds` holds exactly when the squared distance is at most the squared radius |
| Simulation.ApartIffDistinct | src/App.tsx:242-243 | the distance the source divides by is non-zero exactly when the two positions differ |
| Simulation.AllApartIffNotIn | src/App.tsx:145-147 | a position is apart from all sources exactly when it is none of their positions |
| Simulation.AllApartMember | src/App.tsx:145-147 | a position apart from all sources is apart from each one |
| Simulation.AccelerationDirection | src/App.tsx:176-177 | the acceleration is `DirBetween(pos, center)` scaled by `50 / r³` |
| Simulation.AccelerationMagnitude | src/App.tsx:176-177 | the acceleration has length `50 / r²` |
| Simulation.AccelerationLaw | src/App.tsx:173-181 | between distinct positions `r > 0`, the acceleration points from the body toward the source, and its length is `G / r²` with `G = 50` |
| Simulation.MoonFirstPull | src/App.tsx:83-95 | MOON's first pull toward EARTH gives velocity (0.3, 2/3025): positive y on the y-down canvas, x unchanged |
| Simulation.PlotOrbit | src/App.tsx:138-167 | the points drawn are the start point followed by `Predict`'s points, or None exactly when `Predict` finds the copy on a source. The method has no write access, so the body and the sources are unchanged; only a fresh copy moves |
| Simulation.PlotStep | src/App.tsx:143-163 | one pass of the loop: if the copy sits on a source the whole prediction is None; otherwise it adds the copy's new position to the path, and either stops with the whole predicted path or continues with the rest of the prediction still ahead |
| Simulation.Advance | src/App.tsx:145-152 | one step of the copy, defined exactly when it is apart from every source: its velocity becomes the pull of every source scaled by the step size, and its position moves by the new velocity times the step size |
| Simulation.PullAll | src/App.tsx:145-147 | the inner loop calls `Gravity` for each source in turn, with the step size as scale; it reports whether the copy was apart from every source, and when it was, the velocity is `Pulled` over all sources |
| Simulation.PredictLength | src/App.tsx:143 | the predictor emits at most one point per remaining step, and at least one while a step remains |
| Simulation.PredictEarlyStop | src/App.tsx:158-163 | fewer points than steps only on loop-back: the last point came at loop index above 20 and lies strictly within 10 of the start |
| Simulation.ThrustImpulse | src/App.tsx:192-196 | ArrowUp changes the velocity by `0.001 * FromAngle(rotation)`, an impulse of length 0.001 |
| Simulation.LaunchSpeed | src/App.tsx:201 | a projectile leaves the ship at speed 1 relative to it, in the ship's heading |
| Game.World.constructor | src/App.tsx:69-136 | EARTH, MOON, LIL_MOON and the ship with the source's initial values, `gravSources == [EARTH]` and `bodies == [EARTH, MOON, LIL_MOON, ship]`, meeting the invariant |
| Game.World.KeyDown | src/App.tsx:186-206 | ArrowLeft/ArrowRight change `rv` by -0.01/+0.01, ArrowUp applies `Thrust`, and space appends exactly one new projectile of the ship after the unchanged registry. The ship's position, rotation and flag are kept; other keys change nothing |
| Game.World.ShipOrbit | src/App.tsx:235 | `plotOrbit(ship)` with 300 steps of size 20 around EARTH yields `Orbit`: the ship's start point and its predicted points |
| Game.World.CullRegistry | src/App.tsx:220-223 | the registry becomes the cull of the old registry. The invariant is kept: EARTH stays first and the registry has no duplicates. Every body kept was registered and is not destroyed |
| Game.World.MoveBodies | src/App.tsx:238-268 | for every body, `Stepped` holds: EARTH keeps its velocity; every other body gains EARTH's pull, is destroyed exactly when it touches EARTH (`<=`), and moves by the post-gravity velocity even if destroyed; every body turns by `rv`. The invariant is kept, including EARTH at rest at (375, 375) |
| Game.World.GameLoop | src/App.tsx:219-279 | one frame: the registry becomes the cull of the old one; the orbit is the ship's `Orbit` from its position and velocity before the frame (the cull moves nothing, and the orbit is computed before the move); the invariant holds after the frame; and the bodies drawn are exactly those not destroyed |
| Game.EarthStays | src/App.tsx:238-268 | EARTH, at home and at rest before a frame, is at home, at rest and not destroyed after it |
| Game.SingleSource | src/App.tsx:209 | with EARTH as the only source, a body other than EARTH is pulled toward EARTH alone and collides exactly when it touches EARTH; EARTH itself is neither pulled nor flagged |
| Game.SingleSourceSeparated | src/App.tsx:242-243 | when no other body sits at EARTH's position, every distance the frame divides by is non-zero |
| Game.CullKeepsCenter | src/App.tsx:220-223 | a live body at the cull center survives, so EARTH stays first |
| Game.CullSurvivors | src/App.tsx:220-223 | each body kept by the cull was registered and survives the test |
| Game.CullForFrame | src/App.tsx:220-223 | after the cull EARTH is still first, there are no duplicates, and every body kept was registered and is not destroyed |

`Vector2` is a datatype, so no vector operation can change its receiver
(src/vector.ts:19). The helpers `Vector.SquareMonotone`,
`Vector.SquarePositive`, `Vector.ProductNonNegative`,
`Vector.SquareOfProduct`, `Vector.SumOfSquaresZero`,
`Simulation.PositiveQuotient`, `Simulation.InverseCube` and
`Simulation.PrependTwice` are arithmetic and list facts the proofs above
use. `Simulation.OtherPositionsStep`, `Simulation.PulledStep`,
`Simulation.AccelerationUnfold` and `Simulation.PredictNext` unfold one
step of a specification function for the loop proofs, and
`Simulation.PositionsAt` relates a recorded snapshot of the sources'
positions to `Positions`.

## Left out

- Drawing is not modelled: the canvas calls, `drawCircle`, the ship's
  `draw`, the background, the stars and the orbit line. Rendering is
  modelled only as the choice of which bodies are drawn
  (`SelectForDrawing`). The collision flash is drawn and has no effect on
  state.
- `init` and its random star field are not modelled. They are canvas
  acquisition and `Math.random`.
- `requestAnimationFrame` scheduling and the DOM `keydown` wiring are not
  modelled. One frame is `GameLoop`, and one key press is `KeyDown` with
  the key as a parameter.
- The React `App` component and the `console.log` calls are not
  modelled.
- IEEE-754 rounding is not modelled: numbers are exact reals.
- A distance of zero makes `toUnit` and `G / (r * r)` produce NaN or
  Infinity. The model excludes it instead:
  - `Acceleration`, `Gravity` and `Attract` require the positions to be
    apart;
  - `GameLoop` requires that no body left after the cull, other than
    EARTH, sits exactly at EARTH's position (`NoneAtHome`);
  - `Predict` and `PlotOrbit` return `None` when the copy lands on a
    source, where the source would go on drawing NaN points. `PlotOrbit`
    then stops at once instead.
- A body missing `rotation` or `rv` gets NaN rotation in the source
  (`undefined + undefined`). The model keeps the rotation as it is in
  that case (`Spin`).
- The exact values of `Math.sqrt`, `Math.cos` and `Math.sin` are not
  modelled. They come in through `MathLib`, with only the laws in
  `Lawful`. The properties of the square root and the unit circle hold
  under those laws.
- Game.World.GameLoop: its contract states the cull, the ship's orbit,
  the invariant and the drawn bodies. It does not restate the per-body pull, collision and
  move of the frame: that is stated by `Game.World.MoveBodies`, which it
  calls on the culled registry.
- Game.World.ShipOrbit: the gravity sources are EARTH alone, as in the
  source. The general predictor `Simulation.PlotOrbit` takes any list of
  sources.
- The frame and the key handler are modelled for the registry's actual
  source list. `gravSources` is the constant `[EARTH]`, and `Valid` keeps
  EARTH first and at rest.
