# Gesture-driven particle shapes, modelled in Dafny

The program is a browser toy. A cloud of 8000 particles takes the shape of a
star, a heart or a planet. The user's hand, seen through a webcam and reduced
to 21 landmarks by a hand detector, controls it:

- the pattern of open fingers selects the shape;
- the pinch between thumb and index finger pushes the particles outwards;
- horizontal hand motion spins the cloud.

This project models the program's own logic in `style/script.js`:

- the gesture interpretation inside the detector callback `onResults`;
- the particle regeneration `initParticles`;
- the render tick `animate`.

Numbers are Dafny `real`s; the source's literal constants are kept.

- `shapes.dfy` (module `Shapes`): the three shapes and their colours and
  labels. It also holds the structure of a generated particle cloud: the
  branch of the generator each particle falls into, the exact star radius,
  and the split of the planet into sphere and ring.
- `gesture.dfy` (module `Gesture`): landmarks, the finger tests, the
  three-row decision table that selects a shape, and the pinch-to-expansion
  mapping.
- `animation.dfy` (module `Animation`): the low-pass filter on the expansion,
  the decaying spin, and the loop that fills the position buffer.
- `visualizer.dfy` (module `Interact`): class `Visualizer`. Its fields are the
  program's module-level variables. Its methods are `OnResults` (a detector
  result), `Animate` (a render tick) and `InitParticles`. Its invariant
  `Valid` says four things:
  - the particle data always belongs to the current shape;
  - there is exactly one target and one direction per particle;
  - the colour matches the shape;
  - both expansion values stay in [0, 1].

Trigonometry, `acos`, `sqrt`, `normalize()` and `Math.random` enter as
parameters, because they cannot be computed over the reals:

- A `Sampler` maps a particle's branch and index to its target point and to
  the factor that stretches that point into its explosion direction.
- The pinch distance (a square root) is passed to `OnResults` as `pinch`. The
  precondition ties `pinch` to the landmarks: it is non-negative and its
  square is the squared distance between the thumb tip and the index tip.

One point where the code may surprise a reader:

- One might expect star particle 0 (angle 0) at the tip of a star point. The
  code puts it on the INNER radius 2.0, because `t = |(section % 1) − 0.5|·2`
  is 1 at a section boundary.
- The outer radius 5.0 is reached halfway through each of the five sections,
  at particles 800, 2400, and so on.
- The model follows the code (`Shapes.StarRadiusPeriodic`).

## Model

| member | source | states |
|---|---|---|
| `Shapes.ShapeColor` | style/script.js:103-105 | every shape's material colour is a 24-bit RGB value |
| `Shapes.ColorAndLabelIdentifyShape` | style/script.js:103-105 | star, heart and planet get distinct colours (0xffff00, 0xff3366, 0x00ffff) and distinct labels, so colour and label each determine the shape |
| `Shapes.Frac` | style/script.js:31 | `section % 1` of a non-negative section lies in [0, 1) |
| `Shapes.StarRadius` | style/script.js:25-32 | every star particle's radius lies between the inner radius 2.0 and the outer radius 5.0 |
| `Shapes.StarRadiusPeriodic` | style/script.js:29-32 | the radius repeats every 1600 particles (once per star point); it is the inner radius at particles 1600·k and the outer radius at particles 1600·k + 800 |
| `Shapes.BranchOf` | style/script.js:24-55 | the star, the heart and the planet each draw only from their own coordinate formulas (one for the star, one for the heart, sphere or ring for the planet); a star particle is handed a radius between 2.0 and 5.0 |
| `Shapes.PlanetSplit` | style/script.js:43 | with 8000 particles, planet particle i is in the sphere branch iff i < 4800 and in the ring branch iff i ≥ 4800 |
| `Shapes.GeneratedCloud` | style/script.js:19-57 | a generated cloud has exactly ParticleCount targets and directions; each direction is its own target stretched; the star branch is handed the particle's star radius; a heart particle comes from the heart branch; a planet particle comes from the sphere branch iff i < 0.6·ParticleCount, else from the ring branch |
| `Shapes.StarTargetInRing` | style/script.js:32-35 | when the star branch places its point at the radius it is handed (x² + y² = r², as cos and sin do), every star target's squared distance from the z axis lies between 2.0² and 5.0² |
| `Gesture.FingersMirrorInvariant` | style/script.js:84-88 | the finger reading (thumb by horizontal spread from the middle-finger base over 0.15, the others by tip above the joint two landmarks below) is the same for a hand and its mirror image |
| `Gesture.FingersShiftInvariant` | style/script.js:84-88 | the finger reading is the same for a hand and the same hand moved anywhere in the image |
| `Gesture.SelectShape` | style/script.js:90-98 | each of the three finger patterns (open thumb with open pinky only; open index only; open index and middle only) selects its shape; any other pattern keeps the current shape |
| `Gesture.RowsExclusive` | style/script.js:92-98 | no finger pattern matches two rows of the table, so at most one row fires |
| `Gesture.NoRowKeepsShape` | style/script.js:90-98 | with the thumb closed, or with a pattern that matches no row, the shape stays the current one |
| `Gesture.ShapeChangesIffOtherRow` | style/script.js:90-100 | the shape changes iff the fingers match the row of a shape other than the current one |
| `Gesture.SelectShapeIdempotent` | style/script.js:100-107 | classifying the same fingers a second time selects the shape the first classification left, so it does not change the shape again |
| `Gesture.SquaredDistance` | style/script.js:109 | the squared thumb-to-index distance under the square root is never negative, and it is 0 when the two landmarks coincide |
| `Gesture.Clamp01` | style/script.js:110 | `min(1, max(0, v))` lies in [0, 1]; it is v inside [0, 1], 0 below and 1 above |
| `Gesture.ExpansionFactor` | style/script.js:110 | the expansion factor lies in [0, 1]; it is 0 for pinch distance ≤ 0.08 and 1 for distance ≥ 0.33 |
| `Gesture.ExpansionMonotone` | style/script.js:110 | a wider pinch never gives a smaller expansion factor |
| `Gesture.ExpansionOfPinch` | style/script.js:109-110 | in terms of the squared landmark distance q: the factor is 0 when q ≤ 0.0064 and 1 when q ≥ 0.1089 |
| `Animation.SmoothStep` | style/script.js:130 | one filter step moves the smoothed value toward the expansion factor without passing it, and the remaining gap is multiplied by 0.95 |
| `Animation.SmoothStepInUnit` | style/script.js:130 | a smoothed value and a target both in [0, 1] keep the smoothed value in [0, 1] |
| `Animation.SmoothRunConverges` | style/script.js:130 | after n ticks toward a constant target the gap is 0.95ⁿ times the initial gap, and the value stays between its start and the target |
| `Animation.SpinTick` | style/script.js:132-134 | one tick keeps the velocity's sign and never increases its magnitude; with a velocity ≥ 0 the angle advances by at least the idle 0.002 |
| `Animation.SpinRunVelocity` | style/script.js:132-134 | after n ticks without hand motion the rotation velocity is v₀·0.92ⁿ |
| `Animation.SpinRunAngle` | style/script.js:132-134 | after n ticks without hand motion the angle is angle₀ + v₀·(1 − 0.92ⁿ)/0.08 + 0.002·n |
| `Animation.VelocityNeverVanishes` | style/script.js:133 | a non-zero velocity keeps its sign and shrinks strictly in magnitude, but is never zero after finitely many ticks |
| `Animation.DecayBelowReciprocal` | style/script.js:133 | the decay factor after n ticks is at most 1/(1 + 0.08·n): 0.92ⁿ·(1 + 0.08·n) ≤ 1 |
| `Animation.VelocityTendsToZero` | style/script.js:132-134 | without hand motion the velocity tends to 0: for every ε > 0 some tick brings it strictly inside (−ε, ε) |
| `Animation.FlattenAt` | style/script.js:136-143 | the interleaved buffer has 3 entries per point, and entry 3i+k is component k of point i |
| `Animation.FillPositions` | style/script.js:136-143 | the buffer is newly allocated, has length 3·n and is exactly the interleaved list of target[i] + dir[i]·smoothExp |
| `Animation.PositionAt` | style/script.js:140-142 | buffer entry 3i+k equals component k of target i plus component k of direction i times smoothExp |
| `Interact.Visualizer.constructor` | style/script.js:1-5 | the program starts as a star, at rest (velocity 0, expansion 0), with lastHandX 0.5 (lines 1-5); in yellow, the material's colour at line 62; with the particles generated once, by the call at line 68; with smoothed expansion 0, as set at line 127 |
| `Interact.Visualizer.InitParticles` | style/script.js:19-58 | afterwards targets and dirs hold exactly the ParticleCount freshly drawn values for the current shape and nothing from before |
| `Interact.Visualizer.OnResults` | style/script.js:76-111 | no hand: nothing changes. With a hand: the velocity grows by exactly 0.8·(x₉ − lastHandX) and lastHandX becomes x₉; the shape becomes the one the table selects; recolouring and regeneration happen iff that shape differs from the old one; the expansion factor is set from the pinch; the invariant is kept |
| `Interact.Visualizer.Animate` | style/script.js:128-143 | smoothExp takes one filter step; the angle grows by the velocity and 0.002 while the velocity decays by 0.92; the returned buffer is newly allocated, has length 3·ParticleCount and holds target + dir·smoothExp for each particle; the invariant is kept |
| `Interact.DeliverTwice` | style/script.js:100-107 | delivering the same detector result twice regenerates the particles at most once |

## Left out

- The three.js scene, camera, renderer, material, `BufferGeometry` and the
  `render` calls (lines 7-17, 61-67, 144-145). These are foreign library calls.
  The material colour is kept as the field `color`, and the buffer is returned
  by `Animate` instead of being handed to `setAttribute`.
- The window resize handler (lines 149-153). It is display glue.
- The MediaPipe `Hands` and `Camera` setup and the asynchronous `onFrame`
  (lines 115-125). They are external inference and I/O. A detector result is
  the parameter `hands` of `OnResults`.
- Canvas drawing in `onResults` (lines 71-74, 112). It is UI.
- The label text written through `getElementById`/`innerText` (lines
  102-105). Only the shape-to-label mapping is kept, as `Shapes.ShapeLabel`,
  because the label's initial text lives in the page markup, which is not part
  of this model.
- The actual heart and planet coordinates, the star's cosine/sine placement
  and z jitter, and `normalize()` with its random magnitude in [2, 10) (lines
  34-57). These use trigonometry, `acos`, `sqrt` and `Math.random`; they are
  the `Sampler` parameter. Only the star radius and the branch structure are
  modelled exactly.
- Shapes.GeneratedCloud: does not bound the direction's length to [2, 10).
  That length is `Math.random() * 8 + 2`, and the `Sampler` that stands for
  `Math.random` is unconstrained, so nothing ties it to that range.
- Shapes.GeneratedCloud: says only which radius the star branch is handed,
  not where the point lands. The landing point comes from cos and sin, which
  are not modelled. `Shapes.StarTargetInRing` gives the ring bound for a
  sampler that satisfies `PlacesAtRadius`.
- `requestAnimationFrame` scheduling. The interleaving of detector callbacks
  with render ticks is not modelled; each callback is one atomic method call.
- `Float32Array` precision and IEEE rounding in general. All arithmetic is
  exact over the reals.
- The JavaScript shape variable is a string. It only ever holds `'star'`,
  `'heart'` or `'planet'`, so it is the datatype `Shape`.
- `rotation.y` of the three.js points object is the field `rotationY`. Its
  initial value is three.js's default, 0.
