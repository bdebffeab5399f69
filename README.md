# Hydrogen orbital viewer: point-cloud construction in Dafny

The hydrogen viewer draws one hydrogen wavefunction as a cloud of points.
A precomputed table holds, for each state (n, l, m), samples
`{r, theta, phi, p}` of its probability density. When the viewer starts it
runs `initData` on a new, empty scene, with `minProb` at 0.00001 and the
chosen state key at `"322"`. Whenever the user changes the probability floor
`minProb` or the chosen key, it runs `clearData` and then `initData`:

- `clearData` removes the first child of the scene until the scene is empty.
- `initData` adds a small red sphere at the origin (the nucleus). Then it
  walks the table and picks each entry whose quantum numbers, as text,
  equal characters 0, 1 and 2 of the chosen key. For each picked entry it
  skips the samples with `p <= minProb`. It pushes three coordinates and one
  opacity for every other sample. The result is added to the scene as one
  point cloud, coloured by its state.
- The opacity comes from `getAlpha`, a six-band step function of `p`.
- The colour comes from `getColor`, a palette keyed by six state keys built
  with `mergeQuantumNumber`. Every other state gets `"white"`.

Modules:

- `QuantumKeys` (quantum_keys.dfy): the decimal text of quantum numbers,
  the merged state key, and the character-by-character selection test.
- `Visual` (visual.dfy): the opacity ladder and the colour palette.
- `Samples` (samples.dfy): the probability filter, the two buffers as
  specification functions, and the buffer-building loop as a method.
- `Viewer` (viewer.dfy): the scene as a class holding its children,
  `clearData` and `initData` as methods, and the list of point clouds
  `initData` adds as a specification function.

Two things enter as parameters because the model cannot see them. The
wavefunction table is a parameter of `InitData`. The Cartesian position of a
sample, computed by the 3D library's spherical-to-Cartesian conversion at
radius `5 * r`, is a parameter `position: Sample -> Vec3`.

The code has no per-frame particle engine: no sampling cursor, spawn trial,
lifetime or replenishment. The only trace is the commented-out block in
`animate` (docs/app.ts:206-219). Each selected state is one static cloud,
rebuilt on each settings change, and colours come from a fixed six-entry
palette.

## Model

| member | source | states |
|---|---|---|
| QuantumKeys.NatText | docs/app.ts:60 | the decimal text of a natural number is non-empty and made of digits; it is one character exactly when the number is below 10, and has no leading zero |
| QuantumKeys.NatTextValue | docs/app.ts:60 | the decimal text of n denotes n, so different numbers have different texts |
| QuantumKeys.IntText | docs/app.ts:151-153 | the text of an integer is non-empty; it is one character exactly for 0..9; it starts with '-' exactly for negative numbers |
| QuantumKeys.IntTextInjective | docs/app.ts:151-153 | two integers with the same text are equal |
| QuantumKeys.MergeQuantumNumber | docs/app.ts:59-61 | the merged key has at least three characters, and exactly three exactly when n, l and m are all single digits |
| QuantumKeys.MergeDigits | docs/app.ts:59-61 | for single-digit n, l, m, the key's character i is the digit of the i-th number |
| QuantumKeys.MergeInjective | docs/app.ts:59-61 | on single-digit states, equal keys mean equal states |
| QuantumKeys.MergeAmbiguousBeyondOneDigit | docs/app.ts:59-61 | with a two-digit number, two different states share a key: (1, 11, 1) and (11, 1, 1) both give "1111" |
| QuantumKeys.Selected | docs/app.ts:151-155 | the entry is picked when characters 0, 1 and 2 of the key each equal the text of n, l and m; a missing character is undefined and never equal, so a picked entry has a key of at least three characters and single-digit n, l, m |
| QuantumKeys.SelectedIffPrefix | docs/app.ts:151-155 | an entry is selected exactly when the chosen key has at least three characters and begins with the entry's merged key; a selected entry has single-digit n, l, m |
| QuantumKeys.SelectedIffKey | docs/app.ts:151-155 | for a three-character key, selection is equality with the merged key, and a state with a multi-digit or negative number is never selected |
| QuantumKeys.OwnKeySelects | docs/app.ts:151-155 | a state's own merged key selects it exactly when its numbers are single digits |
| QuantumKeys.SelectedUnique | docs/app.ts:151-155 | one key selects at most one state |
| Visual.Alpha | docs/app.ts:85-103 | the opacity is one of the six values 1, 0.8, 0.6, 0.4, 0.2, 0.1; it is 1 exactly when p > 0.1 and 0.1 exactly when p <= 0.00001, so zero and negative p give 0.1 |
| Visual.ExceededMonotone | docs/app.ts:86-102 | a larger probability exceeds at least as many thresholds of the ladder |
| Visual.AlphaIsLadder | docs/app.ts:85-103 | the opacity equals the ladder entry picked by the number of thresholds 0.1, 0.01, 0.001, 0.0001, 0.00001 that p exceeds |
| Visual.AlphaMonotone | docs/app.ts:86-102 | p1 > p2 implies Alpha(p1) >= Alpha(p2) |
| Visual.Color | docs/app.ts:63-83 | the colour is "white" or one of the first six palette entries; the seventh entry is never returned |
| Visual.ColorKeyState | docs/app.ts:67-79 | the six keys "200", "210", "211", "300", "310", "320" are the merged keys of the states (2,0,0), (2,1,0), (2,1,1), (3,0,0), (3,1,0), (3,2,0) |
| Visual.ColorOneKey | docs/app.ts:64-82 | for one of the six keys: the colour is its palette entry exactly when the state's merged key is that key |
| Visual.ColorByKey | docs/app.ts:64-82 | key i of the six gets palette entry i, in both directions, and every other key gets "white" |
| Visual.ColorByState | docs/app.ts:64-82 | the i-th of the six states gets palette entry i, in both directions, and every other state gets "white", whatever the size of its numbers |
| Samples.Kept | docs/app.ts:161-164 | the filter keeps no more samples than it is given, and every kept sample has p > minProb |
| Samples.KeptAppend | docs/app.ts:161-164 | filtering distributes over concatenation, so the kept samples keep their input order |
| Samples.KeptSingle | docs/app.ts:162-164 | one sample is kept exactly when p > minProb |
| Samples.KeptMembers | docs/app.ts:161-164 | a sample is kept exactly when it occurs in the data with p > minProb |
| Samples.KeptNone | docs/app.ts:162-164 | samples with p <= minProb contribute nothing |
| Samples.KeptAll | docs/app.ts:161-164 | data whose every sample has p > minProb is kept whole |
| Samples.KeptIdempotent | docs/app.ts:161-164 | filtering the kept samples again with the same minProb keeps all of them |
| Samples.AlphaBuffer | docs/app.ts:159-170 | the alphas buffer has one entry per kept sample, and entry k is getAlpha of the k-th kept sample's p |
| Samples.VertexBuffer | docs/app.ts:158-168 | the vertices buffer has three entries per kept sample: x, y, z of the k-th kept sample's position at 3k, 3k+1, 3k+2 |
| Samples.BuildBuffers | docs/app.ts:158-171 | the loop builds exactly the alphas and vertices buffers of the samples with p > minProb, in input order, with three vertices per alpha |
| Viewer.PointCloud | docs/app.ts:173-190 | the cloud of an entry carries the colour of its state and one alpha and three vertices per kept sample |
| Viewer.Clouds | docs/app.ts:148-193 | initData adds at most one cloud per table entry, and each is a point cloud |
| Viewer.CloudsSingle | docs/app.ts:151-155 | one entry adds its cloud exactly when the key selects it |
| Viewer.CloudsStep | docs/app.ts:148-155 | moving on to entry i adds that entry's cloud exactly when the key selects it, after the clouds of the earlier entries |
| Viewer.CloudsAppend | docs/app.ts:148-193 | the clouds of two parts of the table come one after the other, in table order |
| Viewer.CloudsNone | docs/app.ts:151-155 | a key that selects no entry adds no cloud |
| Viewer.CloudsAtMostOne | docs/app.ts:148-193 | with distinct states in the table, at most one cloud is added |
| Viewer.OnlySelected | docs/app.ts:151-155 | with distinct states in the table, a selected entry is the only selected one |
| Viewer.OnlyCloud | docs/app.ts:148-193 | with distinct states, a key that selects entry k adds exactly that entry's cloud |
| Viewer.ChosenKeyDrawsItsCloud | docs/app.ts:31-40 | with distinct states in the table, choosing the merged key of a single-digit entry, as the state menu offers, draws exactly that entry's cloud |
| Viewer.AddPointCloud | docs/app.ts:158-192 | for one selected entry, the scene gains exactly that entry's point cloud, appended after the existing children |
| Viewer.InitialSelection | docs/app.ts:18-21 | the initial key "322" selects an entry exactly when its state is (3, 2, 2), and that entry is drawn in white |
| Viewer.InitialClouds | docs/app.ts:18-21 | with distinct states in the table, the initial settings draw the white cloud of the (3, 2, 2) entry and no other |
| Viewer.FirstIndex | docs/app.ts:135 | the index found is that of the first child equal to the object |
| Viewer.Scene.constructor | docs/app.ts:116 | a new scene has no children |
| Viewer.Scene.Add | docs/app.ts:145 | adding a new object appends it after the existing children |
| Viewer.Scene.Remove | docs/app.ts:135 | removing takes out the first child equal to the object, keeps the others in order, and does nothing when it is not a child |
| Viewer.ClearData | docs/app.ts:133-137 | the scene ends with no children (the loop keeps a suffix of the old children and ends because each step shortens the list) |
| Viewer.InitData | docs/app.ts:139-194 | the scene ends as its old children, then the nucleus sphere, then one point cloud per selected entry in table order; nothing already in the scene is removed |
| Viewer.Start | docs/app.ts:116-119 | at start the new scene holds exactly the nucleus and the clouds the initial settings select |
| Viewer.OnSettingsChange | docs/app.ts:26-29 | after a change of minProb (and, by the same handler at lines 37-40, of the chosen key), the scene holds exactly the nucleus and the clouds the new settings select, whatever it held before |

## Left out

- Floating point: `p`, `minProb` and the thresholds are exact reals. In the code they are IEEE doubles, so `.1` is not exactly one tenth. A probability within one rounding step of a threshold may fall in the other band. The code skips a sample only when `p <= minProb` (docs/app.ts:162), a test that is false for NaN, so it keeps NaN samples and draws them at opacity 0.1 (getAlpha falls through to docs/app.ts:102). Reals have no NaN, so the model cannot show this.
- Number-to-text for non-integers and for magnitudes that JavaScript writes in exponent notation. Quantum numbers are modelled as integers.
- The spherical-to-Cartesian conversion `setFromSphericalCoords(d.r * 5, d.phi, d.theta)` is trigonometry on doubles. It is the parameter `position`.
- The `Float32BufferAttribute` conversion, the shader material and `THREE.Color`. A cloud keeps its raw buffers and its colour string.
- The sphere's geometry and material are not modelled. It is the constant `Nucleus`.
- `console.log` is I/O.
- The rest of `init` (the container, camera, renderer, orbit controls, stats panel and resize listener), `render`, `animate`, `onWindowResize`, `requestAnimationFrame` and DOM access are host setup and rendering. `Start` models the part of `init` that makes the scene and runs the first `initData`.
- The settings panel (`initGui`) is event wiring. It offers the merged key of each table entry; `ChosenKeyDrawsItsCloud` states what picking the key of a single-digit entry draws when the table's states are distinct. Its two change handlers run `clearData` and then `initData`; `OnSettingsChange` models them.
- The decay and eviction code in `animate` is commented out and never runs. No sampling cursor, spawn trial, lifetime or replenishment is modelled, because the code has none.
- Scene.Remove: the 3D library removes by object identity, and the model removes the first child equal by value. `clearData` always removes the head child, so the result is the same.
- Scene.Add: the 3D library first detaches an object from a previous parent. Every object `initData` adds is newly made, so this is not modelled.
- The wavefunction table (`./data`) is not part of this model. It is the parameter `table`.
- hydrogen.cpp is not part of this model. It computes the wavefunctions by symbolic algebra in an external computer-algebra library.
