# WebGL-Samples: terrain, tunnel game and input logic in Dafny

This project models the computational core of two WebGL demos from the
BlackBerry WebGL-Samples repository and proves properties of that model.

**PeaksAndValleys** is a fly-over of an endless, repeating terrain.
- An offline preprocessor (`tools/preprocessor/dowork.js`) turns a heightmap image into the terrain asset:
  - heights smoothed with a box filter that folds around the image edges;
  - texture coordinates stepping across the image;
  - normals computed with a cross product.
- At run time a Web Worker (`GLTerrainWorker.js`) samples the window of `(2 offset + 1)^2` grid vertices around the camera. It wraps the reads into the heightmap and builds a boustrophedon triangle-strip index list.
- The renderer (`GLTerrain.js`) allows at most one request to the worker at a time. It answers the camera height with `getY`, which picks one of the two triangles of the current cell by row parity and blends three heights.
- The remaining parts:
  - `Utils.js` holds the wrapping `clamp` and the rectangle test;
  - `GLSkybox.js` and `GLCube.js` hold the sky and sun meshes;
  - `virtualjoystick.js` and `Freewill.js` are the two touch-control libraries.

**tunneltilt** rolls a ball through a curved tunnel.
- `geometry.js` builds the tunnel strip and decides whether the ball hit a wall. The decision uses degree normalisation and an arc test that wraps around 360.
- `events.js` turns mouse drags or the accelerometer into a clamped, decelerating rotation speed.
- `loader.js` keeps the list of pending asset requests.

How the model is organised:
- Each source file is one module: `Utils`, `TerrainWorker`, `Terrain`, `Preprocessor`, `Geometry`, `Events`, `Loader`, `Joystick`, `Freewill`, `Skybox` and `Cube`.
- Code that changes state in place is modelled as classes: the worker, the renderer's request gate, the cylinder, the ball, the particles, the input globals, the loader and the two joystick libraries. Their methods carry `modifies` clauses.
- Loops are methods with loop invariants, proved against specification functions.
- Pure code is modelled as functions and lemmas.

Number types:
- Grid, cell and index arithmetic uses `int`.
- Heights, positions and angles use `real`.
- JavaScript's truncating `%`, its `||` defaults, `undefined` reads, sparse-array holes and the `NaN` of an out-of-range read are written out explicitly.
- `Math.cos`, `Math.sin`, `Math.sqrt` and `Math.atan2` are parameters. They are constrained only by the properties the proofs need: the square root's defining equation, the range of the cosine and the range of `atan2`.

## Model

| member | source | states |
|---|---|---|
| Utils.Wrap | PeaksAndValleys/js/Utils.js:23-29 | the fold of `clamp`'s two loops, by recursion on the distance outside the range; always lands in `[low, high)` |
| Utils.Clamp | PeaksAndValleys/js/Utils.js:23-29 | the two `while` loops return a value in `[low, high)`, differing from `val` by a whole number of periods, unchanged when already in range, equal to `low + (val - low) mod (high - low)`; `low < high` is exactly what makes the loops stop |
| Utils.WrapIsRemainder | PeaksAndValleys/js/Utils.js:26-27 | the folded value is `low` plus the Euclidean remainder of `val - low` by the period |
| Utils.WrapUnique | PeaksAndValleys/js/Utils.js:26-28 | any value in `[low, high)` a whole number of periods away from `val` is the result |
| Utils.WrapPeriodic | PeaksAndValleys/js/Utils.js:26-27 | shifting the input by whole periods leaves the result unchanged |
| Utils.WrapCongruent | PeaksAndValleys/js/Utils.js:26-27 | the result differs from `val` by a multiple of `high - low` |
| Utils.WrapIdempotent | PeaksAndValleys/js/Utils.js:26-28 | in-range values are fixed, so clamping twice is clamping once |
| Utils.WrapIsEuclideanMod | PeaksAndValleys/js/Utils.js:23-29 | `clamp(val, 0, n)` is Euclidean `val mod n`, negative inputs included |
| Utils.Contains | PeaksAndValleys/js/Utils.js:32-38 | true iff the point lies in the closed rectangle, edges included |
| Utils.NegativeRectIsEmpty | PeaksAndValleys/js/Utils.js:33-36 | a rectangle with negative width or height contains no point |
| TerrainWorker.Clamp | PeaksAndValleys/js/GLTerrainWorker.js:51-58 | the worker's copy of the loops computes the same fold as `Utils.clamp`: in `[low, high)`, in-range values kept |
| TerrainWorker.Worker.constructor | PeaksAndValleys/js/GLTerrainWorker.js:26-31 | the placeholder fields: empty arrays, zero sizes; not ready to sample |
| TerrainWorker.Worker.Init | PeaksAndValleys/js/GLTerrainWorker.js:61-78 | stores width, height, tile size, heights, normals and offset as given, sets `tiles = 2 offset + 1`, and replies `init complete` |
| TerrainWorker.Worker.Update | PeaksAndValleys/js/GLTerrainWorker.js:81-161 | replies with the window around the camera's centre cell, sampled from the stored heightmap |
| TerrainWorker.Worker.OnMessage | PeaksAndValleys/js/GLTerrainWorker.js:34-45 | `init` stores and replies, `update` replies with the window of the old state and changes nothing, any other command is ignored |
| TerrainWorker.SampleWindow | PeaksAndValleys/js/GLTerrainWorker.js:91-147 | the nested loops produce exactly `Window(heightmap, offset, floor(px / s), floor(pz / s))` |
| TerrainWorker.NextRow | PeaksAndValleys/js/GLTerrainWorker.js:96-147 | one pass of the outer loop extends positions, normals and strip from `mz` window rows to `mz + 1` |
| TerrainWorker.SampleRow | PeaksAndValleys/js/GLTerrainWorker.js:98-144 | the inner loop appends one row of positions and normals, and two indices per column except on the last row |
| TerrainWorker.SampleVertex | PeaksAndValleys/js/GLTerrainWorker.js:104-122 | folds the column, reads height and normal at the folded flat index, emits the unfolded world position |
| TerrainWorker.HeightIndexInRange | PeaksAndValleys/js/GLTerrainWorker.js:98-122 | for any cell, however far outside the grid, the height index is in `[0, w h)` and the three normal reads stay below `3 w h` |
| TerrainWorker.HeightIndexWraps | PeaksAndValleys/js/GLTerrainWorker.js:98-107 | the index is `(z mod h) w + (x mod w)` and repeats every grid width and height |
| TerrainWorker.CentreCellContains | PeaksAndValleys/js/GLTerrainWorker.js:91-92 | the centre cell is the tile the camera coordinate lies in |
| TerrainWorker.WindowSizes | PeaksAndValleys/js/GLTerrainWorker.js:96-147 | `3 tiles^2` positions and normals, and `2 tiles (tiles - 1) = 4 offset tiles` indices |
| TerrainWorker.WindowVertex | PeaksAndValleys/js/GLTerrainWorker.js:91-122 | window vertex (mx, mz) sits at the unwrapped cell `(dx - offset + mx, dz - offset + mz)` and carries the height and normal stored at the folded index |
| TerrainWorker.SamplesRepeat | PeaksAndValleys/js/GLTerrainWorker.js:104-122 | cells one grid width or height apart carry the same height and normal |
| TerrainWorker.RowLengths | PeaksAndValleys/js/GLTerrainWorker.js:110-122 | a row of `n` columns adds `3 n` positions and `3 n` normals |
| TerrainWorker.WindowLengths | PeaksAndValleys/js/GLTerrainWorker.js:96-122 | `rows` window rows hold `3 tiles rows` entries in each array |
| TerrainWorker.RowIndicesLength | PeaksAndValleys/js/GLTerrainWorker.js:127-141 | a row block of `n` columns adds `2 n` indices |
| TerrainWorker.StripLength | PeaksAndValleys/js/GLTerrainWorker.js:127-146 | `rows` row blocks hold `2 tiles rows` indices |
| TerrainWorker.RowVertexAt | PeaksAndValleys/js/GLTerrainWorker.js:110-122 | column `c` of a row occupies entries `3c .. 3c + 2` of both arrays |
| TerrainWorker.WindowVertexAt | PeaksAndValleys/js/GLTerrainWorker.js:96-122 | window vertex (c, r) occupies entries `3 (r tiles + c) .. + 2` |
| TerrainWorker.RowIndexAt | PeaksAndValleys/js/GLTerrainWorker.js:132-140 | pair `mx` of a row block sits at entries `2 mx` and `2 mx + 1` |
| TerrainWorker.StripIndexAt | PeaksAndValleys/js/GLTerrainWorker.js:132-146 | block `mz` emits `(mz tiles + c, (mz + 1) tiles + c)` at `2 (mz tiles + mx)`, `c` ascending on even absolute rows and descending on odd ones |
| TerrainWorker.JsRem | PeaksAndValleys/js/GLTerrainWorker.js:132 | JavaScript `%`: the remainder has the sign of the dividend |
| TerrainWorker.JsEvenIsEven | PeaksAndValleys/js/GLTerrainWorker.js:132 | `z % 2 === 0` holds exactly for even `z`, negative ones included, although negative odd `z` gives `-1` |
| TerrainWorker.StripPairBounds | PeaksAndValleys/js/GLTerrainWorker.js:134-139 | each pair names two window vertices, the second directly below the first |
| TerrainWorker.RowIndicesBounded | PeaksAndValleys/js/GLTerrainWorker.js:127-141 | every index of a row block with a row below it is below `tiles^2` |
| TerrainWorker.StripBounded | PeaksAndValleys/js/GLTerrainWorker.js:127-146 | every strip index names a window vertex |
| TerrainWorker.StripTurn | PeaksAndValleys/js/GLTerrainWorker.js:132-146 | the strip is connected: the last index of block `mz` is the first index of block `mz + 1` |
| TerrainWorker.WindowIndicesFitUint16 | PeaksAndValleys/js/GLTerrainWorker.js:152-160 | with `offset <= 127` every index is below 65536, so the `Uint16Array` keeps it |
| Terrain.TerrainRenderer.constructor | PeaksAndValleys/js/GLTerrain.js:23-100 | empty buffers; `working` is set before the `init` request (offset 60) is posted, so no `update` precedes the first reply |
| Terrain.TerrainRenderer.Update | PeaksAndValleys/js/GLTerrain.js:132-147 | posts `update(-px, -pz)` only when not working, and sets working; repeated calls while working post nothing; returns `getY(-px, -pz)`; buffers untouched |
| Terrain.TerrainRenderer.OnReply | PeaksAndValleys/js/GLTerrain.js:61-84 | every reply clears `working`; an `update` reply sets the item counts to `|vertices| / 3`, `|normals| / 3` and `|indices|` |
| Terrain.ReplySizes | PeaksAndValleys/js/GLTerrain.js:95 | with offset 60 a reply holds 14641 vertices and normals and 29040 indices, each below 65536 |
| Terrain.GetY | PeaksAndValleys/js/GLTerrain.js:149-205 | the height under (px, pz): the barycentric blend of the triangle picked by row parity in the camera's cell. Its lemmas `GetYAtVertex`, `GetYBetweenCorners`, `GetYRepeatsAcross` and `StripDiagonals` state what it promises |
| Terrain.ReadsInRange | PeaksAndValleys/js/GLTerrain.js:172-195 | all four corner reads of `getY` land inside the heightmap, wherever the camera is |
| Terrain.FractionInCell | PeaksAndValleys/js/GLTerrain.js:160-165 | the offsets `rx` and `rz` into the cell are in `[0, 1)` |
| Terrain.PickWeights | PeaksAndValleys/js/GLTerrain.js:168-198 | in both row parities and both triangles, the weights are non-negative and sum to at most one |
| Terrain.InterpBetween | PeaksAndValleys/js/GLTerrain.js:203 | with such weights the blend lies between the lowest and highest of its three heights |
| Terrain.GetYBetweenCorners | PeaksAndValleys/js/GLTerrain.js:160-203 | `getY` lies between the minimum and maximum height of the four corners of the camera's cell |
| Terrain.GetYAtVertex | PeaksAndValleys/js/GLTerrain.js:160-203 | at a grid vertex `getY` returns the height stored for it, on even and odd rows |
| Terrain.PickAtCorner | PeaksAndValleys/js/GLTerrain.js:168-198 | at the cell's own corner every branch yields that corner's height |
| Terrain.HeightRepeats | PeaksAndValleys/js/GLTerrain.js:172-195 | a vertex one grid width or height further on reads the same height |
| Terrain.PickRepeatsAcross | PeaksAndValleys/js/GLTerrain.js:168-198 | a cell one grid width further on picks a triangle with the same heights |
| Terrain.PickRepeatsAlong | PeaksAndValleys/js/GLTerrain.js:168-198 | a cell one even grid height further on picks a triangle with the same heights |
| Terrain.GetYRepeatsAcross | PeaksAndValleys/js/GLTerrain.js:160-203 | outside the grid the terrain repeats: `getY(px + w s, pz) = getY(px, pz)` |
| Terrain.GetYRepeatsAlong | PeaksAndValleys/js/GLTerrain.js:160-203 | `getY(px, pz + h s) = getY(px, pz)` when the grid height is even |
| Terrain.EvenSeam | PeaksAndValleys/js/GLTerrain.js:168-182 | on even rows both triangles agree on the seam `rx + rz = 1` |
| Terrain.OddSeam | PeaksAndValleys/js/GLTerrain.js:183-198 | on odd rows both triangles agree on the seam `rx = rz` |
| Terrain.StripDiagonals | PeaksAndValleys/js/GLTerrain.js:167-198 | the seams `getY` uses are the diagonals the worker's strip draws: `rx + rz = 1` on even rows, `rx = rz` on odd rows |
| Preprocessor.Dowork | PeaksAndValleys/tools/preprocessor/dowork.js:30-122 | the two passes of loops produce exactly the asset of the reference definition: size fields, then `d_x d_z` heights, `2 d_x d_z` texture coordinates and `3 d_x d_z` normal components |
| Preprocessor.SmoothGridRow | PeaksAndValleys/tools/preprocessor/dowork.js:58-95 | the loop over `x` appends each vertex's rounded smoothed height and rounded `(u, v)` |
| Preprocessor.SmoothedHeight | PeaksAndValleys/tools/preprocessor/dowork.js:60-81 | averages exactly `b = (2 av_n + 1)^2` samples of the box around the vertex, scaled by `s_y / 255` |
| Preprocessor.SmoothRow | PeaksAndValleys/tools/preprocessor/dowork.js:63-79 | the inner loop adds one row of the box's green bytes and counts its samples |
| Preprocessor.NormalGridRow | PeaksAndValleys/tools/preprocessor/dowork.js:106-121 | the loop over `x` appends the rounded normal of each vertex |
| Preprocessor.NormalAtVertex | PeaksAndValleys/tools/preprocessor/dowork.js:108-119 | reads the four neighbours, crosses the two difference vectors and divides by the length |
| Preprocessor.Dec5 | PeaksAndValleys/tools/preprocessor/dowork.js:25-28 | `Math.round(v 100000) / 100000`, round half up; its lemmas `Dec5FiveDecimals`, `Dec5Close`, `Dec5Fixes`, `Dec5Idempotent` and `Dec5Monotone` state what it promises |
| Preprocessor.Dec5FiveDecimals | PeaksAndValleys/tools/preprocessor/dowork.js:25-28 | the rounded value has at most five decimals: times `100000` it is a whole number |
| Preprocessor.Dec5Close | PeaksAndValleys/tools/preprocessor/dowork.js:25-28 | rounding to five decimals moves a value by at most `0.000005` |
| Preprocessor.Dec5Fixes | PeaksAndValleys/tools/preprocessor/dowork.js:25-28 | values with five decimals are kept |
| Preprocessor.Dec5Idempotent | PeaksAndValleys/tools/preprocessor/dowork.js:25-28 | rounding twice is rounding once |
| Preprocessor.Dec5Monotone | PeaksAndValleys/tools/preprocessor/dowork.js:25-28 | rounding keeps the order |
| Preprocessor.FoldInRange | PeaksAndValleys/tools/preprocessor/dowork.js:63-75 | one fold brings any coordinate at most one grid size outside back into the grid, agreeing with `Utils.clamp` |
| Preprocessor.SampleIsByte | PeaksAndValleys/tools/preprocessor/dowork.js:77 | each read is a byte of the image, at offset `(rn d_x + rm) 4 + 1` inside the buffer |
| Preprocessor.RowSumBounds | PeaksAndValleys/tools/preprocessor/dowork.js:69-79 | a row of `k` samples sums to at most `255 k` |
| Preprocessor.BoxSumBounds | PeaksAndValleys/tools/preprocessor/dowork.js:62-80 | a box of `w j` samples sums to at most `255 w j` |
| Preprocessor.ScaledMeanBounds | PeaksAndValleys/tools/preprocessor/dowork.js:81 | a scaled mean of bytes lies in `[0, s_y]` |
| Preprocessor.RawHeightBounds | PeaksAndValleys/tools/preprocessor/dowork.js:60-81 | every height before rounding lies in `[0, s_y]` |
| Preprocessor.StrideInUnit | PeaksAndValleys/tools/preprocessor/dowork.js:53-54 | with `0 < s_t <= d` the stride lies in `(0, 1]` |
| Preprocessor.AdvanceInUnit | PeaksAndValleys/tools/preprocessor/dowork.js:91-100 | one step with wrap keeps a coordinate in `[0, 1)` |
| Preprocessor.UInUnit | PeaksAndValleys/tools/preprocessor/dowork.js:57-94 | `u` stays in `[0, 1)` when `s_t <= d_x` |
| Preprocessor.VInUnit | PeaksAndValleys/tools/preprocessor/dowork.js:55-100 | `v` stays in `[0, 1)` when `s_t <= d_z` |
| Preprocessor.HeightsAt | PeaksAndValleys/tools/preprocessor/dowork.js:56-84 | the heights array has `d_x` entries per row, and entry `z d_x + x` is the rounded box mean at (x, z) |
| Preprocessor.CoordsAt | PeaksAndValleys/tools/preprocessor/dowork.js:56-101 | the coordinates array has `2 d_x` entries per row, and entries `2 (z d_x + x)` and `2 (z d_x + x) + 1` are the rounded `u` of column `x` and `v` of row `z` |
| Preprocessor.NormalsAt | PeaksAndValleys/tools/preprocessor/dowork.js:105-121 | the normals array has `3 d_x` entries per row, and entries `3 (z d_x + x)` to `3 (z d_x + x) + 2` are the rounded components of the normal of (x, z) |
| Preprocessor.AssetLengths | PeaksAndValleys/tools/preprocessor/dowork.js:43-122 | the asset keeps `d_x`, `d_z` and `s_xz`, and holds one height, two texture coordinates and three normal components per grid vertex, the layout the terrain worker's `ValidGrid` expects |
| Preprocessor.AssetVertexAt | PeaksAndValleys/tools/preprocessor/dowork.js:56-122 | vertex (x, z) of the asset carries its rounded smoothed height, its rounded `(u, v)` and its rounded normal at index `z d_x + x` of each array |
| Preprocessor.Dec5InUnit | PeaksAndValleys/tools/preprocessor/dowork.js:25-28 | rounding keeps a value of `[0, 1]` in `[0, 1]` |
| Preprocessor.AssetCoordsInUnit | PeaksAndValleys/tools/preprocessor/dowork.js:52-101 | with `0 < s_t <= d_x, d_z`, every texture coordinate in the asset lies in `[0, 1]` |
| Preprocessor.AssetNormalIsNaNIff | PeaksAndValleys/tools/preprocessor/dowork.js:103-121 | with `s_xz != 0`, a normal component of the asset is NaN iff it belongs to (d_x-2, d_z-1), (d_x-1, d_z-1) or (d_x-1, d_z-2); every other component is finite |
| Preprocessor.CrossDirection | PeaksAndValleys/tools/preprocessor/dowork.js:110-117 | the cross product is `(2 s dh, -4 s^2, 2 s dv)` |
| Preprocessor.LengthPositive | PeaksAndValleys/tools/preprocessor/dowork.js:118 | a vector with negative y has a positive length whose square is the sum of the squared components |
| Preprocessor.UnitQuotients | PeaksAndValleys/tools/preprocessor/dowork.js:118-119 | dividing the components by a positive length whose square is their sum of squares gives a vector of unit length |
| Preprocessor.NormaliseScales | PeaksAndValleys/tools/preprocessor/dowork.js:118-119 | normalising a vector with negative y gives a finite unit vector with negative y whose components give back the vector when multiplied by its length |
| Preprocessor.NormalWithScales | PeaksAndValleys/tools/preprocessor/dowork.js:108-119 | wherever the neighbour reads are in range and `s_xz != 0`, the normal is a unit vector, the surface cross product divided by its positive length |
| Preprocessor.NeighboursInGrid | PeaksAndValleys/tools/preprocessor/dowork.js:108-113 | read at their own indices, the four neighbours are heights of the grid |
| Preprocessor.OnePastEndExactly | PeaksAndValleys/tools/preprocessor/dowork.js:108-113 | with the `+ 1`, every neighbour index is in `[1, d_x d_z]`, and one equals `d_x d_z` exactly at (d_x-2, d_z-1), (d_x-1, d_z-1) and (d_x-1, d_z-2) |
| Preprocessor.NormalsAtEndAreNaN | PeaksAndValleys/tools/preprocessor/dowork.js:108-120 | at those three vertices the stored normal is NaN in every component |
| Preprocessor.NormalIsFinite | PeaksAndValleys/tools/preprocessor/dowork.js:108-120 | every other vertex gets a finite unit normal pointing to negative y, the surface cross product divided by its length |
| Preprocessor.CorrectedNormalIsFinite | PeaksAndValleys/tools/preprocessor/dowork.js:108-120 | without the `+ 1` every vertex gets a finite unit normal pointing to negative y |
| Geometry.Lerp | tunneltilt/geometry.js:30-32 | `a + (b - a) t`; its lemmas `LerpBetween` and `LerpEnds` state what it promises |
| Geometry.LerpBetween | tunneltilt/geometry.js:30-32 | for `t` in `[0, 1]` the result lies between `a` and `b`, whichever is larger |
| Geometry.LerpEnds | tunneltilt/geometry.js:30-32 | `lerp(a, b, 0) = a` and `lerp(a, b, 1) = b` |
| Geometry.Rem360 | tunneltilt/geometry.js:657 | JavaScript `x % 360`: magnitude below 360, sign of `x` |
| Geometry.NormDeg | tunneltilt/geometry.js:656-659 | the normalisation lands in `[0, 360)` |
| Geometry.NormaliseDegrees | tunneltilt/geometry.js:657-659 | the statement pair yields the normalised angle in `[0, 360)` |
| Geometry.NormDegIsFloorMod | tunneltilt/geometry.js:656-659 | the normalisation is floored remainder by 360 |
| Geometry.NormDegPeriodic | tunneltilt/geometry.js:656-659 | whole turns do not change the normalised angle |
| Geometry.NormDegFixes | tunneltilt/geometry.js:656-659 | angles in `[0, 360)` are kept |
| Geometry.NormDegNear | tunneltilt/geometry.js:672-677 | within one turn of 0 a negative angle is raised by exactly 360 |
| Geometry.NewWall | tunneltilt/geometry.js:433-463 | a wall keeps its two angles and stands at depth `-z` |
| Geometry.BallAngle | tunneltilt/geometry.js:656-659 | the ball's angle in degrees lies in `[0, 360)` |
| Geometry.ArcStart | tunneltilt/geometry.js:670-674 | `angle1` minus the threshold, normalised into `[0, 360)` |
| Geometry.ArcEnd | tunneltilt/geometry.js:671-677 | `angle2` plus the threshold, normalised into `[0, 360)` |
| Geometry.InArcIffTurn | tunneltilt/geometry.js:681-682 | the wrap-aware arc test holds iff turning up from `a1` reaches the angle strictly before `a2`; an arc with equal ends is empty |
| Geometry.Ball.DidCrash | tunneltilt/geometry.js:651-688 | true iff some wall is strictly within `zThreshold` of the ball's depth and its widened arc strictly contains the ball's angle; false with no walls |
| Geometry.TunnelOffset | tunneltilt/geometry.js:231-235 | zero for every segment before `straightSegments + 1` |
| Geometry.TunnelOffsetBounds | tunneltilt/geometry.js:234 | with the cosine in `[-1, 1]` the bend moves the centre by between `-2 radius` and 0 |
| Geometry.OrDefault | tunneltilt/geometry.js:269-272 | `x \|\| d` keeps a non-zero `x` and replaces zero by the default |
| Geometry.RingPoint | tunneltilt/geometry.js:243-261 | one point around the ring yields the far and near vertex and their texture coordinates |
| Geometry.BuildRing | tunneltilt/geometry.js:242-262 | the inner loop appends `subdivs + 1` vertex pairs of the segment's ring |
| Geometry.BuildTunnel | tunneltilt/geometry.js:238-263 | the outer loop builds the whole strip of `numSegments` rings; every texture coordinate is in range |
| Geometry.RingLengths | tunneltilt/geometry.js:251-261 | `k` ring points add `6 k` position values and `4 k` texture values |
| Geometry.TunnelLengths | tunneltilt/geometry.js:238-263 | `n` segments hold `n (subdivs + 1) 2` vertices: three position values and two texture values each |
| Geometry.PairCoordsInRange | tunneltilt/geometry.js:249-261 | one pair's `u` is in `[0, 1]` and its `v` in `[0, 3]` |
| Geometry.RingCoordsInRange | tunneltilt/geometry.js:242-262 | a ring's texture coordinates are in range |
| Geometry.TunnelCoordsInRange | tunneltilt/geometry.js:238-263 | every texture coordinate: `u` in `[0, 1]`, `v` in `[0, 3]` |
| Geometry.Cylinder.constructor | tunneltilt/geometry.js:215-272 | the strip from the arguments, length and radius with their `\|\|` defaults, then the reset state |
| Geometry.Cylinder.Reset | tunneltilt/geometry.js:398-409 | offset 0, angle 0, no walls, last wall at 128, speed 0.01, maximum speed 1; not past the last wall |
| Geometry.Cylinder.PastLastWall | tunneltilt/geometry.js:422-426 | on the global cylinder itself: `offset / 3 * length > lastWallPos` |
| Geometry.Ball.constructor | tunneltilt/geometry.js:487-526 | maximum rotation speed π, speed and glow offset 0, angle undefined |
| Geometry.Ball.Reset | tunneltilt/geometry.js:690-694 | angle, rotation speed and glow offset 0 |
| Geometry.Particles.constructor | tunneltilt/geometry.js:51 | time starts at 0 |
| Geometry.Particles.Reset | tunneltilt/geometry.js:158-160 | time back to 0 |
| Events.Clamp | tunneltilt/events.js:109-111 | with `min <= max` the result lies in `[min, max]`, and a value already inside is returned unchanged |
| Events.ClampInRange | tunneltilt/events.js:109-111 | with `min <= max` the result lies in `[min, max]` |
| Events.ClampFixes | tunneltilt/events.js:109-111 | a value inside `[min, max]` is returned unchanged |
| Events.ClampNearest | tunneltilt/events.js:109-111 | the result is the point of `[min, max]` nearest to the value |
| Events.ClampIdempotent | tunneltilt/events.js:109-111 | clamping twice is clamping once |
| Events.ClampInverted | tunneltilt/events.js:109-111 | with inverted bounds the result is `min` |
| Events.Input.constructor | tunneltilt/events.js:18-27 | pointer input, not pressed, positions and remembered speed 0 |
| Events.Input.SetupAccelerometer | tunneltilt/events.js:66-76 | the accelerometer replaces the pointer only on a PlayBook running WebWorks |
| Events.Input.HandleMouseDown | tunneltilt/events.js:38-43 | remembers the ball's speed, sets pressed, and starts the drag at `clientX` |
| Events.Input.HandleMouseUp | tunneltilt/events.js:48-52 | not pressed, both positions 0 |
| Events.Input.HandleMouseMove | tunneltilt/events.js:57-61 | `mouseX` follows the pointer only while pressed |
| Events.Input.ResetEventHandler | tunneltilt/events.js:97-104 | remembered speed 0, and both positions 0 under pointer input |
| Events.Input.HandleInput | tunneltilt/events.js:118-136 | the new speed (held, released or tilted), the cylinder turned by `speed * elapsed`, and glow offset `0.075 * speed`; nothing else changes |
| Events.NextSpeedBounded | tunneltilt/events.js:118-132 | a speed within `[-max, max]` stays within it, whichever input drives it |
| Events.HeldWithoutDrag | tunneltilt/events.js:120-122 | holding without dragging keeps the speed at the press |
| Events.HeldSpeedMonotone | tunneltilt/events.js:120-122 | dragging left never lowers the held speed and dragging right never raises it |
| Events.DecelerateTowardZero | tunneltilt/events.js:123-128 | released, the magnitude drops by `2 elapsed` down to 0: it never grows and never changes sign |
| Events.DecelerateStops | tunneltilt/events.js:123-128 | the ball stops once `2 elapsed` covers the speed |
| Events.DecelerateAdds | tunneltilt/events.js:123-128 | two decelerations add up to one over the summed time |
| Loader.Loader.constructor | tunneltilt/loader.js:78-80 | nothing pending, so loaded |
| Loader.Loader.Loaded | tunneltilt/loader.js:102-107 | true exactly when the pending list is empty |
| Loader.Loader.Load | tunneltilt/loader.js:90-101 | appends exactly one request whose index is the old length; no longer loaded |
| Loader.Loader.Remove | tunneltilt/loader.js:108-112 | overwrite slot `index` with the last entry when there is more than one, holes past the end included, then pop |
| Loader.Holes | tunneltilt/loader.js:109-110 | the holes a write past the end leaves |
| Loader.LoadKeepsIndexed | tunneltilt/loader.js:90-101 | loading keeps every request at the position its index names |
| Loader.RemoveFromEmpty | tunneltilt/loader.js:108-112 | an empty list stays empty |
| Loader.RemoveShrinksByOne | tunneltilt/loader.js:108-112 | with a valid or missing index a non-empty list shrinks by exactly one |
| Loader.RemoveSwapsLast | tunneltilt/loader.js:109-111 | the last entry moves into the slot, every other slot is kept, and exactly the removed entry is lost |
| Loader.RemoveLeavesStaleIndex | tunneltilt/loader.js:109-111 | the moved entry keeps its old index, which now points past the end |
| Loader.RemoveAtLengthKeeps | tunneltilt/loader.js:109-111 | a stale index equal to the length removes nothing |
| Loader.RemoveWithoutIndexPops | tunneltilt/loader.js:30 | called with the request object, which has no index, `remove` pops the newest entry |
| Loader.CompletedLength | tunneltilt/loader.js:30 | after as many completions as pending requests, the loader reports loaded |
| Joystick.VirtualJoystick.constructor | PeaksAndValleys/js/virtualjoystick.js:46-73 | two idle touch points; links `[0, 0, 0]` |
| Joystick.VirtualJoystick.OnDown | PeaksAndValleys/js/virtualjoystick.js:151-173 | presses the linked touch point at `(x, y)` |
| Joystick.VirtualJoystick.OnMove | PeaksAndValleys/js/virtualjoystick.js:178-193 | moves the linked touch point's stick |
| Joystick.VirtualJoystick.OnUp | PeaksAndValleys/js/virtualjoystick.js:198-213 | releases the linked touch point |
| Joystick.VirtualJoystick.OnMouseDown | PeaksAndValleys/js/virtualjoystick.js:231-248 | ignored when `clientY > innerWidth / 2`; otherwise link 0 goes to the side of the press and that joystick is pressed |
| Joystick.VirtualJoystick.OnMouseMove | PeaksAndValleys/js/virtualjoystick.js:250-254 | moves link 0 |
| Joystick.VirtualJoystick.OnMouseUp | PeaksAndValleys/js/virtualjoystick.js:256-260 | releases link 0 |
| Joystick.VirtualJoystick.HandleAll | PeaksAndValleys/js/virtualjoystick.js:288-290 | each changed touch is handled in order |
| Joystick.VirtualJoystick.OnTouchStart | PeaksAndValleys/js/virtualjoystick.js:263-295 | ignored with more than two touches or none changed; otherwise the first touch is linked to its side and every changed touch presses its joystick; links stay 0 or 1 |
| Joystick.VirtualJoystick.OnTouchMove | PeaksAndValleys/js/virtualjoystick.js:298-318 | ignored with more than two touches; otherwise every changed touch drags its joystick |
| Joystick.VirtualJoystick.OnTouchEnd | PeaksAndValleys/js/virtualjoystick.js:320-340 | ignored with more than two touches; otherwise every changed touch releases its joystick |
| Joystick.Route | PeaksAndValleys/js/virtualjoystick.js:154 | a link that was written names one of the touch points |
| Joystick.Apply | PeaksAndValleys/js/virtualjoystick.js:154-172 | a handler keeps the number of touch points |
| Joystick.ApplyAll | PeaksAndValleys/js/virtualjoystick.js:288-290 | the loop keeps the number of touch points |
| Joystick.Side | PeaksAndValleys/js/virtualjoystick.js:240-246 | the side is 0 or 1, and 0 iff the point is left of the middle |
| Joystick.DeltaX | PeaksAndValleys/js/virtualjoystick.js:133-137 | the stick sits at the base plus `deltaX` horizontally |
| Joystick.DeltaY | PeaksAndValleys/js/virtualjoystick.js:142-146 | the stick sits at the base plus `deltaY` vertically |
| Joystick.PressCentresStick | PeaksAndValleys/js/virtualjoystick.js:151-161 | just after a press both deltas are 0 |
| Joystick.MoveDragsStick | PeaksAndValleys/js/virtualjoystick.js:178-189 | a move changes only a pressed point's stick, whose deltas become the finger's offset from the base; an unpressed point is untouched |
| Joystick.ReleaseCentresStick | PeaksAndValleys/js/virtualjoystick.js:198-209 | after a release the point is unpressed and both deltas are 0 |
| Joystick.ApplyChangesOnlyTarget | PeaksAndValleys/js/virtualjoystick.js:154 | a handler changes at most the touch point its link names |
| Joystick.MovesKeepPressAndBase | PeaksAndValleys/js/virtualjoystick.js:311-313 | moves never press, release or move a base |
| Joystick.EndReleasesLinked | PeaksAndValleys/js/virtualjoystick.js:333-335 | a touch end releases exactly the joysticks its touches are linked to |
| Freewill.Contains | PeaksAndValleys/js/Freewill.js:370-376 | true iff the point lies in the closed trigger rectangle: each early `return false` is one edge test |
| Freewill.ContainsIsUtilsContains | PeaksAndValleys/js/Freewill.js:370-376 | the closed-rectangle test, the same function as `Utils.contains` |
| Freewill.NewJoystickDefaults | PeaksAndValleys/js/Freewill.js:143-165 | identifier -1, velocity 0, direction 0, opacity low; position, trigger and opacities take their defaults |
| Freewill.NewButtonDefaults | PeaksAndValleys/js/Freewill.js:311-327 | identifier -1, opacity low; trigger and opacities take their defaults |
| Freewill.ShortenedLength | PeaksAndValleys/js/Freewill.js:212-221 | the rescaled offset has length `_r` |
| Freewill.ShortenedParallel | PeaksAndValleys/js/Freewill.js:212-221 | the rescaled offset points the same way as the touch |
| Freewill.PadLength | PeaksAndValleys/js/Freewill.js:205-227 | the velocity has length `min(r, 40)` in the touch's direction |
| Freewill.DirectionInRange | PeaksAndValleys/js/Freewill.js:235 | with `atan2` in `(-π, π]` the direction is one of 0..7 |
| Freewill.DirectionWest | PeaksAndValleys/js/Freewill.js:235 | direction 0 covers exactly the sector beyond `7π/8` either way |
| Freewill.TouchStart | PeaksAndValleys/js/Freewill.js:168-198 | the control shows at full opacity and keeps its owner, kind and trigger; a free joystick is centred on the touch, with `x, y` at the point and `left, top` half the base image away |
| Freewill.TouchMove | PeaksAndValleys/js/Freewill.js:200-247 | a button is unchanged; a joystick keeps its owner, trigger, opacity and position, and only its velocity and direction change |
| Freewill.TouchEnd | PeaksAndValleys/js/Freewill.js:249-265 | the control fades to its low opacity and keeps its owner and trigger; a joystick's velocity becomes `[0, 0]` and its centre stays |
| Freewill.TouchAtCentre | PeaksAndValleys/js/Freewill.js:205-235 | a touch at the centre gives velocity `[0, 0]` through the NaN guard, pointing East |
| Freewill.TouchEndStops | PeaksAndValleys/js/Freewill.js:249-265 | a touch end stops the joystick and fades it to the low opacity |
| Freewill.RouteAll | PeaksAndValleys/js/Freewill.js:50-100 | the listeners keep the number of controls |
| Freewill.Freewill.constructor | PeaksAndValleys/js/Freewill.js:24-43 | no controls |
| Freewill.Freewill.AddJoystick | PeaksAndValleys/js/Freewill.js:117-277 | with `imageBase`, `imagePad` and `fixed` given, one new joystick is appended; otherwise nothing |
| Freewill.Freewill.AddButton | PeaksAndValleys/js/Freewill.js:289-367 | with `image` and `pos` given, one new button is appended; otherwise nothing |
| Freewill.Freewill.Listen | PeaksAndValleys/js/Freewill.js:47-101 | the listeners route each changed touch to every control in turn |
| Freewill.StartClaimsContaining | PeaksAndValleys/js/Freewill.js:50-61 | every control whose trigger contains the touch takes its identifier, overlapping ones alike; the others are untouched |
| Freewill.MovesKeepOwners | PeaksAndValleys/js/Freewill.js:71-80 | moves never change which touch owns a control |
| Freewill.MoveReachesOnlyOwned | PeaksAndValleys/js/Freewill.js:71-80 | a move reaches only the controls its touch owns |
| Freewill.EndReleasesOwned | PeaksAndValleys/js/Freewill.js:90-100 | a touch end releases and stops every control it owns; the others keep their owner and state |
| Cube.NewCube | PeaksAndValleys/js/GLCube.js:26-90 | the yellow box of the given extents as vertex, index and colour buffers; its lemmas `NewCubeSizes`, `FaceUsesOwnVertices`, `IndicesInRange`, `FaceInPlane`, `CoordinateOnBox` and `AllYellow` state what it promises |
| Cube.NewCubeSizes | PeaksAndValleys/js/GLCube.js:36-87 | 72 vertex values, 36 indices and 96 colour values, matching `numItems * itemSize`; at the origin, unrotated |
| Cube.FaceUsesOwnVertices | PeaksAndValleys/js/GLCube.js:51-58 | face `k` is two triangles on its own vertices `4k .. 4k + 3` |
| Cube.IndicesInRange | PeaksAndValleys/js/GLCube.js:51-63 | every index is below 24 |
| Cube.FaceInPlane | PeaksAndValleys/js/GLCube.js:28-43 | the four vertices of a face share the coordinate of its plane |
| Cube.CoordinateOnBox | PeaksAndValleys/js/GLCube.js:28-43 | every coordinate is plus or minus the half-extent of its axis |
| Cube.AllYellow | PeaksAndValleys/js/GLCube.js:71-78 | every vertex has the colour `(0.8, 1.0, 0.1, 1.0)` |
| Cube.FlattenLength | PeaksAndValleys/js/GLCube.js:36-58 | a table of uniform rows has `width` entries per row |
| Cube.FlattenAt | PeaksAndValleys/js/GLCube.js:36-58 | entry `j` of row `k` sits at `width k + j` of the flat table |
| Skybox.NewSkybox | PeaksAndValleys/js/GLSkybox.js:26-98 | the unit box with the six faces mapped onto the tiles of the sky texture; its lemmas `NewSkyboxSizes`, `SkyboxIsCube`, `FaceTextureIsTile`, `TilesDistinct` and `UvInUnitSquare` state what it promises |
| Skybox.NewSkyboxSizes | PeaksAndValleys/js/GLSkybox.js:33-95 | 72 vertex values, 36 indices and 48 texture values, matching `numItems * itemSize`; at the origin, unrotated |
| Skybox.SkyboxIsCube | PeaksAndValleys/js/GLSkybox.js:33-49 | the vertex and index tables are those of `GLCube` with size 2 (half-extent 1), in the same face order, so the cube's index, face and coordinate lemmas hold for the sky |
| Skybox.FaceTextureIsTile | PeaksAndValleys/js/GLSkybox.js:51-70 | each face is textured with its own tile of the cross-shaped image |
| Skybox.TilesDistinct | PeaksAndValleys/js/GLSkybox.js:51-62 | the six tiles lie in the 4 x 4 grid and are pairwise distinct |
| Skybox.UvInUnitSquare | PeaksAndValleys/js/GLSkybox.js:63-70 | every texture coordinate lies in `[0, 1]` |

## Left out

- Floating point: the model computes over exact reals. IEEE rounding, `Float32Array` precision and the exact `Math.round` are not modelled. `dec5` is round-half-up to five decimals. The `Uint16Array` conversion is covered only by the bound `TerrainWorker.WindowIndicesFitUint16`.
- `Math.cos`, `Math.sin`, `Math.sqrt` and `Math.atan2` are parameters. The model assumes only what the proofs need of them: the square root's defining equation, the cosine's range `[-1, 1]` and the range `(-π, π]` of `atan2`. `RAD2DEG` and `π` are named constants.
- I/O is outside the model:
  - reading `config.json` and the PNG, and writing `terrain.json`;
  - XMLHttpRequest and `Image` loading, and the loader's `start` and callbacks;
  - the Worker transport, `postMessage` and the 3000 ms `setTimeout`, which become request and reply values.
- Drawing is outside the model: every `gl.*` call, the shaders, the matrices and render methods, canvas and DOM styles, sound, the particle velocities (`Math.random`), and the user's `onTouch*` callbacks.
- `console.log` in `try`/`catch` blocks is left out. A handler whose access throws is modelled as changing nothing.
- `Geometry.NewWall`: only the two angles and the depth `-z` are modelled. The quad's position and orientation come from trigonometry and are not.
- `Geometry.Cylinder.PastLastWall`: the source reads the global `cylinder` instead of `this`. The global is a parameter here, and the property is stated for the case where the two are the same object.
- `Geometry.Cylinder.constructor`: `subdivs > 0` is required. With `subdivs = 0` the source divides by zero and produces NaN angles and texture coordinates, which are not modelled.
- `Preprocessor.Dowork`: the `Config` fields are integers where the source reads numbers from JSON. Grid dimensions and `av_n` are taken as whole numbers.
- `Preprocessor.Dowork` requires `ValidInput`: `d_x, d_z > 0`, `0 <= av_n <= d_x`, `av_n <= d_z` and exactly `4 d_x d_z` image bytes. The source takes any config and image. The model does not cover what it does outside these limits, and models NaN only for the normals:
  - with `d_x <= 0` or `d_z <= 0` its loops do not run and it writes empty arrays;
  - with a negative `av_n` the box is empty and every height is `0 / 0`, NaN;
  - with `av_n` above a grid size, or a short image, one fold does not bring the read back into the image, so it reads the wrong pixel or `undefined`, and the heights become NaN.
- `Freewill.NewJoystickDefaults`: a joystick's `x` and `y` are `undefined` before its first touch. The model starts them at 0 instead; every path that reads them (a start, then moves) writes them first.
- `Freewill.PadLength`: `r` is tied to the square root through its hypothesis `r * r == dx * dx + dy * dy` rather than through the `sqrt` parameter.
- `Freewill.Freewill.AddJoystick` and `Freewill.Freewill.AddButton`: the image `onload` chain is treated as having completed, so the control is appended at once.
- `Events.Input.HandleInput`: `ball` and `cylinder` are globals in the source and parameters here. The accelerometer reading is a parameter too.
- `Terrain.TerrainRenderer.Update`: `working` is a property of the worker object in the source. The renderer keeps it here, with a ghost count of outstanding requests.
- `Terrain.GetYRepeatsAlong` and `Terrain.PickRepeatsAlong` require an even grid height. With an odd height the row parity flips one grid height further on, so the two triangles swap.
- `TerrainWorker.ValidGrid` requires a non-zero `tileSize`, and so do `Terrain.GetY`, its lemmas, `Terrain.TerrainRenderer.Update` and `TerrainWorker.Worker.Update`. The preprocessor copies `s_xz` into the asset without checking it. With a zero tile size the source computes `Math.floor(px / 0)`, which is infinite. The fold loops of `clamp` (`GLTerrainWorker.js` and `Utils.js`) then never end, and at `px = 0` the read is `undefined`, which gives NaN. The model does not cover this case.
- `TerrainWorker.Worker.Update` requires `Ready()`, which includes `offset >= 0`. With a negative offset the worker script's loops do not run and it replies with empty arrays. The only caller sends offset 60 (`GLTerrain.js`), so that case is not modelled.
- `Utils.Clamp` and `TerrainWorker.Clamp` are modelled on `int`, which is how every caller uses them (cell coordinates). The same loops on fractional reals are not modelled.
- `Joystick.VirtualJoystick.OnTouchStart`: touches press their joystick at `pageX`/`pageY` and pick a side by `clientX`, as the source does. The two are taken as given values.

## Findings

| source | as written | input that shows it | evidently intended | confidence | as-written member | corrected member |
|---|---|---|---|---|---|---|
| PeaksAndValleys/tools/preprocessor/dowork.js:108-113 | each neighbour read adds `1.0` to the flat index `z d_x + x` after clamping | vertex (x, z) = (d_x - 1, d_z - 1): the right neighbour index is `(d_z - 1) d_x + (d_x - 1) + 1 = d_x d_z`, one past the last height; the read is `undefined`, so the normals of (d_x-2, d_z-1), (d_x-1, d_z-1) and (d_x-1, d_z-2) are NaN | read each neighbour at its own index `z d_x + x`, which always lies inside the heights | high (proved in the model; not executed) | Preprocessor.NormalsAtEndAreNaN | Preprocessor.CorrectedNormalIsFinite |
