/**
 * The terrain Web Worker (PeaksAndValleys/js/GLTerrainWorker.js).
 *
 * `init` stores the heightmap; `update` takes a camera position, finds the cell
 * under it, walks a square window of `tiles = 2 * offset + 1` vertices per side,
 * samples heights and normals from the heightmap with wrapped indices, and builds
 * a boustrophedon TRIANGLE_STRIP index list over the window.
 *
 * Grid indices are `int`, coordinates and heights `real`. The reply that `update`
 * posts after its 3000 ms timer is the value the `Update` method returns.
 */
module TerrainWorker {
  import Utils

  /** The heightmap as the worker stores it: vertex counts, tile size, heights and normals. */
  datatype Grid = Grid(width: int, height: int, tileSize: real, heights: seq<real>, normals: seq<real>)

  /** A heightmap as the preprocessor writes it: one height and three normal components per vertex. */
  predicate ValidGrid(g: Grid)
  {
    && g.width > 0 && g.height > 0 && g.tileSize != 0.0
    && |g.heights| == g.width * g.height
    && |g.normals| == 3 * (g.width * g.height)
  }

  /** Vertex, normal and index data of one window, as `update` posts them back. */
  datatype Mesh = Mesh(vertices: seq<real>, normals: seq<real>, indices: seq<int>)

  /** Messages the main thread posts to the worker. */
  datatype Request =
    | InitRequest(width: int, height: int, tileSize: real, vertices: seq<real>, normals: seq<real>, offset: int)
    | UpdateRequest(px: real, pz: real)
    | OtherRequest

  /** Messages the worker posts back. */
  datatype Reply = InitComplete | UpdateComplete(mesh: Mesh)

  /** The largest index value a `Uint16Array` can hold, plus one. */
  const Uint16Limit: int := 65536

  lemma MulLeft(a: int, b: int, c: int)
    requires 0 <= c && a <= b
    ensures a * c <= b * c
  {
    assert (b - a) * c >= 0;
  }

  /** A row and column in range give a flat index in range. */
  lemma FlatIndexInRange(row: int, col: int, width: int, height: int)
    requires 0 <= row < height && 0 <= col < width
    ensures 0 <= row * width + col < width * height
  {
    MulLeft(row, height - 1, width);
    assert (height - 1) * width == width * height - width;
  }

  /** The heightmap index `update` reads for window column `x` and row `z`: both are folded into the grid. */
  function HeightIndex(g: Grid, x: int, z: int): int
    requires g.width > 0 && g.height > 0
  {
    Utils.Wrap(z, 0, g.height) * g.width + Utils.Wrap(x, 0, g.width)
  }

  /**
   * For any window cell, however far outside the grid, the height read is inside
   * the heightmap and the three normal components after it are inside the normal
   * array.
   */
  lemma HeightIndexInRange(g: Grid, x: int, z: int)
    requires g.width > 0 && g.height > 0
    ensures 0 <= HeightIndex(g, x, z) < g.width * g.height
    ensures 3 * HeightIndex(g, x, z) + 2 < 3 * (g.width * g.height)
  {
    FlatIndexInRange(Utils.Wrap(z, 0, g.height), Utils.Wrap(x, 0, g.width), g.width, g.height);
  }

  /** Position emitted for grid vertex (x, z): unwrapped world x and z, wrapped height. */
  function VertexAt(g: Grid, x: int, z: int): seq<real>
    requires ValidGrid(g)
  {
    HeightIndexInRange(g, x, z);
    [x as real * g.tileSize, g.heights[HeightIndex(g, x, z)], z as real * g.tileSize]
  }

  /** Normal emitted for grid vertex (x, z), read at the wrapped index. */
  function NormalAt(g: Grid, x: int, z: int): seq<real>
    requires ValidGrid(g)
  {
    var i := HeightIndex(g, x, z);
    HeightIndexInRange(g, x, z);
    [g.normals[3 * i], g.normals[3 * i + 1], g.normals[3 * i + 2]]
  }

  /** Positions of the first `n` vertices of row `z`, starting at column `x0`. */
  function RowVertices(g: Grid, x0: int, z: int, n: nat): seq<real>
    requires ValidGrid(g)
  {
    if n == 0 then [] else RowVertices(g, x0, z, n - 1) + VertexAt(g, x0 + n - 1, z)
  }

  /** Normals of the first `n` vertices of row `z`, starting at column `x0`. */
  function RowNormals(g: Grid, x0: int, z: int, n: nat): seq<real>
    requires ValidGrid(g)
  {
    if n == 0 then [] else RowNormals(g, x0, z, n - 1) + NormalAt(g, x0 + n - 1, z)
  }

  /** Positions of `rows` whole rows of `tiles` vertices, the first at (x0, z0). */
  function WindowVertices(g: Grid, x0: int, z0: int, tiles: nat, rows: nat): seq<real>
    requires ValidGrid(g)
  {
    if rows == 0 then []
    else WindowVertices(g, x0, z0, tiles, rows - 1) + RowVertices(g, x0, z0 + rows - 1, tiles)
  }

  /** Normals of `rows` whole rows of `tiles` vertices, the first at (x0, z0). */
  function WindowNormals(g: Grid, x0: int, z0: int, tiles: nat, rows: nat): seq<real>
    requires ValidGrid(g)
  {
    if rows == 0 then []
    else WindowNormals(g, x0, z0, tiles, rows - 1) + RowNormals(g, x0, z0 + rows - 1, tiles)
  }

  /**
   * JavaScript's `%` on integers with a positive divisor: the remainder takes the
   * sign of the dividend.
   */
  function JsRem(a: int, b: int): (r: int)
    requires b > 0
    ensures a >= 0 ==> 0 <= r < b
    ensures a < 0 ==> -b < r <= 0
  {
    if a >= 0 then a % b else -((-a) % b)
  }

  /**
   * JavaScript's `z % 2 === 0` and Euclidean `z % 2 == 0` agree on every integer,
   * negative ones included, although the remainders differ for negative odd `z`.
   */
  lemma JsEvenIsEven(z: int)
    ensures JsRem(z, 2) == 0 <==> z % 2 == 0
    ensures z < 0 && z % 2 == 1 ==> JsRem(z, 2) == -1
  {
    if z < 0 {
      Utils.DivModUnique(-z, 2, (-z) / 2, (-z) % 2);
      Utils.DivModUnique(z, 2, -((-z) / 2) - (-z) % 2, (-z) % 2);
    }
  }

  /**
   * The two indices emitted at window column `mx` of window row `mz`: the vertex
   * in this row and the one below it, read left to right when the absolute row `z`
   * is even and right to left when it is odd.
   */
  function StripPair(tiles: int, mz: int, mx: int, z: int): seq<int>
  {
    var c := if JsRem(z, 2) == 0 then mx else tiles - mx - 1;
    [mz * tiles + c, (mz + 1) * tiles + c]
  }

  /** Indices of the first `n` columns of window row `mz` (absolute row `z`). */
  function RowIndices(tiles: int, mz: int, z: int, n: nat): seq<int>
  {
    if n == 0 then [] else RowIndices(tiles, mz, z, n - 1) + StripPair(tiles, mz, n - 1, z)
  }

  /** Indices of the first `rows` window rows, the first at absolute row `z0`. */
  function Strip(tiles: nat, z0: int, rows: nat): seq<int>
  {
    if rows == 0 then []
    else Strip(tiles, z0, rows - 1) + RowIndices(tiles, rows - 1, z0 + rows - 1, tiles)
  }

  /** The centre cell of a camera coordinate: `Math.floor(p / tileSize)`. */
  function CentreCell(p: real, tileSize: real): int
    requires tileSize != 0.0
  {
    (p / tileSize).Floor
  }

  lemma MulRealMono(a: real, b: real, c: real)
    requires a < b && c > 0.0
    ensures a * c < b * c
  {
    assert (b - a) * c > 0.0;
  }

  /** With a positive tile size the centre cell is the tile the camera coordinate lies in. */
  lemma CentreCellContains(p: real, tileSize: real)
    requires tileSize > 0.0
    ensures CentreCell(p, tileSize) as real * tileSize <= p
    ensures p < (CentreCell(p, tileSize) + 1) as real * tileSize
  {
    var q := p / tileSize;
    var n := CentreCell(p, tileSize);
    assert q * tileSize == p;
    if n as real < q {
      MulRealMono(n as real, q, tileSize);
    }
    MulRealMono(q, (n + 1) as real, tileSize);
    assert q * tileSize < (n + 1) as real * tileSize;
    assert p < (n + 1) as real * tileSize;
  }

  /**
   * What `update` computes around centre cell (dx, dz): a `tiles` by `tiles` window
   * whose first vertex is `offset` cells before the centre on both axes, with index
   * rows for every window row but the last.
   */
  function Window(g: Grid, offset: nat, dx: int, dz: int): Mesh
    requires ValidGrid(g)
  {
    var tiles := 2 * offset + 1;
    Mesh(WindowVertices(g, dx - offset, dz - offset, tiles, tiles),
         WindowNormals(g, dx - offset, dz - offset, tiles, tiles),
         Strip(tiles, dz - offset, tiles - 1))
  }

  /** The sampled index is the Euclidean remainder formula, and it repeats with the grid. */
  lemma HeightIndexWraps(g: Grid, x: int, z: int)
    requires g.width > 0 && g.height > 0
    ensures HeightIndex(g, x, z) == (z % g.height) * g.width + x % g.width
    ensures HeightIndex(g, x + g.width, z) == HeightIndex(g, x, z)
    ensures HeightIndex(g, x, z + g.height) == HeightIndex(g, x, z)
  {
    Utils.WrapIsEuclideanMod(x, g.width);
    Utils.WrapIsEuclideanMod(z, g.height);
    Utils.WrapPeriodic(x, 0, g.width, 1);
    Utils.WrapPeriodic(z, 0, g.height, 1);
  }

  /** Each column of a row adds three position entries and three normal entries. */
  lemma {:induction false} RowLengths(g: Grid, x0: int, z: int, n: nat)
    requires ValidGrid(g)
    ensures |RowVertices(g, x0, z, n)| == 3 * n
    ensures |RowNormals(g, x0, z, n)| == 3 * n
  {
    if n > 0 {
      RowLengths(g, x0, z, n - 1);
    }
  }

  /** Each whole row of the window adds `3 * tiles` entries to both arrays. */
  lemma {:induction false} WindowLengths(g: Grid, x0: int, z0: int, tiles: nat, rows: nat)
    requires ValidGrid(g)
    ensures |WindowVertices(g, x0, z0, tiles, rows)| == 3 * (tiles * rows)
    ensures |WindowNormals(g, x0, z0, tiles, rows)| == 3 * (tiles * rows)
  {
    if rows > 0 {
      WindowLengths(g, x0, z0, tiles, rows - 1);
      RowLengths(g, x0, z0 + rows - 1, tiles);
      assert tiles * rows == tiles * (rows - 1) + tiles;
    }
  }

  /** Each column of a row block adds two indices. */
  lemma {:induction false} RowIndicesLength(tiles: int, mz: int, z: int, n: nat)
    ensures |RowIndices(tiles, mz, z, n)| == 2 * n
  {
    if n > 0 {
      RowIndicesLength(tiles, mz, z, n - 1);
    }
  }

  /** Each row block adds `2 * tiles` indices. */
  lemma {:induction false} StripLength(tiles: nat, z0: int, rows: nat)
    ensures |Strip(tiles, z0, rows)| == 2 * (tiles * rows)
  {
    if rows > 0 {
      StripLength(tiles, z0, rows - 1);
      RowIndicesLength(tiles, rows - 1, z0 + rows - 1, tiles);
      assert tiles * rows == tiles * (rows - 1) + tiles;
    }
  }

  /** A shorter row is a prefix of a longer one. */
  lemma {:induction false} RowPrefix(g: Grid, x0: int, z: int, m: nat, n: nat)
    requires ValidGrid(g) && m <= n
    ensures RowVertices(g, x0, z, m) <= RowVertices(g, x0, z, n)
    ensures RowNormals(g, x0, z, m) <= RowNormals(g, x0, z, n)
    decreases n
  {
    if m < n {
      RowPrefix(g, x0, z, m, n - 1);
    }
  }

  /** Fewer window rows are a prefix of more. */
  lemma {:induction false} WindowPrefix(g: Grid, x0: int, z0: int, tiles: nat, m: nat, n: nat)
    requires ValidGrid(g) && m <= n
    ensures WindowVertices(g, x0, z0, tiles, m) <= WindowVertices(g, x0, z0, tiles, n)
    ensures WindowNormals(g, x0, z0, tiles, m) <= WindowNormals(g, x0, z0, tiles, n)
    decreases n
  {
    if m < n {
      WindowPrefix(g, x0, z0, tiles, m, n - 1);
    }
  }

  /** Fewer columns of a row block are a prefix of more. */
  lemma {:induction false} RowIndicesPrefix(tiles: int, mz: int, z: int, m: nat, n: nat)
    requires m <= n
    ensures RowIndices(tiles, mz, z, m) <= RowIndices(tiles, mz, z, n)
    decreases n
  {
    if m < n {
      RowIndicesPrefix(tiles, mz, z, m, n - 1);
    }
  }

  /** Fewer row blocks are a prefix of more. */
  lemma {:induction false} StripPrefix(tiles: nat, z0: int, m: nat, n: nat)
    requires m <= n
    ensures Strip(tiles, z0, m) <= Strip(tiles, z0, n)
    decreases n
  {
    if m < n {
      StripPrefix(tiles, z0, m, n - 1);
    }
  }

  /** Column `c` of a row occupies entries `3c .. 3c + 2`. */
  lemma RowVertexAt(g: Grid, x0: int, z: int, n: nat, c: nat, k: nat)
    requires ValidGrid(g)
    requires c < n && k < 3
    ensures 3 * c + k < |RowVertices(g, x0, z, n)| && RowVertices(g, x0, z, n)[3 * c + k] == VertexAt(g, x0 + c, z)[k]
    ensures 3 * c + k < |RowNormals(g, x0, z, n)| && RowNormals(g, x0, z, n)[3 * c + k] == NormalAt(g, x0 + c, z)[k]
  {
    RowLengths(g, x0, z, c);
    RowStep(g, x0, z, c, x0 + c);
    RowPrefix(g, x0, z, c + 1, n);
  }

  /** Window vertex (c, r), at cell (x, z), occupies entries `3 (r tiles + c) .. 3 (r tiles + c) + 2`. */
  lemma WindowVertexAt(g: Grid, x0: int, z0: int, tiles: nat, rows: nat, r: nat, c: nat, k: nat, x: int, z: int, i: int)
    requires ValidGrid(g)
    requires r < rows && c < tiles && k < 3
    requires x == x0 + c && z == z0 + r && i == 3 * (r * tiles + c) + k
    ensures i < |WindowVertices(g, x0, z0, tiles, rows)| && WindowVertices(g, x0, z0, tiles, rows)[i] == VertexAt(g, x, z)[k]
    ensures i < |WindowNormals(g, x0, z0, tiles, rows)| && WindowNormals(g, x0, z0, tiles, rows)[i] == NormalAt(g, x, z)[k]
  {
    WindowLengths(g, x0, z0, tiles, r);
    RowVertexAt(g, x0, z, tiles, c, k);
    WindowStep(g, x0, z0, tiles, r, z);
    WindowPrefix(g, x0, z0, tiles, r + 1, rows);
    assert i == 3 * (tiles * r) + (3 * c + k);
  }

  /** Pair `mx` of a row block occupies entries `2 mx` and `2 mx + 1` of it. */
  lemma RowIndexAt(tiles: int, mz: int, z: int, n: nat, mx: nat, j: nat)
    requires mx < n && j < 2
    ensures 2 * mx + j < |RowIndices(tiles, mz, z, n)|
    ensures RowIndices(tiles, mz, z, n)[2 * mx + j] == StripPair(tiles, mz, mx, z)[j]
  {
    RowIndicesLength(tiles, mz, z, mx);
    IndexStep(tiles, mz, z, mx);
    RowIndicesPrefix(tiles, mz, z, mx + 1, n);
  }

  /**
   * Row block `mz` of the strip emits its pairs at `2 (mz tiles + mx)`:
   * `(mz tiles + c, (mz + 1) tiles + c)` with `c` ascending on even absolute rows
   * and descending on odd ones.
   */
  lemma StripIndexAt(tiles: nat, z0: int, rows: nat, mz: nat, mx: nat, j: nat)
    requires mz < rows && mx < tiles && j < 2
    ensures 2 * (mz * tiles + mx) + j < |Strip(tiles, z0, rows)|
    ensures Strip(tiles, z0, rows)[2 * (mz * tiles + mx) + j] == StripPair(tiles, mz, mx, z0 + mz)[j]
  {
    var pre, row := Strip(tiles, z0, mz), RowIndices(tiles, mz, z0 + mz, tiles);
    StripLength(tiles, z0, mz);
    RowIndexAt(tiles, mz, z0 + mz, tiles, mx, j);
    assert Strip(tiles, z0, mz + 1) == pre + row;
    StripPrefix(tiles, z0, mz + 1, rows);
    var i, k := 2 * (mz * tiles + mx) + j, 2 * mx + j;
    assert i == |pre| + k;
    assert (pre + row)[i] == row[k];
  }

  /**
   * `update` emits one position and one normal per window vertex, `tiles * tiles`
   * of them, and two indices per vertex of every row but the last.
   */
  lemma WindowSizes(g: Grid, offset: nat, dx: int, dz: int)
    requires ValidGrid(g)
    ensures |Window(g, offset, dx, dz).vertices| == 3 * ((2 * offset + 1) * (2 * offset + 1))
    ensures |Window(g, offset, dx, dz).normals| == 3 * ((2 * offset + 1) * (2 * offset + 1))
    ensures |Window(g, offset, dx, dz).indices| == 2 * ((2 * offset + 1) * (2 * offset))
  {
    WindowLengths(g, dx - offset, dz - offset, 2 * offset + 1, 2 * offset + 1);
    StripLength(2 * offset + 1, dz - offset, 2 * offset);
  }

  /**
   * Positions are not wrapped, only the samples are: window vertex (mx, mz) sits at
   * the world position of grid cell (dx - offset + mx, dz - offset + mz), with
   * `dx`, `dz` the centre cells, and carries the height and the normal stored at
   * the folded heightmap index.
   */
  lemma WindowVertex(g: Grid, offset: nat, dx: int, dz: int, mx: nat, mz: nat, k: nat, x: int, z: int, i: int)
    requires ValidGrid(g)
    requires mx < 2 * offset + 1 && mz < 2 * offset + 1 && k < 3
    requires x == dx - offset + mx
    requires z == dz - offset + mz
    requires i == 3 * (mz * (2 * offset + 1) + mx) + k
    ensures i < |Window(g, offset, dx, dz).vertices| && Window(g, offset, dx, dz).vertices[i] == VertexAt(g, x, z)[k]
    ensures i < |Window(g, offset, dx, dz).normals| && Window(g, offset, dx, dz).normals[i] == NormalAt(g, x, z)[k]
  {
    WindowVertexAt(g, dx - offset, dz - offset, 2 * offset + 1, 2 * offset + 1, mz, mx, k, x, z, i);
  }

  /**
   * The terrain repeats: a window cell one grid width or height further on carries
   * the same height and normal.
   */
  lemma SamplesRepeat(g: Grid, x: int, z: int)
    requires ValidGrid(g)
    ensures VertexAt(g, x + g.width, z)[1] == VertexAt(g, x, z)[1]
    ensures VertexAt(g, x, z + g.height)[1] == VertexAt(g, x, z)[1]
    ensures NormalAt(g, x + g.width, z) == NormalAt(g, x, z)
    ensures NormalAt(g, x, z + g.height) == NormalAt(g, x, z)
  {
    HeightIndexWraps(g, x, z);
  }

  /**
   * Both indices of a pair name window vertices, the second directly below the
   * first, when the pair belongs to a row block with a row below it.
   */
  lemma StripPairBounds(tiles: int, mz: int, mx: int, z: int)
    requires 0 <= mz < tiles - 1 && 0 <= mx < tiles
    ensures var p := StripPair(tiles, mz, mx, z);
            && |p| == 2 && p[1] == p[0] + tiles
            && 0 <= p[0] && p[1] < tiles * tiles
  {
    MulLeft(mz + 1, tiles - 1, tiles);
    assert (tiles - 1) * tiles + tiles == tiles * tiles;
  }

  /** Every index of a row block with a row below it names a window vertex. */
  lemma {:induction false} RowIndicesBounded(tiles: int, mz: int, z: int, n: nat, i: nat)
    requires 0 <= mz < tiles - 1 && n <= tiles
    requires i < |RowIndices(tiles, mz, z, n)|
    ensures 0 <= RowIndices(tiles, mz, z, n)[i] < tiles * tiles
  {
    RowIndicesLength(tiles, mz, z, n - 1);
    if i < 2 * (n - 1) {
      RowIndicesBounded(tiles, mz, z, n - 1, i);
    } else {
      StripPairBounds(tiles, mz, n - 1, z);
    }
  }

  /** Every index of the first `rows` row blocks names a vertex of the window. */
  lemma {:induction false} StripBounded(tiles: nat, z0: int, rows: nat, i: nat)
    requires rows <= tiles - 1
    requires i < |Strip(tiles, z0, rows)|
    ensures 0 <= Strip(tiles, z0, rows)[i] < tiles * tiles
  {
    var prev := Strip(tiles, z0, rows - 1);
    if i < |prev| {
      StripBounded(tiles, z0, rows - 1, i);
    } else {
      RowIndicesBounded(tiles, rows - 1, z0 + rows - 1, tiles, i - |prev|);
    }
  }

  /**
   * The strip stays connected across row blocks: the last index of block `mz`
   * is the first index of block `mz + 1`, because consecutive absolute rows
   * have opposite parity and therefore opposite directions.
   */
  lemma StripTurn(tiles: nat, z0: int, rows: nat, mz: nat)
    requires 0 < tiles && mz + 1 < rows
    ensures 2 * ((mz + 1) * tiles) < |Strip(tiles, z0, rows)|
    ensures Strip(tiles, z0, rows)[2 * (mz * tiles + (tiles - 1)) + 1] == Strip(tiles, z0, rows)[2 * ((mz + 1) * tiles)]
  {
    StripIndexAt(tiles, z0, rows, mz, tiles - 1, 1);
    StripIndexAt(tiles, z0, rows, mz + 1, 0, 0);
    assert (mz + 1) * tiles + 0 == (mz + 1) * tiles;
    JsEvenIsEven(z0 + mz);
    JsEvenIsEven(z0 + mz + 1);
  }

  /**
   * The index list is handed to a `Uint16Array`. With `offset <= 127` every index
   * is below 65536, so the conversion keeps every value; the terrain uses offset 60.
   */
  lemma WindowIndicesFitUint16(g: Grid, offset: nat, dx: int, dz: int, i: nat)
    requires ValidGrid(g) && offset <= 127
    requires i < |Window(g, offset, dx, dz).indices|
    ensures 0 <= Window(g, offset, dx, dz).indices[i] < Uint16Limit
  {
    var tiles := 2 * offset + 1;
    StripBounded(tiles, dz - offset, tiles - 1, i);
    MulLeft(tiles, 255, tiles);
    MulLeft(tiles, 255, 255);
  }

  /**
   * `self.clamp`, the worker's own copy of `Utils.clamp` (a worker cannot load
   * Utils.js); it computes the same fold.
   */
  method Clamp(val: int, low: int, high: int) returns (r: int)
    requires low < high
    ensures low <= r < high
    ensures low <= val < high ==> r == val
    ensures r == low + (val - low) % (high - low)
    ensures r == Utils.Wrap(val, low, high)
  {
    var d := high - low;
    r := val;
    while r < low
      invariant Utils.Wrap(r, low, high) == Utils.Wrap(val, low, high)
      decreases low - r
    {
      r := r + d;
    }
    while r >= high
      invariant low <= r
      invariant Utils.Wrap(r, low, high) == Utils.Wrap(val, low, high)
      decreases r - low
    {
      r := r - d;
    }
    Utils.WrapIsRemainder(val, low, high);
  }

  /** One more column of row `z`. */
  lemma RowStep(g: Grid, x0: int, z: int, n: nat, x: int)
    requires ValidGrid(g) && x == x0 + n
    ensures RowVertices(g, x0, z, n + 1) == RowVertices(g, x0, z, n) + VertexAt(g, x, z)
    ensures RowNormals(g, x0, z, n + 1) == RowNormals(g, x0, z, n) + NormalAt(g, x, z)
  {
  }

  /** One more column of index row `mz`. */
  lemma IndexStep(tiles: int, mz: int, z: int, n: nat)
    ensures RowIndices(tiles, mz, z, n + 1) == RowIndices(tiles, mz, z, n) + StripPair(tiles, mz, n, z)
  {
  }

  /** One more row of the window. */
  lemma WindowStep(g: Grid, x0: int, z0: int, tiles: nat, rows: nat, z: int)
    requires ValidGrid(g) && z == z0 + rows
    ensures WindowVertices(g, x0, z0, tiles, rows + 1) == WindowVertices(g, x0, z0, tiles, rows) + RowVertices(g, x0, z, tiles)
    ensures WindowNormals(g, x0, z0, tiles, rows + 1) == WindowNormals(g, x0, z0, tiles, rows) + RowNormals(g, x0, z, tiles)
    ensures Strip(tiles, z0, rows + 1) == Strip(tiles, z0, rows) + RowIndices(tiles, rows, z, tiles)
  {
  }

  /** Appending to a sequence built as `base + row` extends `row`. */
  lemma AppendStep<T>(base: seq<T>, row: seq<T>, item: seq<T>)
    ensures base + row + item == base + (row + item)
  {
  }

  /**
   * The inner step of `self.update` for column `x` of row `z`, whose folded row
   * `nz` the outer loop has already computed: fold `x`, read the height and the
   * normal at the flat index, and emit the unwrapped world position.
   */
  method SampleVertex(g: Grid, nz: int, x: int, z: int) returns (vertex: seq<real>, normal: seq<real>)
    requires ValidGrid(g)
    requires nz == Utils.Wrap(z, 0, g.height)
    ensures vertex == VertexAt(g, x, z)
    ensures normal == NormalAt(g, x, z)
  {
    var nx := Clamp(x, 0, g.width);
    var i := nz * g.width + nx;
    assert i == HeightIndex(g, x, z);
    HeightIndexInRange(g, x, z);
    vertex := [x as real * g.tileSize, g.heights[i], z as real * g.tileSize];
    assert VertexAt(g, x, z)[1] == g.heights[i];
    assert VertexAt(g, x, z)[0] == x as real * g.tileSize;
    assert VertexAt(g, x, z)[2] == z as real * g.tileSize;
    assert |VertexAt(g, x, z)| == 3;
    assert vertex == VertexAt(g, x, z);
    var n := i * 3;
    normal := [g.normals[n], g.normals[n + 1], g.normals[n + 2]];
  }

  /**
   * One pass of the outer loop of `self.update`, for window row `mz` (absolute
   * row `z`): fold `z` into the grid, then push a position and a normal for each of the `tiles` columns from
   * `x0` on and, unless this is the last window row, two strip indices per column.
   */
  method SampleRow(g: Grid, tiles: nat, x0: int, mz: int, z: int,
                   verts: seq<real>, norms: seq<real>, indices: seq<int>)
    returns (verts': seq<real>, norms': seq<real>, indices': seq<int>)
    requires ValidGrid(g)
    ensures verts' == verts + RowVertices(g, x0, z, tiles)
    ensures norms' == norms + RowNormals(g, x0, z, tiles)
    ensures mz < tiles - 1 ==> indices' == indices + RowIndices(tiles, mz, z, tiles)
    ensures mz >= tiles - 1 ==> indices' == indices
  {
    var nz := Clamp(z, 0, g.height);
    verts', norms', indices' := verts, norms, indices;
    var mx := 0;
    var x := x0;
    while x < x0 + tiles
      invariant 0 <= mx <= tiles && x == x0 + mx
      invariant verts' == verts + RowVertices(g, x0, z, mx)
      invariant norms' == norms + RowNormals(g, x0, z, mx)
      invariant mz < tiles - 1 ==> indices' == indices + RowIndices(tiles, mz, z, mx)
      invariant mz >= tiles - 1 ==> indices' == indices
    {
      var vertex, normal := SampleVertex(g, nz, x, z);
      RowStep(g, x0, z, mx, x);
      AppendStep(verts, RowVertices(g, x0, z, mx), vertex);
      verts' := verts' + vertex;
      AppendStep(norms, RowNormals(g, x0, z, mx), normal);
      norms' := norms' + normal;
      if mz < tiles - 1 {
        var pair := StripPair(tiles, mz, mx, z);
        IndexStep(tiles, mz, z, mx);
        AppendStep(indices, RowIndices(tiles, mz, z, mx), pair);
        indices' := indices' + pair;
      }
      mx := mx + 1;
      x := x + 1;
    }
  }

  /** One pass of the outer loop of `self.update`, stated against the whole window. */
  method NextRow(g: Grid, tiles: nat, x0: int, ghost z0: int, mz: nat, z: int,
                 verts: seq<real>, norms: seq<real>, indices: seq<int>)
    returns (verts': seq<real>, norms': seq<real>, indices': seq<int>)
    requires ValidGrid(g)
    requires z == z0 + mz && mz < tiles
    requires verts == WindowVertices(g, x0, z0, tiles, mz)
    requires norms == WindowNormals(g, x0, z0, tiles, mz)
    requires indices == Strip(tiles, z0, if mz < tiles - 1 then mz else tiles - 1)
    ensures verts' == WindowVertices(g, x0, z0, tiles, mz + 1)
    ensures norms' == WindowNormals(g, x0, z0, tiles, mz + 1)
    ensures indices' == Strip(tiles, z0, if mz + 1 < tiles - 1 then mz + 1 else tiles - 1)
  {
    WindowStep(g, x0, z0, tiles, mz, z);
    verts', norms', indices' := SampleRow(g, tiles, x0, mz, z, verts, norms, indices);
  }

  /**
   * The body of `self.update`: one pass of the outer loop per window row, the
   * rows from `offset` cells before the centre row to `offset` cells after it.
   */
  method SampleWindow(g: Grid, offset: nat, px: real, pz: real) returns (mesh: Mesh)
    requires ValidGrid(g)
    ensures mesh == Window(g, offset, CentreCell(px, g.tileSize), CentreCell(pz, g.tileSize))
  {
    var tiles := offset * 2 + 1;
    var verts: seq<real> := [];
    var norms: seq<real> := [];
    var indices: seq<int> := [];
    var dx := CentreCell(px, g.tileSize);
    var dz := CentreCell(pz, g.tileSize);
    var x0 := dx - offset;
    ghost var z0 := dz - offset;

    var mz := 0;
    var z := dz - offset;
    while z <= dz + offset
      invariant 0 <= mz <= tiles && z == z0 + mz
      invariant verts == WindowVertices(g, x0, z0, tiles, mz)
      invariant norms == WindowNormals(g, x0, z0, tiles, mz)
      invariant indices == Strip(tiles, z0, if mz < tiles - 1 then mz else tiles - 1)
    {
      verts, norms, indices := NextRow(g, tiles, x0, z0, mz, z, verts, norms, indices);
      mz := mz + 1;
      z := z + 1;
    }
    mesh := Mesh(verts, norms, indices);
  }

  /** The worker's global state: the `self.*` fields `init` stores. */
  class Worker {
    var vertices: seq<real>
    var normals: seq<real>
    var offset: int
    var tileSize: real
    var width: int
    var height: int
    var tiles: int

    /** The stored heightmap viewed as a grid. */
    function Heightmap(): Grid
      reads this
    {
      Grid(width, height, tileSize, vertices, normals)
    }

    /** After an `init` with a well-formed heightmap and a non-negative offset. */
    predicate Ready()
      reads this
    {
      ValidGrid(Heightmap()) && offset >= 0 && tiles == 2 * offset + 1
    }

    /** The placeholder values the worker script starts with. */
    constructor ()
      ensures vertices == [] && normals == []
      ensures offset == 0 && tileSize == 0.0 && width == 0 && height == 0
      ensures !Ready()
    {
      vertices := [];
      normals := [];
      offset := 0;
      tileSize := 0.0;
      width := 0;
      height := 0;
    }

    /** `self.init`: store the parameters, derive `tiles`, and announce completion. */
    method Init(width: int, height: int, tileSize: real, vertices: seq<real>, normals: seq<real>, offset: int)
      returns (reply: Reply)
      modifies this
      ensures this.width == width && this.height == height && this.tileSize == tileSize
      ensures this.vertices == vertices && this.normals == normals && this.offset == offset
      ensures this.tiles == 2 * offset + 1
      ensures reply == InitComplete
    {
      this.width := width;
      this.height := height;
      this.tileSize := tileSize;
      this.vertices := vertices;
      this.normals := normals;
      this.offset := offset;
      this.tiles := this.offset * 2 + 1;
      reply := InitComplete;
    }

    /** `self.update`: sample the window around (px, pz) from the stored heightmap. */
    method Update(px: real, pz: real) returns (reply: Reply)
      requires Ready()
      ensures reply == UpdateComplete(Window(Heightmap(), offset, CentreCell(px, tileSize), CentreCell(pz, tileSize)))
    {
      var mesh := SampleWindow(Heightmap(), offset, px, pz);
      reply := UpdateComplete(mesh);
    }

    /** The worker's `message` listener: dispatch on the command; other commands are ignored. */
    method OnMessage(msg: Request) returns (reply: Option<Reply>)
      requires msg.UpdateRequest? ==> Ready()
      modifies this
      ensures msg.InitRequest? ==> reply == Some(InitComplete) && Ready() == (ValidGrid(Grid(msg.width, msg.height, msg.tileSize, msg.vertices, msg.normals)) && msg.offset >= 0)
      ensures msg.UpdateRequest? ==> reply == Some(UpdateComplete(Window(old(Heightmap()), old(offset), CentreCell(msg.px, old(tileSize)), CentreCell(msg.pz, old(tileSize)))))
      ensures !msg.InitRequest? ==> unchanged(this)
      ensures msg.OtherRequest? ==> reply == None
    {
      match msg
      case InitRequest(w, h, s, v, n, o) =>
        var r := Init(w, h, s, v, n, o);
        reply := Some(r);
      case UpdateRequest(px, pz) =>
        var r := Update(px, pz);
        reply := Some(r);
      case OtherRequest =>
        reply := None;
    }
  }

  datatype Option<T> = None | Some(value: T)
}
