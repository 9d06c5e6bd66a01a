/**
 * The offline heightmap preprocessor (PeaksAndValleys/tools/preprocessor/dowork.js).
 *
 * `dowork` turns the green channel of a `d_x` by `d_z` RGBA image into the terrain
 * asset: a box-filtered height per vertex, a pair of texture coordinates per
 * vertex, and a normal per vertex from the cross product of two central
 * differences. Every stored value is rounded to five decimals by `dec5`.
 *
 * Reading the config file, decoding the PNG and writing the JSON file are left
 * out: the decoded pixel bytes and the config are the inputs, the JSON object is
 * the result. `Math.sqrt` is a parameter that meets `IsSqrt`.
 */
module Preprocessor {
  import Utils
  import TerrainWorker

  /** `config.json`: grid size, tile size, height scale, texture scale and smoothing radius. */
  datatype Config = Config(dx: int, dz: int, sxz: real, sy: real, st: real, avn: int)

  /** A JavaScript number as far as the normals need it: a real value or NaN. */
  datatype Num = Finite(value: real) | NaN

  /** The JSON object `dowork` writes. */
  datatype TerrainAsset = TerrainAsset(width: int, height: int, tileSize: real,
                                       vertices: seq<real>, coords: seq<real>, normals: seq<Num>)

  /** A three-component vector of the normal computation. */
  datatype Vec3 = Vec3(x: real, y: real, z: real)

  /**
   * Inputs `dowork` handles without reading outside the pixel buffer: a non-empty
   * grid, the decoded RGBA bytes of a `d_x` by `d_z` image, and a smoothing radius
   * that one fold brings back into the grid.
   */
  predicate ValidInput(cfg: Config, data: seq<int>)
  {
    && cfg.dx > 0 && cfg.dz > 0
    && 0 <= cfg.avn <= cfg.dx && cfg.avn <= cfg.dz
    && |data| == 4 * (cfg.dx * cfg.dz)
  }

  /**
   * What `Math.sqrt` returns for a non-negative argument: a non-negative root,
   * positive for a positive argument.
   */
  ghost predicate IsSqrt(sqrt: real -> real)
  {
    forall t: real {:trigger sqrt(t)} :: 0.0 <= t ==> 0.0 <= sqrt(t) && sqrt(t) * sqrt(t) == t && (0.0 < t ==> 0.0 < sqrt(t))
  }

  // ---------------------------------------------------------------- dec5

  /** `Math.round`: round half up. */
  function Round(w: real): int
  {
    (w + 0.5).Floor
  }

  /** `dec5`: round to five decimals, halves upwards. */
  function Dec5(v: real): real
  {
    Round(v * 100000.0) as real / 100000.0
  }

  /** `dec5` applied to a JavaScript number: NaN stays NaN. */
  function Dec5Num(n: Num): Num
  {
    match n
    case Finite(r) => Finite(Dec5(r))
    case NaN => NaN
  }

  /** Rounding to five decimals moves a value by at most half a unit of the fifth decimal. */
  lemma Dec5Close(v: real)
    ensures -0.000005 < Dec5(v) - v <= 0.000005
  {
    var w := v * 100000.0;
    assert w - 0.5 < Round(w) as real <= w + 0.5;
  }

  /** The result of `dec5` has at most five decimals. */
  lemma Dec5FiveDecimals(v: real)
    ensures (Dec5(v) * 100000.0).Floor as real == Dec5(v) * 100000.0
  {
    var k := Round(v * 100000.0);
    assert Dec5(v) * 100000.0 == k as real;
  }

  /** Values with at most five decimals are left alone, so rounding twice is rounding once. */
  lemma Dec5Fixes(k: int)
    ensures Dec5(k as real / 100000.0) == k as real / 100000.0
  {
    assert k as real / 100000.0 * 100000.0 == k as real;
    assert Round(k as real) == k;
  }

  /** `dec5` is idempotent. */
  lemma Dec5Idempotent(v: real)
    ensures Dec5(Dec5(v)) == Dec5(v)
  {
    Dec5Fixes(Round(v * 100000.0));
  }

  /** `dec5` keeps the order of its arguments. */
  lemma Dec5Monotone(a: real, b: real)
    requires a <= b
    ensures Dec5(a) <= Dec5(b)
  {
    var wa := a * 100000.0 + 0.5;
    var wb := b * 100000.0 + 0.5;
    assert wa <= wb;
    assert wa.Floor <= wb.Floor;
  }

  // ---------------------------------------------------------------- smoothing

  /** The single fold of the smoothing loops: one period up below the grid, one down above it. */
  function Fold(n: int, d: int): int
  {
    if n < 0 then n + d else if n >= d then n - d else n
  }

  /**
   * One fold is enough for coordinates at most one grid size outside the grid,
   * and there it agrees with `Utils.clamp`.
   */
  lemma FoldInRange(n: int, d: int)
    requires -d <= n < 2 * d
    ensures 0 <= Fold(n, d) < d
    ensures Fold(n, d) == Utils.Wrap(n, 0, d)
  {
    if n < 0 {
      assert Utils.Wrap(n + d, 0, d) == n + d;
    } else if n >= d {
      assert Utils.Wrap(n - d, 0, d) == n - d;
    }
  }

  /** The green byte of pixel (Fold(m), Fold(n)): byte `(rn d_x + rm) 4 + 1`. */
  function Sample(cfg: Config, data: seq<int>, m: int, n: int): int
    requires ValidInput(cfg, data)
    requires -cfg.dx <= m < 2 * cfg.dx && -cfg.dz <= n < 2 * cfg.dz
  {
    FoldInRange(m, cfg.dx);
    FoldInRange(n, cfg.dz);
    TerrainWorker.FlatIndexInRange(Fold(n, cfg.dz), Fold(m, cfg.dx), cfg.dx, cfg.dz);
    data[(Fold(n, cfg.dz) * cfg.dx + Fold(m, cfg.dx)) * 4 + 1]
  }

  /** Sum of the first `k` samples of image row `n`, columns from `m0` on. */
  function RowSum(cfg: Config, data: seq<int>, n: int, m0: int, k: nat): int
    requires ValidInput(cfg, data)
    requires -cfg.dx <= m0 && m0 + k <= 2 * cfg.dx && -cfg.dz <= n < 2 * cfg.dz
  {
    if k == 0 then 0 else RowSum(cfg, data, n, m0, k - 1) + Sample(cfg, data, m0 + k - 1, n)
  }

  /** Sum of the first `j` rows of a box `w` samples wide whose corner is (m0, n0). */
  function BoxSum(cfg: Config, data: seq<int>, m0: int, n0: int, w: nat, j: nat): int
    requires ValidInput(cfg, data)
    requires -cfg.dx <= m0 && m0 + w <= 2 * cfg.dx && -cfg.dz <= n0 && n0 + j <= 2 * cfg.dz
  {
    if j == 0 then 0 else BoxSum(cfg, data, m0, n0, w, j - 1) + RowSum(cfg, data, n0 + j - 1, m0, w)
  }

  /** The width of the smoothing box, `2 av_n + 1`. */
  function BoxWidth(cfg: Config): nat
    requires cfg.avn >= 0
  {
    2 * cfg.avn + 1
  }

  /** `(h / b) / 255 * s_y`: the mean of `count` bytes summing to `sum`, scaled from `[0, 255]` to `[0, s_y]`. */
  function ScaledMean(sum: int, count: int, sy: real): real
    requires count > 0
  {
    ((sum as real / count as real) / 255.0) * sy
  }

  /** The smoothed height of vertex (x, z) before `dec5`: the box mean, scaled to `[0, s_y]`. */
  function RawHeight(cfg: Config, data: seq<int>, x: int, z: int): real
    requires ValidInput(cfg, data) && 0 <= x < cfg.dx && 0 <= z < cfg.dz
  {
    var w := BoxWidth(cfg);
    var sum := BoxSum(cfg, data, x - cfg.avn, z - cfg.avn, w, w);
    ScaledMean(sum, w * w, cfg.sy)
  }

  /** Bytes of a decoded image. */
  predicate Bytes(data: seq<int>)
  {
    forall i :: 0 <= i < |data| ==> 0 <= data[i] <= 255
  }

  /** Every sample is a byte. */
  lemma SampleIsByte(cfg: Config, data: seq<int>, m: int, n: int)
    requires ValidInput(cfg, data) && Bytes(data)
    requires -cfg.dx <= m < 2 * cfg.dx && -cfg.dz <= n < 2 * cfg.dz
    ensures 0 <= Sample(cfg, data, m, n) <= 255
  {
    FoldInRange(m, cfg.dx);
    FoldInRange(n, cfg.dz);
    TerrainWorker.FlatIndexInRange(Fold(n, cfg.dz), Fold(m, cfg.dx), cfg.dx, cfg.dz);
  }

  lemma {:induction false} RowSumBounds(cfg: Config, data: seq<int>, n: int, m0: int, k: nat)
    requires ValidInput(cfg, data) && Bytes(data)
    requires -cfg.dx <= m0 && m0 + k <= 2 * cfg.dx && -cfg.dz <= n < 2 * cfg.dz
    ensures 0 <= RowSum(cfg, data, n, m0, k) <= 255 * k
  {
    if k > 0 {
      RowSumBounds(cfg, data, n, m0, k - 1);
      SampleIsByte(cfg, data, m0 + k - 1, n);
    }
  }

  lemma {:induction false} BoxSumBounds(cfg: Config, data: seq<int>, m0: int, n0: int, w: nat, j: nat)
    requires ValidInput(cfg, data) && Bytes(data)
    requires -cfg.dx <= m0 && m0 + w <= 2 * cfg.dx && -cfg.dz <= n0 && n0 + j <= 2 * cfg.dz
    ensures 0 <= BoxSum(cfg, data, m0, n0, w, j) <= 255 * (w * j)
  {
    if j > 0 {
      BoxSumBounds(cfg, data, m0, n0, w, j - 1);
      RowSumBounds(cfg, data, n0 + j - 1, m0, w);
      assert w * j == w * (j - 1) + w;
    }
  }

  /** A mean of bytes, scaled by `s_y / 255`, lies in `[0, s_y]`. */
  lemma ScaledMeanBounds(sum: int, count: int, sy: real)
    requires 0 < count && 0 <= sum <= 255 * count && 0.0 <= sy
    ensures 0.0 <= ScaledMean(sum, count, sy) <= sy
  {
    var mean := sum as real / count as real;
    assert mean * count as real == sum as real;
    assert 0.0 <= mean <= 255.0;
    var f := mean / 255.0;
    assert 0.0 <= f <= 1.0;
    assert f * sy <= 1.0 * sy by {
      assert (1.0 - f) * sy >= 0.0;
    }
  }

  /** With image bytes and a non-negative height scale, every height before rounding lies in `[0, s_y]`. */
  lemma RawHeightBounds(cfg: Config, data: seq<int>, x: int, z: int)
    requires ValidInput(cfg, data) && Bytes(data) && 0.0 <= cfg.sy
    requires 0 <= x < cfg.dx && 0 <= z < cfg.dz
    ensures 0.0 <= RawHeight(cfg, data, x, z) <= cfg.sy
  {
    var w := BoxWidth(cfg);
    BoxSumBounds(cfg, data, x - cfg.avn, z - cfg.avn, w, w);
    ScaledMeanBounds(BoxSum(cfg, data, x - cfg.avn, z - cfg.avn, w, w), w * w, cfg.sy);
  }

  /** One more sample of a row. */
  lemma RowSumStep(cfg: Config, data: seq<int>, n: int, m0: int, k: nat, m: int)
    requires ValidInput(cfg, data)
    requires -cfg.dx <= m0 && m0 + k + 1 <= 2 * cfg.dx && -cfg.dz <= n < 2 * cfg.dz && m == m0 + k
    ensures RowSum(cfg, data, n, m0, k + 1) == RowSum(cfg, data, n, m0, k) + Sample(cfg, data, m, n)
  {
  }

  /** One more row of the box. */
  lemma BoxSumStep(cfg: Config, data: seq<int>, m0: int, n0: int, w: nat, j: nat, n: int)
    requires ValidInput(cfg, data)
    requires -cfg.dx <= m0 && m0 + w <= 2 * cfg.dx && -cfg.dz <= n0 && n0 + j + 1 <= 2 * cfg.dz && n == n0 + j
    ensures BoxSum(cfg, data, m0, n0, w, j + 1) == BoxSum(cfg, data, m0, n0, w, j) + RowSum(cfg, data, n, m0, w)
  {
  }

  /**
   * The inner loop over `m` of the smoothing: fold each column once and add the
   * green byte of the sample; `b` counts the samples.
   */
  method SmoothRow(cfg: Config, data: seq<int>, x: int, n: int, h: int, b: int)
    returns (h': int, b': int)
    requires ValidInput(cfg, data) && 0 <= x < cfg.dx && -cfg.dz <= n < 2 * cfg.dz
    ensures h' == h + RowSum(cfg, data, n, x - cfg.avn, BoxWidth(cfg))
    ensures b' == b + BoxWidth(cfg)
  {
    var rn := n;
    if rn < 0 {
      rn := rn + cfg.dz;
    } else if rn >= cfg.dz {
      rn := rn - cfg.dz;
    }
    h', b' := h, b;
    var m0 := x - cfg.avn;
    var m := m0;
    while m <= x + cfg.avn
      invariant m0 <= m <= x + cfg.avn + 1
      invariant h' == h + RowSum(cfg, data, n, m0, m - m0)
      invariant b' == b + (m - m0)
    {
      var rm := m;
      if rm < 0 {
        rm := rm + cfg.dx;
      } else if rm >= cfg.dx {
        rm := rm - cfg.dx;
      }
      FoldInRange(m, cfg.dx);
      FoldInRange(n, cfg.dz);
      TerrainWorker.FlatIndexInRange(rn, rm, cfg.dx, cfg.dz);
      RowSumStep(cfg, data, n, m0, m - m0, m);
      h' := h' + data[(rn * cfg.dx + rm) * 4 + 1];
      b' := b' + 1;
      m := m + 1;
    }
  }

  /**
   * The loops over `n` and `m` of `dowork` for vertex (x, z): sum the box of
   * `b = (2 av_n + 1)^2` samples around it, take the mean and scale it.
   */
  method SmoothedHeight(cfg: Config, data: seq<int>, x: int, z: int) returns (h: real, b: int)
    requires ValidInput(cfg, data) && 0 <= x < cfg.dx && 0 <= z < cfg.dz
    ensures b == (2 * cfg.avn + 1) * (2 * cfg.avn + 1)
    ensures h == RawHeight(cfg, data, x, z)
  {
    var w := BoxWidth(cfg);
    var sum := 0;
    b := 0;
    var n0 := z - cfg.avn;
    var n := n0;
    while n <= z + cfg.avn
      invariant n0 <= n <= z + cfg.avn + 1
      invariant sum == BoxSum(cfg, data, x - cfg.avn, n0, w, n - n0)
      invariant b == (n - n0) * w
    {
      BoxSumStep(cfg, data, x - cfg.avn, n0, w, n - n0, n);
      sum, b := SmoothRow(cfg, data, x, n, sum, b);
      assert b == (n + 1 - n0) * w;
      n := n + 1;
    }
    h := ScaledMean(sum, b, cfg.sy);
  }

  // ---------------------------------------------------------------- texture coordinates

  /**
   * `su = 1 / (d_x / s_t)`. A zero `s_t` makes the quotient infinite and the
   * stride zero.
   */
  function Su(cfg: Config): real
    requires cfg.dx > 0
  {
    if cfg.st == 0.0 then 0.0 else 1.0 / (cfg.dx as real / cfg.st)
  }

  /** `sv = 1 / (d_z / s_t)`, likewise. */
  function Sv(cfg: Config): real
    requires cfg.dz > 0
  {
    if cfg.st == 0.0 then 0.0 else 1.0 / (cfg.dz as real / cfg.st)
  }

  /** The texture step: add the stride, then take off one whole unit once the sum reaches 1. */
  function Advance(t: real, stride: real): real
  {
    if t + stride >= 1.0 then t + stride - 1.0 else t + stride
  }

  /** `u` at column `k`; it restarts at 0 on every row. */
  function U(cfg: Config, k: nat): real
    requires cfg.dx > 0
  {
    if k == 0 then 0.0 else Advance(U(cfg, k - 1), Su(cfg))
  }

  /** `v` at row `k`. */
  function V(cfg: Config, k: nat): real
    requires cfg.dz > 0
  {
    if k == 0 then 0.0 else Advance(V(cfg, k - 1), Sv(cfg))
  }

  /** With a texture scale in `(0, d]` the stride `1 / (d / s_t)` lies in `(0, 1]`. */
  lemma StrideInUnit(d: int, st: real)
    requires 0.0 < st <= d as real
    ensures 0.0 < 1.0 / (d as real / st) <= 1.0
  {
    var q := d as real / st;
    assert q * st == d as real;
    assert q >= 1.0;
  }

  /** Stepping by a stride in `[0, 1]` keeps a coordinate in `[0, 1)`. */
  lemma AdvanceInUnit(t: real, stride: real)
    requires 0.0 <= t < 1.0 && 0.0 <= stride <= 1.0
    ensures 0.0 <= Advance(t, stride) < 1.0
  {
  }

  /** `u` stays in `[0, 1)` when `0 < s_t <= d_x`. */
  lemma {:induction false} UInUnit(cfg: Config, k: nat)
    requires cfg.dx > 0 && 0.0 < cfg.st <= cfg.dx as real
    ensures 0.0 <= U(cfg, k) < 1.0
  {
    if k > 0 {
      UInUnit(cfg, k - 1);
      StrideInUnit(cfg.dx, cfg.st);
      AdvanceInUnit(U(cfg, k - 1), Su(cfg));
    }
  }

  /** `v` stays in `[0, 1)` when `0 < s_t <= d_z`. */
  lemma {:induction false} VInUnit(cfg: Config, k: nat)
    requires cfg.dz > 0 && 0.0 < cfg.st <= cfg.dz as real
    ensures 0.0 <= V(cfg, k) < 1.0
  {
    if k > 0 {
      VInUnit(cfg, k - 1);
      StrideInUnit(cfg.dz, cfg.st);
      AdvanceInUnit(V(cfg, k - 1), Sv(cfg));
    }
  }

  // ---------------------------------------------------------------- output rows

  /** Rounded heights of the first `k` vertices of row `z`. */
  function HeightRow(cfg: Config, data: seq<int>, z: int, k: nat): seq<real>
    requires ValidInput(cfg, data) && 0 <= z < cfg.dz && k <= cfg.dx
  {
    if k == 0 then [] else HeightRow(cfg, data, z, k - 1) + [Dec5(RawHeight(cfg, data, k - 1, z))]
  }

  /** Rounded heights of the first `rows` rows. */
  function Heights(cfg: Config, data: seq<int>, rows: nat): seq<real>
    requires ValidInput(cfg, data) && rows <= cfg.dz
  {
    if rows == 0 then [] else Heights(cfg, data, rows - 1) + HeightRow(cfg, data, rows - 1, cfg.dx)
  }

  /** Rounded texture coordinates `(u, v)` of the first `k` vertices of row `z`. */
  function CoordRow(cfg: Config, z: nat, k: nat): seq<real>
    requires cfg.dx > 0 && cfg.dz > 0
  {
    if k == 0 then [] else CoordRow(cfg, z, k - 1) + [Dec5(U(cfg, k - 1)), Dec5(V(cfg, z))]
  }

  /** Rounded texture coordinates of the first `rows` rows. */
  function Coords(cfg: Config, rows: nat): seq<real>
    requires cfg.dx > 0 && cfg.dz > 0
  {
    if rows == 0 then [] else Coords(cfg, rows - 1) + CoordRow(cfg, rows - 1, cfg.dx)
  }

  lemma {:induction false} HeightRowLength(cfg: Config, data: seq<int>, z: int, k: nat)
    requires ValidInput(cfg, data) && 0 <= z < cfg.dz && k <= cfg.dx
    ensures |HeightRow(cfg, data, z, k)| == k
  {
    if k > 0 {
      HeightRowLength(cfg, data, z, k - 1);
    }
  }

  lemma {:induction false} HeightRowAt(cfg: Config, data: seq<int>, z: int, k: nat, x: int)
    requires ValidInput(cfg, data) && 0 <= z < cfg.dz && k <= cfg.dx && 0 <= x < k
    ensures |HeightRow(cfg, data, z, k)| == k
    ensures HeightRow(cfg, data, z, k)[x] == Dec5(RawHeight(cfg, data, x, z))
  {
    HeightRowLength(cfg, data, z, k);
    if x < k - 1 {
      HeightRowAt(cfg, data, z, k - 1, x);
    }
  }

  lemma {:induction false} HeightsPrefix(cfg: Config, data: seq<int>, rows: nat, r: nat)
    requires ValidInput(cfg, data) && r <= rows <= cfg.dz
    ensures |Heights(cfg, data, rows)| == rows * cfg.dx
    ensures Heights(cfg, data, r) <= Heights(cfg, data, rows)
  {
    if rows > 0 {
      HeightsPrefix(cfg, data, rows - 1, if r == rows then rows - 1 else r);
      HeightRowLength(cfg, data, rows - 1, cfg.dx);
    }
  }

  /**
   * Vertex (x, z) of the output is the rounded box mean at (x, z): the heights are
   * stored row by row, `d_x` per row, `z d_x + x` being the vertex's index.
   */
  lemma {:induction false} HeightsAt(cfg: Config, data: seq<int>, rows: nat, x: int, z: int, i: int)
    requires ValidInput(cfg, data) && rows <= cfg.dz && 0 <= x < cfg.dx && 0 <= z < rows
    requires i == z * cfg.dx + x
    ensures |Heights(cfg, data, rows)| == rows * cfg.dx
    ensures 0 <= i < |Heights(cfg, data, rows)| && Heights(cfg, data, rows)[i] == Dec5(RawHeight(cfg, data, x, z))
  {
    TerrainWorker.FlatIndexInRange(z, x, cfg.dx, rows);
    HeightsPrefix(cfg, data, rows, z + 1);
    HeightsPrefix(cfg, data, z + 1, z);
    HeightsPrefix(cfg, data, z, z);
    HeightRowAt(cfg, data, z, cfg.dx, x);
    var pre, row := Heights(cfg, data, z), HeightRow(cfg, data, z, cfg.dx);
    assert Heights(cfg, data, z + 1) == pre + row;
    assert i < |pre + row|;
    assert (pre + row)[i] == row[x];
  }

  // ---------------------------------------------------------------- normals

  function Max(a: int, b: int): int { if a >= b then a else b }
  function Min(a: int, b: int): int { if a <= b then a else b }

  /** Index of the left neighbour's height, clamped at the edge and moved on by `shift`. */
  function LeftIndex(cfg: Config, x: int, z: int, shift: int): int { (z * cfg.dx + Max(0, x - 1)) + shift }
  /** Index of the right neighbour's height, clamped at the edge and moved on by `shift`. */
  function RightIndex(cfg: Config, x: int, z: int, shift: int): int { (z * cfg.dx + Min(cfg.dx - 1, x + 1)) + shift }
  /** Index of the upper neighbour's height, clamped at the edge and moved on by `shift`. */
  function UpIndex(cfg: Config, x: int, z: int, shift: int): int { (Max(0, z - 1) * cfg.dx + x) + shift }
  /** Index of the lower neighbour's height, clamped at the edge and moved on by `shift`. */
  function DownIndex(cfg: Config, x: int, z: int, shift: int): int { (Min(cfg.dz - 1, z + 1) * cfg.dx + x) + shift }

  /** Reading a JavaScript array: past the end it yields `undefined`, which arithmetic turns into NaN. */
  function Read(s: seq<real>, i: int): Num
  {
    if 0 <= i < |s| then Finite(s[i]) else NaN
  }

  /** JavaScript subtraction. */
  function Minus(a: Num, b: Num): Num
  {
    if a.Finite? && b.Finite? then Finite(a.value - b.value) else NaN
  }

  /** `Vector.cross` of sylvester for three-component vectors. */
  function Cross(a: Vec3, b: Vec3): Vec3
  {
    Vec3(a.y * b.z - a.z * b.y, a.z * b.x - a.x * b.z, a.x * b.y - a.y * b.x)
  }

  /** A normal as `dowork` computes it: three JavaScript numbers. */
  datatype NumVec3 = NumVec3(x: Num, y: Num, z: Num)

  const NaNVec3 := NumVec3(NaN, NaN, NaN)

  /** The Euclidean length of a vector, `Math.sqrt` of the sum of the squared components. */
  function Length(n: Vec3, sqrt: real -> real): real
  {
    sqrt(n.x * n.x + n.y * n.y + n.z * n.z)
  }

  /** Divide by the Euclidean length; a zero length divides 0 by 0, which is NaN. */
  function Normalise(n: Vec3, sqrt: real -> real): NumVec3
  {
    var m := Length(n, sqrt);
    if m == 0.0 then NaNVec3 else NumVec3(Finite(n.x / m), Finite(n.y / m), Finite(n.z / m))
  }

  /**
   * The normal of vertex (x, z) before `dec5`, reading the neighbour heights at
   * offset `shift`: the normalised cross product of the horizontal difference
   * vector `(2 s, dh, 0)` and the vertical one `(0, dv, 2 s)`. A NaN difference
   * makes the length NaN and so every component NaN.
   */
  function NormalWith(cfg: Config, verts: seq<real>, sqrt: real -> real, x: int, z: int, shift: int): NumVec3
  {
    var dh := Minus(Read(verts, RightIndex(cfg, x, z, shift)), Read(verts, LeftIndex(cfg, x, z, shift)));
    var dv := Minus(Read(verts, DownIndex(cfg, x, z, shift)), Read(verts, UpIndex(cfg, x, z, shift)));
    if dh.Finite? && dv.Finite? then
      Normalise(Cross(Vec3(cfg.sxz * 2.0, dh.value, 0.0), Vec3(0.0, dv.value, cfg.sxz * 2.0)), sqrt)
    else NaNVec3
  }

  /** The normal `dowork` computes: its four reads are shifted by one. */
  function Normal(cfg: Config, verts: seq<real>, sqrt: real -> real, x: int, z: int): NumVec3
  {
    NormalWith(cfg, verts, sqrt, x, z, 1)
  }

  /** The normal with the neighbours read at their own indices. */
  function CorrectedNormal(cfg: Config, verts: seq<real>, sqrt: real -> real, x: int, z: int): NumVec3
  {
    NormalWith(cfg, verts, sqrt, x, z, 0)
  }

  /** `dec5` on each component, in push order. */
  function Dec5Vec(n: NumVec3): seq<Num>
  {
    [Dec5Num(n.x), Dec5Num(n.y), Dec5Num(n.z)]
  }

  /** The rounded normals of the first `k` vertices of row `z`. */
  function NormalRow(cfg: Config, verts: seq<real>, sqrt: real -> real, z: int, k: nat): seq<Num>
  {
    if k == 0 then []
    else NormalRow(cfg, verts, sqrt, z, k - 1) + Dec5Vec(Normal(cfg, verts, sqrt, k - 1, z))
  }

  /** The rounded normals of the first `rows` rows. */
  function Normals(cfg: Config, verts: seq<real>, sqrt: real -> real, rows: nat): seq<Num>
    requires cfg.dx >= 0
  {
    if rows == 0 then [] else Normals(cfg, verts, sqrt, rows - 1) + NormalRow(cfg, verts, sqrt, rows - 1, cfg.dx)
  }

  /** The cross product of the two difference vectors is `(2 s dh, -4 s^2, 2 s dv)`. */
  lemma CrossDirection(s: real, dh: real, dv: real)
    ensures Cross(Vec3(s * 2.0, dh, 0.0), Vec3(0.0, dv, s * 2.0)) == Vec3(2.0 * s * dh, -4.0 * s * s, 2.0 * s * dv)
  {
  }

  lemma SumOfSquaresPositive(a: real, b: real, c: real)
    requires b != 0.0
    ensures a * a + b * b + c * c > 0.0
  {
  }

  lemma Quotient(a: real, m: real)
    requires m != 0.0
    ensures (a / m) * m == a
  {
  }

  /** A vector with a negative y component has a positive length, whose square is the sum of squares. */
  lemma LengthPositive(n: Vec3, sqrt: real -> real)
    requires IsSqrt(sqrt) && n.y < 0.0
    ensures Length(n, sqrt) > 0.0
    ensures Length(n, sqrt) * Length(n, sqrt) == n.x * n.x + n.y * n.y + n.z * n.z
  {
    SumOfSquaresPositive(n.x, n.y, n.z);
  }

  /** Dividing each component by a positive `m` whose square is the sum of squares gives a unit vector. */
  lemma UnitQuotients(a: real, b: real, c: real, m: real)
    requires m > 0.0 && m * m == a * a + b * b + c * c
    ensures (a / m) * (a / m) + (b / m) * (b / m) + (c / m) * (c / m) == 1.0
  {
    var p, q, r := a / m, b / m, c / m;
    assert p * m == a && q * m == b && r * m == c;
    var sum := p * p + q * q + r * r;
    calc {
      sum * (m * m);
      (p * m) * (p * m) + (q * m) * (q * m) + (r * m) * (r * m);
      a * a + b * b + c * c;
      1.0 * (m * m);
    }
    assert (sum - 1.0) * (m * m) == 0.0;
  }

  /**
   * A vector with a negative y component normalises to a finite unit vector
   * that points to negative y and gives back the vector when multiplied by its
   * length.
   */
  lemma NormaliseScales(n: Vec3, sqrt: real -> real)
    requires IsSqrt(sqrt) && n.y < 0.0
    ensures var u := Normalise(n, sqrt);
      && u.x.Finite? && u.y.Finite? && u.z.Finite?
      && u.x.value * u.x.value + u.y.value * u.y.value + u.z.value * u.z.value == 1.0
      && u.x.value * Length(n, sqrt) == n.x
      && u.y.value * Length(n, sqrt) == n.y
      && u.z.value * Length(n, sqrt) == n.z
      && u.y.value < 0.0
  {
    LengthPositive(n, sqrt);
    var m := Length(n, sqrt);
    Quotient(n.x, m);
    Quotient(n.y, m);
    Quotient(n.z, m);
    UnitQuotients(n.x, n.y, n.z, m);
  }

  /** `u` is a finite unit vector, points to negative y, and times the positive length `m` gives `c`. */
  predicate Scales(u: NumVec3, c: Vec3, m: real)
  {
    && u.x.Finite? && u.y.Finite? && u.z.Finite?
    && u.x.value * u.x.value + u.y.value * u.y.value + u.z.value * u.z.value == 1.0
    && m > 0.0
    && u.x.value * m == c.x && u.y.value * m == c.y && u.z.value * m == c.z
    && u.y.value < 0.0
  }

  /** All four neighbour reads at offset `shift` fall inside the heights. */
  predicate ReadsInside(cfg: Config, verts: seq<real>, x: int, z: int, shift: int)
  {
    && 0 <= LeftIndex(cfg, x, z, shift) < |verts| && 0 <= RightIndex(cfg, x, z, shift) < |verts|
    && 0 <= UpIndex(cfg, x, z, shift) < |verts| && 0 <= DownIndex(cfg, x, z, shift) < |verts|
  }

  /**
   * The cross product of the two difference vectors in closed form,
   * `(2 s dh, -4 s^2, 2 s dv)`.
   */
  function SurfaceCross(cfg: Config, verts: seq<real>, x: int, z: int, shift: int): Vec3
    requires ReadsInside(cfg, verts, x, z, shift)
  {
    var dh := verts[RightIndex(cfg, x, z, shift)] - verts[LeftIndex(cfg, x, z, shift)];
    var dv := verts[DownIndex(cfg, x, z, shift)] - verts[UpIndex(cfg, x, z, shift)];
    Vec3(2.0 * cfg.sxz * dh, -4.0 * cfg.sxz * cfg.sxz, 2.0 * cfg.sxz * dv)
  }

  /**
   * Wherever the four neighbour reads fall inside the heights and the tile size
   * is not zero, the normal is finite, points to negative y and is the surface
   * cross product divided by its positive length.
   */
  lemma NormalWithScales(cfg: Config, verts: seq<real>, sqrt: real -> real, x: int, z: int, shift: int)
    requires IsSqrt(sqrt) && cfg.sxz != 0.0 && ReadsInside(cfg, verts, x, z, shift)
    ensures var c := SurfaceCross(cfg, verts, x, z, shift);
      Scales(NormalWith(cfg, verts, sqrt, x, z, shift), c, Length(c, sqrt))
  {
    var dh := verts[RightIndex(cfg, x, z, shift)] - verts[LeftIndex(cfg, x, z, shift)];
    var dv := verts[DownIndex(cfg, x, z, shift)] - verts[UpIndex(cfg, x, z, shift)];
    CrossDirection(cfg.sxz, dh, dv);
    SumOfSquaresPositive(0.0, cfg.sxz, 0.0);
    var c := SurfaceCross(cfg, verts, x, z, shift);
    assert Cross(Vec3(cfg.sxz * 2.0, dh, 0.0), Vec3(0.0, dv, cfg.sxz * 2.0)) == c;
    NormaliseScales(c, sqrt);
    LengthPositive(c, sqrt);
  }

  /** Row `r` of the grid starts at `r d_x` and ends at or before `d_x d_z`. */
  lemma RowStart(r: int, dx: int, dz: int)
    requires 0 <= r < dz && dx > 0
    ensures 0 <= r * dx && r * dx + dx <= dx * dz
  {
    TerrainWorker.MulLeft(r + 1, dz, dx);
  }

  /** The last row ends exactly at `d_x d_z`; every other row at least `d_x` earlier. */
  lemma RowEnd(r: int, dx: int, dz: int)
    requires 0 <= r < dz && dx > 0
    ensures r == dz - 1 ==> r * dx + dx == dx * dz
    ensures r < dz - 1 ==> r * dx + dx <= dx * dz - dx
  {
    if r < dz - 1 {
      TerrainWorker.MulLeft(r + 2, dz, dx);
    }
  }

  /** Read at their own indices, the four neighbours of a grid vertex are heights of the grid. */
  lemma NeighboursInGrid(cfg: Config, x: int, z: int)
    requires cfg.dx > 0 && cfg.dz > 0 && 0 <= x < cfg.dx && 0 <= z < cfg.dz
    ensures 0 <= LeftIndex(cfg, x, z, 0) < cfg.dx * cfg.dz
    ensures 0 <= RightIndex(cfg, x, z, 0) < cfg.dx * cfg.dz
    ensures 0 <= UpIndex(cfg, x, z, 0) < cfg.dx * cfg.dz
    ensures 0 <= DownIndex(cfg, x, z, 0) < cfg.dx * cfg.dz
  {
    RowStart(z, cfg.dx, cfg.dz);
    RowStart(Max(0, z - 1), cfg.dx, cfg.dz);
    RowStart(Min(cfg.dz - 1, z + 1), cfg.dx, cfg.dz);
  }

  /**
   * With the shift of one, every neighbour index of a grid vertex lies in
   * `[1, d_x d_z]`, and one of them is `d_x d_z`, one past the last height,
   * exactly at the vertices (d_x - 2, d_z - 1), (d_x - 1, d_z - 1) and (d_x - 1, d_z - 2).
   */
  lemma OnePastEndExactly(cfg: Config, x: int, z: int)
    requires cfg.dx > 0 && cfg.dz > 0 && 0 <= x < cfg.dx && 0 <= z < cfg.dz
    ensures 1 <= LeftIndex(cfg, x, z, 1) <= cfg.dx * cfg.dz
    ensures 1 <= RightIndex(cfg, x, z, 1) <= cfg.dx * cfg.dz
    ensures 1 <= UpIndex(cfg, x, z, 1) <= cfg.dx * cfg.dz
    ensures 1 <= DownIndex(cfg, x, z, 1) <= cfg.dx * cfg.dz
    ensures (|| LeftIndex(cfg, x, z, 1) == cfg.dx * cfg.dz || RightIndex(cfg, x, z, 1) == cfg.dx * cfg.dz
             || UpIndex(cfg, x, z, 1) == cfg.dx * cfg.dz || DownIndex(cfg, x, z, 1) == cfg.dx * cfg.dz)
            <==> ((x == cfg.dx - 2 || x == cfg.dx - 1) && z == cfg.dz - 1) || (x == cfg.dx - 1 && z == cfg.dz - 2)
  {
    RowEnd(z, cfg.dx, cfg.dz);
    RowEnd(Max(0, z - 1), cfg.dx, cfg.dz);
    RowEnd(Min(cfg.dz - 1, z + 1), cfg.dx, cfg.dz);
  }

  /** The three vertices of `OnePastEndExactly`. */
  predicate AtSeamEnd(cfg: Config, x: int, z: int)
  {
    ((x == cfg.dx - 2 || x == cfg.dx - 1) && z == cfg.dz - 1) || (x == cfg.dx - 1 && z == cfg.dz - 2)
  }

  /** Over the `d_x d_z` heights `dowork` stores, the normal of those three vertices is NaN throughout. */
  lemma NormalsAtEndAreNaN(cfg: Config, verts: seq<real>, sqrt: real -> real, x: int, z: int)
    requires cfg.dx > 0 && cfg.dz > 0 && 0 <= x < cfg.dx && 0 <= z < cfg.dz
    requires |verts| == cfg.dx * cfg.dz && AtSeamEnd(cfg, x, z)
    ensures Normal(cfg, verts, sqrt, x, z) == NaNVec3
  {
    OnePastEndExactly(cfg, x, z);
  }

  /**
   * Every other grid vertex gets a finite normal pointing to negative y, the
   * surface cross product divided by its length (for a non-zero tile size).
   */
  lemma NormalIsFinite(cfg: Config, verts: seq<real>, sqrt: real -> real, x: int, z: int)
    requires IsSqrt(sqrt) && cfg.sxz != 0.0
    requires cfg.dx > 0 && cfg.dz > 0 && 0 <= x < cfg.dx && 0 <= z < cfg.dz
    requires |verts| == cfg.dx * cfg.dz && !AtSeamEnd(cfg, x, z)
    ensures ReadsInside(cfg, verts, x, z, 1)
    ensures var c := SurfaceCross(cfg, verts, x, z, 1);
      Scales(Normal(cfg, verts, sqrt, x, z), c, Length(c, sqrt))
  {
    OnePastEndExactly(cfg, x, z);
    NormalWithScales(cfg, verts, sqrt, x, z, 1);
  }

  /** Without the shift, every grid vertex gets a finite normal pointing to negative y. */
  lemma CorrectedNormalIsFinite(cfg: Config, verts: seq<real>, sqrt: real -> real, x: int, z: int)
    requires IsSqrt(sqrt) && cfg.sxz != 0.0
    requires cfg.dx > 0 && cfg.dz > 0 && 0 <= x < cfg.dx && 0 <= z < cfg.dz
    requires |verts| == cfg.dx * cfg.dz
    ensures ReadsInside(cfg, verts, x, z, 0)
    ensures var c := SurfaceCross(cfg, verts, x, z, 0);
      Scales(CorrectedNormal(cfg, verts, sqrt, x, z), c, Length(c, sqrt))
  {
    NeighboursInGrid(cfg, x, z);
    NormalWithScales(cfg, verts, sqrt, x, z, 0);
  }

  lemma {:induction false} CoordRowLength(cfg: Config, z: nat, k: nat)
    requires cfg.dx > 0 && cfg.dz > 0
    ensures |CoordRow(cfg, z, k)| == 2 * k
  {
    if k > 0 {
      CoordRowLength(cfg, z, k - 1);
    }
  }

  lemma {:induction false} CoordRowAt(cfg: Config, z: nat, k: nat, x: int)
    requires cfg.dx > 0 && cfg.dz > 0 && 0 <= x < k
    ensures |CoordRow(cfg, z, k)| == 2 * k
    ensures CoordRow(cfg, z, k)[2 * x] == Dec5(U(cfg, x)) && CoordRow(cfg, z, k)[2 * x + 1] == Dec5(V(cfg, z))
  {
    CoordRowLength(cfg, z, k);
    CoordRowLength(cfg, z, k - 1);
    if x < k - 1 {
      CoordRowAt(cfg, z, k - 1, x);
    }
  }

  lemma {:induction false} CoordsLength(cfg: Config, rows: nat)
    requires cfg.dx > 0 && cfg.dz > 0
    ensures |Coords(cfg, rows)| == 2 * (rows * cfg.dx)
  {
    if rows > 0 {
      CoordsLength(cfg, rows - 1);
      CoordRowLength(cfg, rows - 1, cfg.dx);
      assert rows * cfg.dx == (rows - 1) * cfg.dx + cfg.dx;
    }
  }

  /**
   * The texture coordinates are stored two per vertex, row by row: entries
   * `2 (z d_x + x)` and `2 (z d_x + x) + 1` are the rounded `u` of column `x`
   * and `v` of row `z`.
   */
  lemma {:induction false} CoordsAt(cfg: Config, rows: nat, x: int, z: int, i: int)
    requires cfg.dx > 0 && cfg.dz > 0 && 0 <= x < cfg.dx && 0 <= z < rows
    requires i == z * cfg.dx + x
    ensures |Coords(cfg, rows)| == 2 * (rows * cfg.dx)
    ensures 0 <= 2 * i && 2 * i + 1 < |Coords(cfg, rows)|
    ensures Coords(cfg, rows)[2 * i] == Dec5(U(cfg, x)) && Coords(cfg, rows)[2 * i + 1] == Dec5(V(cfg, z))
  {
    CoordsLength(cfg, rows);
    CoordsLength(cfg, rows - 1);
    TerrainWorker.FlatIndexInRange(z, x, cfg.dx, rows);
    var pre, row := Coords(cfg, rows - 1), CoordRow(cfg, rows - 1, cfg.dx);
    assert Coords(cfg, rows) == pre + row;
    if z == rows - 1 {
      CoordRowAt(cfg, z, cfg.dx, x);
      assert |pre| == 2 * (z * cfg.dx);
      assert (pre + row)[2 * i] == row[2 * x];
      assert (pre + row)[2 * i + 1] == row[2 * x + 1];
    } else {
      CoordsAt(cfg, rows - 1, x, z, i);
      assert (pre + row)[2 * i] == pre[2 * i];
      assert (pre + row)[2 * i + 1] == pre[2 * i + 1];
    }
  }

  lemma {:induction false} NormalRowLength(cfg: Config, verts: seq<real>, sqrt: real -> real, z: int, k: nat)
    ensures |NormalRow(cfg, verts, sqrt, z, k)| == 3 * k
  {
    if k > 0 {
      NormalRowLength(cfg, verts, sqrt, z, k - 1);
    }
  }

  /** The three rounded components of a normal, as they sit at `s[j]`, `s[j + 1]` and `s[j + 2]`. */
  predicate NormalStoredAt(s: seq<Num>, j: int, n: NumVec3)
  {
    0 <= j && j + 2 < |s| && s[j] == Dec5Num(n.x) && s[j + 1] == Dec5Num(n.y) && s[j + 2] == Dec5Num(n.z)
  }

  lemma {:induction false} NormalRowAt(cfg: Config, verts: seq<real>, sqrt: real -> real, z: int, k: nat, x: int)
    requires 0 <= x < k
    ensures |NormalRow(cfg, verts, sqrt, z, k)| == 3 * k
    ensures NormalStoredAt(NormalRow(cfg, verts, sqrt, z, k), 3 * x, Normal(cfg, verts, sqrt, x, z))
  {
    NormalRowLength(cfg, verts, sqrt, z, k);
    NormalRowLength(cfg, verts, sqrt, z, k - 1);
    if x < k - 1 {
      NormalRowAt(cfg, verts, sqrt, z, k - 1, x);
    }
  }

  lemma {:induction false} NormalsLength(cfg: Config, verts: seq<real>, sqrt: real -> real, rows: nat)
    requires cfg.dx >= 0
    ensures |Normals(cfg, verts, sqrt, rows)| == 3 * (rows * cfg.dx)
  {
    if rows > 0 {
      NormalsLength(cfg, verts, sqrt, rows - 1);
      NormalRowLength(cfg, verts, sqrt, rows - 1, cfg.dx);
      assert rows * cfg.dx == (rows - 1) * cfg.dx + cfg.dx;
    }
  }

  /**
   * The normals are stored three per vertex, row by row: entries
   * `3 (z d_x + x)` to `3 (z d_x + x) + 2` are the rounded normal of (x, z).
   */
  lemma {:induction false} NormalsAt(cfg: Config, verts: seq<real>, sqrt: real -> real, rows: nat, x: int, z: int, i: int)
    requires 0 <= x < cfg.dx && 0 <= z < rows
    requires i == z * cfg.dx + x
    ensures |Normals(cfg, verts, sqrt, rows)| == 3 * (rows * cfg.dx)
    ensures NormalStoredAt(Normals(cfg, verts, sqrt, rows), 3 * i, Normal(cfg, verts, sqrt, x, z))
  {
    NormalsLength(cfg, verts, sqrt, rows);
    NormalsLength(cfg, verts, sqrt, rows - 1);
    TerrainWorker.FlatIndexInRange(z, x, cfg.dx, rows);
    var pre, row := Normals(cfg, verts, sqrt, rows - 1), NormalRow(cfg, verts, sqrt, rows - 1, cfg.dx);
    assert Normals(cfg, verts, sqrt, rows) == pre + row;
    var n := Normal(cfg, verts, sqrt, x, z);
    if z == rows - 1 {
      NormalRowAt(cfg, verts, sqrt, z, cfg.dx, x);
      StoredInSuffix(pre, row, 3 * x, 3 * i, n);
    } else {
      NormalsAt(cfg, verts, sqrt, rows - 1, x, z, i);
      StoredInPrefix(pre, row, 3 * i, n);
    }
  }

  lemma StoredInPrefix(pre: seq<Num>, row: seq<Num>, j: int, n: NumVec3)
    requires NormalStoredAt(pre, j, n)
    ensures NormalStoredAt(pre + row, j, n)
  {
  }

  lemma StoredInSuffix(pre: seq<Num>, row: seq<Num>, j: int, k: int, n: NumVec3)
    requires NormalStoredAt(row, j, n) && k == |pre| + j
    ensures NormalStoredAt(pre + row, k, n)
  {
  }

  // ---------------------------------------------------------------- the whole asset

  /** The asset `dowork` builds from a config and the decoded image. */
  function Asset(cfg: Config, data: seq<int>, sqrt: real -> real): TerrainAsset
    requires ValidInput(cfg, data)
  {
    var vertices := Heights(cfg, data, cfg.dz);
    TerrainAsset(cfg.dx, cfg.dz, cfg.sxz, vertices, Coords(cfg, cfg.dz), Normals(cfg, vertices, sqrt, cfg.dz))
  }

  /**
   * The asset has the layout the terrain worker reads: one height, two texture
   * coordinates and three normal components per vertex of the `d_x` by `d_z` grid.
   */
  lemma AssetLengths(cfg: Config, data: seq<int>, sqrt: real -> real)
    requires ValidInput(cfg, data)
    ensures var a := Asset(cfg, data, sqrt);
      && a.width == cfg.dx && a.height == cfg.dz && a.tileSize == cfg.sxz
      && |a.vertices| == cfg.dx * cfg.dz
      && |a.coords| == 2 * (cfg.dx * cfg.dz)
      && |a.normals| == 3 * (cfg.dx * cfg.dz)
  {
    HeightsPrefix(cfg, data, cfg.dz, cfg.dz);
    CoordsLength(cfg, cfg.dz);
    NormalsLength(cfg, Heights(cfg, data, cfg.dz), sqrt, cfg.dz);
  }

  /**
   * Vertex (x, z) of the asset, at index `i = z d_x + x`: its height, its two
   * texture coordinates and its three normal components.
   */
  lemma AssetVertexAt(cfg: Config, data: seq<int>, sqrt: real -> real, x: int, z: int, i: int)
    requires ValidInput(cfg, data) && 0 <= x < cfg.dx && 0 <= z < cfg.dz && i == z * cfg.dx + x
    ensures var a := Asset(cfg, data, sqrt);
      && 0 <= i < |a.vertices| && a.vertices[i] == Dec5(RawHeight(cfg, data, x, z))
      && 2 * i + 1 < |a.coords| && a.coords[2 * i] == Dec5(U(cfg, x)) && a.coords[2 * i + 1] == Dec5(V(cfg, z))
      && NormalStoredAt(a.normals, 3 * i, Normal(cfg, a.vertices, sqrt, x, z))
  {
    HeightsAt(cfg, data, cfg.dz, x, z, i);
    CoordsAt(cfg, cfg.dz, x, z, i);
    NormalsAt(cfg, Heights(cfg, data, cfg.dz), sqrt, cfg.dz, x, z, i);
  }

  /** A flat index into the grid names the vertex (i mod d_x, i div d_x). */
  lemma VertexOfIndex(i: int, dx: int, dz: int)
    requires dx > 0 && 0 <= i < dx * dz
    ensures 0 <= i % dx < dx && 0 <= i / dx < dz && i == (i / dx) * dx + i % dx
  {
    if i / dx >= dz {
      TerrainWorker.MulLeft(dz, i / dx, dx);
    }
  }

  /** Rounding keeps a value of `[0, 1]` in `[0, 1]`. */
  lemma Dec5InUnit(t: real)
    requires 0.0 <= t <= 1.0
    ensures 0.0 <= Dec5(t) <= 1.0
  {
    Dec5Monotone(0.0, t);
    Dec5Monotone(t, 1.0);
    Dec5Fixes(0);
    Dec5Fixes(100000);
  }

  /** With `0 < s_t <= d_x, d_z` every texture coordinate of the asset lies in `[0, 1]`. */
  lemma AssetCoordsInUnit(cfg: Config, data: seq<int>, sqrt: real -> real, j: int)
    requires ValidInput(cfg, data) && 0.0 < cfg.st <= cfg.dx as real && cfg.st <= cfg.dz as real
    requires 0 <= j < 2 * (cfg.dx * cfg.dz)
    ensures |Asset(cfg, data, sqrt).coords| == 2 * (cfg.dx * cfg.dz)
    ensures 0.0 <= Asset(cfg, data, sqrt).coords[j] <= 1.0
  {
    AssetLengths(cfg, data, sqrt);
    var i := j / 2;
    VertexOfIndex(i, cfg.dx, cfg.dz);
    var x, z := i % cfg.dx, i / cfg.dx;
    AssetVertexAt(cfg, data, sqrt, x, z, i);
    UInUnit(cfg, x);
    VInUnit(cfg, z);
    Dec5InUnit(U(cfg, x));
    Dec5InUnit(V(cfg, z));
  }

  /**
   * In the asset as written, a normal component is NaN exactly when it belongs
   * to one of the three vertices next to the end of the heights; every other
   * component is a finite number (for a non-zero tile size).
   */
  lemma AssetNormalIsNaNIff(cfg: Config, data: seq<int>, sqrt: real -> real, j: int)
    requires ValidInput(cfg, data) && IsSqrt(sqrt) && cfg.sxz != 0.0
    requires 0 <= j < 3 * (cfg.dx * cfg.dz)
    ensures |Asset(cfg, data, sqrt).normals| == 3 * (cfg.dx * cfg.dz)
    ensures Asset(cfg, data, sqrt).normals[j].NaN? <==> AtSeamEnd(cfg, (j / 3) % cfg.dx, (j / 3) / cfg.dx)
  {
    AssetLengths(cfg, data, sqrt);
    var i := j / 3;
    VertexOfIndex(i, cfg.dx, cfg.dz);
    var x, z := i % cfg.dx, i / cfg.dx;
    AssetVertexAt(cfg, data, sqrt, x, z, i);
    var verts := Heights(cfg, data, cfg.dz);
    if AtSeamEnd(cfg, x, z) {
      NormalsAtEndAreNaN(cfg, verts, sqrt, x, z);
    } else {
      NormalIsFinite(cfg, verts, sqrt, x, z);
    }
  }

  lemma HeightRowStep(cfg: Config, data: seq<int>, z: int, k: nat, x: int)
    requires ValidInput(cfg, data) && 0 <= z < cfg.dz && k < cfg.dx && x == k
    ensures HeightRow(cfg, data, z, k + 1) == HeightRow(cfg, data, z, k) + [Dec5(RawHeight(cfg, data, x, z))]
  {
  }

  lemma CoordRowStep(cfg: Config, z: nat, k: nat, u: real, v: real)
    requires cfg.dx > 0 && cfg.dz > 0
    requires u == U(cfg, k) && v == V(cfg, z)
    ensures CoordRow(cfg, z, k + 1) == CoordRow(cfg, z, k) + [Dec5(u), Dec5(v)]
  {
  }

  lemma NormalRowStep(cfg: Config, verts: seq<real>, sqrt: real -> real, z: int, k: nat, x: int, n: NumVec3)
    requires x == k && n == Normal(cfg, verts, sqrt, x, z)
    ensures NormalRow(cfg, verts, sqrt, z, k + 1) == NormalRow(cfg, verts, sqrt, z, k) + Dec5Vec(n)
  {
  }

  /**
   * The inner loop over `x` of the first pass for row `z`: push the rounded
   * smoothed height and the rounded `(u, v)` of each vertex, stepping `u` from 0.
   */
  method SmoothGridRow(cfg: Config, data: seq<int>, z: int, v: real, vertices: seq<real>, coords: seq<real>)
    returns (vertices': seq<real>, coords': seq<real>)
    requires ValidInput(cfg, data) && 0 <= z < cfg.dz && v == V(cfg, z)
    ensures vertices' == vertices + HeightRow(cfg, data, z, cfg.dx)
    ensures coords' == coords + CoordRow(cfg, z, cfg.dx)
  {
    vertices', coords' := vertices, coords;
    var su := if cfg.st == 0.0 then 0.0 else 1.0 / (cfg.dx as real / cfg.st);
    var u := 0.0;
    var x := 0;
    while x < cfg.dx
      invariant 0 <= x <= cfg.dx && u == U(cfg, x)
      invariant vertices' == vertices + HeightRow(cfg, data, z, x)
      invariant coords' == coords + CoordRow(cfg, z, x)
    {
      var h, b := SmoothedHeight(cfg, data, x, z);
      HeightRowStep(cfg, data, z, x, x);
      vertices' := vertices' + [Dec5(h)];
      CoordRowStep(cfg, z, x, u, v);
      coords' := coords' + [Dec5(u), Dec5(v)];
      u := u + su;
      if u >= 1.0 {
        u := u - 1.0;
      }
      x := x + 1;
    }
  }

  /**
   * The body of the second pass for vertex (x, z): read the horizontal and the
   * vertical neighbours, build the two difference vectors, cross them and divide
   * by the length.
   */
  method NormalAtVertex(cfg: Config, verts: seq<real>, sqrt: real -> real, x: int, z: int) returns (n: NumVec3)
    ensures n == Normal(cfg, verts, sqrt, x, z)
  {
    var u := Read(verts, (z * cfg.dx + Max(0, x - 1)) + 1);
    var v := Read(verts, (z * cfg.dx + Min(cfg.dx - 1, x + 1)) + 1);
    var dh := Minus(v, u);
    u := Read(verts, (Max(0, z - 1) * cfg.dx + x) + 1);
    v := Read(verts, (Min(cfg.dz - 1, z + 1) * cfg.dx + x) + 1);
    var dv := Minus(v, u);
    if dh.Finite? && dv.Finite? {
      var v1 := Vec3(cfg.sxz * 2.0, dh.value, 0.0);
      var v2 := Vec3(0.0, dv.value, cfg.sxz * 2.0);
      n := Normalise(Cross(v1, v2), sqrt);
    } else {
      n := NaNVec3;
    }
  }

  /** The inner loop over `x` of the second pass for row `z`: push the rounded normal of each vertex. */
  method NormalGridRow(cfg: Config, verts: seq<real>, sqrt: real -> real, z: int, normals: seq<Num>)
    returns (normals': seq<Num>)
    requires cfg.dx >= 0
    ensures normals' == normals + NormalRow(cfg, verts, sqrt, z, cfg.dx)
  {
    normals' := normals;
    var x := 0;
    while x < cfg.dx
      invariant 0 <= x <= cfg.dx
      invariant normals' == normals + NormalRow(cfg, verts, sqrt, z, x)
    {
      var n := NormalAtVertex(cfg, verts, sqrt, x, z);
      NormalRowStep(cfg, verts, sqrt, z, x, x, n);
      normals' := normals' + [Dec5Num(n.x), Dec5Num(n.y), Dec5Num(n.z)];
      x := x + 1;
    }
  }

  /**
   * `dowork`: the smoothing pass over all rows, stepping `v` per row, then the
   * normal pass over the rounded heights.
   */
  method Dowork(cfg: Config, data: seq<int>, sqrt: real -> real) returns (json: TerrainAsset)
    requires ValidInput(cfg, data)
    ensures json == Asset(cfg, data, sqrt)
    ensures |json.vertices| == cfg.dx * cfg.dz
    ensures |json.coords| == 2 * (cfg.dx * cfg.dz) && |json.normals| == 3 * (cfg.dx * cfg.dz)
  {
    var vertices: seq<real> := [];
    var coords: seq<real> := [];
    var sv := if cfg.st == 0.0 then 0.0 else 1.0 / (cfg.dz as real / cfg.st);
    var v := 0.0;
    var z := 0;
    while z < cfg.dz
      invariant 0 <= z <= cfg.dz && v == V(cfg, z)
      invariant vertices == Heights(cfg, data, z)
      invariant coords == Coords(cfg, z)
    {
      vertices, coords := SmoothGridRow(cfg, data, z, v, vertices, coords);
      v := v + sv;
      if v >= 1.0 {
        v := v - 1.0;
      }
      z := z + 1;
    }
    var normals: seq<Num> := [];
    z := 0;
    while z < cfg.dz
      invariant 0 <= z <= cfg.dz
      invariant normals == Normals(cfg, vertices, sqrt, z)
    {
      normals := NormalGridRow(cfg, vertices, sqrt, z, normals);
      z := z + 1;
    }
    json := TerrainAsset(cfg.dx, cfg.dz, cfg.sxz, vertices, coords, normals);
    AssetLengths(cfg, data, sqrt);
  }
}
