/**
 * The terrain object of the main thread (PeaksAndValleys/js/GLTerrain.js).
 *
 * `getY` answers the height under the camera from the full heightmap: it finds
 * the cell, picks one of the cell's two triangles (the split depends on the row's
 * parity), and blends the three corner heights. `update` posts a request to the
 * terrain worker only while no request is outstanding, and the worker's `message`
 * listener records the sizes of the buffers it receives.
 *
 * The heightmap is the worker's `Grid`: the same JSON asset feeds both.
 */
module Terrain {
  import Utils
  import TerrainWorker

  /** The height stored for grid vertex (x, z), read at the folded index. */
  function Height(g: TerrainWorker.Grid, x: int, z: int): real
    requires TerrainWorker.ValidGrid(g)
  {
    TerrainWorker.HeightIndexInRange(g, x, z);
    g.heights[TerrainWorker.HeightIndex(g, x, z)]
  }

  /**
   * One triangle of a cell as `getY` sees it: the base height `y`, the heights
   * `yx` and `yz` of its horizontal and vertical neighbours, and how far the
   * point lies towards each of them.
   */
  datatype Triangle = Triangle(y: real, yx: real, yz: real, rx: real, rz: real)

  /** The blend on the last line of `getY`. */
  function Interp(t: Triangle): real
  {
    t.y + (t.yx - t.y) * t.rx + (t.yz - t.y) * t.rz
  }

  /** Even row, `rx + rz < 1`: the triangle at corner (x, z). */
  function EvenNear(g: TerrainWorker.Grid, x: int, z: int, rx: real, rz: real): Triangle
    requires TerrainWorker.ValidGrid(g)
  {
    Triangle(Height(g, x, z), Height(g, x + 1, z), Height(g, x, z + 1), rx, rz)
  }

  /** Even row, `rx + rz >= 1`: the triangle at corner (x + 1, z + 1). */
  function EvenFar(g: TerrainWorker.Grid, x: int, z: int, rx: real, rz: real): Triangle
    requires TerrainWorker.ValidGrid(g)
  {
    Triangle(Height(g, x + 1, z + 1), Height(g, x, z + 1), Height(g, x + 1, z), 1.0 - rx, 1.0 - rz)
  }

  /** Odd row, `rx < rz`: the triangle at corner (x, z + 1). */
  function OddNear(g: TerrainWorker.Grid, x: int, z: int, rx: real, rz: real): Triangle
    requires TerrainWorker.ValidGrid(g)
  {
    Triangle(Height(g, x, z + 1), Height(g, x + 1, z + 1), Height(g, x, z), rx, 1.0 - rz)
  }

  /** Odd row, `rx >= rz`: the triangle at corner (x + 1, z). */
  function OddFar(g: TerrainWorker.Grid, x: int, z: int, rx: real, rz: real): Triangle
    requires TerrainWorker.ValidGrid(g)
  {
    Triangle(Height(g, x + 1, z), Height(g, x, z), Height(g, x + 1, z + 1), 1.0 - rx, rz)
  }

  /** The triangle `getY` uses for the point (rx, rz) inside cell (x, z). */
  function Pick(g: TerrainWorker.Grid, x: int, z: int, rx: real, rz: real): Triangle
    requires TerrainWorker.ValidGrid(g)
  {
    if TerrainWorker.JsRem(z, 2) == 0 then
      (if rx + rz < 1.0 then EvenNear(g, x, z, rx, rz) else EvenFar(g, x, z, rx, rz))
    else
      (if rx < rz then OddNear(g, x, z, rx, rz) else OddFar(g, x, z, rx, rz))
  }

  /** `getY(px, pz)`: the terrain height at world position (px, pz). */
  function GetY(g: TerrainWorker.Grid, px: real, pz: real): real
    requires TerrainWorker.ValidGrid(g)
  {
    var x := TerrainWorker.CentreCell(px, g.tileSize);
    var z := TerrainWorker.CentreCell(pz, g.tileSize);
    Interp(Pick(g, x, z, px / g.tileSize - x as real, pz / g.tileSize - z as real))
  }

  function Min4(a: real, b: real, c: real, d: real): real
  {
    var ab := if a <= b then a else b;
    var cd := if c <= d then c else d;
    if ab <= cd then ab else cd
  }

  function Max4(a: real, b: real, c: real, d: real): real
  {
    var ab := if a >= b then a else b;
    var cd := if c >= d then c else d;
    if ab >= cd then ab else cd
  }

  /**
   * Every heightmap read `getY` makes, at the four corners of the camera's cell,
   * lands inside the heightmap wherever the camera is.
   */
  lemma ReadsInRange(g: TerrainWorker.Grid, px: real, pz: real)
    requires TerrainWorker.ValidGrid(g)
    ensures var x, z := TerrainWorker.CentreCell(px, g.tileSize), TerrainWorker.CentreCell(pz, g.tileSize);
      && 0 <= TerrainWorker.HeightIndex(g, x, z) < |g.heights|
      && 0 <= TerrainWorker.HeightIndex(g, x + 1, z) < |g.heights|
      && 0 <= TerrainWorker.HeightIndex(g, x, z + 1) < |g.heights|
      && 0 <= TerrainWorker.HeightIndex(g, x + 1, z + 1) < |g.heights|
  {
    var x, z := TerrainWorker.CentreCell(px, g.tileSize), TerrainWorker.CentreCell(pz, g.tileSize);
    TerrainWorker.HeightIndexInRange(g, x, z);
    TerrainWorker.HeightIndexInRange(g, x + 1, z);
    TerrainWorker.HeightIndexInRange(g, x, z + 1);
    TerrainWorker.HeightIndexInRange(g, x + 1, z + 1);
  }

  /**
   * Whichever triangle is picked, its weights are non-negative and sum to at most
   * one, as long as the point lies inside its cell.
   */
  lemma PickWeights(g: TerrainWorker.Grid, x: int, z: int, rx: real, rz: real)
    requires TerrainWorker.ValidGrid(g)
    requires 0.0 <= rx < 1.0 && 0.0 <= rz < 1.0
    ensures var t := Pick(g, x, z, rx, rz); 0.0 <= t.rx && 0.0 <= t.rz && t.rx + t.rz <= 1.0
  {
  }

  lemma MulNonNegative(a: real, b: real)
    requires 0.0 <= a && 0.0 <= b
    ensures 0.0 <= a * b
  {
  }

  /** With such weights the blend lies between the lowest and the highest of its three heights. */
  lemma InterpBetween(t: Triangle, lo: real, hi: real)
    requires 0.0 <= t.rx && 0.0 <= t.rz && t.rx + t.rz <= 1.0
    requires lo <= t.y <= hi && lo <= t.yx <= hi && lo <= t.yz <= hi
    ensures lo <= Interp(t) <= hi
  {
    var a, b := t.rx, t.rz;
    MulNonNegative(1.0 - a - b, t.y - lo);
    MulNonNegative(a, t.yx - lo);
    MulNonNegative(b, t.yz - lo);
    assert Interp(t) - lo == (1.0 - a - b) * (t.y - lo) + a * (t.yx - lo) + b * (t.yz - lo);
    MulNonNegative(1.0 - a - b, hi - t.y);
    MulNonNegative(a, hi - t.yx);
    MulNonNegative(b, hi - t.yz);
    assert hi - Interp(t) == (1.0 - a - b) * (hi - t.y) + a * (hi - t.yx) + b * (hi - t.yz);
  }

  /** How far a coordinate lies into its cell is in `[0, 1)`. */
  lemma FractionInCell(p: real, tileSize: real)
    requires tileSize != 0.0
    ensures 0.0 <= p / tileSize - TerrainWorker.CentreCell(p, tileSize) as real < 1.0
  {
  }

  /**
   * `getY` never leaves the range of the heights at the four corners of the
   * camera's cell: the blend weights are non-negative and sum to at most one.
   */
  lemma GetYBetweenCorners(g: TerrainWorker.Grid, px: real, pz: real)
    requires TerrainWorker.ValidGrid(g)
    ensures var x, z := TerrainWorker.CentreCell(px, g.tileSize), TerrainWorker.CentreCell(pz, g.tileSize);
      Min4(Height(g, x, z), Height(g, x + 1, z), Height(g, x, z + 1), Height(g, x + 1, z + 1)) <= GetY(g, px, pz)
    ensures var x, z := TerrainWorker.CentreCell(px, g.tileSize), TerrainWorker.CentreCell(pz, g.tileSize);
      GetY(g, px, pz) <= Max4(Height(g, x, z), Height(g, x + 1, z), Height(g, x, z + 1), Height(g, x + 1, z + 1))
  {
    var x, z := TerrainWorker.CentreCell(px, g.tileSize), TerrainWorker.CentreCell(pz, g.tileSize);
    var rx, rz := px / g.tileSize - x as real, pz / g.tileSize - z as real;
    FractionInCell(px, g.tileSize);
    FractionInCell(pz, g.tileSize);
    PickWeights(g, x, z, rx, rz);
    InterpBetween(Pick(g, x, z, rx, rz),
      Min4(Height(g, x, z), Height(g, x + 1, z), Height(g, x, z + 1), Height(g, x + 1, z + 1)),
      Max4(Height(g, x, z), Height(g, x + 1, z), Height(g, x, z + 1), Height(g, x + 1, z + 1)));
  }

  /** `getY` blends the picked triangle of the camera's cell at the camera's offset into it. */
  lemma GetYInCell(g: TerrainWorker.Grid, px: real, pz: real, x: int, z: int, rx: real, rz: real)
    requires TerrainWorker.ValidGrid(g)
    requires x == TerrainWorker.CentreCell(px, g.tileSize) && z == TerrainWorker.CentreCell(pz, g.tileSize)
    requires rx == px / g.tileSize - x as real && rz == pz / g.tileSize - z as real
    ensures GetY(g, px, pz) == Interp(Pick(g, x, z, rx, rz))
  {
  }

  /** A coordinate that is a whole number of tiles lies at the start of its cell. */
  lemma AtGridLine(p: real, n: int, tileSize: real)
    requires tileSize != 0.0 && p == n as real * tileSize
    ensures TerrainWorker.CentreCell(p, tileSize) == n
    ensures p / tileSize - n as real == 0.0
  {
    assert p / tileSize == n as real;
  }

  /**
   * At a grid vertex `getY` returns the height stored for it (folded into the
   * grid), on even and on odd rows: on odd rows the second triangle is picked and
   * its weight of one selects the same vertex.
   */
  lemma GetYAtVertex(g: TerrainWorker.Grid, x: int, z: int)
    requires TerrainWorker.ValidGrid(g)
    ensures GetY(g, x as real * g.tileSize, z as real * g.tileSize) == Height(g, x, z)
  {
    var px, pz := x as real * g.tileSize, z as real * g.tileSize;
    AtGridLine(px, x, g.tileSize);
    AtGridLine(pz, z, g.tileSize);
    GetYInCell(g, px, pz, x, z, 0.0, 0.0);
    PickAtCorner(g, x, z);
  }

  /** At the corner (x, z) of its cell either triangle yields the height stored there. */
  lemma PickAtCorner(g: TerrainWorker.Grid, x: int, z: int)
    requires TerrainWorker.ValidGrid(g)
    ensures Interp(Pick(g, x, z, 0.0, 0.0)) == Height(g, x, z)
  {
    if TerrainWorker.JsRem(z, 2) != 0 {
      var t := OddFar(g, x, z, 0.0, 0.0);
      assert t.rx == 1.0 && t.rz == 0.0 && t.yx == Height(g, x, z);
    }
  }

  /** Shifting a coordinate by `n` tiles shifts its cell by `n` and keeps the offset into the cell. */
  lemma ShiftCell(p: real, p2: real, n: int, tileSize: real)
    requires tileSize != 0.0 && p2 == p + n as real * tileSize
    ensures TerrainWorker.CentreCell(p2, tileSize) == TerrainWorker.CentreCell(p, tileSize) + n
    ensures p2 / tileSize - TerrainWorker.CentreCell(p2, tileSize) as real
            == p / tileSize - TerrainWorker.CentreCell(p, tileSize) as real
  {
    assert p2 / tileSize == p / tileSize + n as real;
  }

  /** Heights repeat with the grid: a vertex one grid width or height further on reads the same entry. */
  lemma HeightRepeats(g: TerrainWorker.Grid, x: int, z: int, x2: int, z2: int)
    requires TerrainWorker.ValidGrid(g)
    requires (x2 == x + g.width && z2 == z) || (x2 == x && z2 == z + g.height)
    ensures Height(g, x2, z2) == Height(g, x, z)
  {
    TerrainWorker.HeightIndexWraps(g, x, z);
  }

  /** Shifting a cell by a whole grid width picks a triangle with the same heights. */
  lemma PickRepeatsAcross(g: TerrainWorker.Grid, x: int, x2: int, z: int, rx: real, rz: real)
    requires TerrainWorker.ValidGrid(g) && x2 == x + g.width
    ensures Pick(g, x2, z, rx, rz) == Pick(g, x, z, rx, rz)
  {
    HeightRepeats(g, x, z, x2, z);
    HeightRepeats(g, x + 1, z, x2 + 1, z);
    HeightRepeats(g, x, z + 1, x2, z + 1);
    HeightRepeats(g, x + 1, z + 1, x2 + 1, z + 1);
  }

  /** Shifting a cell by a whole, even grid height picks a triangle with the same heights. */
  lemma PickRepeatsAlong(g: TerrainWorker.Grid, x: int, z: int, z2: int, rx: real, rz: real)
    requires TerrainWorker.ValidGrid(g) && g.height % 2 == 0 && z2 == z + g.height
    ensures Pick(g, x, z2, rx, rz) == Pick(g, x, z, rx, rz)
  {
    HeightRepeats(g, x, z, x, z2);
    HeightRepeats(g, x + 1, z, x + 1, z2);
    HeightRepeats(g, x, z + 1, x, z2 + 1);
    HeightRepeats(g, x + 1, z + 1, x + 1, z2 + 1);
    TerrainWorker.JsEvenIsEven(z);
    TerrainWorker.JsEvenIsEven(z2);
    assert z2 % 2 == z % 2 by {
      Utils.DivModUnique(z2, 2, z / 2 + g.height / 2, z % 2);
    }
  }

  /** Two camera positions whose cells are a grid width apart, at the same offset into them, get the same height. */
  lemma GetYCellsAcross(g: TerrainWorker.Grid, px: real, px2: real, pz: real, x: int, x2: int, z: int, rx: real, rz: real)
    requires TerrainWorker.ValidGrid(g)
    requires x == TerrainWorker.CentreCell(px, g.tileSize) && x2 == TerrainWorker.CentreCell(px2, g.tileSize)
    requires z == TerrainWorker.CentreCell(pz, g.tileSize) && x2 == x + g.width
    requires rx == px / g.tileSize - x as real && rx == px2 / g.tileSize - x2 as real
    requires rz == pz / g.tileSize - z as real
    ensures GetY(g, px2, pz) == GetY(g, px, pz)
  {
    GetYInCell(g, px, pz, x, z, rx, rz);
    GetYInCell(g, px2, pz, x2, z, rx, rz);
    PickRepeatsAcross(g, x, x2, z, rx, rz);
  }

  /** Two camera positions whose cells are an even grid height apart, at the same offset into them, get the same height. */
  lemma GetYCellsAlong(g: TerrainWorker.Grid, px: real, pz: real, pz2: real, x: int, z: int, z2: int, rx: real, rz: real)
    requires TerrainWorker.ValidGrid(g) && g.height % 2 == 0
    requires x == TerrainWorker.CentreCell(px, g.tileSize)
    requires z == TerrainWorker.CentreCell(pz, g.tileSize) && z2 == TerrainWorker.CentreCell(pz2, g.tileSize)
    requires z2 == z + g.height
    requires rx == px / g.tileSize - x as real
    requires rz == pz / g.tileSize - z as real && rz == pz2 / g.tileSize - z2 as real
    ensures GetY(g, px, pz2) == GetY(g, px, pz)
  {
    GetYInCell(g, px, pz, x, z, rx, rz);
    GetYInCell(g, px, pz2, x, z2, rx, rz);
    PickRepeatsAlong(g, x, z, z2, rx, rz);
  }

  /** Outside the grid the terrain repeats instead of failing: one grid width further on the height is the same. */
  lemma GetYRepeatsAcross(g: TerrainWorker.Grid, px: real, pz: real)
    requires TerrainWorker.ValidGrid(g)
    ensures GetY(g, px + g.width as real * g.tileSize, pz) == GetY(g, px, pz)
  {
    var px2 := px + g.width as real * g.tileSize;
    var x := TerrainWorker.CentreCell(px, g.tileSize);
    var z := TerrainWorker.CentreCell(pz, g.tileSize);
    ShiftCell(px, px2, g.width, g.tileSize);
    GetYCellsAcross(g, px, px2, pz, x, TerrainWorker.CentreCell(px2, g.tileSize), z,
                    px / g.tileSize - x as real, pz / g.tileSize - z as real);
  }

  /**
   * Along z the terrain repeats one grid height further on when the grid height
   * is even; with an odd height the row parity flips, and so does the triangle
   * split.
   */
  lemma GetYRepeatsAlong(g: TerrainWorker.Grid, px: real, pz: real)
    requires TerrainWorker.ValidGrid(g) && g.height % 2 == 0
    ensures GetY(g, px, pz + g.height as real * g.tileSize) == GetY(g, px, pz)
  {
    var pz2 := pz + g.height as real * g.tileSize;
    var x := TerrainWorker.CentreCell(px, g.tileSize);
    var z := TerrainWorker.CentreCell(pz, g.tileSize);
    ShiftCell(pz, pz2, g.height, g.tileSize);
    GetYCellsAlong(g, px, pz, pz2, x, z, TerrainWorker.CentreCell(pz2, g.tileSize),
                   px / g.tileSize - x as real, pz / g.tileSize - z as real);
  }

  /**
   * On even rows the cell is split along `rx + rz = 1`, and both triangles give
   * the same height there, so the surface has no step at the seam.
   */
  lemma EvenSeam(g: TerrainWorker.Grid, x: int, z: int, rx: real, rz: real)
    requires TerrainWorker.ValidGrid(g)
    requires rx + rz == 1.0
    ensures Interp(EvenNear(g, x, z, rx, rz)) == Interp(EvenFar(g, x, z, rx, rz))
  {
    assert rz == 1.0 - rx;
  }

  /**
   * On odd rows the cell is split along `rx = rz`, and both triangles give the
   * same height there.
   */
  lemma OddSeam(g: TerrainWorker.Grid, x: int, z: int, rx: real, rz: real)
    requires TerrainWorker.ValidGrid(g)
    requires rx == rz
    ensures Interp(OddNear(g, x, z, rx, rz)) == Interp(OddFar(g, x, z, rx, rz))
  {
  }

  /**
   * The seams `getY` uses are the diagonals the worker's strip draws. In row
   * block `mz`, consecutive pairs share the edge between their second and their
   * next first index. On an even absolute row (left to right) that edge joins
   * corners (c, mz + 1) and (c + 1, mz) of cell c, the line `rx + rz = 1`; on an
   * odd row (right to left) it joins corners (c + 1, mz + 1) and (c, mz) of
   * cell c, the line `rx = rz`.
   */
  lemma StripDiagonals(tiles: nat, z0: int, rows: nat, mz: nat, mx: nat)
    requires mz < rows && mx + 1 < tiles
    ensures 2 * (mz * tiles + mx + 1) < |TerrainWorker.Strip(tiles, z0, rows)|
    ensures var s := TerrainWorker.Strip(tiles, z0, rows);
            TerrainWorker.JsRem(z0 + mz, 2) == 0 ==>
              s[2 * (mz * tiles + mx) + 1] == (mz + 1) * tiles + mx
              && s[2 * (mz * tiles + mx + 1)] == mz * tiles + (mx + 1)
    ensures var s := TerrainWorker.Strip(tiles, z0, rows);
            var c := tiles - 2 - mx;
            TerrainWorker.JsRem(z0 + mz, 2) != 0 ==>
              s[2 * (mz * tiles + mx) + 1] == (mz + 1) * tiles + (c + 1)
              && s[2 * (mz * tiles + mx + 1)] == mz * tiles + c
  {
    TerrainWorker.StripIndexAt(tiles, z0, rows, mz, mx, 1);
    TerrainWorker.StripIndexAt(tiles, z0, rows, mz, mx + 1, 0);
    assert mz * tiles + mx + 1 == mz * tiles + (mx + 1);
  }

  /** The offset the terrain asks the worker for in its `init` request. */
  const InitOffset: int := 60

  /**
   * Replies to the requests the terrain posts carry `tiles * tiles` vertices and
   * normals and `4 offset tiles` indices, and with offset 60 every index fits the
   * `Uint16Array` the reply carries them in.
   */
  lemma ReplySizes(g: TerrainWorker.Grid, dx: int, dz: int, i: nat)
    requires TerrainWorker.ValidGrid(g)
    ensures var m := TerrainWorker.Window(g, InitOffset, dx, dz);
      |m.vertices| as real / 3.0 == 14641.0 && |m.normals| as real / 3.0 == 14641.0 && |m.indices| == 29040
    ensures var m := TerrainWorker.Window(g, InitOffset, dx, dz);
      i < |m.indices| ==> 0 <= m.indices[i] < TerrainWorker.Uint16Limit
  {
    TerrainWorker.WindowSizes(g, InitOffset, dx, dz);
    if i < |TerrainWorker.Window(g, InitOffset, dx, dz).indices| {
      TerrainWorker.WindowIndicesFitUint16(g, InitOffset, dx, dz, i);
    }
  }

  /**
   * The terrain object with the state `update` and the worker listener change:
   * the worker's `working` flag, the messages posted to the worker, and the item
   * counts of the vertex, normal and index buffers.
   */
  class TerrainRenderer {
    /** `assets.json.terrain`, the heightmap `getY` reads and the `init` request carries. */
    const heightmap: TerrainWorker.Grid
    var working: bool
    var posted: seq<TerrainWorker.Request>
    var vertexItems: real
    var normalItems: real
    var indexItems: int
    /** Requests posted to the worker and not yet answered. */
    ghost var outstanding: nat

    /** Single flight: a request is outstanding exactly while `working` is set, and never more than one. */
    ghost predicate Valid()
      reads this
    {
      outstanding <= 1 && (working <==> outstanding == 1)
    }

    /**
     * The constructor: empty buffers, then `working` set before the `init`
     * request goes out, so no `update` request can precede the first reply.
     */
    constructor (g: TerrainWorker.Grid)
      ensures Valid()
      ensures heightmap == g && working && outstanding == 1
      ensures posted == [TerrainWorker.InitRequest(g.width, g.height, g.tileSize, g.heights, g.normals, InitOffset)]
      ensures vertexItems == 0.0 && normalItems == 0.0 && indexItems == 0
    {
      heightmap := g;
      vertexItems, normalItems, indexItems := 0.0, 0.0, 0;
      working := true;
      posted := [TerrainWorker.InitRequest(g.width, g.height, g.tileSize, g.heights, g.normals, InitOffset)];
      outstanding := 1;
    }

    /**
     * `update(px, pz)`: post a request for the window around (-px, -pz) unless
     * one is outstanding, and answer the height there from the full heightmap.
     */
    method Update(px: real, pz: real) returns (y: real)
      requires Valid() && TerrainWorker.ValidGrid(heightmap)
      modifies this
      ensures Valid() && working
      ensures y == GetY(heightmap, -px, -pz)
      ensures old(working) ==> posted == old(posted) && outstanding == old(outstanding)
      ensures !old(working) ==> posted == old(posted) + [TerrainWorker.UpdateRequest(-px, -pz)]
      ensures vertexItems == old(vertexItems) && normalItems == old(normalItems) && indexItems == old(indexItems)
    {
      if !working {
        working := true;
        posted := posted + [TerrainWorker.UpdateRequest(-px, -pz)];
        outstanding := outstanding + 1;
      }
      y := GetY(heightmap, -px, -pz);
    }

    /**
     * The worker's `message` listener, run for the reply to the outstanding
     * request: an update reply sets the item counts, and every reply clears
     * `working`.
     */
    method OnReply(reply: TerrainWorker.Reply)
      requires Valid() && outstanding == 1
      modifies this
      ensures Valid() && !working && outstanding == 0
      ensures posted == old(posted)
      ensures reply.UpdateComplete? ==>
        && vertexItems == |reply.mesh.vertices| as real / 3.0
        && normalItems == |reply.mesh.normals| as real / 3.0
        && indexItems == |reply.mesh.indices|
      ensures reply.InitComplete? ==>
        vertexItems == old(vertexItems) && normalItems == old(normalItems) && indexItems == old(indexItems)
    {
      if reply.UpdateComplete? {
        vertexItems := |reply.mesh.vertices| as real / 3.0;
        normalItems := |reply.mesh.normals| as real / 3.0;
        indexItems := |reply.mesh.indices|;
      }
      working := false;
      outstanding := 0;
    }
  }
}
