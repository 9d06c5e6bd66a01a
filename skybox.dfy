/**
 * The sky of PeaksAndValleys (js/GLSkybox.js): a cube from -1 to 1 on every
 * axis, drawn as six faces of four vertices, each face textured with one
 * quarter-by-quarter tile of a single image laid out as a cross.
 *
 * The object is a value; `gl.*` buffer creation and upload are not part of
 * this model, only the tables and the item sizes and counts recorded with them.
 */
module Skybox {
  import Cube

  datatype Skybox = Skybox(vertices: Cube.Buffer<real>, indices: Cube.Buffer<nat>,
                           uvs: Cube.Buffer<real>, position: Cube.Vec3, rotation: Cube.Vec3)

  /** The vertex table, one row per face (front, back, top, bottom, left, right). */
  function VertexRows(): seq<seq<real>>
  {
    [ [-1.0, -1.0, -1.0,   1.0, -1.0, -1.0,   1.0,  1.0, -1.0,  -1.0,  1.0, -1.0],
      [ 1.0, -1.0,  1.0,  -1.0, -1.0,  1.0,  -1.0,  1.0,  1.0,   1.0,  1.0,  1.0],
      [-1.0,  1.0, -1.0,   1.0,  1.0, -1.0,   1.0,  1.0,  1.0,  -1.0,  1.0,  1.0],
      [-1.0, -1.0,  1.0,   1.0, -1.0,  1.0,   1.0, -1.0, -1.0,  -1.0, -1.0, -1.0],
      [-1.0, -1.0,  1.0,  -1.0, -1.0, -1.0,  -1.0,  1.0, -1.0,  -1.0,  1.0,  1.0],
      [ 1.0, -1.0, -1.0,   1.0, -1.0,  1.0,   1.0,  1.0,  1.0,   1.0,  1.0, -1.0] ]
  }

  /** The index table, one row (two triangles) per face. */
  function IndexRows(): seq<seq<nat>>
  {
    [ [ 0,  1,  2,  0,  2,  3],
      [ 4,  5,  6,  4,  6,  7],
      [ 8,  9, 10,  8, 10, 11],
      [12, 13, 14, 12, 14, 15],
      [16, 17, 18, 16, 18, 19],
      [20, 21, 22, 20, 22, 23] ]
  }

  /** The texture coordinate table, one row (four `(u, v)` pairs) per face. */
  function UvRows(): seq<seq<real>>
  {
    [ [0.25, 0.50,   0.50, 0.50,   0.50, 0.75,   0.25, 0.75],
      [0.75, 0.50,   1.00, 0.50,   1.00, 0.75,   0.75, 0.75],
      [0.25, 0.75,   0.50, 0.75,   0.50, 1.00,   0.25, 1.00],
      [0.25, 0.25,   0.50, 0.25,   0.50, 0.50,   0.25, 0.50],
      [0.00, 0.50,   0.25, 0.50,   0.25, 0.75,   0.00, 0.75],
      [0.50, 0.50,   0.75, 0.50,   0.75, 0.75,   0.50, 0.75] ]
  }

  /** `new GLSkybox(gl)`. */
  function NewSkybox(): Skybox
  {
    Skybox(Cube.Buffer(Cube.Flatten(VertexRows()), 3, 24),
           Cube.Buffer(Cube.Flatten<nat>(IndexRows()), 1, 36),
           Cube.Buffer(Cube.Flatten(UvRows()), 2, 24),
           Cube.Vec3(0.0, 0.0, 0.0), Cube.Vec3(0.0, 0.0, 0.0))
  }

  // ---------------------------------------------- reference definitions

  /** A cell of the 4 x 4 texture grid: column `col` from the left, row `row` from `v == 0`. */
  datatype Tile = Tile(col: nat, row: nat)

  /** The tile each face takes from the cross-shaped image. */
  function TileOf(k: nat): Tile
  {
    if k == 0 then Tile(1, 2)        // front
    else if k == 1 then Tile(3, 2)   // back
    else if k == 2 then Tile(1, 3)   // top
    else if k == 3 then Tile(1, 1)   // bottom
    else if k == 4 then Tile(0, 2)   // left
    else Tile(2, 2)                  // right
  }

  /** The four corners of a tile, counter-clockwise from its lower left, as `(u, v)` pairs. */
  function Corners(t: Tile): seq<real>
  {
    var u0 := t.col as real / 4.0;
    var v0 := t.row as real / 4.0;
    var u1 := u0 + 0.25;
    var v1 := v0 + 0.25;
    [u0, v0, u1, v0, u1, v1, u0, v1]
  }

  // ------------------------------------------------------------- properties

  /** Every buffer holds `numItems * itemSize` values, and the skybox starts at the origin, unrotated. */
  lemma NewSkyboxSizes()
    ensures var s := NewSkybox();
      |s.vertices.data| == s.vertices.numItems * s.vertices.itemSize == 72
      && |s.indices.data| == s.indices.numItems * s.indices.itemSize == 36
      && |s.uvs.data| == s.uvs.numItems * s.uvs.itemSize == 48
      && s.position == Cube.Vec3(0.0, 0.0, 0.0) && s.rotation == Cube.Vec3(0.0, 0.0, 0.0)
  {
    Cube.FlattenLength(VertexRows(), 12);
    Cube.FlattenLength<nat>(IndexRows(), 6);
    Cube.FlattenLength(UvRows(), 8);
  }

  /** The skybox is the sun's cube with half-extent 1 (a `GLCube` of size 2), with the same face order and triangles. */
  lemma SkyboxIsCube()
    ensures VertexRows() == Cube.VertexRows(1.0, 1.0, 1.0)
    ensures IndexRows() == Cube.IndexRows()
    ensures NewSkybox().vertices == Cube.NewCube(2.0, 2.0, 2.0).vertices
    ensures NewSkybox().indices == Cube.NewCube(2.0, 2.0, 2.0).indices
  {
  }

  /** Each face is textured with its own tile of the image, corner by corner. */
  lemma FaceTextureIsTile(k: nat)
    requires k < Cube.Faces
    ensures UvRows()[k] == Corners(TileOf(k))
  {
  }

  /** No two faces share a tile, and every tile lies inside the 4 x 4 grid. */
  lemma TilesDistinct(k1: nat, k2: nat)
    requires k1 < Cube.Faces && k2 < Cube.Faces
    ensures TileOf(k1).col < 4 && TileOf(k1).row < 4
    ensures TileOf(k1) == TileOf(k2) <==> k1 == k2
  {
  }

  /** Every texture coordinate lies in `[0, 1]`, so no face samples outside the image. */
  lemma UvInUnitSquare(k: nat, i: nat)
    requires k < Cube.Faces && i < 8
    ensures 0.0 <= UvRows()[k][i] <= 1.0
  {
    FaceTextureIsTile(k);
  }
}
