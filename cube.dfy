/**
 * The sun of PeaksAndValleys (js/GLCube.js): a box of the given width, height
 * and depth centred on the origin, drawn as six faces of four vertices each,
 * two triangles per face, in one flat colour.
 *
 * The tables are written face by face, as the source lays them out, and a GL
 * buffer holds their concatenation. The object the constructor builds is a
 * value; `gl.*` buffer creation and upload are not part of this model, only
 * the tables and the item sizes and counts recorded with them.
 */
module Cube {

  /** A GL buffer as the constructor describes it: its contents and `itemSize`/`numItems`. */
  datatype Buffer<T> = Buffer(data: seq<T>, itemSize: nat, numItems: nat)

  /** A vector `[x, y, z]`. */
  datatype Vec3 = Vec3(x: real, y: real, z: real)

  datatype Cube = Cube(vertices: Buffer<real>, indices: Buffer<nat>, colors: Buffer<real>,
                       position: Vec3, rotation: Vec3)

  /** Faces in table order: front, back, top, bottom, left, right. */
  const Faces: nat := 6
  const VerticesPerFace: nat := 4

  // ------------------------------------------------------------ flat tables

  /** The rows of a table one after another, as the array literal lists them. */
  function Flatten<T>(rows: seq<seq<T>>): seq<T>
  {
    if rows == [] then [] else Flatten(rows[..|rows| - 1]) + rows[|rows| - 1]
  }

  /** Every row has `width` entries. */
  ghost predicate Uniform<T>(rows: seq<seq<T>>, width: nat)
  {
    forall k :: 0 <= k < |rows| ==> |rows[k]| == width
  }

  /** A table of uniform rows has `width` entries per row. */
  lemma {:induction false} FlattenLength<T>(rows: seq<seq<T>>, width: nat)
    requires Uniform(rows, width)
    ensures |Flatten(rows)| == width * |rows|
  {
    if rows != [] {
      var n := |rows| - 1;
      FlattenLength(rows[..n], width);
      assert width * (n + 1) == width * n + width;
    }
  }

  /** Entry `j` of row `k` sits at `width * k + j` of the flat table. */
  lemma {:induction false} FlattenAt<T>(rows: seq<seq<T>>, width: nat, k: nat, j: nat)
    requires Uniform(rows, width) && k < |rows| && j < width
    ensures width * k + j < |Flatten(rows)| && Flatten(rows)[width * k + j] == rows[k][j]
  {
    var init := rows[..|rows| - 1];
    FlattenLength(rows, width);
    FlattenLength(init, width);
    if k < |rows| - 1 {
      FlattenAt(init, width, k, j);
    }
  }

  // ----------------------------------------------------------------- tables

  /** The vertex table around the origin for half-extents `w`, `h`, `d`, one row per face. */
  function VertexRows(w: real, h: real, d: real): seq<seq<real>>
  {
    [ [-w, -h, -d,   w, -h, -d,   w,  h, -d,   -w,  h, -d],
      [ w, -h,  d,  -w, -h,  d,  -w,  h,  d,    w,  h,  d],
      [-w,  h, -d,   w,  h, -d,   w,  h,  d,   -w,  h,  d],
      [-w, -h,  d,   w, -h,  d,   w, -h, -d,   -w, -h, -d],
      [-w, -h,  d,  -w, -h, -d,  -w,  h, -d,   -w,  h,  d],
      [ w, -h, -d,   w, -h,  d,   w,  h,  d,    w,  h, -d] ]
  }

  /** The index table, one row (two triangles) per face. */
  function IndexRows(): seq<seq<nat>>
  {
    [ [ 0,  1,  2,  0,  2,  3],
      [ 4,  5,  6,  4,  6,  7],
      [ 8,  9, 10,  8, 10, 11],
      [12, 13, 14, 12, 14, 15],
      [16, 17, 18, 16, 18, 19],
      [20, 21, 22, 20, 22, 23] ]
  }

  /** The colour of every vertex: `(0.8, 1.0, 0.1, 1.0)`. */
  function Yellow(): seq<real>
  {
    [0.8, 1.0, 0.1, 1.0]
  }

  /** The colour table, one row (four vertices) per face. */
  function ColorRows(): seq<seq<real>>
  {
    var face := Yellow() + Yellow() + Yellow() + Yellow();
    [face, face, face, face, face, face]
  }

  /** `new GLCube(gl, width, height, depth)`. */
  function NewCube(width: real, height: real, depth: real): Cube
  {
    Cube(Buffer(Flatten(VertexRows(width / 2.0, height / 2.0, depth / 2.0)), 3, 24),
         Buffer(Flatten<nat>(IndexRows()), 1, 36),
         Buffer(Flatten(ColorRows()), 4, 24),
         Vec3(0.0, 0.0, 0.0), Vec3(0.0, 0.0, 0.0))
  }

  // ---------------------------------------------- reference definitions

  /** The six indices of face `k`: triangles `(4k, 4k+1, 4k+2)` and `(4k, 4k+2, 4k+3)`. */
  function FaceIndices(k: nat): seq<nat>
  {
    [4 * k, 4 * k + 1, 4 * k + 2, 4 * k, 4 * k + 2, 4 * k + 3]
  }

  /** The axis (0 x, 1 y, 2 z) face `k` is perpendicular to. */
  function Axis(k: nat): nat
  {
    if k < 2 then 2 else if k < 4 then 1 else 0
  }

  /** Which end of its axis face `k` lies at. */
  function Side(k: nat): real
  {
    if k == 0 || k == 3 || k == 4 then -1.0 else 1.0
  }

  function Extent(axis: nat, w: real, h: real, d: real): real
  {
    if axis == 0 then w else if axis == 1 then h else d
  }

  // ------------------------------------------------------------- properties

  /** Every buffer holds `numItems * itemSize` values, and the cube starts at the origin, unrotated. */
  lemma NewCubeSizes(width: real, height: real, depth: real)
    ensures var c := NewCube(width, height, depth);
      |c.vertices.data| == c.vertices.numItems * c.vertices.itemSize == 72
      && |c.indices.data| == c.indices.numItems * c.indices.itemSize == 36
      && |c.colors.data| == c.colors.numItems * c.colors.itemSize == 96
      && c.position == Vec3(0.0, 0.0, 0.0) && c.rotation == Vec3(0.0, 0.0, 0.0)
  {
    FlattenLength(VertexRows(width / 2.0, height / 2.0, depth / 2.0), 12);
    FlattenLength<nat>(IndexRows(), 6);
    FlattenLength(ColorRows(), 16);
  }

  /** Face `k` is drawn as two triangles on its own four vertices, `4k .. 4k+3`. */
  lemma FaceUsesOwnVertices(k: nat)
    requires k < Faces
    ensures IndexRows()[k] == FaceIndices(k)
  {
  }

  /** Every entry of the index buffer names one of the 24 vertices. */
  lemma IndicesInRange()
    ensures var table := Flatten<nat>(IndexRows());
      forall i :: 0 <= i < |table| ==> table[i] < Faces * VerticesPerFace
  {
    var rows := IndexRows();
    var table := Flatten<nat>(rows);
    FlattenLength<nat>(rows, 6);
    forall i | 0 <= i < |table|
      ensures table[i] < Faces * VerticesPerFace
    {
      FlattenAt<nat>(rows, 6, i / 6, i % 6);
      FaceUsesOwnVertices(i / 6);
    }
  }

  /** The four vertices of face `k` all lie in that face's plane, at one end of its axis. */
  lemma FaceInPlane(w: real, h: real, d: real, k: nat, j: nat)
    requires k < Faces && j < VerticesPerFace
    ensures VertexRows(w, h, d)[k][3 * j + Axis(k)] == Side(k) * Extent(Axis(k), w, h, d)
  {
  }

  /** Each coordinate is plus or minus the half-extent of its own axis. */
  lemma CoordinateOnBox(w: real, h: real, d: real, k: nat, i: nat)
    requires k < Faces && i < 12
    ensures VertexRows(w, h, d)[k][i] == Extent(i % 3, w, h, d)
            || VertexRows(w, h, d)[k][i] == -Extent(i % 3, w, h, d)
  {
  }

  /** Every one of the 24 vertices has the same colour. */
  lemma AllYellow(v: nat, c: nat)
    requires v < Faces * VerticesPerFace && c < 4
    ensures |Flatten(ColorRows())| == 96 && Flatten(ColorRows())[4 * v + c] == Yellow()[c]
  {
    var rows := ColorRows();
    FlattenLength(rows, 16);
    FlattenAt(rows, 16, v / 4, 4 * (v % 4) + c);
    assert 16 * (v / 4) + (4 * (v % 4) + c) == 4 * v + c;
  }
}
