// The grid of `Terrain::Init` in project/terrain/terrain.h (a 256 x 256 vertex grid cut into
// four-vertex patches for the tessellation shaders) and the terrain's two setters.
module TerrainMesh {
  import opened Vectors
  import opened Config

  /** `quad_resolution`: the row length of the terrain grid. */
  const Q: int := 256

  /** `quad_size = WORLD_SIZE / quad_resolution`, the spacing of the grid. */
  const QUAD_SIZE: real := WORLD_SIZE / (Q as real)

  /** `GL_PATCH_VERTICES`: the patches the terrain is drawn with have four corners. */
  const PATCH_VERTICES: int := 4

  /** The four entries `4 * g .. 4 * g + 3` all belong to patch g. */
  lemma SplitCorners(g: int)
    requires 0 <= g
    ensures (4 * g) / 4 == g && (4 * g) % 4 == 0
    ensures (4 * g + 1) / 4 == g && (4 * g + 1) % 4 == 1
    ensures (4 * g + 2) / 4 == g && (4 * g + 2) % 4 == 2
    ensures (4 * g + 3) / 4 == g && (4 * g + 3) % 4 == 3
  {
  }

  /** Coordinate k of the vertex list: even positions hold the column, odd ones the row, both scaled and centred. */
  function GridCoordinate(k: nat): real {
    var v := k / 2;
    QUAD_SIZE * (if k % 2 == 0 then v / Q else v % Q) as real - WORLD_SIZE / 2.0
  }

  /**
   * Entry k of the patch list. Patch g has lower-left corner `(i, j)` with `i = g / (Q - 1) + 1`
   * and `j = g % (Q - 1)`; its corners are listed `(i, j), (i + 1, j), (i + 1, j + 1), (i, j + 1)`.
   */
  function PatchIndex(k: nat): int {
    var g := k / 4;
    var i := g / (Q - 1) + 1;
    var j := g % (Q - 1);
    var corner := k % 4;
    if corner == 0 then i * Q + j
    else if corner == 1 then (i + 1) * Q + j
    else if corner == 2 then (i + 1) * Q + j + 1
    else i * Q + j + 1
  }

  /** The number of patches: columns 1 .. Q - 2 times rows 0 .. Q - 2. */
  const PATCH_COUNT: int := (Q - 2) * (Q - 1)

  /** The vertex loop. */
  method GridVertices() returns (vertices: seq<real>)
    ensures |vertices| == 2 * Q * Q
    ensures forall k :: 0 <= k < |vertices| ==> vertices[k] == GridCoordinate(k)
  {
    vertices := [];
    var i := 0;
    while i < Q
      invariant 0 <= i <= Q
      invariant |vertices| == 2 * i * Q
      invariant forall k :: 0 <= k < |vertices| ==> vertices[k] == GridCoordinate(k)
    {
      var j := 0;
      while j < Q
        invariant 0 <= j <= Q
        invariant |vertices| == 2 * (i * Q + j)
        invariant forall k :: 0 <= k < |vertices| ==> vertices[k] == GridCoordinate(k)
      {
        RowMajorSplit(i, j, Q);
        vertices := vertices + [QUAD_SIZE * i as real - WORLD_SIZE / 2.0];
        vertices := vertices + [QUAD_SIZE * j as real - WORLD_SIZE / 2.0];
        j := j + 1;
      }
      i := i + 1;
    }
  }

  /** The patch loop. */
  method PatchIndices() returns (indices: seq<int>)
    ensures |indices| == PATCH_VERTICES * PATCH_COUNT
    ensures forall k :: 0 <= k < |indices| ==> indices[k] == PatchIndex(k)
  {
    indices := [];
    var i := 1;
    while i < Q - 1
      invariant 1 <= i <= Q - 1
      invariant |indices| == 4 * ((i - 1) * (Q - 1))
      invariant forall k :: 0 <= k < |indices| ==> indices[k] == PatchIndex(k)
    {
      var j := 0;
      while j < Q - 1
        invariant 0 <= j <= Q - 1
        invariant |indices| == 4 * ((i - 1) * (Q - 1) + j)
        invariant forall k :: 0 <= k < |indices| ==> indices[k] == PatchIndex(k)
      {
        RowMajorSplit(i - 1, j, Q - 1);
        SplitCorners((i - 1) * (Q - 1) + j);
        indices := indices + [i * Q + j];
        indices := indices + [(i + 1) * Q + j];
        indices := indices + [(i + 1) * Q + j + 1];
        indices := indices + [i * Q + j + 1];
        j := j + 1;
      }
      i := i + 1;
    }
  }

  /** Vertex `(i, j)` of the grid is at world position `(size * i - 250, size * j - 250)`. */
  lemma GridVertexAt(i: int, j: int)
    requires 0 <= i < Q && 0 <= j < Q
    ensures GridCoordinate(2 * (i * Q + j)) == QUAD_SIZE * i as real - WORLD_SIZE / 2.0
    ensures GridCoordinate(2 * (i * Q + j) + 1) == QUAD_SIZE * j as real - WORLD_SIZE / 2.0
  {
    RowMajorSplit(i, j, Q);
    assert (2 * (i * Q + j)) / 2 == i * Q + j && (2 * (i * Q + j) + 1) / 2 == i * Q + j;
  }

  /** Every patch corner is a grid vertex outside the first row: row `i = 0` (indices below `Q`) is never used. */
  lemma PatchIndexInGrid(k: nat)
    requires k < PATCH_VERTICES * PATCH_COUNT
    ensures Q <= PatchIndex(k) < Q * Q
  {
    var g := k / 4;
    RowMajorSplit(g / (Q - 1), g % (Q - 1), Q - 1);
  }

  /** Patch g is the unit square with lower-left corner `(i, j)`, its corners in counter-clockwise order. */
  lemma PatchCorners(g: nat)
    requires g < PATCH_COUNT
    ensures var i := g / (Q - 1) + 1; var j := g % (Q - 1);
      1 <= i <= Q - 2 && 0 <= j <= Q - 2 &&
      PatchIndex(4 * g) == i * Q + j && PatchIndex(4 * g + 1) == (i + 1) * Q + j &&
      PatchIndex(4 * g + 2) == (i + 1) * Q + (j + 1) && PatchIndex(4 * g + 3) == i * Q + (j + 1)
  {
    SplitCorners(g);
  }

  /** The terrain's renderer state: the two fields its setters replace and the built grid. */
  class Terrain {
    var wireframe: bool
    var center: Vec2
    var vertices: seq<real>
    var indices: seq<int>
    var numIndices: int

    constructor ()
      ensures !wireframe && center == INITIAL_CENTER
      ensures vertices == [] && indices == [] && numIndices == 0
    {
      wireframe := false;
      center := INITIAL_CENTER;
      vertices, indices, numIndices := [], [], 0;
    }

    /** The grid part of `Init`: both loops, then `num_indices_ = indices.size()`, a whole number of patches. */
    method Init()
      modifies this`vertices, this`indices, this`numIndices
      ensures |vertices| == 2 * Q * Q && forall k :: 0 <= k < |vertices| ==> vertices[k] == GridCoordinate(k)
      ensures |indices| == PATCH_VERTICES * PATCH_COUNT && forall k :: 0 <= k < |indices| ==> indices[k] == PatchIndex(k)
      ensures numIndices == |indices| && numIndices % PATCH_VERTICES == 0
    {
      vertices := GridVertices();
      indices := PatchIndices();
      numIndices := |indices|;
    }

    method SetCenter(newCenter: Vec2)
      modifies this`center
      ensures center == newCenter
    {
      center := newCenter;
    }

    method SetWireframe(value: bool)
      modifies this`wireframe
      ensures wireframe == value
    {
      wireframe := value;
    }
  }
}
