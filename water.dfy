// The grid of `Water::Init` in project/water/water.h (a RESOLUTION x RESOLUTION vertex grid drawn as
// one triangle strip that walks the columns in an S) and the water's parameter setters.
module WaterMesh {
  import opened Vectors
  import opened Config

  /** The row length of the water grid. */
  const R: int := RESOLUTION

  /** `triangle_size = WORLD_SIZE / RESOLUTION`, the spacing of the grid. */
  const TRIANGLE_SIZE: real := WORLD_SIZE / (RESOLUTION as real)

  /** Vertex `(i, j)` is the pair `(size * i - WORLD_SIZE / 2, size * j - WORLD_SIZE / 2)` at position `2 * (i * R + j)`. */
  function GridCoordinate(k: nat): real {
    var v := k / 2;
    TRIANGLE_SIZE * (if k % 2 == 0 then v / R else v % R) as real - WORLD_SIZE / 2.0
  }

  /**
   * Entry k of the strip. Entries come in pairs; pair m belongs to column `i = m / R + 1` and
   * step `j = m % R`. Even columns go up the rows and push column i - 1 first, odd columns go
   * down the rows and push column i first.
   */
  function StripIndex(k: nat): int {
    var m := k / 2;
    var i := m / R + 1;
    var j := m % R;
    if i % 2 == 0 then (if k % 2 == 0 then (i - 1) * R + j else i * R + j)
    else (if k % 2 == 0 then i * R + (R - 1) - j else (i - 1) * R + (R - 1) - j)
  }

  /** The column, and the row within it, of a vertex index. */
  function Column(v: int): int { v / R }
  function Row(v: int): int { v % R }

  /** The vertex loop. */
  method GridVertices() returns (vertices: seq<real>)
    ensures |vertices| == 2 * R * R
    ensures forall k :: 0 <= k < |vertices| ==> vertices[k] == GridCoordinate(k)
  {
    vertices := [];
    var i := 0;
    while i < R
      invariant 0 <= i <= R
      invariant |vertices| == 2 * i * R
      invariant forall k :: 0 <= k < |vertices| ==> vertices[k] == GridCoordinate(k)
    {
      var j := 0;
      while j < R
        invariant 0 <= j <= R
        invariant |vertices| == 2 * (i * R + j)
        invariant forall k :: 0 <= k < |vertices| ==> vertices[k] == GridCoordinate(k)
      {
        RowMajorSplit(i, j, R);
        vertices := vertices + [TRIANGLE_SIZE * i as real - WORLD_SIZE / 2.0];
        vertices := vertices + [TRIANGLE_SIZE * j as real - WORLD_SIZE / 2.0];
        j := j + 1;
      }
      i := i + 1;
    }
  }

  /** The two entries the inner loop pushes at column i and step j are the strip's pair (i - 1) * R + j. */
  lemma StripEntries(i: int, j: int)
    requires 1 <= i < R && 0 <= j < R
    ensures var m := (i - 1) * R + j;
      StripIndex(2 * m) == (if i % 2 == 0 then (i - 1) * R + j else i * R + (R - 1) - j) &&
      StripIndex(2 * m + 1) == (if i % 2 == 0 then i * R + j else (i - 1) * R + (R - 1) - j)
  {
    var m := (i - 1) * R + j;
    RowMajorSplit(i - 1, j, R);
    assert (2 * m) / 2 == m && (2 * m) % 2 == 0;
    assert (2 * m + 1) / 2 == m && (2 * m + 1) % 2 == 1;
  }

  /** The index loop: column by column along an S. */
  method StripIndices() returns (indices: seq<int>)
    ensures |indices| == 2 * R * (R - 1)
    ensures forall k :: 0 <= k < |indices| ==> indices[k] == StripIndex(k)
  {
    indices := [];
    var i := 1;
    while i < R
      invariant 1 <= i <= R
      invariant |indices| == 2 * (i - 1) * R
      invariant forall k :: 0 <= k < |indices| ==> indices[k] == StripIndex(k)
    {
      if i % 2 == 0 {
        var j := 0;
        while j < R
          invariant 0 <= j <= R
          invariant |indices| == 2 * ((i - 1) * R + j)
          invariant forall k :: 0 <= k < |indices| ==> indices[k] == StripIndex(k)
        {
          StripEntries(i, j);
          indices := indices + [(i - 1) * R + j, i * R + j];
          j := j + 1;
        }
      } else {
        var j := 0;
        while j < R
          invariant 0 <= j <= R
          invariant |indices| == 2 * ((i - 1) * R + j)
          invariant forall k :: 0 <= k < |indices| ==> indices[k] == StripIndex(k)
        {
          StripEntries(i, j);
          indices := indices + [i * R + (R - 1) - j, (i - 1) * R + (R - 1) - j];
          j := j + 1;
        }
      }
      i := i + 1;
    }
  }

  /** Vertex `(i, j)` of the grid is at world position `(i - 250, j - 250)`. */
  lemma GridVertexAt(i: int, j: int)
    requires 0 <= i < R && 0 <= j < R
    ensures GridCoordinate(2 * (i * R + j)) == i as real - WORLD_SIZE / 2.0
    ensures GridCoordinate(2 * (i * R + j) + 1) == j as real - WORLD_SIZE / 2.0
  {
    RowMajorSplit(i, j, R);
    assert (2 * (i * R + j)) / 2 == i * R + j && (2 * (i * R + j) + 1) / 2 == i * R + j;
  }

  /** Every entry of the strip names a vertex of the grid. */
  lemma StripIndexInGrid(k: nat)
    requires k < 2 * R * (R - 1)
    ensures 0 <= StripIndex(k) < R * R
  {
    RowMajorSplit(k / 2 / R, k / 2 % R, R);
  }

  /**
   * Pair m joins the same row of two neighbouring columns i - 1 and i. Even columns push column
   * i - 1 first and climb the rows; odd columns push column i first and descend.
   */
  lemma StripPair(m: nat)
    requires m < R * (R - 1)
    ensures var i := m / R + 1; var j := m % R;
      var first := StripIndex(2 * m); var second := StripIndex(2 * m + 1);
      Row(first) == Row(second) &&
      (if i % 2 == 0 then Column(first) == i - 1 && Column(second) == i && Row(first) == j
       else Column(first) == i && Column(second) == i - 1 && Row(first) == R - 1 - j)
  {
    var i := m / R + 1;
    var j := m % R;
    assert (2 * m) / 2 == m && (2 * m + 1) / 2 == m;
    if i % 2 == 0 {
      RowMajorSplit(i - 1, j, R);
      RowMajorSplit(i, j, R);
    } else {
      RowMajorSplit(i, R - 1 - j, R);
      RowMajorSplit(i - 1, R - 1 - j, R);
    }
  }

  /** The S path: the row the strip leaves column i on is the row it enters column i + 1 on. */
  lemma StripTurns(i: int)
    requires 1 <= i < R - 1
    ensures Row(StripIndex(2 * (i * R) - 1)) == Row(StripIndex(2 * (i * R)))
  {
    var last := i * R - 1;
    RowMajorSplit(i - 1, R - 1, R);
    RowMajorSplit(i, 0, R);
    assert (2 * (i * R) - 1) / 2 == last && (2 * (i * R)) / 2 == i * R;
    assert last / R + 1 == i && last % R == R - 1;
    assert (i * R) / R + 1 == i + 1 && (i * R) % R == 0;
    if i % 2 == 0 {
      RowMajorSplit(i, R - 1, R);
    } else {
      RowMajorSplit(i - 1, 0, R);
      RowMajorSplit(i + 1, R - 1, R);
    }
  }

  /** The water's renderer state: the parameters the setters replace and the built grid. */
  class Water {
    var transparency: real
    var reflection: real
    var refraction: real
    var alpha: real
    var waveDir: Vec2
    var waveSpeed: real
    var center: Vec2
    var vertices: seq<real>
    var indices: seq<int>
    var numIndices: int

    constructor ()
      ensures transparency == INITIAL_TRANSPARENCY && reflection == INITIAL_REFLECTION
      ensures refraction == INITIAL_REFRACTION && alpha == INITIAL_ALPHA
      ensures waveDir == INITIAL_WAVE_DIR && waveSpeed == INITIAL_WAVE_SPEED && center == INITIAL_CENTER
      ensures vertices == [] && indices == [] && numIndices == 0
    {
      transparency, reflection, refraction := INITIAL_TRANSPARENCY, INITIAL_REFLECTION, INITIAL_REFRACTION;
      alpha, waveDir, waveSpeed := INITIAL_ALPHA, INITIAL_WAVE_DIR, INITIAL_WAVE_SPEED;
      center := INITIAL_CENTER;
      vertices, indices, numIndices := [], [], 0;
    }

    /** The grid part of `Init`: both loops, then `num_indices_ = indices.size()`. */
    method Init()
      modifies this`vertices, this`indices, this`numIndices
      ensures |vertices| == 2 * R * R && forall k :: 0 <= k < |vertices| ==> vertices[k] == GridCoordinate(k)
      ensures |indices| == 2 * R * (R - 1) && forall k :: 0 <= k < |indices| ==> indices[k] == StripIndex(k)
      ensures numIndices == |indices|
    {
      vertices := GridVertices();
      indices := StripIndices();
      numIndices := |indices|;
    }

    method SetTransparency(newValue: real)
      modifies this`transparency
      ensures transparency == newValue
    {
      transparency := newValue;
    }

    method SetReflection(newValue: real)
      modifies this`reflection
      ensures reflection == newValue
    {
      reflection := newValue;
    }

    method SetWaveDir(newValue: Vec2)
      modifies this`waveDir
      ensures waveDir == newValue
    {
      waveDir := newValue;
    }

    method SetWaveSpeed(newValue: real)
      modifies this`waveSpeed
      ensures waveSpeed == newValue
    {
      waveSpeed := newValue;
    }

    method SetAlpha(newValue: real)
      modifies this`alpha
      ensures alpha == newValue
    {
      alpha := newValue;
    }

    method SetRefraction(newValue: real)
      modifies this`refraction
      ensures refraction == newValue
    {
      refraction := newValue;
    }

    method SetCenter(newCenter: Vec2)
      modifies this`center
      ensures center == newCenter
    {
      center := newCenter;
    }
  }
}
