/** Procedural geometry (Assets.cpp, constants from Assets.h): fractal
    Perlin noise, the terrain height field and the line grid, sphere and cube
    meshes.  Every generator produces vertex and index lists whose shape is
    pure integer combinatorics; the positions use the `Math` record. */
module Assets {
  import opened Glm
  import opened IntArith
  import opened Meshes

  /** PERLIN_OCTAVES, PERLIN_LACUNARITY, PERLIN_PERSISTENCE. */
  const PerlinOctaves: int := 6
  const PerlinLacunarity: real := 2.0
  const PerlinPersistence: real := 0.5

  // ---------------------------------------------------------------------
  // Fractal noise

  function Power(x: real, k: nat): real {
    if k == 0 then 1.0 else Power(x, k - 1) * x
  }

  /** The sum of the first k octaves: octave i samples the noise at
      pos·lacunarity^i and weighs it by persistence^i. */
  function NoiseTotal(m: Math, pos: Vec2, k: nat, lacunarity: real, persistence: real): real {
    if k == 0 then 0.0
    else NoiseTotal(m, pos, k - 1, lacunarity, persistence) + Octave(m, pos, k - 1, lacunarity, persistence)
  }

  /** Octave i: the noise at pos·lacunarity^i weighed by persistence^i. */
  function Octave(m: Math, pos: Vec2, i: nat, lacunarity: real, persistence: real): real {
    m.perlin(Scale2(pos, Power(lacunarity, i))) * Power(persistence, i)
  }

  /** While every sample lies in [-1, 1], octave i lies within its
      amplitude. */
  lemma OctaveBounded(m: Math, pos: Vec2, i: nat, lacunarity: real, persistence: real)
    requires NoiseBounded(m) && 0.0 <= persistence
    ensures -Power(persistence, i) <= Octave(m, pos, i, lacunarity, persistence) <= Power(persistence, i)
  {
    var sample := m.perlin(Scale2(pos, Power(lacunarity, i)));
    assert -1.0 <= sample <= 1.0;
    var a := Power(persistence, i);
    PowerNonneg(persistence, i);
    ScaledSampleBounded(sample, a);
    assert Octave(m, pos, i, lacunarity, persistence) == sample * a;
  }

  /** The sum of the first k amplitudes, used for normalisation. */
  function AmplitudeTotal(k: nat, persistence: real): real {
    if k == 0 then 0.0 else AmplitudeTotal(k - 1, persistence) + Power(persistence, k - 1)
  }

  lemma {:induction false} PowerNonneg(x: real, k: nat)
    requires 0.0 <= x
    ensures 0.0 <= Power(x, k)
  {
    if k > 0 {
      PowerNonneg(x, k - 1);
      MulNonnegReal(Power(x, k - 1), x);
    }
  }

  lemma MulNonnegReal(a: real, b: real)
    requires 0.0 <= a && 0.0 <= b
    ensures 0.0 <= a * b
  {
  }

  /** With at least one octave and a non-negative persistence the first
      amplitude is 1 and the others are non-negative, so the divisor is at
      least 1. */
  lemma {:induction false} AmplitudeAtLeastOne(k: nat, persistence: real)
    requires 1 <= k && 0.0 <= persistence
    ensures 1.0 <= AmplitudeTotal(k, persistence)
  {
    if k > 1 {
      AmplitudeAtLeastOne(k - 1, persistence);
      PowerNonneg(persistence, k - 1);
    }
  }

  /** Assets::fractalPerlin as a value. */
  function FractalNoise(m: Math, pos: Vec2, octaves: int, lacunarity: real, persistence: real): real
    requires 1 <= octaves && 0.0 <= persistence
  {
    AmplitudeAtLeastOne(octaves, persistence);
    NoiseTotal(m, pos, octaves, lacunarity, persistence) / AmplitudeTotal(octaves, persistence)
  }

  /** Assets::fractalPerlin: accumulates the octaves, then divides by the sum
      of amplitudes. */
  method FractalPerlin(m: Math, pos: Vec2, octaves: int, lacunarity: real, persistence: real)
    returns (r: real)
    requires 1 <= octaves && 0.0 <= persistence
    ensures r == FractalNoise(m, pos, octaves, lacunarity, persistence)
    ensures NoiseBounded(m) ==> -1.0 <= r <= 1.0
  {
    var total := 0.0;
    var amplitude := 1.0;
    var frequency := 1.0;
    var maxValue := 0.0;
    var i := 0;
    while i < octaves
      invariant 0 <= i <= octaves
      invariant total == NoiseTotal(m, pos, i, lacunarity, persistence)
      invariant maxValue == AmplitudeTotal(i, persistence)
      invariant amplitude == Power(persistence, i)
      invariant frequency == Power(lacunarity, i)
    {
      total := total + m.perlin(Scale2(pos, frequency)) * amplitude;
      maxValue := maxValue + amplitude;
      amplitude := amplitude * persistence;
      frequency := frequency * lacunarity;
      i := i + 1;
    }
    AmplitudeAtLeastOne(octaves, persistence);
    r := total / maxValue;
    if NoiseBounded(m) {
      FractalNoiseBounded(m, pos, octaves, lacunarity, persistence);
    }
  }

  lemma ScaledSampleBounded(p: real, a: real)
    requires -1.0 <= p <= 1.0 && 0.0 <= a
    ensures -a <= p * a <= a
  {
  }

  /** While every sample lies in [-1, 1], the partial sums stay within the
      partial amplitude sums. */
  lemma {:induction false} NoiseTotalBounded(m: Math, pos: Vec2, k: nat, lacunarity: real, persistence: real)
    requires NoiseBounded(m) && 0.0 <= persistence
    ensures -AmplitudeTotal(k, persistence) <= NoiseTotal(m, pos, k, lacunarity, persistence)
    ensures NoiseTotal(m, pos, k, lacunarity, persistence) <= AmplitudeTotal(k, persistence)
  {
    if k > 0 {
      NoiseTotalBounded(m, pos, k - 1, lacunarity, persistence);
      OctaveBounded(m, pos, k - 1, lacunarity, persistence);
    }
  }

  lemma QuotientBounded(t: real, a: real)
    requires 0.0 < a && -a <= t <= a
    ensures -1.0 <= t / a <= 1.0
  {
  }

  /** If every noise sample lies in [-1, 1], so does the normalised fractal
      sum, for at least one octave and a non-negative persistence. */
  lemma FractalNoiseBounded(m: Math, pos: Vec2, octaves: int, lacunarity: real, persistence: real)
    requires NoiseBounded(m) && 1 <= octaves && 0.0 <= persistence
    ensures -1.0 <= FractalNoise(m, pos, octaves, lacunarity, persistence) <= 1.0
  {
    NoiseTotalBounded(m, pos, octaves, lacunarity, persistence);
    AmplitudeAtLeastOne(octaves, persistence);
    QuotientBounded(NoiseTotal(m, pos, octaves, lacunarity, persistence), AmplitudeTotal(octaves, persistence));
  }

  // ---------------------------------------------------------------------
  // Terrain

  /** The height of the terrain at grid point (x, z): the fractal noise at
      (x, z)·frequency, scaled. */
  function TerrainNoiseHeight(m: Math, x: real, z: real, heightScale: real, frequency: real): real {
    FractalNoise(m, Scale2(Vec2(x, z), frequency), PerlinOctaves, PerlinLacunarity, PerlinPersistence) * heightScale
  }

  /** The vertex for grid point (x, z) before normals are computed: centred
      on the origin with unit spacing, texture coordinates spanning [0, 1]. */
  function TerrainVertex(m: Math, gridSize: int, heightScale: real, frequency: real, x: int, z: int): Vertex
    requires 1 <= gridSize
  {
    var g := gridSize as real;
    Vertex(
      Vec3((x as real - g / 2.0) * 1.0, TerrainNoiseHeight(m, x as real, z as real, heightScale, frequency),
           (z as real - g / 2.0) * 1.0),
      Zero3,
      Vec2(x as real / g, z as real / g))
  }

  /** All (g+1)² terrain vertices in row-major order: vertex k is grid point
      (k mod (g+1), k div (g+1)). */
  function TerrainVertices(m: Math, gridSize: int, heightScale: real, frequency: real): (r: seq<Vertex>)
    requires 1 <= gridSize
    ensures |r| == (gridSize + 1) * (gridSize + 1)
  {
    var n := gridSize + 1;
    MulNonneg(n, n);
    seq(n * n, k requires 0 <= k < n * n => TerrainVertex(m, gridSize, heightScale, frequency, k % n, k / n))
  }

  /** The two triangles of the cell whose top-left corner is grid point
      (x, z): (topLeft, bottomLeft, topRight) and (topRight, bottomLeft,
      bottomRight). */
  function CellIndices(gridSize: int, x: int, z: int): seq<int> {
    var n := gridSize + 1;
    var topLeft := z * n + x;
    var topRight := topLeft + 1;
    var bottomLeft := (z + 1) * n + x;
    var bottomRight := bottomLeft + 1;
    [topLeft, bottomLeft, topRight, topRight, bottomLeft, bottomRight]
  }

  /** The terrain index list, six indices per cell, cells in row-major
      order. */
  function TerrainIndices(gridSize: int): (r: seq<int>)
    requires 1 <= gridSize
    ensures |r| == 6 * (gridSize * gridSize)
  {
    MulNonneg(gridSize, gridSize);
    seq(6 * (gridSize * gridSize), k requires 0 <= k < 6 * (gridSize * gridSize) =>
      CellIndices(gridSize, (k / 6) % gridSize, (k / 6) / gridSize)[k % 6])
  }

  /** The normal of triangle t of an index list (the corners at 3t, 3t+1,
      3t+2). */
  function TriangleNormal(m: Math, vs: seq<Vertex>, ix: seq<int>, t: nat): Vec3
    requires 3 * t + 2 < |ix|
    requires forall k :: 0 <= k < |ix| ==> 0 <= ix[k] < |vs|
  {
    FaceNormal(m, vs[ix[3 * t]].position, vs[ix[3 * t + 1]].position, vs[ix[3 * t + 2]].position)
  }

  /** What triangle t adds to the normal of vertex v: its face normal once
      per corner that is v. */
  function Contribution(m: Math, vs: seq<Vertex>, ix: seq<int>, t: nat, v: int, sum: Vec3): Vec3
    requires 3 * t + 2 < |ix|
    requires forall k :: 0 <= k < |ix| ==> 0 <= ix[k] < |vs|
  {
    var n := TriangleNormal(m, vs, ix, t);
    var s0 := if ix[3 * t] == v then Add(sum, n) else sum;
    var s1 := if ix[3 * t + 1] == v then Add(s0, n) else s0;
    if ix[3 * t + 2] == v then Add(s1, n) else s1
  }

  /** The normal of vertex v after the first t triangles have added their
      face normals to it. */
  function AccumulatedNormal(m: Math, vs: seq<Vertex>, ix: seq<int>, t: nat, v: int): Vec3
    requires 0 <= v < |vs|
    requires 3 * t <= |ix|
    requires forall k :: 0 <= k < |ix| ==> 0 <= ix[k] < |vs|
  {
    if t == 0 then vs[v].normal
    else Contribution(m, vs, ix, t - 1, v, AccumulatedNormal(m, vs, ix, t - 1, v))
  }

  /** Vertex v of a height field once every triangle has added its face
      normal and the sum has been normalised. */
  function FinalVertex(m: Math, vs: seq<Vertex>, ix: seq<int>, v: int): Vertex
    requires 0 <= v < |vs|
    requires forall k :: 0 <= k < |ix| ==> 0 <= ix[k] < |vs|
  {
    vs[v].(normal := Normalize(m, AccumulatedNormal(m, vs, ix, |ix| / 3, v)))
  }

  /** The terrain vertices with their final normals: the normalised sum of
      the face normals of every triangle that uses the vertex. */
  function TerrainMeshVertices(m: Math, gridSize: int, heightScale: real, frequency: real): (r: seq<Vertex>)
    requires 1 <= gridSize
    ensures |r| == (gridSize + 1) * (gridSize + 1)
  {
    var base := TerrainVertices(m, gridSize, heightScale, frequency);
    var ix := TerrainIndices(gridSize);
    TerrainIndicesInBounds(gridSize);
    seq(|base|, v requires 0 <= v < |base| => FinalVertex(m, base, ix, v))
  }

  /** The one mesh of a terrain model: a triangle list over the
      (g+1)² vertices with smoothed normals, six indices per cell, all in
      bounds. */
  function TerrainMesh(m: Math, gridSize: int, heightScale: real, frequency: real): (mesh: Mesh)
    requires 1 <= gridSize
    ensures mesh.primitive == Triangles && mesh.textureId == 0
    ensures |mesh.vertices| == (gridSize + 1) * (gridSize + 1)
    ensures |mesh.indices| == 6 * (gridSize * gridSize)
    ensures IndicesInBounds(mesh)
  {
    TerrainIndicesInBounds(gridSize);
    NewMesh(Triangles, TerrainMeshVertices(m, gridSize, heightScale, frequency), NatIndices(TerrainIndices(gridSize)), 0)
  }

  /** The statics Assets::terrainGridSize, terrainHeightScale and
      terrainFrequency, written by createTerrain and read by
      getTerrainHeightAtPosition. */
  class Terrain {
    var gridSize: int
    var heightScale: real
    var frequency: real

    /** Their initial values. */
    constructor ()
      ensures gridSize == 0 && heightScale == 0.0 && frequency == 0.0
    {
      gridSize := 0;
      heightScale := 0.0;
      frequency := 0.0;
    }

    /** Assets::getTerrainHeightAtPosition: the world position is shifted by
        half the grid size back to grid coordinates and the noise is sampled
        there; with bounded noise the height never leaves ±heightScale. */
    function HeightAt(m: Math, x: real, z: real): (h: real)
      reads this
      ensures NoiseBounded(m) && 0.0 <= heightScale ==> -heightScale <= h <= heightScale
    {
      var gridX := x + gridSize as real / 2.0;
      var gridZ := z + gridSize as real / 2.0;
      NoiseHeightBounded(m, gridX, gridZ, heightScale, frequency);
      TerrainNoiseHeight(m, gridX, gridZ, heightScale, frequency)
    }

    /** Assets::createTerrain: records the parameters, then builds the
        height-field mesh. */
    method CreateTerrain(m: Math, size: int, scale: real, freq: real) returns (model: Model)
      requires 1 <= size
      modifies this
      ensures gridSize == size && heightScale == scale && frequency == freq
      ensures fresh(model)
      ensures model.meshes == [TerrainMesh(m, size, scale, freq)]
    {
      gridSize := size;
      heightScale := scale;
      frequency := freq;
      var vertices := TerrainGrid(m, gridSize, heightScale, frequency);
      var indices := TerrainIndexList(gridSize);
      TerrainIndicesInBounds(gridSize);
      vertices := AccumulateNormals(m, vertices, indices);
      vertices := NormalizeNormals(m, vertices);
      assert vertices == TerrainMeshVertices(m, size, scale, freq);
      model := new Model.FromArrays(Triangles, vertices, NatIndices(indices));
    }
  }

  /** GLuint indices: the list of non-negative indices as naturals. */
  function NatIndices(ix: seq<int>): (r: seq<nat>)
    requires forall k :: 0 <= k < |ix| ==> 0 <= ix[k]
    ensures |r| == |ix| && forall k :: 0 <= k < |ix| ==> r[k] == ix[k]
  {
    seq(|ix|, k requires 0 <= k < |ix| => ix[k] as nat)
  }

  /** The vertex loop of createTerrain: a vector of (g+1)² vertices, each
      written once at index z·(g+1) + x. */
  method TerrainGrid(m: Math, gridSize: int, heightScale: real, frequency: real) returns (vertices: seq<Vertex>)
    requires 1 <= gridSize
    ensures vertices == TerrainVertices(m, gridSize, heightScale, frequency)
  {
    TerrainVerticesRowMajor(m, gridSize, heightScale, frequency);
    vertices := FillGrid(m, gridSize, heightScale, frequency, TerrainVertices(m, gridSize, heightScale, frequency));
  }

  /** The two nested loops of the vertex pass, checked against any list
      `target` that holds grid point (x, z) at index z·(g+1) + x. */
  method FillGrid(m: Math, gridSize: int, heightScale: real, frequency: real, ghost target: seq<Vertex>)
    returns (vertices: seq<Vertex>)
    requires 1 <= gridSize && |target| == (gridSize + 1) * (gridSize + 1)
    requires forall x, z :: 0 <= x < gridSize + 1 && 0 <= z < gridSize + 1 ==>
      0 <= z * (gridSize + 1) + x < |target|
      && target[z * (gridSize + 1) + x] == TerrainVertex(m, gridSize, heightScale, frequency, x, z)
    ensures vertices == target
  {
    var n := gridSize + 1;
    var blank := Vertex(Zero3, Zero3, Vec2(0.0, 0.0));
    MulNonneg(n, n);
    vertices := seq(n * n, _ => blank);
    ghost var written := 0;
    var z := 0;
    while z < n
      invariant 0 <= z <= n
      invariant |vertices| == |target|
      invariant written == z * n && written <= |target|
      invariant forall k :: 0 <= k < written ==> vertices[k] == target[k]
    {
      var x := 0;
      while x < n
        invariant 0 <= x <= n
        invariant |vertices| == |target|
        invariant written == z * n + x && written <= |target|
        invariant forall k :: 0 <= k < written ==> vertices[k] == target[k]
      {
        var index := z * n + x;
        var v := TerrainVertex(m, gridSize, heightScale, frequency, x, z);
        assert index == written && target[index] == v;
        vertices := vertices[index := v];
        written := written + 1;
        x := x + 1;
      }
      assert z * n + n == (z + 1) * n;
      z := z + 1;
    }
    assert written == |target|;
  }

  /** The vertex list is laid out row by row: grid point (x, z) sits at
      index z·(g+1) + x. */
  lemma TerrainVerticesRowMajor(m: Math, gridSize: int, heightScale: real, frequency: real)
    requires 1 <= gridSize
    ensures var target := TerrainVertices(m, gridSize, heightScale, frequency);
      forall x, z :: 0 <= x < gridSize + 1 && 0 <= z < gridSize + 1 ==>
        0 <= z * (gridSize + 1) + x < |target|
        && target[z * (gridSize + 1) + x] == TerrainVertex(m, gridSize, heightScale, frequency, x, z)
  {
    var target := TerrainVertices(m, gridSize, heightScale, frequency);
    forall x, z | 0 <= x < gridSize + 1 && 0 <= z < gridSize + 1
      ensures 0 <= z * (gridSize + 1) + x < |target|
        && target[z * (gridSize + 1) + x] == TerrainVertex(m, gridSize, heightScale, frequency, x, z)
    {
      TerrainGridAt(m, gridSize, heightScale, frequency, x, z);
    }
  }

  /** Grid point (x, z) is vertex z·(g+1) + x of the vertex list. */
  lemma TerrainGridAt(m: Math, gridSize: int, heightScale: real, frequency: real, x: int, z: int)
    requires 1 <= gridSize && 0 <= x <= gridSize && 0 <= z <= gridSize
    ensures 0 <= z * (gridSize + 1) + x < |TerrainVertices(m, gridSize, heightScale, frequency)|
    ensures TerrainVertices(m, gridSize, heightScale, frequency)[z * (gridSize + 1) + x]
            == TerrainVertex(m, gridSize, heightScale, frequency, x, z)
  {
    var n := gridSize + 1;
    CellBelow(n, n, x, z);
    CellDivMod(n, x, z);
  }

  /** The index loop of createTerrain: two triangles per cell, cells in
      row-major order. */
  method TerrainIndexList(gridSize: int) returns (indices: seq<int>)
    requires 1 <= gridSize
    ensures indices == TerrainIndices(gridSize)
  {
    var n := gridSize + 1;
    ghost var target := TerrainIndices(gridSize);
    ghost var cell := 0;
    MulNonneg(gridSize, gridSize);
    indices := [];
    var z := 0;
    while z < gridSize
      invariant 0 <= z <= gridSize
      invariant cell == z * gridSize && cell <= gridSize * gridSize
      invariant indices == target[..6 * cell]
    {
      var x := 0;
      while x < gridSize
        invariant 0 <= x <= gridSize
        invariant cell == z * gridSize + x && cell <= gridSize * gridSize
        invariant indices == target[..6 * cell]
      {
        var topLeft := z * n + x;
        var topRight := topLeft + 1;
        var bottomLeft := (z + 1) * n + x;
        var bottomRight := bottomLeft + 1;
        TerrainIndicesStep(gridSize, x, z);
        indices := indices + [topLeft, bottomLeft, topRight, topRight, bottomLeft, bottomRight];
        cell := cell + 1;
        x := x + 1;
      }
      assert z * gridSize + gridSize == (z + 1) * gridSize;
      z := z + 1;
    }
    assert 6 * cell == |target|;
  }

  /** The face-normal loop of createTerrain: every triangle adds its face
      normal to the normals of its three corners. */
  method AccumulateNormals(m: Math, vs: seq<Vertex>, ix: seq<int>) returns (r: seq<Vertex>)
    requires |ix| % 3 == 0
    requires forall k :: 0 <= k < |ix| ==> 0 <= ix[k] < |vs|
    ensures |r| == |vs|
    ensures forall v :: 0 <= v < |vs| ==> r[v] == vs[v].(normal := AccumulatedNormal(m, vs, ix, |ix| / 3, v))
  {
    r := vs;
    var i := 0;
    while i < |ix|
      invariant 0 <= i <= |ix| && i % 3 == 0
      invariant |r| == |vs|
      invariant forall v :: 0 <= v < |vs| ==> r[v] == vs[v].(normal := AccumulatedNormal(m, vs, ix, i / 3, v))
    {
      var i0, i1, i2 := ix[i], ix[i + 1], ix[i + 2];
      var v0, v1, v2 := r[i0].position, r[i1].position, r[i2].position;
      var faceNormal := FaceNormal(m, v0, v1, v2);
      assert faceNormal == TriangleNormal(m, vs, ix, i / 3);
      ghost var before := r;
      r := r[i0 := r[i0].(normal := Add(r[i0].normal, faceNormal))];
      r := r[i1 := r[i1].(normal := Add(r[i1].normal, faceNormal))];
      r := r[i2 := r[i2].(normal := Add(r[i2].normal, faceNormal))];
      forall v | 0 <= v < |vs|
        ensures r[v] == vs[v].(normal := AccumulatedNormal(m, vs, ix, (i + 3) / 3, v))
      {
        assert AccumulatedNormal(m, vs, ix, (i + 3) / 3, v)
            == Contribution(m, vs, ix, i / 3, v, AccumulatedNormal(m, vs, ix, i / 3, v));
      }
      i := i + 3;
    }
  }

  /** The last loop of createTerrain: every normal is normalised. */
  method NormalizeNormals(m: Math, vs: seq<Vertex>) returns (r: seq<Vertex>)
    ensures |r| == |vs|
    ensures forall v :: 0 <= v < |vs| ==> r[v] == vs[v].(normal := Normalize(m, vs[v].normal))
  {
    r := vs;
    var v := 0;
    while v < |r|
      invariant 0 <= v <= |r| == |vs|
      invariant forall k :: 0 <= k < v ==> r[k] == vs[k].(normal := Normalize(m, vs[k].normal))
      invariant forall k :: v <= k < |r| ==> r[k] == vs[k]
    {
      r := r[v := r[v].(normal := Normalize(m, r[v].normal))];
      v := v + 1;
    }
  }

  // ---------------------------------------------------------------------
  // Properties of the terrain

  /** Every terrain index names one of the (g+1)² vertices. */
  lemma TerrainIndicesInBounds(gridSize: int)
    requires 1 <= gridSize
    ensures forall k :: 0 <= k < |TerrainIndices(gridSize)| ==>
      0 <= TerrainIndices(gridSize)[k] < (gridSize + 1) * (gridSize + 1)
  {
    var ix := TerrainIndices(gridSize);
    var n := gridSize + 1;
    forall k | 0 <= k < |ix| ensures 0 <= ix[k] < n * n {
      var c := k / 6;
      MulNonneg(gridSize, gridSize);
      var x, z := c % gridSize, c / gridSize;
      assert c < gridSize * gridSize;
      assert z < gridSize by {
        if z >= gridSize {
          MulMono(gridSize, z, gridSize);
        }
      }
      CellBelow(n, n, x + 1, z + 1);
      MulNonneg(z, n);
      assert ix[k] in CellIndices(gridSize, x, z);
    }
  }

  lemma DivModSix(c: int, j: int)
    requires 0 <= c && 0 <= j < 6
    ensures (6 * c + j) / 6 == c && (6 * c + j) % 6 == j
  {
    CellDivMod(6, j, c);
    assert c * 6 == 6 * c;
  }

  /** Index 6·(z·g + x) + j of the terrain is corner j of cell (x, z). */
  lemma TerrainIndexAt(gridSize: int, x: int, z: int, j: int)
    requires 1 <= gridSize && 0 <= x < gridSize && 0 <= z < gridSize && 0 <= j < 6
    ensures var c := z * gridSize + x;
      && 0 <= 6 * c + j < |TerrainIndices(gridSize)|
      && TerrainIndices(gridSize)[6 * c + j] == CellIndices(gridSize, x, z)[j]
  {
    var c := z * gridSize + x;
    CellBelow(gridSize, gridSize, x, z);
    CellDivMod(gridSize, x, z);
    DivModSix(c, j);
  }

  /** The six indices of cell (x, z) sit at positions 6·(z·g + x) onwards
      and form the triangles (tl, bl, tr) and (tr, bl, br). */
  lemma TerrainCellTriangles(gridSize: int, x: int, z: int)
    requires 1 <= gridSize && 0 <= x < gridSize && 0 <= z < gridSize
    ensures var c := z * gridSize + x;
      var n := gridSize + 1;
      var tl := z * n + x;
      var bl := (z + 1) * n + x;
      && 0 <= 6 * c && 6 * c + 6 <= |TerrainIndices(gridSize)|
      && TerrainIndices(gridSize)[6 * c .. 6 * c + 6] == [tl, bl, tl + 1, tl + 1, bl, bl + 1]
  {
    var c := z * gridSize + x;
    var ix := TerrainIndices(gridSize);
    TerrainIndexAt(gridSize, x, z, 0);
    TerrainIndexAt(gridSize, x, z, 5);
    forall j | 0 <= j < 6
      ensures ix[6 * c .. 6 * c + 6][j] == CellIndices(gridSize, x, z)[j]
    {
      TerrainIndexAt(gridSize, x, z, j);
    }
  }

  /** Appending the indices of cell (x, z) extends the prefix of the index
      list that covers the cells before it. */
  lemma TerrainIndicesStep(gridSize: int, x: int, z: int)
    requires 1 <= gridSize && 0 <= x < gridSize && 0 <= z < gridSize
    ensures var c := z * gridSize + x;
      && 0 <= c < gridSize * gridSize
      && TerrainIndices(gridSize)[..6 * c + 6]
         == TerrainIndices(gridSize)[..6 * c] + CellIndices(gridSize, x, z)
  {
    var c := z * gridSize + x;
    var ix := TerrainIndices(gridSize);
    CellBelow(gridSize, gridSize, x, z);
    TerrainCellTriangles(gridSize, x, z);
    assert ix[..6 * c + 6] == ix[..6 * c] + ix[6 * c .. 6 * c + 6];
  }

  /** The terrain has (g+1)² vertices and 6g² indices. */
  lemma TerrainCounts(m: Math, gridSize: int, heightScale: real, frequency: real)
    requires 1 <= gridSize
    ensures |TerrainMeshVertices(m, gridSize, heightScale, frequency)| == (gridSize + 1) * (gridSize + 1)
    ensures |TerrainIndices(gridSize)| == 6 * gridSize * gridSize
  {
  }

  /** Vertex (x, z) of the terrain sits at index z·(g+1) + x. */
  lemma TerrainVertexAt(m: Math, gridSize: int, heightScale: real, frequency: real, x: int, z: int)
    requires 1 <= gridSize && 0 <= x <= gridSize && 0 <= z <= gridSize
    ensures var n := gridSize + 1;
      && 0 <= z * n + x < n * n
      && TerrainMeshVertices(m, gridSize, heightScale, frequency)[z * n + x].position
         == TerrainVertex(m, gridSize, heightScale, frequency, x, z).position
  {
    var n := gridSize + 1;
    CellBelow(n, n, x, z);
    CellDivMod(n, x, z);
  }

  /** The height query at the world position of a terrain vertex returns
      exactly that vertex's height: the query adds back the half grid size
      the vertex loop subtracted. */
  lemma HeightAtVertex(m: Math, terrain: Terrain, x: int, z: int)
    requires 1 <= terrain.gridSize && 0 <= x <= terrain.gridSize && 0 <= z <= terrain.gridSize
    ensures var v := TerrainVertex(m, terrain.gridSize, terrain.heightScale, terrain.frequency, x, z);
      terrain.HeightAt(m, v.position.x, v.position.z) == v.position.y
  {
    var g := terrain.gridSize as real;
    assert (x as real - g / 2.0) * 1.0 + g / 2.0 == x as real;
    assert (z as real - g / 2.0) * 1.0 + g / 2.0 == z as real;
  }

  /** With bounded noise, every sampled height lies within ±heightScale. */
  lemma NoiseHeightBounded(m: Math, x: real, z: real, heightScale: real, frequency: real)
    ensures NoiseBounded(m) && 0.0 <= heightScale ==>
      -heightScale <= TerrainNoiseHeight(m, x, z, heightScale, frequency) <= heightScale
  {
    if NoiseBounded(m) && 0.0 <= heightScale {
      var pos := Scale2(Vec2(x, z), frequency);
      FractalNoiseBounded(m, pos, PerlinOctaves, PerlinLacunarity, PerlinPersistence);
      ScaledSampleBounded(FractalNoise(m, pos, PerlinOctaves, PerlinLacunarity, PerlinPersistence), heightScale);
    }
  }

  /** Under a sound length, every final terrain normal is a unit vector or,
      for a vertex whose face normals cancel, zero. */
  lemma TerrainNormalsUnitOrZero(m: Math, gridSize: int, heightScale: real, frequency: real, v: int)
    requires Sound(m) && 1 <= gridSize && 0 <= v < (gridSize + 1) * (gridSize + 1)
    ensures var nv := TerrainMeshVertices(m, gridSize, heightScale, frequency)[v].normal;
      nv == Zero3 || Length(m, nv) == 1.0
  {
    var base := TerrainVertices(m, gridSize, heightScale, frequency);
    var ix := TerrainIndices(gridSize);
    TerrainIndicesInBounds(gridSize);
    assert TerrainMeshVertices(m, gridSize, heightScale, frequency)[v] == FinalVertex(m, base, ix, v);
    FinalNormalUnitOrZero(m, base, ix, v);
  }

  /** Whatever the mesh, a final normal is a unit vector or zero. */
  lemma FinalNormalUnitOrZero(m: Math, vs: seq<Vertex>, ix: seq<int>, v: int)
    requires Sound(m) && 0 <= v < |vs|
    requires forall k :: 0 <= k < |ix| ==> 0 <= ix[k] < |vs|
    ensures var nv := FinalVertex(m, vs, ix, v).normal;
      nv == Zero3 || Length(m, nv) == 1.0
  {
    NormalizeUnitOrZero(m, AccumulatedNormal(m, vs, ix, |ix| / 3, v));
  }

  // ---------------------------------------------------------------------
  // Line grid

  /** The vertex of the grid at (x, 0, z): normal up, texture origin. */
  function GridVertex(x: int, z: int): Vertex {
    Vertex(Vec3(x as real, 0.0, z as real), Up, Vec2(0.0, 0.0))
  }

  /** Number of lines per direction: one per integer from -g to g. */
  function GridLines(gridSize: int): nat {
    if gridSize < 0 then 0 else 2 * gridSize + 1
  }

  /** The vertices of createGrid: first the lines of constant z, from
      (-g, 0, z) to (g, 0, z) for z = -g..g, then the lines of constant x,
      from (x, 0, -g) to (x, 0, g) for x = -g..g. */
  function GridVertices(gridSize: int): (r: seq<Vertex>)
    ensures |r| == 4 * GridLines(gridSize)
  {
    var lines := GridLines(gridSize);
    seq(2 * lines, k requires 0 <= k < 2 * lines =>
      GridVertex(if k % 2 == 0 then -gridSize else gridSize, -gridSize + k / 2))
    + seq(2 * lines, k requires 0 <= k < 2 * lines =>
      GridVertex(-gridSize + k / 2, if k % 2 == 0 then -gridSize else gridSize))
  }

  /** Assets::createGrid: a line mesh whose i-th index is i. */
  method CreateGrid(gridSize: int) returns (model: Model)
    ensures fresh(model)
    ensures model.meshes == [NewMesh(Lines, GridVertices(gridSize), Iota(4 * GridLines(gridSize)), 0)]
  {
    var vertices: seq<Vertex> := [];
    var z := -gridSize;
    while z <= gridSize
      invariant -gridSize <= z <= gridSize + 1 || (gridSize < 0 && z == -gridSize)
      invariant |vertices| == 2 * (z + gridSize)
      invariant forall k :: 0 <= k < |vertices| ==>
        vertices[k] == GridVertex(if k % 2 == 0 then -gridSize else gridSize, -gridSize + k / 2)
    {
      vertices := vertices + [GridVertex(-gridSize, z), GridVertex(gridSize, z)];
      z := z + 1;
    }
    ghost var half := |vertices|;
    assert half == 2 * GridLines(gridSize);
    var x := -gridSize;
    while x <= gridSize
      invariant -gridSize <= x <= gridSize + 1 || (gridSize < 0 && x == -gridSize)
      invariant |vertices| == half + 2 * (x + gridSize)
      invariant forall k :: 0 <= k < half ==>
        vertices[k] == GridVertex(if k % 2 == 0 then -gridSize else gridSize, -gridSize + k / 2)
      invariant forall k :: half <= k < |vertices| ==>
        vertices[k] == GridVertex(-gridSize + (k - half) / 2, if (k - half) % 2 == 0 then -gridSize else gridSize)
    {
      vertices := vertices + [GridVertex(x, -gridSize), GridVertex(x, gridSize)];
      x := x + 1;
    }
    assert vertices == GridVertices(gridSize);
    var indices := IndexSequence(|vertices|);
    model := new Model.FromArrays(Lines, vertices, indices);
  }

  /** The index fill of createGrid: a vector resized to n whose slots are
      then written with their own positions. */
  method IndexSequence(n: nat) returns (indices: seq<nat>)
    ensures indices == Iota(n)
  {
    indices := seq(n, _ => 0);
    var i := 0;
    while i < n
      invariant 0 <= i <= n == |indices|
      invariant forall k :: 0 <= k < i ==> indices[k] == k
    {
      indices := indices[i := i];
      i := i + 1;
    }
  }

  /** The grid has 2g+1 lines in each direction, two vertices per line. */
  lemma GridCount(gridSize: int)
    requires 0 <= gridSize
    ensures |GridVertices(gridSize)| == 4 * (2 * gridSize + 1)
  {
  }

  /** For every integer c from -g to g, the grid holds the segment from
      (-g, 0, c) to (g, 0, c) and the segment from (c, 0, -g) to (c, 0, g),
      each as a pair of consecutive vertices, so index pairs (2i, 2i+1)
      draw exactly these lines. */
  lemma GridSegments(gridSize: int, c: int)
    requires -gridSize <= c <= gridSize
    ensures var vs := GridVertices(gridSize);
      var zLine := 2 * (c + gridSize);
      var xLine := 2 * GridLines(gridSize) + 2 * (c + gridSize);
      && xLine + 1 < |vs|
      && vs[zLine].position == Vec3(-gridSize as real, 0.0, c as real)
      && vs[zLine + 1].position == Vec3(gridSize as real, 0.0, c as real)
      && vs[xLine].position == Vec3(c as real, 0.0, -gridSize as real)
      && vs[xLine + 1].position == Vec3(c as real, 0.0, gridSize as real)
  {
    var i := c + gridSize;
    assert (2 * i) / 2 == i && (2 * i) % 2 == 0;
    assert (2 * i + 1) / 2 == i && (2 * i + 1) % 2 == 1;
  }

  // ---------------------------------------------------------------------
  // Cube

  /** The 24 vertices of createCube: four per face, each carrying the face
      normal, with texture coordinates (0,0), (1,0), (1,1), (0,1). */
  function CubeVertices(size: real): (r: seq<Vertex>)
    ensures |r| == 24
  {
    var h := size / 2.0;
    [
      // Front face, normal (0, 0, 1)
      Vertex(Vec3(-h, -h, h), Vec3(0.0, 0.0, 1.0), Vec2(0.0, 0.0)),
      Vertex(Vec3(h, -h, h), Vec3(0.0, 0.0, 1.0), Vec2(1.0, 0.0)),
      Vertex(Vec3(h, h, h), Vec3(0.0, 0.0, 1.0), Vec2(1.0, 1.0)),
      Vertex(Vec3(-h, h, h), Vec3(0.0, 0.0, 1.0), Vec2(0.0, 1.0)),
      // Back face, normal (0, 0, -1)
      Vertex(Vec3(-h, -h, -h), Vec3(0.0, 0.0, -1.0), Vec2(0.0, 0.0)),
      Vertex(Vec3(h, -h, -h), Vec3(0.0, 0.0, -1.0), Vec2(1.0, 0.0)),
      Vertex(Vec3(h, h, -h), Vec3(0.0, 0.0, -1.0), Vec2(1.0, 1.0)),
      Vertex(Vec3(-h, h, -h), Vec3(0.0, 0.0, -1.0), Vec2(0.0, 1.0)),
      // Left face, normal (-1, 0, 0)
      Vertex(Vec3(-h, -h, -h), Vec3(-1.0, 0.0, 0.0), Vec2(0.0, 0.0)),
      Vertex(Vec3(-h, -h, h), Vec3(-1.0, 0.0, 0.0), Vec2(1.0, 0.0)),
      Vertex(Vec3(-h, h, h), Vec3(-1.0, 0.0, 0.0), Vec2(1.0, 1.0)),
      Vertex(Vec3(-h, h, -h), Vec3(-1.0, 0.0, 0.0), Vec2(0.0, 1.0)),
      // Right face, normal (1, 0, 0)
      Vertex(Vec3(h, -h, -h), Vec3(1.0, 0.0, 0.0), Vec2(0.0, 0.0)),
      Vertex(Vec3(h, -h, h), Vec3(1.0, 0.0, 0.0), Vec2(1.0, 0.0)),
      Vertex(Vec3(h, h, h), Vec3(1.0, 0.0, 0.0), Vec2(1.0, 1.0)),
      Vertex(Vec3(h, h, -h), Vec3(1.0, 0.0, 0.0), Vec2(0.0, 1.0)),
      // Top face, normal (0, 1, 0)
      Vertex(Vec3(-h, h, -h), Vec3(0.0, 1.0, 0.0), Vec2(0.0, 0.0)),
      Vertex(Vec3(-h, h, h), Vec3(0.0, 1.0, 0.0), Vec2(1.0, 0.0)),
      Vertex(Vec3(h, h, h), Vec3(0.0, 1.0, 0.0), Vec2(1.0, 1.0)),
      Vertex(Vec3(h, h, -h), Vec3(0.0, 1.0, 0.0), Vec2(0.0, 1.0)),
      // Bottom face, normal (0, -1, 0)
      Vertex(Vec3(-h, -h, -h), Vec3(0.0, -1.0, 0.0), Vec2(0.0, 0.0)),
      Vertex(Vec3(-h, -h, h), Vec3(0.0, -1.0, 0.0), Vec2(1.0, 0.0)),
      Vertex(Vec3(h, -h, h), Vec3(0.0, -1.0, 0.0), Vec2(1.0, 1.0)),
      Vertex(Vec3(h, -h, -h), Vec3(0.0, -1.0, 0.0), Vec2(0.0, 1.0))
    ]
  }

  /** Two triangles per face. */
  const CubeIndices: seq<nat> := [
    0, 1, 2, 2, 3, 0,
    4, 7, 6, 6, 5, 4,
    8, 9, 10, 10, 11, 8,
    12, 15, 14, 14, 13, 12,
    16, 17, 18, 18, 19, 16,
    20, 23, 22, 22, 21, 20
  ]

  /** An RGB colour made opaque. */
  function Opaque(c: Vec3): Vec4 { Vec4(c.x, c.y, c.z, 1.0) }

  const CubeSpecular: Vec4 := Vec4(0.5, 0.5, 0.5, 1.0)

  /** The mesh that createCube returns as written: the colour is assigned to
      a first model, and a second model rebuilt from the same arrays, with
      the default white material, is what the caller receives. */
  function CubeMeshAsWritten(size: real, color: Vec3): Mesh {
    NewMesh(Triangles, CubeVertices(size), CubeIndices, 0)
  }

  /** The evidently intended cube mesh: the geometry with ambient and
      diffuse set to the opaque colour and a grey specular. */
  function CubeMesh(size: real, color: Vec3): Mesh {
    NewMesh(Triangles, CubeVertices(size), CubeIndices, 0)
      .(ambient := Opaque(color), diffuse := Opaque(color), specular := CubeSpecular)
  }

  /** Assets::createCube as written. */
  method CreateCubeAsWritten(size: real, color: Vec3) returns (model: Model)
    ensures fresh(model)
    ensures model.meshes == [CubeMeshAsWritten(size, color)]
  {
    var coloured := new Model.FromArrays(Triangles, CubeVertices(size), CubeIndices);
    var first := coloured.meshes[0];
    coloured.meshes := coloured.meshes[0 := first.(ambient := Opaque(color), diffuse := Opaque(color), specular := CubeSpecular)];
    model := new Model.FromArrays(Triangles, CubeVertices(size), CubeIndices);
  }

  /** Assets::createCube returning the model it coloured. */
  method CreateCube(size: real, color: Vec3) returns (model: Model)
    ensures fresh(model)
    ensures model.meshes == [CubeMesh(size, color)]
  {
    model := new Model.FromArrays(Triangles, CubeVertices(size), CubeIndices);
    var first := model.meshes[0];
    model.meshes := model.meshes[0 := first.(ambient := Opaque(color), diffuse := Opaque(color), specular := CubeSpecular)];
  }

  /** As written, the colour argument has no effect: a red cube and a blue
      cube are the same white mesh. */
  lemma CubeAsWrittenIgnoresColour(size: real)
    ensures CubeMeshAsWritten(size, Vec3(1.0, 0.0, 0.0)) == CubeMeshAsWritten(size, Vec3(0.0, 0.0, 1.0))
    ensures CubeMeshAsWritten(size, Vec3(1.0, 0.0, 0.0)).diffuse != Opaque(Vec3(1.0, 0.0, 0.0))
  {
  }

  /** The corrected cube carries its colour: the diffuse and ambient
      colours are the requested opaque colour, and different colours give
      different meshes of the same geometry. */
  lemma CubeMeshTakesColour(size: real, c1: Vec3, c2: Vec3)
    ensures CubeMesh(size, c1).diffuse == Opaque(c1) && CubeMesh(size, c1).ambient == Opaque(c1)
    ensures CubeMesh(size, c1).vertices == CubeMesh(size, c2).vertices
    ensures CubeMesh(size, c1) == CubeMesh(size, c2) <==> c1 == c2
  {
    if CubeMesh(size, c1) == CubeMesh(size, c2) {
      assert Opaque(c1) == Opaque(c2);
    }
  }

  /** Every cube index names one of the 24 vertices, and the six indices of
      face f use only the four vertices of that face. */
  lemma CubeFaces(size: real)
    ensures |CubeIndices| == 36
    ensures forall k :: 0 <= k < 36 ==> CubeIndices[k] < |CubeVertices(size)|
    ensures forall k :: 0 <= k < 36 ==> CubeIndices[k] / 4 == k / 6
  {
  }

  /** Every cube vertex lies on its face: its position projected on its
      normal is half the size. */
  lemma CubeVerticesOnFaces(size: real)
    ensures forall k :: 0 <= k < 24 ==>
      Dot(CubeVertices(size)[k].position, CubeVertices(size)[k].normal) == size / 2.0
  {
  }


  /** The two edges from the first corner of cube triangle t. */
  function CubeEdges(size: real, t: nat): (Vec3, Vec3)
    requires t < 12
  {
    CubeFaces(size);
    var vs := CubeVertices(size);
    var p0 := vs[CubeIndices[3 * t]].position;
    (Sub(vs[CubeIndices[3 * t + 1]].position, p0), Sub(vs[CubeIndices[3 * t + 2]].position, p0))
  }

  /** The edges of the front and back triangles. */
  lemma CubeEdgesFrontBack(size: real, t: nat)
    requires t < 4
    ensures var d := size;
      && (t == 0 ==> CubeEdges(size, t) == (Vec3(d, 0.0, 0.0), Vec3(d, d, 0.0)))
      && (t == 1 ==> CubeEdges(size, t) == (Vec3(-d, 0.0, 0.0), Vec3(-d, -d, 0.0)))
      && (t == 2 ==> CubeEdges(size, t) == (Vec3(0.0, d, 0.0), Vec3(d, d, 0.0)))
      && (t == 3 ==> CubeEdges(size, t) == (Vec3(0.0, -d, 0.0), Vec3(-d, -d, 0.0)))
  {
  }

  /** The edges of the left and right triangles. */
  lemma CubeEdgesLeftRight(size: real, t: nat)
    requires 4 <= t < 8
    ensures var d := size;
      && (t == 4 ==> CubeEdges(size, t) == (Vec3(0.0, 0.0, d), Vec3(0.0, d, d)))
      && (t == 5 ==> CubeEdges(size, t) == (Vec3(0.0, 0.0, -d), Vec3(0.0, -d, -d)))
      && (t == 6 ==> CubeEdges(size, t) == (Vec3(0.0, d, 0.0), Vec3(0.0, d, d)))
      && (t == 7 ==> CubeEdges(size, t) == (Vec3(0.0, -d, 0.0), Vec3(0.0, -d, -d)))
  {
  }

  /** The edges of the top and bottom triangles. */
  lemma CubeEdgesTopBottom(size: real, t: nat)
    requires 8 <= t < 12
    ensures var d := size;
      && (t == 8 ==> CubeEdges(size, t) == (Vec3(0.0, 0.0, d), Vec3(d, 0.0, d)))
      && (t == 9 ==> CubeEdges(size, t) == (Vec3(0.0, 0.0, -d), Vec3(-d, 0.0, -d)))
      && (t == 10 ==> CubeEdges(size, t) == (Vec3(d, 0.0, 0.0), Vec3(d, 0.0, d)))
      && (t == 11 ==> CubeEdges(size, t) == (Vec3(-d, 0.0, 0.0), Vec3(-d, 0.0, -d)))
  {
  }

  /** The cross products of the axis-aligned edge pairs of the cube. */
  lemma CubeEdgeCrosses(d: real)
    ensures Cross(Vec3(d, 0.0, 0.0), Vec3(d, d, 0.0)) == Scale(Vec3(0.0, 0.0, 1.0), d * d)
    ensures Cross(Vec3(-d, 0.0, 0.0), Vec3(-d, -d, 0.0)) == Scale(Vec3(0.0, 0.0, 1.0), d * d)
    ensures Cross(Vec3(0.0, d, 0.0), Vec3(d, d, 0.0)) == Scale(Vec3(0.0, 0.0, -1.0), d * d)
    ensures Cross(Vec3(0.0, -d, 0.0), Vec3(-d, -d, 0.0)) == Scale(Vec3(0.0, 0.0, -1.0), d * d)
    ensures Cross(Vec3(0.0, 0.0, d), Vec3(0.0, d, d)) == Scale(Vec3(-1.0, 0.0, 0.0), d * d)
    ensures Cross(Vec3(0.0, 0.0, -d), Vec3(0.0, -d, -d)) == Scale(Vec3(-1.0, 0.0, 0.0), d * d)
    ensures Cross(Vec3(0.0, d, 0.0), Vec3(0.0, d, d)) == Scale(Vec3(1.0, 0.0, 0.0), d * d)
    ensures Cross(Vec3(0.0, -d, 0.0), Vec3(0.0, -d, -d)) == Scale(Vec3(1.0, 0.0, 0.0), d * d)
    ensures Cross(Vec3(0.0, 0.0, d), Vec3(d, 0.0, d)) == Scale(Vec3(0.0, 1.0, 0.0), d * d)
    ensures Cross(Vec3(0.0, 0.0, -d), Vec3(-d, 0.0, -d)) == Scale(Vec3(0.0, 1.0, 0.0), d * d)
    ensures Cross(Vec3(d, 0.0, 0.0), Vec3(d, 0.0, d)) == Scale(Vec3(0.0, -1.0, 0.0), d * d)
    ensures Cross(Vec3(-d, 0.0, 0.0), Vec3(-d, 0.0, -d)) == Scale(Vec3(0.0, -1.0, 0.0), d * d)
  {
  }

  /** The face normal carried by the first corner of cube triangle t. */
  lemma CubeNormalsAt(size: real, t: nat)
    requires t < 12
    ensures var n := CubeVertices(size)[CubeIndices[3 * t]].normal;
      && (t < 2 ==> n == Vec3(0.0, 0.0, 1.0))
      && (2 <= t < 4 ==> n == Vec3(0.0, 0.0, -1.0))
      && (4 <= t < 6 ==> n == Vec3(-1.0, 0.0, 0.0))
      && (6 <= t < 8 ==> n == Vec3(1.0, 0.0, 0.0))
      && (8 <= t < 10 ==> n == Vec3(0.0, 1.0, 0.0))
      && (10 <= t ==> n == Vec3(0.0, -1.0, 0.0))
  {
  }

  /** The winding argument on the edge and normal tables alone. */
  lemma WindingFromTables(t: nat, e1: Vec3, e2: Vec3, n: Vec3, d: real)
    requires t < 12
    requires (t == 0 ==> (e1, e2) == (Vec3(d, 0.0, 0.0), Vec3(d, d, 0.0)))
      && (t == 1 ==> (e1, e2) == (Vec3(-d, 0.0, 0.0), Vec3(-d, -d, 0.0)))
      && (t == 2 ==> (e1, e2) == (Vec3(0.0, d, 0.0), Vec3(d, d, 0.0)))
      && (t == 3 ==> (e1, e2) == (Vec3(0.0, -d, 0.0), Vec3(-d, -d, 0.0)))
      && (t == 4 ==> (e1, e2) == (Vec3(0.0, 0.0, d), Vec3(0.0, d, d)))
      && (t == 5 ==> (e1, e2) == (Vec3(0.0, 0.0, -d), Vec3(0.0, -d, -d)))
      && (t == 6 ==> (e1, e2) == (Vec3(0.0, d, 0.0), Vec3(0.0, d, d)))
      && (t == 7 ==> (e1, e2) == (Vec3(0.0, -d, 0.0), Vec3(0.0, -d, -d)))
      && (t == 8 ==> (e1, e2) == (Vec3(0.0, 0.0, d), Vec3(d, 0.0, d)))
      && (t == 9 ==> (e1, e2) == (Vec3(0.0, 0.0, -d), Vec3(-d, 0.0, -d)))
      && (t == 10 ==> (e1, e2) == (Vec3(d, 0.0, 0.0), Vec3(d, 0.0, d)))
      && (t == 11 ==> (e1, e2) == (Vec3(-d, 0.0, 0.0), Vec3(-d, 0.0, -d)))
    requires (t < 2 ==> n == Vec3(0.0, 0.0, 1.0))
      && (2 <= t < 4 ==> n == Vec3(0.0, 0.0, -1.0))
      && (4 <= t < 6 ==> n == Vec3(-1.0, 0.0, 0.0))
      && (6 <= t < 8 ==> n == Vec3(1.0, 0.0, 0.0))
      && (8 <= t < 10 ==> n == Vec3(0.0, 1.0, 0.0))
      && (10 <= t ==> n == Vec3(0.0, -1.0, 0.0))
    ensures Cross(e1, e2) == Scale(n, d * d)
  {
    CubeEdgeCrosses(d);
  }

  /** Every cube triangle is wound counter-clockwise seen from outside: the
      cross product of its edges points along the face normal stored in its
      vertices, with length size². */
  lemma CubeWindingOutward(size: real, t: nat)
    requires t < 12
    ensures Cross(CubeEdges(size, t).0, CubeEdges(size, t).1)
         == Scale(CubeVertices(size)[CubeIndices[3 * t]].normal, size * size)
  {
    var e := CubeEdges(size, t);
    var n := CubeVertices(size)[CubeIndices[3 * t]].normal;
    if t < 4 {
      CubeEdgesFrontBack(size, t);
    } else if t < 8 {
      CubeEdgesLeftRight(size, t);
    } else {
      CubeEdgesTopBottom(size, t);
    }
    CubeNormalsAt(size, t);
    WindingFromTables(t, e.0, e.1, n, size);
  }

  // ---------------------------------------------------------------------
  // UV sphere

  /** Vertex (i, j) of createSphere: stack i lies at angle π/2 - iπ/stacks
      from the equator, sector j at angle 2πj/sectors around the axis; the
      normal is the normalised position and the texture coordinates are
      (j/sectors, i/stacks). */
  function SphereVertex(m: Math, radius: real, sectors: int, stacks: int, i: int, j: int): Vertex
    requires 1 <= sectors && 1 <= stacks
  {
    var stackAngle := Pi / 2.0 - i as real * Pi / stacks as real;
    var xy := radius * m.cos(stackAngle);
    var z := radius * m.sin(stackAngle);
    var sectorAngle := 2.0 * Pi * j as real / sectors as real;
    var position := Vec3(xy * m.cos(sectorAngle), xy * m.sin(sectorAngle), z);
    Vertex(position, Normalize(m, position), Vec2(j as real / sectors as real, i as real / stacks as real))
  }

  /** The (stacks+1)·(sectors+1) sphere vertices, stack by stack: vertex k
      is (k div (sectors+1), k mod (sectors+1)). */
  function SphereVertices(m: Math, radius: real, sectors: int, stacks: int): (r: seq<Vertex>)
    requires 1 <= sectors && 1 <= stacks
    ensures |r| == (stacks + 1) * (sectors + 1)
  {
    var w := sectors + 1;
    MulNonneg(stacks + 1, w);
    seq((stacks + 1) * w, k requires 0 <= k < (stacks + 1) * w => SphereVertex(m, radius, sectors, stacks, k / w, k % w))
  }

  /** The triangles of the quad between stacks i and i+1 at sector j, with
      k1 = i·(sectors+1) + j above k2 = k1 + sectors + 1: (k1, k2, k1+1)
      except on the first stack, and (k1+1, k2, k2+1) except on the last,
      where the quad degenerates to a triangle at the pole. */
  function SphereCellIndices(sectors: int, stacks: int, i: int, j: int): seq<int> {
    var k1 := i * (sectors + 1) + j;
    QuadIndices(stacks, i, k1, k1 + sectors + 1)
  }

  /** The triangles of one quad of stack i, k1 above k2. */
  function QuadIndices(stacks: int, i: int, k1: int, k2: int): seq<int> {
    (if i != 0 then [k1, k2, k1 + 1] else []) + (if i != stacks - 1 then [k1 + 1, k2, k2 + 1] else [])
  }

  /** The indices of the first j quads of stack i. */
  function SphereRowIndices(sectors: int, stacks: int, i: int, j: int): seq<int>
    requires 0 <= j
  {
    if j == 0 then [] else SphereRowIndices(sectors, stacks, i, j - 1) + SphereCellIndices(sectors, stacks, i, j - 1)
  }

  /** The indices of the first i stacks. */
  function SphereIndices(sectors: int, stacks: int, i: int): seq<int>
    requires 0 <= i && 0 <= sectors
  {
    if i == 0 then [] else SphereIndices(sectors, stacks, i - 1) + SphereRowIndices(sectors, stacks, i - 1, sectors)
  }

  /** The one mesh of a sphere model. */
  function SphereMesh(m: Math, radius: real, sectors: int, stacks: int): (mesh: Mesh)
    requires 1 <= sectors && 1 <= stacks
    ensures mesh.primitive == Triangles && mesh.textureId == 0
    ensures |mesh.vertices| == (stacks + 1) * (sectors + 1)
    ensures |mesh.indices| == 6 * sectors * (stacks - 1)
    ensures IndicesInBounds(mesh)
  {
    SphereIndicesInBounds(sectors, stacks);
    SphereIndexCount(sectors, stacks);
    NewMesh(Triangles, SphereVertices(m, radius, sectors, stacks), NatIndices(SphereIndices(sectors, stacks, stacks)), 0)
  }

  /** Assets::createSphere (radius, sector count, stack count). */
  method CreateSphere(m: Math, radius: real, sectors: int, stacks: int) returns (model: Model)
    requires 1 <= sectors && 1 <= stacks
    ensures fresh(model)
    ensures model.meshes == [SphereMesh(m, radius, sectors, stacks)]
  {
    var vertices := SphereVertexList(m, radius, sectors, stacks);
    var indices := SphereIndexList(sectors, stacks);
    SphereIndicesInBounds(sectors, stacks);
    model := new Model.FromArrays(Triangles, vertices, NatIndices(indices));
  }

  /** The vertex loops of createSphere. */
  method SphereVertexList(m: Math, radius: real, sectors: int, stacks: int) returns (vertices: seq<Vertex>)
    requires 1 <= sectors && 1 <= stacks
    ensures vertices == SphereVertices(m, radius, sectors, stacks)
  {
    var w := sectors + 1;
    ghost var target := SphereVertices(m, radius, sectors, stacks);
    ghost var written := 0;
    vertices := [];
    var i := 0;
    while i <= stacks
      invariant 0 <= i <= stacks + 1
      invariant written == i * w && written <= |target| && vertices == target[..written]
    {
      var j := 0;
      while j <= sectors
        invariant 0 <= j <= w
        invariant written == i * w + j && written <= |target| && vertices == target[..written]
      {
        SphereVertexAt(m, radius, sectors, stacks, i, j);
        assert target[..written + 1] == target[..written] + [target[written]];
        vertices := vertices + [SphereVertex(m, radius, sectors, stacks, i, j)];
        written := written + 1;
        j := j + 1;
      }
      assert i * w + w == (i + 1) * w;
      i := i + 1;
    }
    assert target[..written] == target;
  }

  /** Grid position (i, j) is vertex i·(sectors+1) + j. */
  lemma SphereVertexAt(m: Math, radius: real, sectors: int, stacks: int, i: int, j: int)
    requires 1 <= sectors && 1 <= stacks && 0 <= i <= stacks && 0 <= j <= sectors
    ensures var k := i * (sectors + 1) + j;
      && 0 <= k < |SphereVertices(m, radius, sectors, stacks)|
      && SphereVertices(m, radius, sectors, stacks)[k] == SphereVertex(m, radius, sectors, stacks, i, j)
  {
    CellBelow(sectors + 1, stacks + 1, j, i);
    CellDivMod(sectors + 1, j, i);
  }

  /** The index loops of createSphere, with k1 and k2 advanced alongside
      the sector counter. */
  method SphereIndexList(sectors: int, stacks: int) returns (indices: seq<int>)
    requires 1 <= sectors && 1 <= stacks
    ensures indices == SphereIndices(sectors, stacks, stacks)
  {
    indices := [];
    var i := 0;
    while i < stacks
      invariant 0 <= i <= stacks
      invariant indices == SphereIndices(sectors, stacks, i)
    {
      indices := SphereStackIndices(indices, sectors, stacks, i);
      i := i + 1;
    }
  }

  /** The sector loop of stack i, with k1 and k2 advanced alongside the
      sector counter. */
  method SphereStackIndices(start: seq<int>, sectors: int, stacks: int, i: int) returns (indices: seq<int>)
    requires 1 <= sectors
    ensures indices == start + SphereRowIndices(sectors, stacks, i, sectors)
  {
    indices := start;
    var k1 := i * (sectors + 1);
    var k2 := k1 + sectors + 1;
    var j := 0;
    while j < sectors
      invariant 0 <= j <= sectors
      invariant k1 == i * (sectors + 1) + j && k2 == k1 + sectors + 1
      invariant indices == start + SphereRowIndices(sectors, stacks, i, j)
    {
      ghost var cell := SphereCellIndices(sectors, stacks, i, j);
      assert cell == QuadIndices(stacks, i, k1, k2);
      assert SphereRowIndices(sectors, stacks, i, j + 1) == SphereRowIndices(sectors, stacks, i, j) + cell;
      indices := PushQuad(indices, stacks, i, k1, k2);
      assert indices == start + SphereRowIndices(sectors, stacks, i, j + 1);
      j := j + 1;
      k1 := k1 + 1;
      k2 := k2 + 1;
    }
  }

  /** The body of the sector loop: the upper triangle unless on the first
      stack, the lower one unless on the last. */
  method PushQuad(indices: seq<int>, stacks: int, i: int, k1: int, k2: int) returns (r: seq<int>)
    ensures r == indices + QuadIndices(stacks, i, k1, k2)
  {
    r := indices;
    if i != 0 {
      r := r + [k1, k2, k1 + 1];
    }
    if i != stacks - 1 {
      r := r + [k1 + 1, k2, k2 + 1];
    }
  }

  // ---------------------------------------------------------------------
  // Properties of the sphere

  /** Every index of quad (i, j) names a vertex of the sphere. */
  lemma SphereCellInBounds(sectors: int, stacks: int, i: int, j: int)
    requires 1 <= sectors && 1 <= stacks && 0 <= i < stacks && 0 <= j < sectors
    ensures forall x :: x in SphereCellIndices(sectors, stacks, i, j) ==> 0 <= x < (stacks + 1) * (sectors + 1)
  {
    var w := sectors + 1;
    var k1 := i * w + j;
    MulNonneg(i, w);
    CellBelow(w, stacks + 1, j + 1, i + 1);
    MulAdd(w, i, 1);
    assert 0 <= k1 && k1 + w + 1 < (stacks + 1) * w;
    QuadInRange(stacks, i, k1, k1 + w, (stacks + 1) * w);
  }

  lemma QuadInRange(stacks: int, i: int, k1: int, k2: int, bound: int)
    requires 0 <= k1 < k2 && k2 + 1 < bound
    ensures forall x :: x in QuadIndices(stacks, i, k1, k2) ==> 0 <= x < bound
  {
  }

  lemma {:induction false} SphereRowInBounds(sectors: int, stacks: int, i: int, j: int)
    requires 1 <= sectors && 1 <= stacks && 0 <= i < stacks && 0 <= j <= sectors
    ensures forall x :: x in SphereRowIndices(sectors, stacks, i, j) ==> 0 <= x < (stacks + 1) * (sectors + 1)
  {
    if j > 0 {
      SphereRowInBounds(sectors, stacks, i, j - 1);
      SphereCellInBounds(sectors, stacks, i, j - 1);
    }
  }

  lemma {:induction false} SphereStacksInBounds(sectors: int, stacks: int, i: int)
    requires 1 <= sectors && 1 <= stacks && 0 <= i <= stacks
    ensures forall x :: x in SphereIndices(sectors, stacks, i) ==> 0 <= x < (stacks + 1) * (sectors + 1)
  {
    if i > 0 {
      SphereStacksInBounds(sectors, stacks, i - 1);
      SphereRowInBounds(sectors, stacks, i - 1, sectors);
    }
  }

  /** Every sphere index names one of the (stacks+1)·(sectors+1) vertices. */
  lemma SphereIndicesInBounds(sectors: int, stacks: int)
    requires 1 <= sectors && 1 <= stacks
    ensures forall k :: 0 <= k < |SphereIndices(sectors, stacks, stacks)| ==>
      0 <= SphereIndices(sectors, stacks, stacks)[k] < (stacks + 1) * (sectors + 1)
  {
    var ix := SphereIndices(sectors, stacks, stacks);
    SphereStacksInBounds(sectors, stacks, stacks);
    forall k | 0 <= k < |ix|
      ensures 0 <= ix[k] < (stacks + 1) * (sectors + 1)
    {
      assert ix[k] in ix;
    }
  }

  /** The number of indices a quad of stack i contributes. */
  function QuadSize(stacks: int, i: int): int {
    (if i != 0 then 3 else 0) + (if i != stacks - 1 then 3 else 0)
  }

  lemma {:induction false} SphereRowCount(sectors: int, stacks: int, i: int, j: int)
    requires 0 <= j
    ensures |SphereRowIndices(sectors, stacks, i, j)| == j * QuadSize(stacks, i)
  {
    if j > 0 {
      SphereRowCount(sectors, stacks, i, j - 1);
      MulAdd(QuadSize(stacks, i), j - 1, 1);
    }
  }

  /** Three times the number of quads, per sector, in the first i stacks:
      one triangle per quad at either pole stack, two elsewhere. */
  function StackTriangles(stacks: int, i: int): int {
    (if i > 0 then i - 1 else 0) + (if i == stacks then i - 1 else i)
  }

  /** After i of the stacks, 3·sectors indices per stack other than the
      first and 3·sectors per stack other than the last have been emitted. */
  lemma {:induction false} SphereStacksCount(sectors: int, stacks: int, i: int)
    requires 0 <= sectors && 1 <= stacks && 0 <= i <= stacks
    ensures |SphereIndices(sectors, stacks, i)| == sectors * (3 * StackTriangles(stacks, i))
  {
    if i > 0 {
      SphereStacksCount(sectors, stacks, i - 1);
      SphereRowCount(sectors, stacks, i - 1, sectors);
      assert 3 * StackTriangles(stacks, i - 1) + QuadSize(stacks, i - 1) == 3 * StackTriangles(stacks, i);
      MulAdd(sectors, 3 * StackTriangles(stacks, i - 1), QuadSize(stacks, i - 1));
    }
  }

  /** The sphere has 2·sectors·(stacks-1) triangles: one per sector at
      each pole stack and two per sector in between. */
  lemma SphereIndexCount(sectors: int, stacks: int)
    requires 1 <= sectors && 1 <= stacks
    ensures |SphereIndices(sectors, stacks, stacks)| == 6 * sectors * (stacks - 1)
  {
    SphereStacksCount(sectors, stacks, stacks);
    assert 3 * StackTriangles(stacks, stacks) == 6 * (stacks - 1);
  }

  /** Integer fractions a/b with 0 <= a <= b lie in [0, 1]. */
  lemma FractionInUnit(a: int, b: int)
    requires 0 <= a <= b && 1 <= b
    ensures 0.0 <= a as real / b as real <= 1.0
  {
  }

  /** Sphere texture coordinates cover the unit square, from (0, 0) at the
      first vertex to (1, 1) at the last. */
  lemma SphereTexCoords(m: Math, radius: real, sectors: int, stacks: int, i: int, j: int)
    requires 1 <= sectors && 1 <= stacks && 0 <= i <= stacks && 0 <= j <= sectors
    ensures var uv := SphereVertex(m, radius, sectors, stacks, i, j).texCoords;
      && 0.0 <= uv.x <= 1.0 && 0.0 <= uv.y <= 1.0
      && (i == 0 && j == 0 ==> uv == Vec2(0.0, 0.0))
      && (i == stacks && j == sectors ==> uv == Vec2(1.0, 1.0))
  {
    FractionInUnit(j, sectors);
    FractionInUnit(i, stacks);
  }

  /** Under a sound length, every sphere normal is the unit vector along
      its position, or zero at a degenerate (zero-radius) point. */
  lemma SphereNormals(m: Math, radius: real, sectors: int, stacks: int, i: int, j: int)
    requires Sound(m) && 1 <= sectors && 1 <= stacks
    ensures var v := SphereVertex(m, radius, sectors, stacks, i, j);
      && (v.position == Zero3 ==> v.normal == Zero3)
      && (v.position != Zero3 ==> Length(m, v.normal) == 1.0)
  {
    NormalizeUnitOrZero(m, SphereVertex(m, radius, sectors, stacks, i, j).position);
  }
}
