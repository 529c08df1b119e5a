/** Meshes and models (Model.h, with the mesh record of Mesh.h): a model is a
    list of meshes, built either from ready vertex and index arrays or by
    flattening the shapes of a parsed Wavefront OBJ file. */
module Meshes {
  import opened Glm

  datatype Primitive = Lines | Triangles

  /** Vertex.h: position, normal and texture coordinates. */
  datatype Vertex = Vertex(position: Vec3, normal: Vec3, texCoords: Vec2)

  const White: Vec4 := Vec4(1.0, 1.0, 1.0, 1.0)

  /** The data of a Mesh: its geometry and its material.  The material
      colours default to opaque white, the shininess to 1 and the texture id
      to 0 ("no texture"). */
  datatype Mesh = Mesh(
    primitive: Primitive,
    vertices: seq<Vertex>,
    indices: seq<nat>,
    textureId: nat,
    ambient: Vec4,
    diffuse: Vec4,
    specular: Vec4,
    shininess: real)

  /** Mesh's constructor: the given geometry with the default material. */
  function NewMesh(primitive: Primitive, vertices: seq<Vertex>, indices: seq<nat>, textureId: nat): Mesh {
    Mesh(primitive, vertices, indices, textureId, White, White, White, 1.0)
  }

  /** 0, 1, ..., n-1. */
  function Iota(n: nat): (r: seq<nat>)
    ensures |r| == n && forall k :: 0 <= k < n ==> r[k] == k
  {
    seq(n, k => k)
  }

  /** Every index of a mesh names one of its vertices. */
  predicate IndicesInBounds(mesh: Mesh) {
    forall k :: 0 <= k < |mesh.indices| ==> mesh.indices[k] < |mesh.vertices|
  }

  // ---------------------------------------------------------------------
  // The parsed OBJ data handed over by tinyobj

  /** One face corner: indices into the position and texture-coordinate
      arrays, negative when absent.  The normal index is not used. */
  datatype ObjIndex = ObjIndex(vertexIndex: int, texcoordIndex: int)
  datatype ObjShape = ObjShape(indices: seq<ObjIndex>, materialIds: seq<int>)
  datatype ObjMaterial = ObjMaterial(
    ambient: Vec3, diffuse: Vec3, specular: Vec3, shininess: real, diffuseTexname: string)
  /** attrib.vertices (three reals per position), attrib.texcoords (two
      reals per coordinate pair), the shapes and the materials. */
  datatype ObjData = ObjData(
    positions: seq<real>, texcoords: seq<real>, shapes: seq<ObjShape>, materials: seq<ObjMaterial>)

  /** A present index names an existing entry of its array, as the loader
      guarantees. */
  predicate CornerInRange(data: ObjData, idx: ObjIndex) {
    && (idx.vertexIndex < 0 || 3 * idx.vertexIndex + 2 < |data.positions|)
    && (idx.texcoordIndex < 0 || 2 * idx.texcoordIndex + 1 < |data.texcoords|)
  }

  predicate ShapeInRange(data: ObjData, shape: ObjShape) {
    forall idx :: idx in shape.indices ==> CornerInRange(data, idx)
  }

  predicate InRange(data: ObjData) {
    forall shape :: shape in data.shapes ==> ShapeInRange(data, shape)
  }

  /** The vertex made for one face corner: a missing position gives the
      origin, a missing texture coordinate gives (0, 0), and the normal
      starts at zero. */
  function CornerVertex(data: ObjData, idx: ObjIndex): Vertex
    requires CornerInRange(data, idx)
  {
    var position :=
      if idx.vertexIndex >= 0 then
        Vec3(data.positions[3 * idx.vertexIndex], data.positions[3 * idx.vertexIndex + 1],
             data.positions[3 * idx.vertexIndex + 2])
      else Zero3;
    var texCoords :=
      if idx.texcoordIndex >= 0 then
        Vec2(data.texcoords[2 * idx.texcoordIndex], data.texcoords[2 * idx.texcoordIndex + 1])
      else Vec2(0.0, 0.0);
    Vertex(position, Zero3, texCoords)
  }

  /** One vertex per face corner, in corner order. */
  function Corners(data: ObjData, shape: ObjShape): seq<Vertex>
    requires ShapeInRange(data, shape)
  {
    seq(|shape.indices|, f requires 0 <= f < |shape.indices| => CornerVertex(data, shape.indices[f]))
  }

  /** The unit normal of the triangle (p0, p1, p2). */
  function FaceNormal(m: Math, p0: Vec3, p1: Vec3, p2: Vec3): Vec3 {
    Normalize(m, Cross(Sub(p1, p0), Sub(p2, p0)))
  }

  /** Number of corners that belong to complete triangles. */
  function Complete(n: nat): (r: nat)
    ensures r <= n && r % 3 == 0 && n - r < 3
  {
    n - n % 3
  }

  /** The first corner of the triangle that corner k belongs to. */
  function TriangleStart(k: nat): nat { k - k % 3 }

  /** A whole triple that fits below n ends at or below Complete(n). */
  lemma CompleteStep(i: nat, n: nat)
    requires i % 3 == 0 && i + 2 < n
    ensures (i + 3) % 3 == 0 && i + 3 <= Complete(n)
  {
    var q := i / 3;
    assert i == 3 * q;
    assert i + 3 == 3 * (q + 1);
    assert n == 3 * (n / 3) + n % 3;
  }

  /** Corner k once the face normal of its triangle has been set, provided
      the triangle is complete and starts below `done`. */
  function NormalledAt(m: Math, vs: seq<Vertex>, done: nat, k: nat): Vertex
    requires k < |vs|
  {
    var t := TriangleStart(k);
    if t < done && t + 2 < |vs| then
      vs[k].(normal := FaceNormal(m, vs[t].position, vs[t + 1].position, vs[t + 2].position))
    else vs[k]
  }

  /** The corners with the face normals of the complete triangles starting
      below `done` set. */
  function Normalled(m: Math, vs: seq<Vertex>, done: nat): (r: seq<Vertex>)
    ensures |r| == |vs|
  {
    seq(|vs|, k requires 0 <= k < |vs| => NormalledAt(m, vs, done, k))
  }

  /** The material of a shape: the one named by its first material id when
      that id is a valid position in the material list, otherwise opaque
      white with shininess 1 and no texture.  `texture` stands for loading
      the diffuse texture file from disk. */
  function MaterialOf(shape: ObjShape, materials: seq<ObjMaterial>, texture: string -> nat): (r: Mesh)
  {
    var base := NewMesh(Triangles, [], [], 0);
    if shape.materialIds != [] && 0 <= shape.materialIds[0] < |materials| then
      var mat := materials[shape.materialIds[0]];
      base.(
        ambient := Vec4(mat.ambient.x, mat.ambient.y, mat.ambient.z, 1.0),
        diffuse := Vec4(mat.diffuse.x, mat.diffuse.y, mat.diffuse.z, 1.0),
        specular := Vec4(mat.specular.x, mat.specular.y, mat.specular.z, 1.0),
        shininess := mat.shininess,
        textureId := if mat.diffuseTexname != [] then texture(mat.diffuseTexname) else 0)
    else base
  }

  /** The mesh the loader makes of one shape. */
  function ShapeMesh(m: Math, data: ObjData, shape: ObjShape, texture: string -> nat): Mesh
    requires ShapeInRange(data, shape)
  {
    var corners := Corners(data, shape);
    var mat := MaterialOf(shape, data.materials, texture);
    mat.(vertices := Normalled(m, corners, |corners|), indices := Iota(|corners|))
  }

  /** Sets the alpha of the ambient and diffuse colours of every mesh. */
  function WithAlpha(meshes: seq<Mesh>, alpha: real): (r: seq<Mesh>)
    ensures |r| == |meshes|
  {
    seq(|meshes|, i requires 0 <= i < |meshes| =>
      meshes[i].(ambient := meshes[i].ambient.(w := alpha), diffuse := meshes[i].diffuse.(w := alpha)))
  }

  datatype LoadResult = Loaded(model: Model) | LoadFailed(message: string)

  class Model {
    var meshes: seq<Mesh>
    var origin: Vec3
    var orientation: Vec3

    /** Model(primitiveType, vertices, indices, shader): exactly one mesh,
        with the default material and no texture. */
    constructor FromArrays(primitive: Primitive, vertices: seq<Vertex>, indices: seq<nat>)
      ensures meshes == [NewMesh(primitive, vertices, indices, 0)]
      ensures origin == Zero3 && orientation == Zero3
    {
      meshes := [NewMesh(primitive, vertices, indices, 0)];
      origin := Zero3;
      orientation := Zero3;
    }

    /** Model(filename, shader, flip) once tinyobj has parsed the file: one
        mesh per shape, in shape order. */
    constructor FromObj(m: Math, data: ObjData, texture: string -> nat)
      requires InRange(data)
      ensures |meshes| == |data.shapes|
      ensures forall s :: 0 <= s < |data.shapes| ==> meshes[s] == ShapeMesh(m, data, data.shapes[s], texture)
      ensures origin == Zero3 && orientation == Zero3
    {
      var built: seq<Mesh> := [];
      var s := 0;
      while s < |data.shapes|
        invariant 0 <= s <= |data.shapes|
        invariant |built| == s
        invariant forall j :: 0 <= j < s ==> built[j] == ShapeMesh(m, data, data.shapes[j], texture)
      {
        assert data.shapes[s] in data.shapes;
        var mesh := FlattenShape(m, data, data.shapes[s], texture);
        built := built + [mesh];
        s := s + 1;
      }
      meshes := built;
      origin := Zero3;
      orientation := Zero3;
    }

    /** Model::setAlpha. */
    method SetAlpha(alpha: real)
      modifies this
      ensures meshes == WithAlpha(old(meshes), alpha)
      ensures origin == old(origin) && orientation == old(orientation)
    {
      var i := 0;
      while i < |meshes|
        invariant 0 <= i <= |meshes| == |old(meshes)|
        invariant meshes[..i] == WithAlpha(old(meshes), alpha)[..i]
        invariant meshes[i..] == old(meshes)[i..]
        invariant origin == old(origin) && orientation == old(orientation)
      {
        var mesh := meshes[i];
        meshes := meshes[i := mesh.(ambient := mesh.ambient.(w := alpha), diffuse := mesh.diffuse.(w := alpha))];
        i := i + 1;
      }
    }
  }

  /** The loader's work on one shape: one vertex per face corner, indices
      0..k-1, face normals on complete triangles, then the material. */
  method FlattenShape(m: Math, data: ObjData, shape: ObjShape, texture: string -> nat) returns (mesh: Mesh)
    requires ShapeInRange(data, shape)
    ensures mesh == ShapeMesh(m, data, shape, texture)
  {
    var vertices, indices := GatherCorners(data, shape);
    vertices := SetFaceNormals(m, vertices, indices);
    mesh := MaterialOf(shape, data.materials, texture);
    mesh := mesh.(vertices := vertices, indices := indices);
  }

  /** The first pass of the shape loop: one vertex per face corner, read
      from the attribute arrays, and the running index list 0, 1, 2, …. */
  method GatherCorners(data: ObjData, shape: ObjShape) returns (vertices: seq<Vertex>, indices: seq<nat>)
    requires ShapeInRange(data, shape)
    ensures vertices == Corners(data, shape) && indices == Iota(|shape.indices|)
  {
    vertices := [];
    indices := [];
    var f := 0;
    while f < |shape.indices|
      invariant 0 <= f <= |shape.indices|
      invariant vertices == Corners(data, shape)[..f]
      invariant indices == Iota(f)
    {
      var idx := shape.indices[f];
      assert idx in shape.indices;
      var position := Zero3;
      if idx.vertexIndex >= 0 {
        position := Vec3(data.positions[3 * idx.vertexIndex], data.positions[3 * idx.vertexIndex + 1],
                         data.positions[3 * idx.vertexIndex + 2]);
      }
      var normal := Zero3;
      var texCoords := Vec2(0.0, 0.0);
      if idx.texcoordIndex >= 0 {
        texCoords := Vec2(data.texcoords[2 * idx.texcoordIndex], data.texcoords[2 * idx.texcoordIndex + 1]);
      }
      assert Vertex(position, normal, texCoords) == CornerVertex(data, idx);
      CornersPrefix(data, shape, f);
      vertices := vertices + [Vertex(position, normal, texCoords)];
      indices := indices + [|vertices| - 1];
      f := f + 1;
    }
  }

  /** The second pass: every complete triple of indices gets the face
      normal of its three positions written into all three corners. */
  method SetFaceNormals(m: Math, corners: seq<Vertex>, indices: seq<nat>) returns (vertices: seq<Vertex>)
    requires indices == Iota(|corners|)
    ensures vertices == Normalled(m, corners, |corners|)
  {
    vertices := corners;
    var i := 0;
    while i + 2 < |indices|
      invariant i % 3 == 0 && i <= Complete(|indices|)
      invariant |vertices| == |corners| == |indices|
      invariant vertices == Normalled(m, corners, i)
    {
      var i0, i1, i2 := indices[i], indices[i + 1], indices[i + 2];
      assert i0 == i && i1 == i + 1 && i2 == i + 2;
      NormalledKeepsCorner(m, corners, i, i);
      NormalledKeepsCorner(m, corners, i, i + 1);
      NormalledKeepsCorner(m, corners, i, i + 2);
      var p0, p1, p2 := vertices[i0].position, vertices[i1].position, vertices[i2].position;
      var faceNormal := FaceNormal(m, p0, p1, p2);
      assert faceNormal == FaceNormal(m, corners[i].position, corners[i + 1].position, corners[i + 2].position);
      NormalledStep(m, corners, i);
      CompleteStep(i, |indices|);
      vertices := vertices[i0 := vertices[i0].(normal := faceNormal)];
      vertices := vertices[i1 := vertices[i1].(normal := faceNormal)];
      vertices := vertices[i2 := vertices[i2].(normal := faceNormal)];
      i := i + 3;
    }
    NormalledDone(m, corners, i);
  }

  /** tinyobj::LoadObj either fails, and the constructor throws, or yields
      the parsed data that the model is built from. */
  method LoadModel(m: Math, parsed: Option<ObjData>, filename: string, texture: string -> nat)
    returns (r: LoadResult)
    requires parsed.Some? ==> InRange(parsed.value)
    ensures parsed.None? <==> r.LoadFailed?
    ensures r.LoadFailed? ==> r.message == "Failed to load OBJ file: " + filename
    ensures r.Loaded? ==> fresh(r.model) && |r.model.meshes| == |parsed.value.shapes|
    ensures r.Loaded? ==> forall s :: 0 <= s < |parsed.value.shapes| ==>
      r.model.meshes[s] == ShapeMesh(m, parsed.value, parsed.value.shapes[s], texture)
  {
    if parsed.None? {
      return LoadFailed("Failed to load OBJ file: " + filename);
    }
    var model := new Model.FromObj(m, parsed.value, texture);
    return Loaded(model);
  }

  datatype Option<T> = None | Some(value: T)

  // ---------------------------------------------------------------------
  // Steps of the flattening loops

  lemma CornersPrefix(data: ObjData, shape: ObjShape, f: nat)
    requires ShapeInRange(data, shape) && f < |shape.indices|
    ensures Corners(data, shape)[..f + 1] == Corners(data, shape)[..f] + [CornerVertex(data, shape.indices[f])]
  {
  }

  /** Setting normals never moves a corner or changes its texture
      coordinates. */
  lemma NormalledKeepsCorner(m: Math, vs: seq<Vertex>, done: nat, k: nat)
    requires k < |vs|
    ensures Normalled(m, vs, done)[k].position == vs[k].position
    ensures Normalled(m, vs, done)[k].texCoords == vs[k].texCoords
  {
  }

  /** One pass of the normal loop: the triangle starting at i gets its face
      normal on all three corners. */
  lemma NormalledStep(m: Math, vs: seq<Vertex>, i: nat)
    requires i % 3 == 0 && i + 2 < |vs|
    ensures var n := FaceNormal(m, vs[i].position, vs[i + 1].position, vs[i + 2].position);
      var before := Normalled(m, vs, i);
      Normalled(m, vs, i + 3) ==
        before[i := before[i].(normal := n)][i + 1 := before[i + 1].(normal := n)][i + 2 := before[i + 2].(normal := n)]
  {
    var n := FaceNormal(m, vs[i].position, vs[i + 1].position, vs[i + 2].position);
    var before := Normalled(m, vs, i);
    var after := before[i := before[i].(normal := n)][i + 1 := before[i + 1].(normal := n)][i + 2 := before[i + 2].(normal := n)];
    forall k | 0 <= k < |vs| ensures Normalled(m, vs, i + 3)[k] == after[k] {
      if i <= k < i + 3 {
        assert TriangleStart(k) == i;
      } else {
        assert TriangleStart(k) < i <==> TriangleStart(k) < i + 3;
      }
    }
  }

  /** Once the loop has passed every complete triangle, all normals are set. */
  lemma NormalledDone(m: Math, vs: seq<Vertex>, i: nat)
    requires i % 3 == 0 && i <= Complete(|vs|) && !(i + 2 < |vs|)
    ensures Normalled(m, vs, i) == Normalled(m, vs, |vs|)
  {
  }

  // ---------------------------------------------------------------------
  // Properties of the loader and of setAlpha

  /** Every index the loader emits for a shape is in bounds, and the index
      list is 0, 1, ..., k-1 for k face corners. */
  lemma ShapeMeshIndices(m: Math, data: ObjData, shape: ObjShape, texture: string -> nat)
    requires ShapeInRange(data, shape)
    ensures var mesh := ShapeMesh(m, data, shape, texture);
      && |mesh.vertices| == |mesh.indices| == |shape.indices|
      && IndicesInBounds(mesh)
      && forall k :: 0 <= k < |mesh.indices| ==> mesh.indices[k] == k
  {
  }

  /** A corner without a position index sits at the origin, one without a
      texture index has texture coordinates (0, 0); otherwise they are read
      from the attribute arrays. */
  lemma ShapeMeshCorner(m: Math, data: ObjData, shape: ObjShape, texture: string -> nat, f: nat)
    requires ShapeInRange(data, shape) && f < |shape.indices|
    ensures var v := ShapeMesh(m, data, shape, texture).vertices[f];
      var idx := shape.indices[f];
      && CornerInRange(data, idx)
      && (idx.vertexIndex < 0 ==> v.position == Zero3)
      && (idx.vertexIndex >= 0 ==>
            v.position == Vec3(data.positions[3 * idx.vertexIndex], data.positions[3 * idx.vertexIndex + 1],
                               data.positions[3 * idx.vertexIndex + 2]))
      && (idx.texcoordIndex < 0 ==> v.texCoords == Vec2(0.0, 0.0))
      && (idx.texcoordIndex >= 0 ==>
            v.texCoords == Vec2(data.texcoords[2 * idx.texcoordIndex], data.texcoords[2 * idx.texcoordIndex + 1]))
  {
    var corners := Corners(data, shape);
    assert ShapeMesh(m, data, shape, texture).vertices == Normalled(m, corners, |corners|);
    NormalledKeepsCorner(m, corners, |corners|, f);
    assert shape.indices[f] in shape.indices;
    assert corners[f] == CornerVertex(data, shape.indices[f]);
  }

  /** The three corners of each complete triangle carry the same normal,
      the face normal of that triangle. */
  lemma ShapeMeshTriangleNormals(m: Math, data: ObjData, shape: ObjShape, texture: string -> nat, t: nat)
    requires ShapeInRange(data, shape) && 3 * t + 2 < |shape.indices|
    ensures var vs := ShapeMesh(m, data, shape, texture).vertices;
      && vs[3 * t].normal == vs[3 * t + 1].normal == vs[3 * t + 2].normal
      && vs[3 * t].normal == FaceNormal(m, vs[3 * t].position, vs[3 * t + 1].position, vs[3 * t + 2].position)
  {
    var corners := Corners(data, shape);
    assert ShapeMesh(m, data, shape, texture).vertices == Normalled(m, corners, |corners|);
    NormalledTriangle(m, corners, t);
  }

  /** Once every triangle is done, the three corners of triangle t share
      the face normal of their positions. */
  lemma NormalledTriangle(m: Math, vs: seq<Vertex>, t: nat)
    requires 3 * t + 2 < |vs|
    ensures var r := Normalled(m, vs, |vs|);
      && r[3 * t].normal == r[3 * t + 1].normal == r[3 * t + 2].normal
      && r[3 * t].normal == FaceNormal(m, r[3 * t].position, r[3 * t + 1].position, r[3 * t + 2].position)
  {
    var i := 3 * t;
    TriangleStartOf(t);
    var r := Normalled(m, vs, |vs|);
    NormalledKeepsCorner(m, vs, |vs|, i);
    NormalledKeepsCorner(m, vs, |vs|, i + 1);
    NormalledKeepsCorner(m, vs, |vs|, i + 2);
    assert r[i] == NormalledAt(m, vs, |vs|, i);
    assert r[i + 1] == NormalledAt(m, vs, |vs|, i + 1);
    assert r[i + 2] == NormalledAt(m, vs, |vs|, i + 2);
  }

  /** The three corners of triangle t all start triangle t. */
  lemma TriangleStartOf(t: nat)
    ensures TriangleStart(3 * t) == 3 * t
    ensures TriangleStart(3 * t + 1) == 3 * t
    ensures TriangleStart(3 * t + 2) == 3 * t
  {
  }

  /** The corners of a trailing incomplete triple keep the zero normal. */
  lemma ShapeMeshTrailingNormals(m: Math, data: ObjData, shape: ObjShape, texture: string -> nat, k: nat)
    requires ShapeInRange(data, shape) && Complete(|shape.indices|) <= k < |shape.indices|
    ensures ShapeMesh(m, data, shape, texture).vertices[k].normal == Zero3
  {
    var corners := Corners(data, shape);
    var vs := ShapeMesh(m, data, shape, texture).vertices;
    assert vs == Normalled(m, corners, |corners|);
    assert vs[k] == NormalledAt(m, corners, |corners|, k);
    assert TriangleStart(k) == Complete(|shape.indices|);
    assert shape.indices[k] in shape.indices;
    assert corners[k] == CornerVertex(data, shape.indices[k]);
  }

  /** The material comes from the list only when the first material id is a
      valid position in it; otherwise every colour is opaque white, the
      shininess is 1 and there is no texture. */
  lemma MaterialSelection(shape: ObjShape, materials: seq<ObjMaterial>, texture: string -> nat)
    ensures var r := MaterialOf(shape, materials, texture);
      if shape.materialIds != [] && 0 <= shape.materialIds[0] < |materials| then
        var mat := materials[shape.materialIds[0]];
        && r.diffuse == Vec4(mat.diffuse.x, mat.diffuse.y, mat.diffuse.z, 1.0)
        && r.shininess == mat.shininess
        && (mat.diffuseTexname == [] ==> r.textureId == 0)
      else
        r.ambient == White && r.diffuse == White && r.specular == White && r.shininess == 1.0 && r.textureId == 0
  {
  }

  /** setAlpha changes only the alpha of the ambient and diffuse colours:
      geometry, texture, specular colour, shininess and RGB are kept. */
  lemma WithAlphaKeepsRest(meshes: seq<Mesh>, alpha: real, i: nat)
    requires i < |meshes|
    ensures var r := WithAlpha(meshes, alpha)[i];
      && r.ambient.w == alpha && r.diffuse.w == alpha
      && r.ambient.x == meshes[i].ambient.x && r.ambient.y == meshes[i].ambient.y && r.ambient.z == meshes[i].ambient.z
      && r.diffuse.x == meshes[i].diffuse.x && r.diffuse.y == meshes[i].diffuse.y && r.diffuse.z == meshes[i].diffuse.z
      && r.(ambient := meshes[i].ambient, diffuse := meshes[i].diffuse) == meshes[i]
  {
  }

  /** Setting the alpha twice is the same as setting it once to the second
      value. */
  lemma WithAlphaLastWins(meshes: seq<Mesh>, a: real, b: real)
    ensures WithAlpha(WithAlpha(meshes, a), b) == WithAlpha(meshes, b)
  {
  }
}
