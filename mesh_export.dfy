/** The export side of the capture pipeline: the mesh arrays flattened into the component-major
    arrays the animated-mesh writer takes, the mesh record handed to it, and the line records of
    an OBJ file. */
module MeshExport {
  import opened Geometry

  /** Component k of a point: x, y, z. */
  function Component(v: Vec3, k: nat): real
    requires k < 3
  {
    if k == 0 then v.x else if k == 1 then v.y else v.z
  }

  /** The reference layout of double3ToAlembic: the three components of each point in turn. */
  function Flatten3(s: seq<Vec3>): (f: seq<real>)
    ensures |f| == 3 * |s|
  {
    seq(3 * |s|, p requires 0 <= p < 3 * |s| => Component(s[p / 3], p % 3))
  }

  /** Reads points back out of a component-major array, three values at a time. */
  function Unflatten3(f: seq<real>): (s: seq<Vec3>)
    ensures |s| == |f| / 3
  {
    seq(|f| / 3, i requires 0 <= i < |f| / 3 => Vec3(f[3 * i], f[3 * i + 1], f[3 * i + 2]))
  }

  /** Entry 3i + k of the flattened array is component k of point i. */
  lemma Flatten3At(s: seq<Vec3>, i: nat, k: nat)
    requires i < |s| && k < 3
    ensures Flatten3(s)[3 * i + k] == Component(s[i], k)
  {
    assert (3 * i + k) / 3 == i && (3 * i + k) % 3 == k;
  }

  /** Flattening loses nothing: the points read back are the points written. */
  lemma Unflatten3Flatten3(s: seq<Vec3>)
    ensures Unflatten3(Flatten3(s)) == s
  {
    var f := Flatten3(s);
    assert |f| / 3 == |s|;
    forall i | 0 <= i < |s|
      ensures Unflatten3(f)[i] == s[i]
    {
      Flatten3At(s, i, 0);
      Flatten3At(s, i, 1);
      Flatten3At(s, i, 2);
    }
  }

  /** double3ToAlembic: resizes the result to 3n and writes the components of point i at
      3i, 3i + 1 and 3i + 2. */
  method Double3ToAlembic(source: seq<Vec3>) returns (result: seq<real>)
    ensures |result| == 3 * |source|
    ensures forall i, k :: 0 <= i < |source| && 0 <= k < 3 ==> result[3 * i + k] == Component(source[i], k)
    ensures result == Flatten3(source)
  {
    var out := new real[3 * |source|];
    var i := 0;
    while i < |source|
      invariant 0 <= i <= |source|
      invariant forall p :: 0 <= p < 3 * i ==> out[p] == Flatten3(source)[p]
    {
      out[i * 3 + 0] := source[i].x;
      out[i * 3 + 1] := source[i].y;
      out[i * 3 + 2] := source[i].z;
      Flatten3At(source, i, 0);
      Flatten3At(source, i, 1);
      Flatten3At(source, i, 2);
      i := i + 1;
    }
    result := out[..];
    forall i, k | 0 <= i < |source| && 0 <= k < 3
      ensures result[3 * i + k] == Component(source[i], k)
    {
      Flatten3At(source, i, k);
    }
  }

  /** double3ToAlembicNegate: despite its name the same layout as double3ToAlembic, with no
      component negated. */
  method Double3ToAlembicNegate(source: seq<Vec3>) returns (result: seq<real>)
    ensures |result| == 3 * |source|
    ensures forall i :: 0 <= i < |source| ==>
      result[3 * i] == source[i].x && result[3 * i + 1] == source[i].y && result[3 * i + 2] == source[i].z
    ensures result == Flatten3(source)
  {
    result := Double3ToAlembic(source);
    forall i | 0 <= i < |source|
      ensures result[3 * i] == source[i].x && result[3 * i + 1] == source[i].y && result[3 * i + 2] == source[i].z
    {
      Flatten3At(source, i, 0);
      Flatten3At(source, i, 1);
      Flatten3At(source, i, 2);
    }
  }

  /** Alembic::Abc::C3f: a colour of three components. */
  datatype C3f = C3f(x: real, y: real, z: real)

  /** The colour a point stands for, component by component. */
  function ColourOf(v: Vec3): C3f {
    C3f(v.x, v.y, v.z)
  }

  /** toAlembicColour: one colour per point, in order, x, y and z copied. */
  method ToAlembicColour(source: seq<Vec3>) returns (result: seq<C3f>)
    ensures |result| == |source|
    ensures forall i :: 0 <= i < |source| ==>
      result[i].x == source[i].x && result[i].y == source[i].y && result[i].z == source[i].z
  {
    var out := new C3f[|source|](_ => C3f(0.0, 0.0, 0.0));
    var i := 0;
    while i < |source|
      invariant 0 <= i <= |source|
      invariant forall j :: 0 <= j < i ==> out[j] == ColourOf(source[j])
    {
      out[i] := out[i].(x := source[i].x);
      out[i] := out[i].(y := source[i].y);
      out[i] := out[i].(z := source[i].z);
      i := i + 1;
    }
    result := out[..];
  }

  /** The reference layout of toAlembicUVs: u and v of each coordinate in turn. */
  function Flatten2(s: seq<Vec2>): (f: seq<real>)
    ensures |f| == 2 * |s|
  {
    seq(2 * |s|, p requires 0 <= p < 2 * |s| => if p % 2 == 0 then s[p / 2].x else s[p / 2].y)
  }

  function Unflatten2(f: seq<real>): (s: seq<Vec2>)
    ensures |s| == |f| / 2
  {
    seq(|f| / 2, i requires 0 <= i < |f| / 2 => Vec2(f[2 * i], f[2 * i + 1]))
  }

  lemma Flatten2At(s: seq<Vec2>, i: nat)
    requires i < |s|
    ensures Flatten2(s)[2 * i] == s[i].x && Flatten2(s)[2 * i + 1] == s[i].y
  {
    assert (2 * i) / 2 == i && (2 * i) % 2 == 0;
    assert (2 * i + 1) / 2 == i && (2 * i + 1) % 2 == 1;
  }

  /** The UV coordinates read back are the coordinates written. */
  lemma Unflatten2Flatten2(s: seq<Vec2>)
    ensures Unflatten2(Flatten2(s)) == s
  {
    var f := Flatten2(s);
    assert |f| / 2 == |s|;
    forall i | 0 <= i < |s|
      ensures Unflatten2(f)[i] == s[i]
    {
      Flatten2At(s, i);
    }
  }

  /** toAlembicUVs: resizes the result to 2n and writes u at 2i and v at 2i + 1. */
  method ToAlembicUvs(source: seq<Vec2>) returns (result: seq<real>)
    ensures |result| == 2 * |source|
    ensures forall i :: 0 <= i < |source| ==> result[2 * i] == source[i].x && result[2 * i + 1] == source[i].y
    ensures result == Flatten2(source)
  {
    var out := new real[2 * |source|];
    var i := 0;
    while i < |source|
      invariant 0 <= i <= |source|
      invariant forall p :: 0 <= p < 2 * i ==> out[p] == Flatten2(source)[p]
    {
      out[i * 2 + 0] := source[i].x;
      out[i * 2 + 1] := source[i].y;
      Flatten2At(source, i);
      i := i + 1;
    }
    result := out[..];
    forall i | 0 <= i < |source|
      ensures result[2 * i] == source[i].x && result[2 * i + 1] == source[i].y
    {
      Flatten2At(source, i);
    }
  }

  /** The index array of the exported mesh: each triangle's corners in the order x, z, y, which
      reverses its winding. */
  function WindingSwapped(triangles: seq<Triangle>): (f: seq<int>)
    ensures |f| == 3 * |triangles|
  {
    seq(3 * |triangles|, p requires 0 <= p < 3 * |triangles| =>
      var t := triangles[p / 3];
      if p % 3 == 0 then t.x else if p % 3 == 1 then t.z else t.y)
  }

  lemma WindingSwappedAt(triangles: seq<Triangle>, i: nat)
    requires i < |triangles|
    ensures WindingSwapped(triangles)[3 * i] == triangles[i].x
    ensures WindingSwapped(triangles)[3 * i + 1] == triangles[i].z
    ensures WindingSwapped(triangles)[3 * i + 2] == triangles[i].y
  {
    assert (3 * i) / 3 == i && (3 * i) % 3 == 0;
    assert (3 * i + 1) / 3 == i && (3 * i + 1) % 3 == 1;
    assert (3 * i + 2) / 3 == i && (3 * i + 2) % 3 == 2;
  }

  /** Reads triangles back from an index array written with the winding swapped. */
  function TrianglesOf(indices: seq<int>): (t: seq<Triangle>)
    ensures |t| == |indices| / 3
  {
    seq(|indices| / 3, i requires 0 <= i < |indices| / 3 => Triangle(indices[3 * i], indices[3 * i + 2], indices[3 * i + 1]))
  }

  /** Swapping y and z on the way out and back again gives the mesh's triangles. */
  lemma TrianglesOfWindingSwapped(triangles: seq<Triangle>)
    ensures TrianglesOf(WindingSwapped(triangles)) == triangles
  {
    var f := WindingSwapped(triangles);
    assert |f| / 3 == |triangles|;
    forall i | 0 <= i < |triangles|
      ensures TrianglesOf(f)[i] == triangles[i]
    {
      WindingSwappedAt(triangles, i);
    }
  }

  /** AlembicMeshData: the arrays and counts of one frame of the animated mesh. */
  datatype AlembicMeshData = AlembicMeshData(
    vertices: seq<real>, numVerts: int,
    indices: seq<int>, numIndices: int,
    counts: seq<int>, numCounts: int,
    normals: seq<real>, numNormals: int,
    uvs: seq<real>, numUvs: int,
    vertexColours: seq<C3f>)

  /** The index loop of saveMesh: numIndices / 3 triangles, corners written as x, z, y. */
  method FillIndices(triangles: seq<Triangle>, numIndices: nat) returns (indices: seq<int>)
    requires numIndices == 3 * |triangles|
    ensures indices == WindingSwapped(triangles)
  {
    var out := new int[numIndices];
    var i := 0;
    while i < numIndices / 3
      invariant 0 <= i <= numIndices / 3
      invariant forall p :: 0 <= p < 3 * i ==> out[p] == WindingSwapped(triangles)[p]
    {
      out[i * 3 + 0] := triangles[i].x;
      out[i * 3 + 1] := triangles[i].z;
      out[i * 3 + 2] := triangles[i].y;
      WindingSwappedAt(triangles, i);
      i := i + 1;
    }
    indices := out[..];
  }

  /** The count loop of saveMesh: every face has three corners. */
  method FillCounts(numCounts: nat) returns (counts: seq<int>)
    ensures |counts| == numCounts
    ensures forall i :: 0 <= i < numCounts ==> counts[i] == 3
  {
    var out := new int[numCounts];
    var i := 0;
    while i < numCounts
      invariant 0 <= i <= numCounts
      invariant forall j :: 0 <= j < i ==> out[j] == 3
    {
      out[i] := 3;
      i := i + 1;
    }
    counts := out[..];
  }

  /** saveMesh: the frame handed to the Alembic writer, before the writer is called. */
  method SaveMesh(mesh: TriangleMesh) returns (meshData: AlembicMeshData)
    ensures meshData.vertices == Flatten3(mesh.vertices) && meshData.numVerts == |mesh.vertices|
    ensures meshData.indices == WindingSwapped(mesh.triangles) && meshData.numIndices == 3 * |mesh.triangles|
    ensures meshData.numCounts == |mesh.triangles| && |meshData.counts| == |mesh.triangles|
    ensures forall i :: 0 <= i < |meshData.counts| ==> meshData.counts[i] == 3
    ensures meshData.normals == Flatten3(mesh.vertexNormals) && meshData.numNormals == |mesh.vertexNormals|
    ensures meshData.uvs == Flatten2(mesh.triangleUvs) && meshData.numUvs == |mesh.triangleUvs|
    ensures |meshData.vertexColours| == |mesh.vertexColors|
    ensures forall i :: 0 <= i < |mesh.vertexColors| ==> meshData.vertexColours[i] == ColourOf(mesh.vertexColors[i])
  {
    var vertices := Double3ToAlembic(mesh.vertices);
    var numVerts := |vertices| / 3;
    var numIndices := |mesh.triangles| * 3;
    var indices := FillIndices(mesh.triangles, numIndices);
    var numCounts := numIndices / 3;
    var counts := FillCounts(numCounts);
    var normals := Double3ToAlembicNegate(mesh.vertexNormals);
    var numNormals := |normals| / 3;
    var uvs := ToAlembicUvs(mesh.triangleUvs);
    var numUvs := |mesh.triangleUvs|;
    var vertexColours := ToAlembicColour(mesh.vertexColors);
    meshData := AlembicMeshData(vertices, numVerts, indices, numIndices, counts, numCounts,
                                normals, numNormals, uvs, numUvs, vertexColours);
  }

  /** One corner of an OBJ face line: its vertex, texture and normal references, 1-based. */
  datatype ObjCorner = ObjCorner(v: int, vt: int, vn: int)

  /** The lines WriteOBJ writes: positions, texture coordinates, normals, faces. */
  datatype ObjLine = V(position: Vec3) | Vt(uv: Vec2) | Vn(normal: Vec3) | F(corners: seq<ObjCorner>)

  /** The face line of a triangle: each corner references index + 1 in all three slots. */
  function FaceLine(t: Triangle): (line: ObjLine)
    ensures line.F? && |line.corners| == 3
    ensures forall k :: 0 <= k < 3 ==>
      line.corners[k].v == line.corners[k].vt == line.corners[k].vn == t.Corner(k) + 1
  {
    F([ObjCorner(t.x + 1, t.x + 1, t.x + 1), ObjCorner(t.y + 1, t.y + 1, t.y + 1),
       ObjCorner(t.z + 1, t.z + 1, t.z + 1)])
  }

  /** Reads the triangle back from a face line: the vertex slot of each corner, minus one. */
  function TriangleOfFace(line: ObjLine): Triangle
    requires line.F? && |line.corners| == 3
  {
    Triangle(line.corners[0].v - 1, line.corners[1].v - 1, line.corners[2].v - 1)
  }

  lemma TriangleOfFaceLine(t: Triangle)
    ensures TriangleOfFace(FaceLine(t)) == t
  {
  }

  /** WriteOBJ, with the stream replaced by the list of lines written: a v line per vertex, a vt
      line per UV, a vn line per normal, then an f line per triangle. */
  method WriteObj(mesh: TriangleMesh) returns (lines: seq<ObjLine>)
    ensures |lines| == |mesh.vertices| + |mesh.triangleUvs| + |mesh.vertexNormals| + |mesh.triangles|
    ensures forall i :: 0 <= i < |mesh.vertices| ==> lines[i] == V(mesh.vertices[i])
    ensures forall i :: 0 <= i < |mesh.triangleUvs| ==> lines[|mesh.vertices| + i] == Vt(mesh.triangleUvs[i])
    ensures forall i :: 0 <= i < |mesh.vertexNormals| ==>
      lines[|mesh.vertices| + |mesh.triangleUvs| + i] == Vn(mesh.vertexNormals[i])
    ensures forall i :: 0 <= i < |mesh.triangles| ==>
      lines[|mesh.vertices| + |mesh.triangleUvs| + |mesh.vertexNormals| + i] == FaceLine(mesh.triangles[i])
  {
    lines := [];
    var i := 0;
    while i < |mesh.vertices|
      invariant 0 <= i <= |mesh.vertices| && |lines| == i
      invariant forall j :: 0 <= j < i ==> lines[j] == V(mesh.vertices[j])
    {
      lines := lines + [V(mesh.vertices[i])];
      i := i + 1;
    }
    var a := |lines|;
    i := 0;
    while i < |mesh.triangleUvs|
      invariant 0 <= i <= |mesh.triangleUvs| && |lines| == a + i
      invariant forall j :: 0 <= j < a ==> lines[j] == V(mesh.vertices[j])
      invariant forall j :: 0 <= j < i ==> lines[a + j] == Vt(mesh.triangleUvs[j])
    {
      lines := lines + [Vt(mesh.triangleUvs[i])];
      i := i + 1;
    }
    var b := |lines|;
    i := 0;
    while i < |mesh.vertexNormals|
      invariant 0 <= i <= |mesh.vertexNormals| && |lines| == b + i
      invariant forall j :: 0 <= j < a ==> lines[j] == V(mesh.vertices[j])
      invariant forall j :: 0 <= j < |mesh.triangleUvs| ==> lines[a + j] == Vt(mesh.triangleUvs[j])
      invariant forall j :: 0 <= j < i ==> lines[b + j] == Vn(mesh.vertexNormals[j])
    {
      lines := lines + [Vn(mesh.vertexNormals[i])];
      i := i + 1;
    }
    var c := |lines|;
    i := 0;
    while i < |mesh.triangles|
      invariant 0 <= i <= |mesh.triangles| && |lines| == c + i
      invariant forall j :: 0 <= j < a ==> lines[j] == V(mesh.vertices[j])
      invariant forall j :: 0 <= j < |mesh.triangleUvs| ==> lines[a + j] == Vt(mesh.triangleUvs[j])
      invariant forall j :: 0 <= j < |mesh.vertexNormals| ==> lines[b + j] == Vn(mesh.vertexNormals[j])
      invariant forall j :: 0 <= j < i ==> lines[c + j] == FaceLine(mesh.triangles[j])
    {
      var tri := mesh.triangles[i];
      lines := lines + [F([ObjCorner(tri.x + 1, tri.x + 1, tri.x + 1), ObjCorner(tri.y + 1, tri.y + 1, tri.y + 1),
                           ObjCorner(tri.z + 1, tri.z + 1, tri.z + 1)])];
      i := i + 1;
    }
  }

  /** In a written OBJ file every face corner's vertex reference, counted from 1, is the v line
      of that corner's vertex. */
  lemma FaceReferencesVertexLine(lines: seq<ObjLine>, mesh: TriangleMesh, i: nat, k: nat)
    requires |lines| == |mesh.vertices| + |mesh.triangleUvs| + |mesh.vertexNormals| + |mesh.triangles|
    requires forall j :: 0 <= j < |mesh.vertices| ==> lines[j] == V(mesh.vertices[j])
    requires forall j :: 0 <= j < |mesh.triangles| ==>
      lines[|mesh.vertices| + |mesh.triangleUvs| + |mesh.vertexNormals| + j] == FaceLine(mesh.triangles[j])
    requires i < |mesh.triangles| && k < 3 && 0 <= mesh.triangles[i].Corner(k) < |mesh.vertices|
    ensures var face := lines[|mesh.vertices| + |mesh.triangleUvs| + |mesh.vertexNormals| + i];
      face.F? && |face.corners| == 3 && 1 <= face.corners[k].v <= |mesh.vertices|
      && lines[face.corners[k].v - 1] == V(mesh.vertices[mesh.triangles[i].Corner(k)])
  {
  }
}
