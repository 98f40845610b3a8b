/** TextureUnpacker: the packing-solver protocol, the UV tables sent to the solver, and the
    texture pass that rewrites the mesh UVs island by island and resamples every face of every
    island from its source camera image into the output atlas. */
module TextureUnpacker {
  import opened Types
  import opened Geometry
  import opened Images
  import opened TextureSweep

  // ---------------------------------------------------------------------------------------
  // The packing solver, seen from this program: a request goes in, a status and the messages
  // the operation left behind come out.
  // ---------------------------------------------------------------------------------------

  datatype UvpOpcode = ReportVersion | Pack

  datatype UvpErrorCode = Success | Failure(code: int)

  /** UvVertT: a UV coordinate and the mesh vertex it came from. */
  datatype UvVert = UvVert(uvCoords: Vec2, controlId: int)

  /** UvFaceT: a face id and the vertex-table indices of its corners. */
  datatype UvFace = UvFace(id: int, verts: seq<int>)

  /** UvpOperationInputT, reduced to the fields the solver's answer depends on here. */
  datatype UvpRequest = UvpRequest(opcode: UvpOpcode, deviceId: string, vertArray: seq<UvVert>, faceArray: seq<UvFace>)

  datatype Vec4 = Vec4(x: real, y: real, z: real, w: real)

  /** Eigen::Matrix4d, by rows. */
  datatype Matrix4 = Matrix4(row0: Vec4, row1: Vec4, row2: Vec4, row3: Vec4)

  /** UvpIslandPackSolutionT, with its placement already turned into a matrix. */
  datatype IslandSolution = IslandSolution(islandIdx: int, matrix: Matrix4)

  /** What the solver reports for one operation: its status, whether a VERSION message is
      present, and the ISLANDS and PACK_SOLUTION messages when present. */
  datatype UvpReply = UvpReply(status: UvpErrorCode, hasVersionMessage: bool,
                               islands: Option<seq<seq<int>>>, islandSolutions: Option<seq<IslandSolution>>)

  type Solver = UvpRequest -> UvpReply

  const VersionRequest: UvpRequest := UvpRequest(ReportVersion, "", [], [])

  /** The pack request: device "cpu" and the two tables. */
  function PackRequest(vertArray: seq<UvVert>, faceArray: seq<UvFace>): UvpRequest {
    UvpRequest(Pack, "cpu", vertArray, faceArray)
  }

  predicate VersionConfirmed(reply: UvpReply) {
    reply.status == Success && reply.hasVersionMessage
  }

  predicate PackAccepted(reply: UvpReply) {
    reply.status == Success && reply.islands.Some? && reply.islandSolutions.Some?
  }

  /** TextureUnpacker::PackUV: checks the solver version and then does nothing further; it
      throws when the check fails and otherwise returns false. */
  function PackUv(solver: Solver): (r: Outcome<bool>)
    ensures r.Returned? <==> VersionConfirmed(solver(VersionRequest))
    ensures r.Returned? ==> r.value == false
    ensures solver(VersionRequest).status != Success ==> r == Threw("Report version op failed")
    ensures solver(VersionRequest).status == Success && r.Threw? ==> r == Threw("Expected Version message not found")
  {
    var reply := solver(VersionRequest);
    if reply.status != Success then Threw("Report version op failed")
    else if !reply.hasVersionMessage then Threw("Expected Version message not found")
    else Returned(false)
  }

  // ---------------------------------------------------------------------------------------
  // The tables sent to the solver.
  // ---------------------------------------------------------------------------------------

  /** The vertex table: entry i carries uvs[i] and control id i. */
  function VertTable(uvs: seq<Vec2>, vertexCount: nat): (t: seq<UvVert>)
    requires vertexCount <= |uvs|
    ensures |t| == vertexCount
    ensures forall i :: 0 <= i < vertexCount ==> t[i].uvCoords == uvs[i] && t[i].controlId == i
  {
    seq(vertexCount, i requires 0 <= i < vertexCount => UvVert(uvs[i], i))
  }

  /** The face table: face f has id f and the three corners of triangle f, in order. */
  function FaceTable(triangles: seq<Triangle>): (t: seq<UvFace>)
    ensures |t| == |triangles|
    ensures forall f :: 0 <= f < |t| ==> t[f].id == f && t[f].verts == [triangles[f].x, triangles[f].y, triangles[f].z]
  {
    seq(|triangles|, f requires 0 <= f < |triangles| => UvFace(f, [triangles[f].x, triangles[f].y, triangles[f].z]))
  }

  /** Builds m_VertArray: one entry per mesh vertex, reading triangle_uvs_ at the vertex index. */
  method BuildVertArray(mesh: TriangleMesh) returns (vertArray: seq<UvVert>)
    requires |mesh.vertices| <= |mesh.triangleUvs|
    ensures vertArray == VertTable(mesh.triangleUvs, |mesh.vertices|)
  {
    vertArray := [];
    var i := 0;
    while i < |mesh.vertices|
      invariant 0 <= i <= |mesh.vertices|
      invariant vertArray == VertTable(mesh.triangleUvs, i)
    {
      vertArray := vertArray + [UvVert(mesh.triangleUvs[i], i)];
      i := i + 1;
    }
  }

  /** Builds m_FaceArray: one face per triangle, its corners pushed one by one. */
  method BuildFaceArray(mesh: TriangleMesh) returns (faceArray: seq<UvFace>)
    ensures faceArray == FaceTable(mesh.triangles)
  {
    faceArray := [];
    var faceIdx := 0;
    while faceIdx < |mesh.triangles|
      invariant 0 <= faceIdx <= |mesh.triangles|
      invariant |faceArray| == faceIdx
      invariant forall f :: 0 <= f < faceIdx ==> faceArray[f] == FaceTable(mesh.triangles)[f]
    {
      var faceSize := 3;
      var faceVerts: seq<int> := [];
      var vertIdx := 0;
      while vertIdx < faceSize
        invariant 0 <= vertIdx <= faceSize
        invariant faceVerts == [mesh.triangles[faceIdx].x, mesh.triangles[faceIdx].y, mesh.triangles[faceIdx].z][..vertIdx]
      {
        faceVerts := faceVerts + [mesh.triangles[faceIdx].Corner(vertIdx)];
        vertIdx := vertIdx + 1;
      }
      faceArray := faceArray + [UvFace(faceIdx, faceVerts)];
      faceIdx := faceIdx + 1;
    }
  }

  // ---------------------------------------------------------------------------------------
  // The texture pass, as functions of values.
  // ---------------------------------------------------------------------------------------

  /** What the island loop reads: the two tables, triangle_material_ids_ and the island list. */
  datatype Scene = Scene(vertArray: seq<UvVert>, faceArray: seq<UvFace>, materialIds: seq<int>,
                         islands: seq<seq<int>>)

  /** What the island loop writes: the atlas bytes, triangle_uvs_, uv_solution and
      island_matrices. */
  datatype PassState = PassState(atlas: seq<uint8>, uvs: seq<Vec2>, uvSolution: seq<int>,
                                 islandMatrices: seq<Matrix4>)

  /** A state reached by the loop, and whether an exception ended it there. */
  datatype Run = Run(state: PassState, threw: bool)

  /** Face faceId can be indexed in m_FaceArray and triangle_material_ids_, and its corners in
      m_VertArray ([] out of range is undefined behaviour). */
  predicate FaceOk(scene: Scene, faceId: int) {
    && 0 <= faceId < |scene.faceArray| && faceId < |scene.materialIds|
    && |scene.faceArray[faceId].verts| == 3
    && forall k :: 0 <= k < 3 ==> 0 <= scene.faceArray[faceId].verts[k] < |scene.vertArray|
  }

  predicate IslandOk(scene: Scene, island: seq<int>) {
    forall i :: 0 <= i < |island| ==> FaceOk(scene, island[i])
  }

  /** Every solution names an island of the manifest, and every face of it is well formed. */
  predicate SolutionsOk(scene: Scene, sols: seq<IslandSolution>) {
    forall j :: 0 <= j < |sols| ==>
      0 <= sols[j].islandIdx < |scene.islands| && IslandOk(scene, scene.islands[sols[j].islandIdx])
  }

  predicate Fits(scene: Scene, pass: Pass, st: PassState) {
    |st.atlas| >= AtlasSize(pass) && |st.uvs| >= |scene.vertArray| && |st.uvSolution| == |st.uvs|
  }

  function Dot(r: Vec4, p: Vec4): real {
    r.x * p.x + r.y * p.y + r.z * p.z + r.w * p.w
  }

  /** The (x, y) of matrix m applied to (u, v, 0, 1): an affine map of the UV plane, in which the
      third column plays no part and the fourth is the translation. */
  function TransformUv(m: Matrix4, uv: Vec2): (r: Vec2)
    ensures r.x == m.row0.x * uv.x + m.row0.y * uv.y + m.row0.w
    ensures r.y == m.row1.x * uv.x + m.row1.y * uv.y + m.row1.w
  {
    var p := Vec4(uv.x, uv.y, 0.0, 1.0);
    Vec2(Dot(m.row0, p), Dot(m.row1, p))
  }

  function TransformTri(m: Matrix4, t: Tri): Tri {
    Tri(TransformUv(m, t.a), TransformUv(m, t.b), TransformUv(m, t.c))
  }

  function ScaleTri(t: Tri, w: real, h: real): Tri {
    Tri(Scale(t.a, w, h), Scale(t.b, w, h), Scale(t.c, w, h))
  }

  /** One row (rx, ry, rw) of an affine map applied to the blend p of three points is the blend
      of the row applied to each point (fa, fb, fc), when the weights sum to 1. */
  lemma AffineRowBlend(rx: real, ry: real, rw: real, a: Vec2, b: Vec2, c: Vec2, m: Barycentric,
                       p: Vec2, fa: real, fb: real, fc: real)
    requires m.m0 + m.m1 + m.m2 == 1.0 && p == Blend(Tri(a, b, c), m)
    requires fa == rx * a.x + ry * a.y + rw && fb == rx * b.x + ry * b.y + rw && fc == rx * c.x + ry * c.y + rw
    ensures rx * p.x + ry * p.y + rw == fa * m.m0 + fb * m.m1 + fc * m.m2
  {
    assert rx * p.x == (rx * a.x) * m.m0 + (rx * b.x) * m.m1 + (rx * c.x) * m.m2;
    assert ry * p.y == (ry * a.y) * m.m0 + (ry * b.y) * m.m1 + (ry * c.y) * m.m2;
    assert rw == rw * m.m0 + rw * m.m1 + rw * m.m2;
  }

  lemma TransformUvAffineX(m: Matrix4, t: Tri, b: Barycentric)
    requires b.m0 + b.m1 + b.m2 == 1.0
    ensures TransformUv(m, Blend(t, b)).x == Blend(TransformTri(m, t), b).x
  {
    var p, f := Blend(t, b), TransformTri(m, t);
    AffineRowBlend(m.row0.x, m.row0.y, m.row0.w, t.a, t.b, t.c, b, p, f.a.x, f.b.x, f.c.x);
  }

  lemma TransformUvAffineY(m: Matrix4, t: Tri, b: Barycentric)
    requires b.m0 + b.m1 + b.m2 == 1.0
    ensures TransformUv(m, Blend(t, b)).y == Blend(TransformTri(m, t), b).y
  {
    var p, f := Blend(t, b), TransformTri(m, t);
    AffineRowBlend(m.row1.x, m.row1.y, m.row1.w, t.a, t.b, t.c, b, p, f.a.y, f.b.y, f.c.y);
  }

  /** Transforming a blend of three UVs whose weights sum to 1 is blending their transforms. */
  lemma TransformUvAffine(m: Matrix4, t: Tri, b: Barycentric)
    requires b.m0 + b.m1 + b.m2 == 1.0
    ensures TransformUv(m, Blend(t, b)) == Blend(TransformTri(m, t), b)
  {
    TransformUvAffineX(m, t, b);
    TransformUvAffineY(m, t, b);
  }

  /** Scaling a blend is blending the scaled corners. */
  lemma ScaleBlend(t: Tri, w: real, h: real, b: Barycentric)
    ensures Blend(ScaleTri(t, w, h), b) == Scale(Blend(t, b), w, h)
  {
    calc {
      Blend(ScaleTri(t, w, h), b).x;
      (t.a.x * w) * b.m0 + (t.b.x * w) * b.m1 + (t.c.x * w) * b.m2;
      (t.a.x * b.m0 + t.b.x * b.m1 + t.c.x * b.m2) * w;
    }
    calc {
      Blend(ScaleTri(t, w, h), b).y;
      (t.a.y * h) * b.m0 + (t.b.y * h) * b.m1 + (t.c.y * h) * b.m2;
      (t.a.y * b.m0 + t.b.y * b.m1 + t.c.y * b.m2) * h;
    }
  }

  /** The sample at weights b of a face whose atlas corners are the scaled transforms of its
      UV corners, and whose source corners are those UV corners scaled: it reads the source
      pixel of one UV point and writes the atlas pixel of that point's transform. */
  lemma SamplesCorrespond(m: Matrix4, t: Tri, w: real, h: real, w2: real, h2: real)
    ensures forall b: Barycentric :: b.m0 + b.m1 + b.m2 == 1.0 ==>
      && Blend(ScaleTri(TransformTri(m, t), w, h), b) == Scale(TransformUv(m, Blend(t, b)), w, h)
      && Blend(ScaleTri(t, w2, h2), b) == Scale(Blend(t, b), w2, h2)
  {
    forall b: Barycentric | b.m0 + b.m1 + b.m2 == 1.0
      ensures Blend(ScaleTri(TransformTri(m, t), w, h), b) == Scale(TransformUv(m, Blend(t, b)), w, h)
      ensures Blend(ScaleTri(t, w2, h2), b) == Scale(Blend(t, b), w2, h2)
    {
      TransformUvAffine(m, t, b);
      ScaleBlend(TransformTri(m, t), w, h, b);
      ScaleBlend(t, w2, h2, b);
    }
  }

  function Scale(p: Vec2, w: real, h: real): Vec2 {
    Vec2(p.x * w, p.y * h)
  }

  /** The original UV of vertex v, as the vertex table holds it. */
  function Orig(scene: Scene, v: int): Vec2
    requires 0 <= v < |scene.vertArray|
  {
    scene.vertArray[v].uvCoords
  }

  /** The write-back of one face, from corner k on: each corner's UV becomes the transformed
      original UV and its uv_solution entry the current solution index. */
  function WriteBack(uvs: seq<Vec2>, uvSolution: seq<int>, verts: seq<int>, k: nat, m: Matrix4,
                     scene: Scene, tag: int): (r: (seq<Vec2>, seq<int>))
    requires k <= |verts| && |uvSolution| == |uvs| >= |scene.vertArray|
    requires forall i :: 0 <= i < |verts| ==> 0 <= verts[i] < |scene.vertArray|
    ensures |r.0| == |uvs| && |r.1| == |uvSolution|
    decreases |verts| - k
  {
    if k == |verts| then (uvs, uvSolution)
    else
      var v := verts[k];
      WriteBack(uvs[v := TransformUv(m, Orig(scene, v))], uvSolution[v := tag], verts, k + 1, m, scene, tag)
  }

  /** The original UV corners of a face, as the vertex table holds them. */
  function OrigTri(scene: Scene, faceId: int): Tri
    requires FaceOk(scene, faceId)
  {
    var verts := scene.faceArray[faceId].verts;
    Tri(Orig(scene, verts[0]), Orig(scene, verts[1]), Orig(scene, verts[2]))
  }

  /** baryc and baryc2 of a face: its corners placed by the solution in atlas pixels, and its
      original corners in source pixels. Every sample point of the sweep, pixel1 in the atlas and
      pixel2 in the source image, is then the image of one and the same UV point. */
  function FaceGeometryOf(scene: Scene, pass: Pass, faceId: int, m: Matrix4, image: nat): (g: FaceGeometry)
    requires FaceOk(scene, faceId)
    ensures g.image == image
    ensures forall b: Barycentric :: b.m0 + b.m1 + b.m2 == 1.0 ==>
      && Blend(g.dst, b) == Scale(TransformUv(m, Blend(OrigTri(scene, faceId), b)), pass.width as real, pass.height as real)
      && Blend(g.src, b) == Scale(Blend(OrigTri(scene, faceId), b), pass.srcWidth as real, pass.srcHeight as real)
  {
    var verts := scene.faceArray[faceId].verts;
    var w, h := pass.width as real, pass.height as real;
    var w2, h2 := pass.srcWidth as real, pass.srcHeight as real;
    SamplesCorrespond(m, OrigTri(scene, faceId), w, h, w2, h2);
    FaceGeometry(
      Tri(Scale(TransformUv(m, Orig(scene, verts[0])), w, h),
          Scale(TransformUv(m, Orig(scene, verts[1])), w, h),
          Scale(TransformUv(m, Orig(scene, verts[2])), w, h)),
      Tri(Scale(Orig(scene, verts[0]), w2, h2),
          Scale(Orig(scene, verts[1]), w2, h2),
          Scale(Orig(scene, verts[2]), w2, h2)),
      image)
  }

  /** color_array->at(image) finds an image. */
  predicate ImageOk(scene: Scene, pass: Pass, faceId: int)
    requires FaceOk(scene, faceId)
  {
    0 <= scene.materialIds[faceId] < |pass.srcData|
  }

  /** One face of an island: write back its UVs, then sweep it, or throw at the first sample
      when its material id names no source image. */
  function RunFace(st: PassState, faceId: int, m: Matrix4, scene: Scene, pass: Pass): (r: Run)
    requires ValidPass(pass) && FaceOk(scene, faceId) && Fits(scene, pass, st)
    ensures Fits(scene, pass, r.state) && r.state.islandMatrices == st.islandMatrices
    ensures |r.state.atlas| == |st.atlas| && |r.state.uvs| == |st.uvs|
    ensures r.threw <==> !ImageOk(scene, pass, faceId)
  {
    var wb := WriteBack(st.uvs, st.uvSolution, scene.faceArray[faceId].verts, 0, m, scene, |st.islandMatrices|);
    var image := scene.materialIds[faceId];
    if image < 0 || image >= |pass.srcData| then
      Run(st.(uvs := wb.0, uvSolution := wb.1), true)
    else
      var f := MakeSweep(FaceGeometryOf(scene, pass, faceId, m, image), pass);
      Run(PassState(SweepFace(st.atlas, f, 0.0, pass), wb.0, wb.1, st.islandMatrices), false)
  }

  /** The faces of one island from position i on, stopping at the first exception. */
  function RunFaces(st: PassState, island: seq<int>, i: nat, m: Matrix4, scene: Scene, pass: Pass): (r: Run)
    requires ValidPass(pass) && IslandOk(scene, island) && Fits(scene, pass, st) && i <= |island|
    ensures Fits(scene, pass, r.state) && r.state.islandMatrices == st.islandMatrices
    ensures |r.state.atlas| == |st.atlas| && |r.state.uvs| == |st.uvs|
    decreases |island| - i
  {
    if i == |island| then Run(st, false)
    else
      var r := RunFace(st, island[i], m, scene, pass);
      if r.threw then r else RunFaces(r.state, island, i + 1, m, scene, pass)
  }

  /** The island solutions from position j on: each one's island, then its matrix pushed onto
      island_matrices. */
  function RunSolutions(st: PassState, sols: seq<IslandSolution>, j: nat, scene: Scene, pass: Pass): (r: Run)
    requires ValidPass(pass) && SolutionsOk(scene, sols) && Fits(scene, pass, st) && j <= |sols|
    ensures Fits(scene, pass, r.state)
    ensures |r.state.atlas| == |st.atlas| && |r.state.uvs| == |st.uvs|
    decreases |sols| - j
  {
    if j == |sols| then Run(st, false)
    else
      var r := RunFaces(st, scene.islands[sols[j].islandIdx], 0, sols[j].matrix, scene, pass);
      if r.threw then r
      else RunSolutions(r.state.(islandMatrices := r.state.islandMatrices + [sols[j].matrix]), sols, j + 1, scene, pass)
  }

  // ---------------------------------------------------------------------------------------
  // What the pass does to the UVs, island_matrices and uv_solution, and when it throws.
  // ---------------------------------------------------------------------------------------

  /** Vertex v is a corner of some face of the island from position i on. */
  predicate Covers(scene: Scene, island: seq<int>, i: nat, v: int) {
    exists k :: i <= k < |island| && 0 <= island[k] < |scene.faceArray| && v in scene.faceArray[island[k]].verts
  }

  /** A face of the island from position i on names no source image. */
  predicate HasBadFace(scene: Scene, pass: Pass, island: seq<int>, i: nat)
    requires IslandOk(scene, island)
  {
    exists k :: i <= k < |island| && !ImageOk(scene, pass, island[k])
  }

  /** After the write-back of one face, exactly the corners from position k on carry the
      transformed original UV and the solution index; every other vertex keeps its entries. */
  lemma {:induction false} WriteBackEffect(uvs: seq<Vec2>, uvSolution: seq<int>, verts: seq<int>, k: nat,
                                           m: Matrix4, scene: Scene, tag: int, v: int)
    requires k <= |verts| && |uvSolution| == |uvs| >= |scene.vertArray|
    requires forall i :: 0 <= i < |verts| ==> 0 <= verts[i] < |scene.vertArray|
    requires 0 <= v < |uvs|
    ensures v in verts[k..] ==>
      && 0 <= v < |scene.vertArray|
      && WriteBack(uvs, uvSolution, verts, k, m, scene, tag).0[v] == TransformUv(m, Orig(scene, v))
      && WriteBack(uvs, uvSolution, verts, k, m, scene, tag).1[v] == tag
    ensures v !in verts[k..] ==>
      && WriteBack(uvs, uvSolution, verts, k, m, scene, tag).0[v] == uvs[v]
      && WriteBack(uvs, uvSolution, verts, k, m, scene, tag).1[v] == uvSolution[v]
    decreases |verts| - k
  {
    if k < |verts| {
      var w := verts[k];
      assert verts[k..] == [w] + verts[k + 1..];
      WriteBackEffect(uvs[w := TransformUv(m, Orig(scene, w))], uvSolution[w := tag], verts, k + 1, m, scene, tag, v);
    }
  }

  /** An island that runs to its end gives every vertex it covers the transformed original UV
      and the current solution index, and leaves every other vertex as it was. */
  lemma {:induction false} RunFacesUvs(st: PassState, island: seq<int>, i: nat, m: Matrix4, scene: Scene, pass: Pass, v: int)
    requires ValidPass(pass) && IslandOk(scene, island) && Fits(scene, pass, st) && i <= |island|
    requires !RunFaces(st, island, i, m, scene, pass).threw
    requires 0 <= v < |st.uvs|
    ensures Covers(scene, island, i, v) ==>
      && 0 <= v < |scene.vertArray|
      && RunFaces(st, island, i, m, scene, pass).state.uvs[v] == TransformUv(m, Orig(scene, v))
      && RunFaces(st, island, i, m, scene, pass).state.uvSolution[v] == |st.islandMatrices|
    ensures !Covers(scene, island, i, v) ==>
      && RunFaces(st, island, i, m, scene, pass).state.uvs[v] == st.uvs[v]
      && RunFaces(st, island, i, m, scene, pass).state.uvSolution[v] == st.uvSolution[v]
    decreases |island| - i
  {
    if i < |island| {
      var faceId := island[i];
      assert FaceOk(scene, faceId);
      var verts := scene.faceArray[faceId].verts;
      var r := RunFace(st, faceId, m, scene, pass);
      WriteBackEffect(st.uvs, st.uvSolution, verts, 0, m, scene, |st.islandMatrices|, v);
      assert verts[0..] == verts;
      RunFacesUvs(r.state, island, i + 1, m, scene, pass, v);
      if v in verts {
        assert Covers(scene, island, i, v);
        if Covers(scene, island, i + 1, v) {
        } else {
        }
      } else {
        if Covers(scene, island, i, v) {
          var k :| i <= k < |island| && 0 <= island[k] < |scene.faceArray| && v in scene.faceArray[island[k]].verts;
          assert k != i;
          assert Covers(scene, island, i + 1, v);
        } else {
          assert !Covers(scene, island, i + 1, v);
        }
      }
    }
  }

  /** The last solution, among those from position j on, whose island covers vertex v. */
  ghost function LastOwner(scene: Scene, sols: seq<IslandSolution>, j: nat, v: int): (o: Option<nat>)
    requires SolutionsOk(scene, sols) && j <= |sols|
    ensures o.Some? ==> j <= o.value < |sols| && Covers(scene, scene.islands[sols[o.value].islandIdx], 0, v)
    ensures o.Some? ==> forall k :: o.value < k < |sols| ==> !Covers(scene, scene.islands[sols[k].islandIdx], 0, v)
    ensures o.None? <==> forall k :: j <= k < |sols| ==> !Covers(scene, scene.islands[sols[k].islandIdx], 0, v)
    decreases |sols| - j
  {
    if j == |sols| then None
    else
      var later := LastOwner(scene, sols, j + 1, v);
      if later.Some? then later
      else if Covers(scene, scene.islands[sols[j].islandIdx], 0, v) then Some(j)
      else None
  }

  /** The matrices of the solutions, in order. */
  function Matrices(sols: seq<IslandSolution>): (ms: seq<Matrix4>)
    ensures |ms| == |sols|
    ensures forall j :: 0 <= j < |sols| ==> ms[j] == sols[j].matrix
  {
    seq(|sols|, j requires 0 <= j < |sols| => sols[j].matrix)
  }

  /** A pass that runs to its end pushes the solution matrices onto island_matrices in
      iteration order. */
  lemma {:induction false} RunSolutionsMatrices(st: PassState, sols: seq<IslandSolution>, j: nat, scene: Scene, pass: Pass)
    requires ValidPass(pass) && SolutionsOk(scene, sols) && Fits(scene, pass, st) && j <= |sols|
    requires !RunSolutions(st, sols, j, scene, pass).threw
    ensures RunSolutions(st, sols, j, scene, pass).state.islandMatrices == st.islandMatrices + Matrices(sols[j..])
    decreases |sols| - j
  {
    if j < |sols| {
      var r := RunFaces(st, scene.islands[sols[j].islandIdx], 0, sols[j].matrix, scene, pass);
      var next := r.state.(islandMatrices := r.state.islandMatrices + [sols[j].matrix]);
      assert !r.threw && RunSolutions(st, sols, j, scene, pass) == RunSolutions(next, sols, j + 1, scene, pass);
      RunSolutionsMatrices(next, sols, j + 1, scene, pass);
      MatricesFrom(sols, j);
      assert next.islandMatrices + Matrices(sols[j + 1..])
        == st.islandMatrices + ([sols[j].matrix] + Matrices(sols[j + 1..]));
    }
  }

  lemma MatricesFrom(sols: seq<IslandSolution>, j: nat)
    requires j < |sols|
    ensures Matrices(sols[j..]) == [sols[j].matrix] + Matrices(sols[j + 1..])
  {
    assert sols[j..][1..] == sols[j + 1..];
  }

  /** A pass that runs to its end leaves in triangle_uvs_[v] the original UV transformed by the
      last solution whose island covers v, and in uv_solution[v] that solution's index; a vertex
      no island covers keeps both entries. The index counts from |island_matrices| at entry. */
  lemma {:induction false} RunSolutionsUvs(st: PassState, sols: seq<IslandSolution>, j: nat, scene: Scene, pass: Pass, v: int)
    requires ValidPass(pass) && SolutionsOk(scene, sols) && Fits(scene, pass, st) && j <= |sols|
    requires |st.islandMatrices| == j
    requires !RunSolutions(st, sols, j, scene, pass).threw
    requires 0 <= v < |st.uvs|
    ensures LastOwner(scene, sols, j, v).Some? ==>
      && 0 <= v < |scene.vertArray|
      && RunSolutions(st, sols, j, scene, pass).state.uvs[v]
         == TransformUv(sols[LastOwner(scene, sols, j, v).value].matrix, Orig(scene, v))
      && RunSolutions(st, sols, j, scene, pass).state.uvSolution[v] == LastOwner(scene, sols, j, v).value
    ensures LastOwner(scene, sols, j, v).None? ==>
      && RunSolutions(st, sols, j, scene, pass).state.uvs[v] == st.uvs[v]
      && RunSolutions(st, sols, j, scene, pass).state.uvSolution[v] == st.uvSolution[v]
    decreases |sols| - j
  {
    if j < |sols| {
      var island := scene.islands[sols[j].islandIdx];
      var r := RunFaces(st, island, 0, sols[j].matrix, scene, pass);
      var next := r.state.(islandMatrices := r.state.islandMatrices + [sols[j].matrix]);
      RunFacesUvs(st, island, 0, sols[j].matrix, scene, pass, v);
      RunSolutionsUvs(next, sols, j + 1, scene, pass, v);
    }
  }

  /** The island loop throws exactly when one of the island's faces from position i on names no
      source image. */
  lemma {:induction false} RunFacesThrows(st: PassState, island: seq<int>, i: nat, m: Matrix4, scene: Scene, pass: Pass)
    requires ValidPass(pass) && IslandOk(scene, island) && Fits(scene, pass, st) && i <= |island|
    ensures RunFaces(st, island, i, m, scene, pass).threw <==> HasBadFace(scene, pass, island, i)
    decreases |island| - i
  {
    if i < |island| {
      var r := RunFace(st, island[i], m, scene, pass);
      if !r.threw {
        RunFacesThrows(r.state, island, i + 1, m, scene, pass);
        if HasBadFace(scene, pass, island, i) {
          var k :| i <= k < |island| && !ImageOk(scene, pass, island[k]);
          assert k != i;
          assert HasBadFace(scene, pass, island, i + 1);
        }
      } else {
        assert HasBadFace(scene, pass, island, i) by {
          assert !ImageOk(scene, pass, island[i]);
        }
      }
    }
  }

  /** Some island from solution j on holds a face that names no source image. */
  predicate HasBadSolution(scene: Scene, pass: Pass, sols: seq<IslandSolution>, j: nat)
    requires SolutionsOk(scene, sols)
  {
    exists k :: j <= k < |sols| && HasBadFace(scene, pass, scene.islands[sols[k].islandIdx], 0)
  }

  /** The whole pass throws exactly when some face of some solved island names no source
      image. */
  lemma {:induction false} RunSolutionsThrows(st: PassState, sols: seq<IslandSolution>, j: nat, scene: Scene, pass: Pass)
    requires ValidPass(pass) && SolutionsOk(scene, sols) && Fits(scene, pass, st) && j <= |sols|
    ensures RunSolutions(st, sols, j, scene, pass).threw <==> HasBadSolution(scene, pass, sols, j)
    decreases |sols| - j
  {
    if j < |sols| {
      var island := scene.islands[sols[j].islandIdx];
      var r := RunFaces(st, island, 0, sols[j].matrix, scene, pass);
      RunFacesThrows(st, island, 0, sols[j].matrix, scene, pass);
      if !r.threw {
        var next := r.state.(islandMatrices := r.state.islandMatrices + [sols[j].matrix]);
        RunSolutionsThrows(next, sols, j + 1, scene, pass);
        if HasBadSolution(scene, pass, sols, j) {
          var k :| j <= k < |sols| && HasBadFace(scene, pass, scene.islands[sols[k].islandIdx], 0);
          assert k != j;
          assert HasBadSolution(scene, pass, sols, j + 1);
        }
      } else {
        assert HasBadSolution(scene, pass, sols, j);
      }
    }
  }

  // ---------------------------------------------------------------------------------------
  // The texture pass, in place.
  // ---------------------------------------------------------------------------------------

  /** The output image and the source images are laid out as pass says, and the source images
      do not share the output image's buffer. */
  ghost predicate Describes(pass: Pass, atlas: Image, images: seq<Image>)
    reads set i | 0 <= i < |images| :: images[i].data
  {
    && ValidPass(pass)
    && atlas.data.Length >= AtlasSize(pass)
    && |images| == |pass.srcData|
    && forall i :: 0 <= i < |images| ==> images[i].data != atlas.data && images[i].data[..] == pass.srcData[i]
  }

  ghost function StateOf(atlas: Image, mesh: TriangleMesh, uvSolution: seq<int>, islandMatrices: seq<Matrix4>): PassState
    reads atlas.data, mesh
  {
    PassState(atlas.data[..], mesh.triangleUvs, uvSolution, islandMatrices)
  }

  /** The write-back loop of one face: each corner's UV becomes the transformed original UV and
      its uv_solution entry the solution index, while baryc and baryc2 collect the corners in
      atlas and in source pixels. */
  method WriteBackFace(mesh: TriangleMesh, scene: Scene, pass: Pass, faceId: int, m: Matrix4,
                       uvSolution: seq<int>, tag: int)
    returns (uvSolutionOut: seq<int>, baryc: Tri, baryc2: Tri)
    requires FaceOk(scene, faceId) && |uvSolution| == |mesh.triangleUvs| >= |scene.vertArray|
    modifies mesh`triangleUvs
    ensures (mesh.triangleUvs, uvSolutionOut)
         == WriteBack(old(mesh.triangleUvs), uvSolution, scene.faceArray[faceId].verts, 0, m, scene, tag)
    ensures baryc == FaceGeometryOf(scene, pass, faceId, m, 0).dst && baryc2 == FaceGeometryOf(scene, pass, faceId, m, 0).src
  {
    var verts := scene.faceArray[faceId].verts;
    var w, h := pass.width as real, pass.height as real;
    var w2, h2 := pass.srcWidth as real, pass.srcHeight as real;
    ghost var wb := WriteBack(mesh.triangleUvs, uvSolution, verts, 0, m, scene, tag);
    var dst: seq<Vec2> := [];
    var src: seq<Vec2> := [];
    uvSolutionOut := uvSolution;
    var vNum := 0;
    while vNum < |verts|
      invariant 0 <= vNum <= |verts| && |dst| == |src| == vNum
      invariant |mesh.triangleUvs| == |old(mesh.triangleUvs)| && |uvSolutionOut| == |uvSolution|
      invariant WriteBack(mesh.triangleUvs, uvSolutionOut, verts, vNum, m, scene, tag) == wb
      invariant forall k :: 0 <= k < vNum ==>
        dst[k] == Scale(TransformUv(m, Orig(scene, verts[k])), w, h) && src[k] == Scale(Orig(scene, verts[k]), w2, h2)
    {
      var vertIdx := verts[vNum];
      var origVert := scene.vertArray[vertIdx];
      src := src + [Scale(origVert.uvCoords, w2, h2)];
      var transformed := TransformUv(m, origVert.uvCoords);
      mesh.triangleUvs := mesh.triangleUvs[vertIdx := transformed];
      uvSolutionOut := uvSolutionOut[vertIdx := tag];
      dst := dst + [Scale(transformed, w, h)];
      vNum := vNum + 1;
    }
    baryc := Tri(dst[0], dst[1], dst[2]);
    baryc2 := Tri(src[0], src[1], src[2]);
  }

  /** One face of an island, in place: the UV write-back, then the sweep, which throws at its
      first sample when the face's material id names no source image. */
  method CompositeFace(colorArray: seq<Image>, mesh: TriangleMesh, outputImage: Image, scene: Scene, pass: Pass,
                       faceId: int, m: Matrix4, uvSolution: seq<int>, islandMatrices: seq<Matrix4>)
    returns (uvSolutionOut: seq<int>, threw: bool)
    requires Describes(pass, outputImage, colorArray) && mesh.triangleMaterialIds == scene.materialIds
    requires FaceOk(scene, faceId) && Fits(scene, pass, StateOf(outputImage, mesh, uvSolution, islandMatrices))
    modifies mesh`triangleUvs, outputImage.data
    ensures Describes(pass, outputImage, colorArray)
    ensures Run(StateOf(outputImage, mesh, uvSolutionOut, islandMatrices), threw)
         == RunFace(old(StateOf(outputImage, mesh, uvSolution, islandMatrices)), faceId, m, scene, pass)
  {
    var baryc, baryc2;
    uvSolutionOut, baryc, baryc2 := WriteBackFace(mesh, scene, pass, faceId, m, uvSolution, |islandMatrices|);
    var sourceImage := mesh.triangleMaterialIds[faceId];
    if sourceImage < 0 || sourceImage >= |colorArray| {
      threw := true;
      return;
    }
    var g := FaceGeometry(baryc, baryc2, sourceImage);
    assert g == FaceGeometryOf(scene, pass, faceId, m, sourceImage);
    SweepTriangle(outputImage, colorArray[sourceImage], MakeSweep(g, pass), pass);
    threw := false;
  }

  /** The island loop from face i is face i, then the loop from face i + 1 unless face i threw. */
  lemma RunFacesStep(st: PassState, island: seq<int>, i: nat, m: Matrix4, scene: Scene, pass: Pass)
    requires ValidPass(pass) && IslandOk(scene, island) && Fits(scene, pass, st) && i < |island|
    ensures RunFace(st, island[i], m, scene, pass).threw ==>
      RunFaces(st, island, i, m, scene, pass) == RunFace(st, island[i], m, scene, pass)
    ensures !RunFace(st, island[i], m, scene, pass).threw ==>
      RunFaces(st, island, i, m, scene, pass) == RunFaces(RunFace(st, island[i], m, scene, pass).state, island, i + 1, m, scene, pass)
  {
  }

  /** The faces of one island, in place, in island order. */
  method CompositeIsland(colorArray: seq<Image>, mesh: TriangleMesh, outputImage: Image, scene: Scene, pass: Pass,
                         island: seq<int>, m: Matrix4, uvSolution: seq<int>, islandMatrices: seq<Matrix4>)
    returns (uvSolutionOut: seq<int>, threw: bool)
    requires Describes(pass, outputImage, colorArray) && mesh.triangleMaterialIds == scene.materialIds
    requires IslandOk(scene, island) && Fits(scene, pass, StateOf(outputImage, mesh, uvSolution, islandMatrices))
    modifies mesh`triangleUvs, outputImage.data
    ensures Run(StateOf(outputImage, mesh, uvSolutionOut, islandMatrices), threw)
         == RunFaces(old(StateOf(outputImage, mesh, uvSolution, islandMatrices)), island, 0, m, scene, pass)
  {
    uvSolutionOut := uvSolution;
    var i := 0;
    while i < |island|
      invariant 0 <= i <= |island|
      invariant Describes(pass, outputImage, colorArray) && mesh.triangleMaterialIds == scene.materialIds
      invariant Fits(scene, pass, StateOf(outputImage, mesh, uvSolutionOut, islandMatrices))
      invariant RunFaces(StateOf(outputImage, mesh, uvSolutionOut, islandMatrices), island, i, m, scene, pass)
             == RunFaces(old(StateOf(outputImage, mesh, uvSolution, islandMatrices)), island, 0, m, scene, pass)
    {
      ghost var st := StateOf(outputImage, mesh, uvSolutionOut, islandMatrices);
      uvSolutionOut, threw := CompositeFace(colorArray, mesh, outputImage, scene, pass, island[i], m, uvSolutionOut, islandMatrices);
      RunFacesStep(st, island, i, m, scene, pass);
      if threw {
        return;
      }
      i := i + 1;
    }
    threw := false;
  }

  /** The island loop, in place: every solution's island in turn, its matrix pushed onto
      island_matrices after it, stopping at the first exception. */
  method CompositeSolutions(colorArray: seq<Image>, mesh: TriangleMesh, outputImage: Image, scene: Scene, pass: Pass,
                            sols: seq<IslandSolution>, uvSolution: seq<int>)
    returns (uvSolutionOut: seq<int>, islandMatrices: seq<Matrix4>, threw: bool)
    requires Describes(pass, outputImage, colorArray) && mesh.triangleMaterialIds == scene.materialIds
    requires SolutionsOk(scene, sols) && Fits(scene, pass, StateOf(outputImage, mesh, uvSolution, []))
    modifies mesh`triangleUvs, outputImage.data
    ensures Run(StateOf(outputImage, mesh, uvSolutionOut, islandMatrices), threw)
         == RunSolutions(old(StateOf(outputImage, mesh, uvSolution, [])), sols, 0, scene, pass)
  {
    uvSolutionOut := uvSolution;
    islandMatrices := [];
    var j := 0;
    while j < |sols|
      invariant 0 <= j <= |sols| && |islandMatrices| == j
      invariant Describes(pass, outputImage, colorArray) && mesh.triangleMaterialIds == scene.materialIds
      invariant Fits(scene, pass, StateOf(outputImage, mesh, uvSolutionOut, islandMatrices))
      invariant RunSolutions(StateOf(outputImage, mesh, uvSolutionOut, islandMatrices), sols, j, scene, pass)
             == RunSolutions(old(StateOf(outputImage, mesh, uvSolution, [])), sols, 0, scene, pass)
    {
      uvSolutionOut, threw := CompositeIsland(colorArray, mesh, outputImage, scene, pass,
                                              scene.islands[sols[j].islandIdx], sols[j].matrix, uvSolutionOut, islandMatrices);
      if threw {
        return;
      }
      islandMatrices := islandMatrices + [sols[j].matrix];
      j := j + 1;
    }
    threw := false;
  }

  /** What the pass demands of the images: buffers as Prepare sizes them, an output image with a
      pixel to clamp into and three colour channels, and source images at least as wide and as
      tall as image 0, with three colour channels and buffers of their own. */
  ghost predicate ImagesOk(outputImage: Image, colorArray: seq<Image>) {
    && outputImage.Valid() && outputImage.width >= 1 && outputImage.height >= 1
    && outputImage.channels >= 3 && outputImage.bytesPerChannel >= 1
    && (|colorArray| > 0 ==> colorArray[0].width >= 1 && colorArray[0].height >= 1)
    && forall i :: 0 <= i < |colorArray| ==>
      && colorArray[i].Valid() && colorArray[i].channels >= 3 && colorArray[i].bytesPerChannel >= 1
      && colorArray[i].width >= colorArray[0].width && colorArray[i].height >= colorArray[0].height
      && colorArray[i].data != outputImage.data
  }

  /** The layout of the pass: the output image's, image 0's width and height as the clamp range
      of source pixels, and each source image's own width as its row pitch. */
  ghost function PassOf(outputImage: Image, colorArray: seq<Image>): (p: Pass)
    requires |colorArray| > 0 && ImagesOk(outputImage, colorArray)
    reads set i | 0 <= i < |colorArray| :: colorArray[i].data
    ensures Describes(p, outputImage, colorArray)
  {
    ImagesHoldLayout(outputImage, colorArray);
    Pass(outputImage.width, outputImage.height, outputImage.channels,
         colorArray[0].width, colorArray[0].height,
         seq(|colorArray|, i requires 0 <= i < |colorArray| => colorArray[i].width),
         seq(|colorArray|, i requires 0 <= i < |colorArray| => colorArray[i].channels),
         seq(|colorArray|, i requires 0 <= i < |colorArray| reads (if 0 <= i < |colorArray| then {colorArray[i].data} else {}) =>
           colorArray[i].data[..]))
  }

  /** Every image's buffer holds width * height * channels bytes, and each source image at
      least its own width times image 0's height rows. */
  lemma ImagesHoldLayout(outputImage: Image, colorArray: seq<Image>)
    requires |colorArray| > 0 && ImagesOk(outputImage, colorArray)
    ensures outputImage.data.Length >= outputImage.width * outputImage.height * outputImage.channels
    ensures forall i :: 0 <= i < |colorArray| ==>
      colorArray[i].data.Length >= colorArray[i].width * colorArray[0].height * colorArray[i].channels
  {
    BufferHoldsLayout(outputImage);
    forall i | 0 <= i < |colorArray|
      ensures colorArray[i].data.Length >= colorArray[i].width * colorArray[0].height * colorArray[i].channels
    {
      var image := colorArray[i];
      BufferHoldsLayout(image);
      MulMonotone(colorArray[0].height, image.height, image.width);
      MulMonotone(colorArray[0].height * image.width, image.height * image.width, image.channels);
    }
  }

  /** The scene the island loop works on: the two tables, the material ids and the reply's
      island manifest. */
  function SceneOf(uvs: seq<Vec2>, vertexCount: nat, triangles: seq<Triangle>, materialIds: seq<int>, reply: UvpReply): Scene
    requires vertexCount <= |uvs| && reply.islands.Some?
  {
    Scene(VertTable(uvs, vertexCount), FaceTable(triangles), materialIds, reply.islands.value)
  }

  /** The solver confirmed its version and accepted the pack request built from the mesh (the
      vertex table can only be built once triangle_uvs_ covers every vertex). */
  predicate ProtocolOk(solver: Solver, uvs: seq<Vec2>, vertexCount: nat, triangles: seq<Triangle>) {
    && VersionConfirmed(solver(VersionRequest))
    && vertexCount <= |uvs|
    && PackAccepted(solver(PackRequest(VertTable(uvs, vertexCount), FaceTable(triangles))))
  }

  /** What PerformTextureUnpack takes for granted about an accepted pack: every solution names an
      island, every face of it exists, has a material id, and has corners in the vertex table. */
  predicate ReplyFitsMesh(solver: Solver, uvs: seq<Vec2>, vertexCount: nat, triangles: seq<Triangle>, materialIds: seq<int>)
    requires vertexCount <= |uvs|
  {
    var reply := solver(PackRequest(VertTable(uvs, vertexCount), FaceTable(triangles)));
    ProtocolOk(solver, uvs, vertexCount, triangles) ==>
      SolutionsOk(SceneOf(uvs, vertexCount, triangles, materialIds, reply), reply.islandSolutions.value)
  }

  function InitialState(atlas: seq<uint8>, uvs: seq<Vec2>): PassState {
    PassState(atlas, uvs, seq(|uvs|, _ => 0), [])
  }

  const OutOfRange: string := "invalid vector subscript"

  /** TextureUnpacker::PerformTextureUnpack. Protocol failures return false before anything is
      written; an empty image list throws before anything is written; otherwise the island loop
      runs as RunSolutions says and the call returns true, or throws where a face names no source
      image. */
  method PerformTextureUnpack(colorArray: seq<Image>, mesh: TriangleMesh, outputImage: Image, solver: Solver)
    returns (r: Outcome<bool>)
    requires VersionConfirmed(solver(VersionRequest)) ==>
      && |mesh.vertices| <= |mesh.triangleUvs|
      && ReplyFitsMesh(solver, mesh.triangleUvs, |mesh.vertices|, mesh.triangles, mesh.triangleMaterialIds)
    requires |colorArray| > 0 && ProtocolOk(solver, mesh.triangleUvs, |mesh.vertices|, mesh.triangles) ==>
      ImagesOk(outputImage, colorArray)
    modifies mesh`triangleUvs, outputImage.data
    ensures !ProtocolOk(solver, old(mesh.triangleUvs), |mesh.vertices|, mesh.triangles) ==>
      r == Returned(false) && outputImage.data[..] == old(outputImage.data[..]) && mesh.triangleUvs == old(mesh.triangleUvs)
    ensures r == Returned(false) ==> !ProtocolOk(solver, old(mesh.triangleUvs), |mesh.vertices|, mesh.triangles)
    ensures |colorArray| == 0 && ProtocolOk(solver, old(mesh.triangleUvs), |mesh.vertices|, mesh.triangles) ==>
      r.Threw? && outputImage.data[..] == old(outputImage.data[..]) && mesh.triangleUvs == old(mesh.triangleUvs)
    ensures |colorArray| > 0 && ProtocolOk(solver, old(mesh.triangleUvs), |mesh.vertices|, mesh.triangles) ==>
      var reply := solver(PackRequest(VertTable(old(mesh.triangleUvs), |mesh.vertices|), FaceTable(mesh.triangles)));
      var run := RunSolutions(InitialState(old(outputImage.data[..]), old(mesh.triangleUvs)), reply.islandSolutions.value, 0,
                              SceneOf(old(mesh.triangleUvs), |mesh.vertices|, mesh.triangles, mesh.triangleMaterialIds, reply),
                              old(PassOf(outputImage, colorArray)));
      && r == (if run.threw then Threw(OutOfRange) else Returned(true))
      && outputImage.data[..] == run.state.atlas && mesh.triangleUvs == run.state.uvs
  {
    if solver(VersionRequest).status != Success {
      return Returned(false);
    }
    if !solver(VersionRequest).hasVersionMessage {
      return Returned(false);
    }
    var vertArray := BuildVertArray(mesh);
    var faceArray := BuildFaceArray(mesh);
    var reply := solver(PackRequest(vertArray, faceArray));
    if reply.status != Success {
      return Returned(false);
    }
    if reply.islands.None? || reply.islandSolutions.None? {
      return Returned(false);
    }
    var scene := Scene(vertArray, faceArray, mesh.triangleMaterialIds, reply.islands.value);
    var uvSolution := seq(|mesh.triangleUvs|, _ => 0);
    if |colorArray| == 0 {
      return Threw(OutOfRange);
    }
    var srcPitch := seq(|colorArray|, i requires 0 <= i < |colorArray| => colorArray[i].width);
    var srcChannels := seq(|colorArray|, i requires 0 <= i < |colorArray| => colorArray[i].channels);
    var srcData := seq(|colorArray|, i requires 0 <= i < |colorArray| reads (if 0 <= i < |colorArray| then {colorArray[i].data} else {}) =>
      colorArray[i].data[..]);
    var pass := Pass(outputImage.width, outputImage.height, outputImage.channels,
                     colorArray[0].width, colorArray[0].height, srcPitch, srcChannels, srcData);
    assert pass == PassOf(outputImage, colorArray);
    assert StateOf(outputImage, mesh, uvSolution, []) == InitialState(old(outputImage.data[..]), old(mesh.triangleUvs));
    var islandMatrices, threw;
    uvSolution, islandMatrices, threw := CompositeSolutions(colorArray, mesh, outputImage, scene, pass,
                                                            reply.islandSolutions.value, uvSolution);
    if threw {
      return Threw(OutOfRange);
    }
    return Returned(true);
  }

  /** An image of at least one byte per channel holds width * height * channels bytes. */
  lemma BufferHoldsLayout(image: Image)
    requires image.Valid() && image.bytesPerChannel >= 1
    ensures image.data.Length >= image.width * image.height * image.channels
  {
    MulMonotone(1, image.bytesPerChannel, image.width * image.height * image.channels);
  }
}
