# Open3D-Rendering texture compositor, mesh export and sensor helpers, in Dafny

This project models three parts of the capture-and-texture pipeline of Open3D-Rendering.

- **The texture compositor** (`TextureUnpacker::PerformTextureUnpack` and `PackUV`) is modelled in
  `texture_sweep.dfy` and `texture_unpacker.dfy`.
  - It builds the UV vertex table and the face table from a mesh.
  - It asks the UV packing solver for its version and then for a pack.
  - It stops, returning false, when the solver fails or leaves out the ISLANDS or PACK_SOLUTION message.
  - Otherwise it walks every island solution. For each face of the island it writes the
    transformed UVs back into the mesh and records the solution index in `uv_solution`. It then
    sweeps the face barycentrically and copies three colour channels from the face's source camera
    image into the output atlas.
  - The solver is a function parameter, an oracle from request to reply.
  - The atlas and the source images are `Image` objects whose byte buffers are arrays written in
    place. The mesh is a `TriangleMesh` object whose `triangleUvs` field is rewritten.
  - Each in-place method is proved equal to a value-level specification function: `SweepRow`,
    `SweepFace`, `RunFace`, `RunFaces` and `RunSolutions`. The lemmas about those functions state
    the following:
    - every atlas write and every source read is in bounds for any corners, degenerate ones included;
    - each sample writes the atlas pixel of the transformed position of the same UV point whose
      source pixel it reads;
    - the barycentric weights form a convex combination;
    - the sweep loops terminate, over exact reals (in doubles, a face whose extent overflows
      `float` or exceeds about 1e16 pixels gets a zero step and does not terminate);
    - a sample step changes three bytes and nothing else;
    - which UV every vertex ends with;
    - the order of `island_matrices`;
    - exactly when the pass throws.
- **The export helpers of `Main.cpp`** are modelled in `mesh_export.dfy`:
  - `double3ToAlembic`, `double3ToAlembicNegate`, `toAlembicColour` and `toAlembicUVs`;
  - the mesh record `saveMesh` hands to the Alembic writer, with its y/z winding swap and face counts;
  - the line records of `WriteOBJ`.

  Each flattening has an inverse, and the model proves the round trip.
- **The sensor-side helpers of `MKV_Data.cpp`** are modelled in `mkv_data.dfy`:
  - main-camera registration by `Calibrate` and the destructor, over a `CameraRegistry` object that
    stands for the static `main_camera_data`;
  - the minimum-timestamp fold of `GetCaptureTimestamp`;
  - moving to the next capture, and the retry loop of `GetFrameRGBD` with the decoder as a parameter;
  - the in-place BGRA-to-RGB conversion and its checks;
  - the token layout of the extrinsic matrix.

`types.dfy` holds the shared value types: `Option`, `Outcome` (returned or threw a message),
`uint8` and `uint64`. `geometry.dfy` holds the vectors, triangles and the mesh class. `image.dfy`
holds the image class and the `PointerAt` offset.

## Notes on the C++ code

- The vertex table has one entry per mesh vertex. It reads `triangle_uvs_[i]` and has no
  deduplication: `vertPointerMap` is declared and never used.
- A face's source image comes from `triangle_material_ids_`. It is not a field of the face.
- No array lengths are checked before the solver is called. Lengths whose violation would be
  undefined behaviour are preconditions.
- `double3ToAlembicNegate` negates nothing.
- An out-of-range source image index is not excluded. `color_array->at` throws for it.

## Model

| member | source | states |
|---|---|---|
| Images.Image.Prepare | TestOpen3D/MKV_Data.cpp:206-207 | a freshly prepared image has a zero-filled buffer of width * height * channels * bytes per channel |
| Images.PixelOffsetInBounds | TestOpen3D/TextureUnpacker.cpp:280-282 | `PointerAt(u, v, ch)` of a pixel and channel inside a w x h x c image lies inside the first w * h * c bytes |
| TextureSweep.Clamp | TestOpen3D/TextureUnpacker.cpp:268-274 | `std::clamp` on doubles lands in [lo, hi], is the identity inside, and is lo below and hi above |
| TextureSweep.Trunc | TestOpen3D/TextureUnpacker.cpp:268-274 | the double-to-int conversion truncates toward zero: n <= x < n + 1 for x >= 0, and n - 1 < x <= n below 0 |
| TextureSweep.Weights | TestOpen3D/TextureUnpacker.cpp:249-255 | for every (alpha, beta) the two loops visit, m0 > 0, m1, m2 >= 0 and m0 + m1 + m2 = 1 |
| TextureSweep.CombinationBetween | TestOpen3D/TextureUnpacker.cpp:257-258 | a convex combination of three values lies between their minimum and maximum |
| TextureSweep.BlendInsideBox | TestOpen3D/TextureUnpacker.cpp:257-258 | a convex blend of the three corners lies in their bounding box, on both axes |
| TextureSweep.SampleInsideTriangleBox | TestOpen3D/TextureUnpacker.cpp:249-258 | every sample point `pixel1`/`pixel2` of the sweep lies in the bounding box of its triangle's corners |
| TextureSweep.PixelOf | TestOpen3D/TextureUnpacker.cpp:260-278 | the pixel of a point is inside [0, w) x [0, h) whatever the point; inside the image it is the floor with the row flipped to h - 1 - floor(y) |
| TextureSweep.Cell | TestOpen3D/TextureUnpacker.cpp:268-274 | the cell of [0, n) holding x is in [0, n): the floor of x inside, 0 below and n - 1 above |
| TextureSweep.TruncClampIsCell | TestOpen3D/TextureUnpacker.cpp:268-274 | converting to int a double clamped to [0, n - 1] gives the cell of [0, n) that holds it |
| TextureSweep.DestPixel | TestOpen3D/TextureUnpacker.cpp:260-277 | the atlas pixel (u0, v0) as computed (floor, double clamp, int conversion, flip v0 = h - v0 - 1, no further clamp) lies inside the w x h atlas |
| TextureSweep.SourcePixel | TestOpen3D/TextureUnpacker.cpp:273-278 | the source pixel (u2, v2) as computed (double clamp without floor, int conversion, flip v2 = h2 - v2 - 1, no further clamp) lies inside image 0's w2 x h2 |
| TextureSweep.DestPixelIsPixelOf | TestOpen3D/TextureUnpacker.cpp:260-277 | the atlas pixel as computed is PixelOf of pixel1 |
| TextureSweep.SourcePixelIsPixelOf | TestOpen3D/TextureUnpacker.cpp:273-278 | the source pixel as computed is PixelOf of pixel2 |
| TextureSweep.SampleAt | TestOpen3D/TextureUnpacker.cpp:253-282 | channels 0-2 of the destination pixel of every sample lie inside the atlas, and channels 0-2 of its source pixel, addressed with the source image's own width as `PointerAt` does, inside the source image |
| TextureSweep.Paint | TestOpen3D/TextureUnpacker.cpp:280-282 | a sample step sets bytes dst, dst+1, dst+2 of the atlas to bytes src, src+1, src+2 of the source, and every other byte keeps its value (no blending) |
| TextureSweep.EdgeExtent | TestOpen3D/TextureUnpacker.cpp:240-244 | max(abs(dx), abs(dy)) of an edge is non-negative and zero exactly for a degenerate edge |
| TextureSweep.StepFor | TestOpen3D/TextureUnpacker.cpp:246-247 | the step is unbounded (IEEE +inf) exactly when the extent is zero; otherwise step * extent = 1/sqrt(2) |
| TextureSweep.StepsLeftDecreases | TestOpen3D/TextureUnpacker.cpp:249-251 | a positive step strictly reduces the number of samples left before the bound, so both sweep loops terminate over exact reals |
| TextureSweep.MakeSweep | TestOpen3D/TextureUnpacker.cpp:240-258 | the sweep of a face samples by SampleAt, so all its samples are in bounds; each step is unbounded exactly when its edge is degenerate |
| TextureSweep.SweepRow | TestOpen3D/TextureUnpacker.cpp:251-282 | the inner loop (samples at beta, beta + step, ... below 1 - alpha) keeps the atlas size |
| TextureSweep.SweepFace | TestOpen3D/TextureUnpacker.cpp:249-282 | the outer loop (rows at alpha, alpha + step, ... below 1) keeps the atlas size |
| TextureSweep.DegenerateFaceSamplesOnce | TestOpen3D/TextureUnpacker.cpp:246-251 | a face whose atlas corners coincide is sampled exactly once, at (0, 0) |
| TextureSweep.CopySample | TestOpen3D/TextureUnpacker.cpp:280-282 | the three in-place channel writes leave the atlas buffer equal to Paint of its old contents |
| TextureSweep.SweepRowStep | TestOpen3D/TextureUnpacker.cpp:251 | the row from beta is one sample then the row from beta + step, or only that sample for an unbounded step |
| TextureSweep.SweepTriangleRow | TestOpen3D/TextureUnpacker.cpp:251-322 | the inner loop in place leaves the atlas equal to SweepRow of its old contents |
| TextureSweep.SweepFaceStep | TestOpen3D/TextureUnpacker.cpp:249 | the sweep from alpha is one row then the sweep from alpha + step, or only that row for an unbounded step |
| TextureSweep.SweepTriangle | TestOpen3D/TextureUnpacker.cpp:249-323 | the two loops in place leave the atlas equal to SweepFace of its old contents |
| TextureUnpacker.PackUv | TestOpen3D/TextureUnpacker.cpp:3-64 | returns exactly when the version op succeeds and left a VERSION message, and then returns false; otherwise throws "Report version op failed" or "Expected Version message not found" |
| TextureUnpacker.VertTable | TestOpen3D/TextureUnpacker.cpp:123-134 | one entry per mesh vertex, in order; entry i has uv = triangle_uvs_[i] and control id i |
| TextureUnpacker.FaceTable | TestOpen3D/TextureUnpacker.cpp:136-151 | one face per triangle, in order; face f has id f and exactly the corners triangles_[f][0..2] in order |
| TextureUnpacker.BuildVertArray | TestOpen3D/TextureUnpacker.cpp:123-134 | the emplace_back loop builds VertTable of the mesh |
| TextureUnpacker.BuildFaceArray | TestOpen3D/TextureUnpacker.cpp:136-151 | the nested pushBack loops build FaceTable of the mesh |
| TextureUnpacker.TransformUv | TestOpen3D/TextureUnpacker.cpp:228-231 | the solution matrix applied to (u, v, 0, 1) is affine in (u, v): the third column plays no part and the fourth is the translation |
| TextureUnpacker.TransformUvAffine | TestOpen3D/TextureUnpacker.cpp:228-258 | transforming a blend of three UVs with weights summing to 1 is blending their transforms |
| TextureUnpacker.SamplesCorrespond | TestOpen3D/TextureUnpacker.cpp:221-258 | for weights summing to 1, the blend of the scaled transformed corners is the scaled transform of the blended UV, and the blend of the scaled corners is the scaled blended UV |
| TextureUnpacker.FaceGeometryOf | TestOpen3D/TextureUnpacker.cpp:217-235 | baryc and baryc2 of a face: every sample's pixel1 is the atlas position of the transform of one UV point of the face, and its pixel2 the source position of that same UV point |
| TextureUnpacker.WriteBack | TestOpen3D/TextureUnpacker.cpp:221-238 | the write-back of a face keeps the lengths of triangle_uvs_ and uv_solution |
| TextureUnpacker.WriteBackEffect | TestOpen3D/TextureUnpacker.cpp:221-232 | after a face's write-back a corner's UV is the solution matrix applied to (orig u, orig v, 0, 1), with the original taken from m_VertArray, and its uv_solution entry the solution index; every other vertex keeps both |
| TextureUnpacker.RunFace | TestOpen3D/TextureUnpacker.cpp:213-282 | one face throws exactly when its material id names no source image; island_matrices is untouched |
| TextureUnpacker.RunFaces | TestOpen3D/TextureUnpacker.cpp:213-324 | the faces of an island keep the sizes of atlas and UVs and do not touch island_matrices |
| TextureUnpacker.RunSolutions | TestOpen3D/TextureUnpacker.cpp:206-327 | the island loop keeps the sizes of the atlas and the UV array |
| TextureUnpacker.RunFacesUvs | TestOpen3D/TextureUnpacker.cpp:213-238 | an island that completes gives every vertex it covers the transformed original UV and the current solution index, and leaves the others unchanged |
| TextureUnpacker.LastOwner | TestOpen3D/TextureUnpacker.cpp:207-232 | the solution it names is in range, its island covers the vertex, and no later solution's island does; it names none exactly when no solution from j on covers the vertex |
| TextureUnpacker.Matrices | TestOpen3D/TextureUnpacker.cpp:326 | the solution matrices in iteration order |
| TextureUnpacker.MatricesFrom | TestOpen3D/TextureUnpacker.cpp:326 | the matrices from solution j on are solution j's matrix followed by the rest |
| TextureUnpacker.RunSolutionsMatrices | TestOpen3D/TextureUnpacker.cpp:207-327 | a completed pass pushes exactly the solution matrices onto island_matrices, in iteration order |
| TextureUnpacker.RunSolutionsUvs | TestOpen3D/TextureUnpacker.cpp:207-232 | after a completed pass a vertex holds the original UV transformed by the last solution whose island covers it, and uv_solution holds that solution's index; an uncovered vertex keeps both |
| TextureUnpacker.RunFacesThrows | TestOpen3D/TextureUnpacker.cpp:213-217 | an island's loop throws exactly when one of its faces names no source image |
| TextureUnpacker.RunSolutionsThrows | TestOpen3D/TextureUnpacker.cpp:207-217 | the pass throws exactly when some face of some solved island names no source image |
| TextureUnpacker.WriteBackFace | TestOpen3D/TextureUnpacker.cpp:219-238 | the per-corner loop rewrites triangle_uvs_ and uv_solution as WriteBack says and collects baryc (atlas pixels) and baryc2 (source pixels) |
| TextureUnpacker.CompositeFace | TestOpen3D/TextureUnpacker.cpp:215-282 | one face in place: the new atlas, UVs and uv_solution, and whether it threw, are RunFace of the old state |
| TextureUnpacker.RunFacesStep | TestOpen3D/TextureUnpacker.cpp:213-215 | the island loop from face i is face i, then the loop from face i + 1 unless face i threw |
| TextureUnpacker.CompositeIsland | TestOpen3D/TextureUnpacker.cpp:213-324 | the face loop in place ends in the state, and with the exception, that RunFaces gives |
| TextureUnpacker.CompositeSolutions | TestOpen3D/TextureUnpacker.cpp:206-327 | the island loop in place ends in the state, island_matrices and exception that RunSolutions gives |
| TextureUnpacker.PassOf | TestOpen3D/TextureUnpacker.cpp:185-192 | the layout read from the output image, from source image 0 (the clamp range) and from each source image (its row pitch) describes every image's buffer |
| TextureUnpacker.ImagesHoldLayout | TestOpen3D/TextureUnpacker.cpp:185-192 | every buffer holds at least width * height * channels bytes, and each source image at least its own width times image 0's height rows |
| TextureUnpacker.BufferHoldsLayout | TestOpen3D/TextureUnpacker.cpp:185-189 | a prepared image of at least one byte per channel holds width * height * channels bytes |
| TextureUnpacker.PerformTextureUnpack | TestOpen3D/TextureUnpacker.cpp:74-330 | returns false exactly when a protocol check fails (version, VERSION message, pack status, ISLANDS or PACK_SOLUTION missing), and then no atlas byte and no UV has changed; with no source image it throws before any write; otherwise atlas and UVs end as RunSolutions says, returning true or throwing the `at` exception |
| MeshExport.Flatten3 | TestOpen3D/Main.cpp:120-133 | the component-major layout has length 3n |
| MeshExport.Unflatten3 | TestOpen3D/Main.cpp:120-133 | reading points back gives one point per three values |
| MeshExport.Flatten3At | TestOpen3D/Main.cpp:126-130 | entry 3i + k of the layout is component k of point i |
| MeshExport.Unflatten3Flatten3 | TestOpen3D/Main.cpp:120-133 | the points read back from the layout are the points written |
| MeshExport.Double3ToAlembic | TestOpen3D/Main.cpp:120-133 | the result has length 3n and result[3i + k] is component k of source[i] |
| MeshExport.Double3ToAlembicNegate | TestOpen3D/Main.cpp:135-148 | exactly the same output as double3ToAlembic: nothing is negated |
| MeshExport.ToAlembicColour | TestOpen3D/Main.cpp:150-160 | one colour per point, x, y and z copied |
| MeshExport.Flatten2 | TestOpen3D/Main.cpp:162-171 | the UV layout has length 2n |
| MeshExport.Unflatten2 | TestOpen3D/Main.cpp:162-171 | reading UVs back gives one coordinate per two values |
| MeshExport.Flatten2At | TestOpen3D/Main.cpp:165-168 | entries 2i and 2i + 1 are u and v of coordinate i |
| MeshExport.Unflatten2Flatten2 | TestOpen3D/Main.cpp:162-171 | the UVs read back are the UVs written |
| MeshExport.ToAlembicUvs | TestOpen3D/Main.cpp:162-171 | the result has length 2n with result[2i] = u and result[2i + 1] = v |
| MeshExport.WindingSwapped | TestOpen3D/Main.cpp:187-191 | the index array has length 3 * |triangles| |
| MeshExport.WindingSwappedAt | TestOpen3D/Main.cpp:187-191 | indices 3i, 3i + 1, 3i + 2 are triangle i's x, z and y |
| MeshExport.TrianglesOf | TestOpen3D/Main.cpp:187-191 | reading triangles back gives one per three indices |
| MeshExport.TrianglesOfWindingSwapped | TestOpen3D/Main.cpp:187-191 | swapping y and z on the way out and back gives the mesh's triangles |
| MeshExport.FillIndices | TestOpen3D/Main.cpp:179-191 | the index loop writes WindingSwapped of the triangles |
| MeshExport.FillCounts | TestOpen3D/Main.cpp:193-200 | numCounts entries, each 3 |
| MeshExport.SaveMesh | TestOpen3D/Main.cpp:172-209 | the frame record: flattened vertices with numVerts = number of vertices, swapped indices with numIndicies = 3 * triangles, numCounts = triangles with every count 3, flattened normals, UVs with numUvs = number of UVs, colours copied |
| MeshExport.FaceLine | TestOpen3D/Main.cpp:71-79 | a face line has three corners and each corner references index + 1 in its vertex, texture and normal slots |
| MeshExport.TriangleOfFaceLine | TestOpen3D/Main.cpp:75-78 | the triangle read back from its face line is the triangle |
| MeshExport.WriteObj | TestOpen3D/Main.cpp:35-82 | the lines written: a v line per vertex, a vt line per UV, a vn line per normal, then the face line of each triangle, in order |
| MeshExport.FaceReferencesVertexLine | TestOpen3D/Main.cpp:50-79 | in a written OBJ file the 1-based vertex reference of a face corner names the v line of that corner's vertex |
| MkvData.CameraRegistry.constructor | TestOpen3D/MKV_Data.cpp:13 | no main camera is registered at start |
| MkvData.CalibrateStep | TestOpen3D/MKV_Data.cpp:29-47 | MASTER with no main camera registers this one; MASTER with one is a conflict; SUBORDINATE changes nothing; any other mode is an error |
| MkvData.DestroyStep | TestOpen3D/MKV_Data.cpp:281-284 | the destructor clears the registration exactly when this recording holds it |
| MkvData.MainCameraIsFirstMaster | TestOpen3D/MKV_Data.cpp:29-47 | calibrating MASTER and SUBORDINATE recordings in turn succeeds exactly when at most one is MASTER, and the main camera is then the first MASTER |
| MkvData.KeepsMainCamera | TestOpen3D/MKV_Data.cpp:29-44 | with a main camera registered, calibration succeeds exactly when no further recording is MASTER, and keeps it |
| MkvData.DestroyFreesMainCamera | TestOpen3D/MKV_Data.cpp:279-284 | destroying the main camera lets the next MASTER register; destroying another recording does not |
| MkvData.MinTimestamp | TestOpen3D/MKV_Data.cpp:296-319 | at most every present image's timestamp, and equal to one of them or to the all-ones sentinel |
| MkvData.Recording.constructor | TestOpen3D/MKV_Data.cpp:262-277 | a recording of a non-empty stream starts at its first capture with that capture's timestamp |
| MkvData.Recording.Open | TestOpen3D/MKV_Data.cpp:276 | the constructor's final cycle forwards raises "Stream has reached EOF on: " + file exactly when the stream holds no capture; otherwise the new recording sits at its first capture with that capture's timestamp |
| MkvData.Recording.Calibrate | TestOpen3D/MKV_Data.cpp:15-48 | open and configuration failures raise their messages first; otherwise the registration changes as CalibrateStep says, or is left alone when it raises |
| MkvData.Recording.Destroy | TestOpen3D/MKV_Data.cpp:279-294 | the registration becomes DestroyStep of the old one |
| MkvData.Recording.GetCaptureTimestamp | TestOpen3D/MKV_Data.cpp:296-319 | the fold from the sentinel returns MinTimestamp of the colour, depth and IR images |
| MkvData.Recording.CycleCaptureForwards | TestOpen3D/MKV_Data.cpp:321-346 | moves to the next capture and takes its timestamp, or at the end of the stream raises "Stream has reached EOF on: " + file and changes nothing |
| MkvData.Recording.GetFrameRgbd | TestOpen3D/MKV_Data.cpp:418-437 | returns a frame exactly when some capture from the current one on decodes, and then stops on the first such capture, returning its frame; every capture it passes failed to decode; otherwise it raises "Stream has reached EOF on: " + file from the final cycle forwards and is left at the last capture |
| MkvData.FirstDecodable | TestOpen3D/MKV_Data.cpp:424-434 | the first capture from a position on that decodes, with every earlier one failing; or none decodes |
| MkvData.FirstDecodableSkips | TestOpen3D/MKV_Data.cpp:430-433 | a capture that fails to decode is skipped |
| MkvData.FirstDecodableLast | TestOpen3D/MKV_Data.cpp:430-433 | a failing last capture leaves nothing to decode |
| MkvData.FirstDecodableHere | TestOpen3D/MKV_Data.cpp:426-428 | a capture that decodes is the one returned |
| MkvData.RgbOf | TestOpen3D/MKV_Data.cpp:166-173 | the RGB buffer of n pixels has 3n bytes |
| MkvData.RgbOfAt | TestOpen3D/MKV_Data.cpp:168-170 | channel c of pixel k is channel 2 - c of BGRA pixel k |
| MkvData.RgbChannelMap | TestOpen3D/MKV_Data.cpp:166-173 | for every pixel (u, v) and c < 3, rgb(u, v, c) = bgra(u, v, 2 - c), both offsets in bounds |
| MkvData.RgbIgnoresAlpha | TestOpen3D/MKV_Data.cpp:168-170 | channel 3 is never read: inputs differing only in alpha give the same RGB |
| MkvData.ConversionError | TestOpen3D/MKV_Data.cpp:143-159 | there is no error exactly when the BGRA image has 1 byte per channel and 4 channels, the RGB image 1 byte per channel and 3 channels, and both have the same width and height |
| MkvData.ConvertBgraToRgb | TestOpen3D/MKV_Data.cpp:141-174 | the checks raise their messages in order and write nothing; otherwise the RGB buffer becomes RgbOf of the BGRA buffer, which is unchanged |
| MkvData.ConvertRow | TestOpen3D/MKV_Data.cpp:167-172 | the two inner loops extend the correct prefix of the RGB buffer by one row |
| MkvData.ExtrinsicMatrix | TestOpen3D/MKV_Data.cpp:121-134 | tokens 3-11 row-major in the top-left 3 x 3 block, R * t (t = tokens 0-2) in the last column, and 0 0 0 1 as the last row |
| MkvData.ExtrinsicMapsPoint | TestOpen3D/MKV_Data.cpp:131-134 | the matrix maps point x to R (x + t) |
| MkvData.FillRotation | TestOpen3D/MKV_Data.cpp:126-129 | entry (a, b) of r_mat_3 becomes token 3a + b + 3 |
| MkvData.GetExtrinsicMatrix | TestOpen3D/MKV_Data.cpp:115-134 | the two loops and the assembly give ExtrinsicMatrix of the tokens |

## Left out

- The UV packing solver (`UvpOpExecutorT`, its message classes and `islandSolutionToMatrix`) is a
  function parameter. It is an external library. Each island placement comes in already turned into
  a 4 x 4 matrix.
- Version and device printing and the other console output are not modelled. They are I/O only.
- Floating point is modelled as exact reals:
  - the narrowing of `baryc_max_a`/`baryc_max_b` to `float`;
  - the rounding of 1/sqrt(2) and of every product and sum (`StepScale` stands for the rounded
    factor, and every property proved holds for any positive factor);
  - NaN and infinite UVs;
  - the narrowing to `float32_t` in the export helpers.

  The one infinity the sweep relies on, a division by a zero extent, is modelled as an unbounded
  step. Nothing is claimed about gaps in the sampled coverage. Termination of the sweep is proved
  for exact reals only. An extent above the largest `float` becomes infinite, so the step is 0.
  An extent near 1e17 pixels gives a step below half a unit in the last place of alpha. In both
  cases `baryc_alpha += baryc_step_a` never advances.
- The commented-out weighted blending and the unused `image_weights` vector are not modelled. They
  are not current behaviour.
- `m_PolyVertexCount` is not modelled. It is never initialised, and it is updated but never used
  for any output.
- The unused `vertPointerMap` is not modelled.
- `std::out_of_range` from `color_array->at` carries the message "invalid vector subscript". Its text is
  implementation-defined. The model uses one fixed message.
- The `ErrorLogger` wrapper (`EXECUTE`, `LOG_ERROR`, `E_LOG`) is not part of this model.
  - `LOG_ERROR(message, true)` is taken to raise an exception carrying the message.
  - A call without `true`, or `E_LOG` followed by `return false`, is taken to only log.
- TextureUnpacker.PerformTextureUnpack has preconditions that apply only once the solver has
  confirmed its version. The version-failure paths return false before any of them matter.
  - It requires `triangle_uvs_` to be at least as long as `vertices_`. A shorter one is an
    out-of-range `[]`, which is undefined behaviour.
  - It requires every solution of an accepted pack to name an island whose faces exist, have a
    material id and have corners in the vertex table. Anything else is an out-of-range `[]`.
- TextureUnpacker.PerformTextureUnpack requires more of the images, once the pack is accepted and
  there is a source image, than the C++ code strictly needs. This is a modelling choice:
  - The output image must be at least 1 x 1, because `std::clamp` with an empty range is undefined
    behaviour.
  - The output image must have at least three channels, and so must every source image, including
    ones no face names. With fewer, a write or read of channels 1 and 2 runs into the next pixel.
    That is undefined behaviour only at the end of the buffer.
  - Image 0 must be at least 1 x 1. `std::clamp(x, 0.0, w2 - 1.0)` with w2 or h2 equal to 0 has an
    empty range, which is undefined behaviour.
  - Every image, output and source alike, must have a buffer of exactly width * height * channels *
    bytes per channel bytes, with at least one byte per channel. This is the size `Prepare` gives.
    The model does not describe an image whose buffer was resized by other means.
  - Every source image, including ones no face names, must be at least image 0's width and
    height. A smaller image is read past its end only when a sample lands there, and the model does
    not say which samples do.
- TextureUnpacker.PerformTextureUnpack does not model buffers shared between the output image and a
  source image.
- Parallel execution (OpenMP pragmas) is not modelled. The loops are sequential.
- Sensor SDK and codec calls are inputs:
  - the k4a open and configuration results are parameters of `Calibrate`;
  - the playback stream is a fixed sequence of captures;
  - `DecompressCapture` is a decoder function parameter.

  The internals of `DecompressCapture` are left out: MJPEG decoding, the depth transformation, and
  its raising `LOG_ERROR` at the depth transformation.
- MkvData.Recording.CycleCaptureForwards does not model `K4A_STREAM_RESULT_FAILED` (a stream
  error) or the release of the previous capture.
- `CycleCaptureBackwards`, `SeekToTime`, `GetPlaybackDataRaw` and `GetIntrinsicTensor` are not
  modelled. They are foreign calls.
- MkvData.Recording.constructor requires a non-empty capture stream and only places the
  recording at its first capture. The raise on an empty stream is modelled by `Recording.Open`.
  `Calibrate` and the extrinsic read are modelled as their own members, which the model's
  constructor does not call.
- Images.Image.Prepare models only the preparation of a new image. `DecompressCapture` prepares its
  function-local static buffers again on every frame. That resizes the existing buffer in place,
  keeps the bytes that fit and zero-fills only new ones. The model does not describe that: image
  dimensions are constant fields here, and the decoder is a parameter.
- MkvData.GetExtrinsicMatrix takes the tokens as reals. Reading the calibration file,
  `SplitString` and `std::stof` are left out. The final matrix inverse and the tensor conversion are
  left out as floating-point library work. Fewer than 12 tokens is an out-of-range `[]` and is
  excluded by the precondition.
- MkvData.ConvertBgraToRgb requires the two images not to share a buffer, as its callers
  guarantee.
- File and directory I/O is not modelled:
  - `WriteOBJ` produces a list of line records instead of text on a stream;
  - `AlembicWriter::saveFrame` and time sampling are left out.
- The reconstruction, ray casting, drawing and camera-manager code of `Main.cpp` is not modelled. It
  is external-library or UI work.
