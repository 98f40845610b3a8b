/** The barycentric sweep of TextureUnpacker::PerformTextureUnpack: how one face of the mesh is
    resampled from its source camera image into the texture atlas. Coordinates are reals; the
    sweep's floating-point rounding is not modelled. */
module TextureSweep {
  import opened Types
  import opened Geometry
  import opened Images

  /** The sampling density factor of the sweep. The C++ code computes 1.0 / sqrt(2.0), which
      rounds to 0.7071067811865475, one unit in the last place below this constant; every
      property proved here holds for any positive factor. */
  const StepScale: real := 0.7071067811865476

  type PosReal = r: real | r > 0.0 witness 1.0

  /** How far a barycentric coordinate advances per sample. PerformTextureUnpack divides
      StepScale by the edge extent; for a zero extent IEEE division yields +infinity, so the coordinate leaves
      [0, 1) right after its first sample. */
  datatype Step = Unbounded | By(delta: PosReal)

  datatype Tri = Tri(a: Vec2, b: Vec2, c: Vec2)

  /** The weights (m0, m1, m2) given to the three corners of a triangle. */
  datatype Barycentric = Barycentric(m0: real, m1: real, m2: real)

  datatype Pixel = Pixel(u: nat, v: nat)

  /** One face as the sweep sees it: its corners in atlas pixels (baryc), its corners in source
      pixels (baryc2), and the source image it samples. */
  datatype FaceGeometry = FaceGeometry(dst: Tri, src: Tri, image: nat)

  /** The sweep of one face: where the sample at (alpha, beta) reads and writes, the source image
      it reads, and the steps of alpha and beta. */
  datatype FaceSweep = FaceSweep(sample: (real, real) -> Sample, image: nat, stepA: Step, stepB: Step)

  /** One sample: byte offsets of channel 0 of the destination pixel in the atlas and of the
      source pixel in the source image. */
  datatype Sample = Sample(dst: nat, src: nat)

  /** The fixed quantities of one texture pass: the atlas layout, the source dimensions the
      sweep clamps to (taken from source image 0), and the row pitch (its own width), channel
      count and bytes of every source image. */
  datatype Pass = Pass(width: nat, height: nat, channels: nat,
                       srcWidth: nat, srcHeight: nat,
                       srcPitch: seq<nat>, srcChannels: seq<nat>, srcData: seq<seq<uint8>>)

  /** What the pass needs for every clamp to have a non-empty range, every pixel to hold three
      colour channels, and every source image to cover image 0's width and height. */
  predicate ValidPass(p: Pass) {
    && p.width >= 1 && p.height >= 1 && p.channels >= 3
    && p.srcWidth >= 1 && p.srcHeight >= 1
    && |p.srcPitch| == |p.srcData| && |p.srcChannels| == |p.srcData|
    && forall i :: 0 <= i < |p.srcData| ==>
         && p.srcChannels[i] >= 3 && p.srcPitch[i] >= p.srcWidth
         && |p.srcData[i]| >= p.srcPitch[i] * p.srcHeight * p.srcChannels[i]
  }

  function AtlasSize(p: Pass): nat {
    p.width * p.height * p.channels
  }

  function Abs(x: real): real {
    if x < 0.0 then -x else x
  }

  function Max(x: real, y: real): real {
    if x < y then y else x
  }

  function Min3(x: real, y: real, z: real): real {
    if x <= y && x <= z then x else if y <= z then y else z
  }

  function Max3(x: real, y: real, z: real): real {
    if x >= y && x >= z then x else if y >= z then y else z
  }

  /** std::clamp(x, lo, hi) */
  function Clamp(x: real, lo: real, hi: real): (r: real)
    requires lo <= hi
    ensures lo <= r <= hi
    ensures lo <= x <= hi ==> r == x
    ensures x < lo ==> r == lo
    ensures hi < x ==> r == hi
  {
    if x < lo then lo else if hi < x then hi else x
  }

  /** Conversion of a double to int: truncation toward zero. */
  function Trunc(x: real): (n: int)
    ensures 0.0 <= x ==> n as real <= x < n as real + 1.0
    ensures x < 0.0 ==> n as real - 1.0 < x <= n as real
  {
    if x >= 0.0 then x.Floor else -((-x).Floor)
  }

  /** The weights of the sample at (alpha, beta): m0 = 1 - alpha - beta, m1 = alpha, m2 = beta.
      Inside the sweep they form a convex combination. */
  function Weights(alpha: real, beta: real): (m: Barycentric)
    requires 0.0 <= alpha < 1.0 && 0.0 <= beta < 1.0 - alpha
    ensures m.m0 > 0.0 && m.m1 >= 0.0 && m.m2 >= 0.0
    ensures m.m0 + m.m1 + m.m2 == 1.0
  {
    Barycentric(1.0 - alpha - beta, alpha, beta)
  }

  /** baryc[0] * m0 + baryc[1] * m1 + baryc[2] * m2 */
  function Blend(t: Tri, m: Barycentric): Vec2 {
    Vec2(t.a.x * m.m0 + t.b.x * m.m1 + t.c.x * m.m2,
         t.a.y * m.m0 + t.b.y * m.m1 + t.c.y * m.m2)
  }

  lemma NonNegProduct(a: real, m: real)
    requires a >= 0.0 && m >= 0.0
    ensures a * m >= 0.0
  {
  }

  /** A convex combination of three values lies between their minimum and maximum. */
  lemma {:induction false} CombinationBetween(x0: real, x1: real, x2: real, m: Barycentric)
    requires m.m0 >= 0.0 && m.m1 >= 0.0 && m.m2 >= 0.0 && m.m0 + m.m1 + m.m2 == 1.0
    ensures Min3(x0, x1, x2) <= x0 * m.m0 + x1 * m.m1 + x2 * m.m2 <= Max3(x0, x1, x2)
  {
    CombinationAbove(x0, x1, x2, m.m0, m.m1, m.m2, Min3(x0, x1, x2));
    CombinationBelow(x0, x1, x2, m.m0, m.m1, m.m2, Max3(x0, x1, x2));
  }

  lemma {:induction false} CombinationAbove(x0: real, x1: real, x2: real, m0: real, m1: real, m2: real, lo: real)
    requires m0 >= 0.0 && m1 >= 0.0 && m2 >= 0.0 && m0 + m1 + m2 == 1.0
    requires lo <= x0 && lo <= x1 && lo <= x2
    ensures lo <= x0 * m0 + x1 * m1 + x2 * m2
  {
    NonNegProduct(x0 - lo, m0);
    NonNegProduct(x1 - lo, m1);
    NonNegProduct(x2 - lo, m2);
    assert x0 * m0 + x1 * m1 + x2 * m2 - lo == (x0 - lo) * m0 + (x1 - lo) * m1 + (x2 - lo) * m2;
  }

  lemma {:induction false} CombinationBelow(x0: real, x1: real, x2: real, m0: real, m1: real, m2: real, hi: real)
    requires m0 >= 0.0 && m1 >= 0.0 && m2 >= 0.0 && m0 + m1 + m2 == 1.0
    requires x0 <= hi && x1 <= hi && x2 <= hi
    ensures x0 * m0 + x1 * m1 + x2 * m2 <= hi
  {
    NonNegProduct(hi - x0, m0);
    NonNegProduct(hi - x1, m1);
    NonNegProduct(hi - x2, m2);
    assert hi - (x0 * m0 + x1 * m1 + x2 * m2) == (hi - x0) * m0 + (hi - x1) * m1 + (hi - x2) * m2;
  }

  /** Every point the sweep samples lies in the bounding box of the triangle's corners, so a
      clamp only acts on faces that themselves reach outside the image. */
  lemma {:induction false} SampleInsideTriangleBox(t: Tri, alpha: real, beta: real)
    requires 0.0 <= alpha < 1.0 && 0.0 <= beta < 1.0 - alpha
    ensures Min3(t.a.x, t.b.x, t.c.x) <= Blend(t, Weights(alpha, beta)).x <= Max3(t.a.x, t.b.x, t.c.x)
    ensures Min3(t.a.y, t.b.y, t.c.y) <= Blend(t, Weights(alpha, beta)).y <= Max3(t.a.y, t.b.y, t.c.y)
  {
    BlendInsideBox(t, Weights(alpha, beta));
  }

  lemma {:induction false} BlendInsideBox(t: Tri, m: Barycentric)
    requires m.m0 >= 0.0 && m.m1 >= 0.0 && m.m2 >= 0.0 && m.m0 + m.m1 + m.m2 == 1.0
    ensures Min3(t.a.x, t.b.x, t.c.x) <= Blend(t, m).x <= Max3(t.a.x, t.b.x, t.c.x)
    ensures Min3(t.a.y, t.b.y, t.c.y) <= Blend(t, m).y <= Max3(t.a.y, t.b.y, t.c.y)
  {
    CombinationBetween(t.a.x, t.b.x, t.c.x, m);
    CombinationBetween(t.a.y, t.b.y, t.c.y, m);
  }

  /** The cell of [0, n) that holds x: its floor inside [0, n), the nearer end cell outside. */
  function Cell(x: real, n: nat): (k: int)
    requires n >= 1
    ensures 0 <= k < n
    ensures 0.0 <= x < n as real ==> k == x.Floor
    ensures x < 0.0 ==> k == 0
    ensures n as real <= x ==> k == n - 1
  {
    if x < 0.0 then 0 else if n as real <= x then n - 1 else x.Floor
  }

  /** The pixel of a w x h image that holds point p: its cell in each direction, with the row
      counted from the bottom. */
  function PixelOf(p: Vec2, w: nat, h: nat): (px: Pixel)
    requires w >= 1 && h >= 1
    ensures px.u < w && px.v < h
    ensures 0.0 <= p.x < w as real ==> px.u == p.x.Floor
    ensures 0.0 <= p.y < h as real ==> px.v == h - 1 - p.y.Floor
  {
    Pixel(Cell(p.x, w), h - 1 - Cell(p.y, h))
  }

  /** The atlas pixel (u0, v0) as PerformTextureUnpack computes it in doubles: floor, clamp to
      [0, w - 1] and [0, h - 1], convert to int, then flip the row (v0 = h - v0 - 1). */
  function DestPixel(p: Vec2, w: nat, h: nat): (uv: (int, int))
    requires w >= 1 && h >= 1
    ensures 0 <= uv.0 < w && 0 <= uv.1 < h
  {
    var u0 := Trunc(Clamp(p.x.Floor as real, 0.0, w as real - 1.0));
    var v0 := Trunc(Clamp(p.y.Floor as real, 0.0, h as real - 1.0));
    (u0, h - v0 - 1)
  }

  /** The source pixel (u2, v2) as PerformTextureUnpack computes it in doubles: clamp to
      [0, w2 - 1] and [0, h2 - 1] without a floor, convert to int, then flip the row
      (v2 = h2 - v2 - 1). */
  function SourcePixel(p: Vec2, w: nat, h: nat): (uv: (int, int))
    requires w >= 1 && h >= 1
    ensures 0 <= uv.0 < w && 0 <= uv.1 < h
  {
    var u2 := Trunc(Clamp(p.x, 0.0, w as real - 1.0));
    var v2 := Trunc(Clamp(p.y, 0.0, h as real - 1.0));
    (u2, h - v2 - 1)
  }

  /** Converting to int a double clamped to [0, n - 1] gives the cell of [0, n) that holds it. */
  lemma TruncClampIsCell(x: real, n: nat)
    requires n >= 1
    ensures Trunc(Clamp(x, 0.0, n as real - 1.0)) == Cell(x, n)
  {
  }

  /** Flooring before the double clamp changes nothing: the atlas pixel as computed is PixelOf
      the destination sample point. */
  lemma {:induction false} DestPixelIsPixelOf(p: Vec2, w: nat, h: nat)
    requires w >= 1 && h >= 1
    ensures DestPixel(p, w, h) == (PixelOf(p, w, h).u, PixelOf(p, w, h).v)
  {
    TruncClampIsCell(p.x.Floor as real, w);
    TruncClampIsCell(p.y.Floor as real, h);
    assert (p.x.Floor as real).Floor == p.x.Floor;
    assert (p.y.Floor as real).Floor == p.y.Floor;
  }

  /** The source pixel is computed without a floor before the clamp, yet lands on the same
      PixelOf as the destination mapping. */
  lemma {:induction false} SourcePixelIsPixelOf(p: Vec2, w: nat, h: nat)
    requires w >= 1 && h >= 1
    ensures SourcePixel(p, w, h) == (PixelOf(p, w, h).u, PixelOf(p, w, h).v)
  {
    TruncClampIsCell(p.x, w);
    TruncClampIsCell(p.y, h);
  }

  /** The (alpha, beta) pairs the two sweep loops visit lie in this half-open triangle. */
  predicate InSweep(alpha: real, beta: real) {
    0.0 <= alpha < 1.0 && 0.0 <= beta < 1.0 - alpha
  }

  /** The sample taken at (alpha, beta): channels 0 to 2 of its destination pixel lie inside
      the atlas and channels 0 to 2 of its source pixel inside the source image, whatever the
      face's corners are. */
  function SampleAt(g: FaceGeometry, alpha: real, beta: real, p: Pass): (s: Sample)
    requires ValidPass(p) && g.image < |p.srcData| && InSweep(alpha, beta)
    ensures s.dst + 2 < AtlasSize(p)
    ensures s.src + 2 < |p.srcData[g.image]|
  {
    var m := Weights(alpha, beta);
    var d := PixelOf(Blend(g.dst, m), p.width, p.height);
    var q := PixelOf(Blend(g.src, m), p.srcWidth, p.srcHeight);
    PixelOffsetInBounds(d.u, d.v, 2, p.width, p.height, p.channels);
    PixelOffsetInBounds(q.u, q.v, 2, p.srcPitch[g.image], p.srcHeight, p.srcChannels[g.image]);
    Sample(PixelOffset(d.u, d.v, 0, p.width, p.channels),
           PixelOffset(q.u, q.v, 0, p.srcPitch[g.image], p.srcChannels[g.image]))
  }

  /** Every sample of the sweep stays inside the atlas and inside its source image. */
  ghost predicate SweepFits(f: FaceSweep, p: Pass) {
    && f.image < |p.srcData|
    && forall alpha, beta :: InSweep(alpha, beta) ==>
         f.sample(alpha, beta).dst + 2 < AtlasSize(p) && f.sample(alpha, beta).src + 2 < |p.srcData[f.image]|
  }

  /** One sample step: channels 0, 1 and 2 of the destination pixel take the values of channels
      0, 1 and 2 of the source pixel; every other byte keeps its value (no blending). */
  function Paint(atlas: seq<uint8>, src: seq<uint8>, s: Sample): (r: seq<uint8>)
    requires s.dst + 2 < |atlas| && s.src + 2 < |src|
    ensures |r| == |atlas|
    ensures r[s.dst] == src[s.src] && r[s.dst + 1] == src[s.src + 1] && r[s.dst + 2] == src[s.src + 2]
    ensures forall i :: 0 <= i < |atlas| && (i < s.dst || s.dst + 2 < i) ==> r[i] == atlas[i]
  {
    atlas[s.dst := src[s.src]][s.dst + 1 := src[s.src + 1]][s.dst + 2 := src[s.src + 2]]
  }

  /** max(|dx|, |dy|) of the edge from p to q. */
  function EdgeExtent(p: Vec2, q: Vec2): (e: real)
    ensures e >= 0.0
    ensures e == 0.0 <==> p == q
  {
    Max(Abs(p.x - q.x), Abs(p.y - q.y))
  }

  /** The step along one edge: StepScale / extent, unbounded for a degenerate edge. */
  function StepFor(extent: real): (s: Step)
    requires extent >= 0.0
    ensures s.Unbounded? <==> extent == 0.0
    ensures s.By? ==> s.delta * extent == StepScale
  {
    if extent == 0.0 then Unbounded else By(StepScale / extent)
  }

  /** How many samples a coordinate at x still takes before it reaches bound. */
  function StepsLeft(x: real, bound: real, s: Step): int {
    if s.By? && x < bound then ((bound - x) / s.delta).Floor + 1 else 0
  }

  /** Each finite step brings a coordinate strictly closer to leaving its range, so the two
      sweep loops terminate. */
  lemma StepsLeftDecreases(x: real, bound: real, d: PosReal)
    requires x < bound
    ensures 0 <= StepsLeft(x + d, bound, By(d)) < StepsLeft(x, bound, By(d))
  {
    var q := (bound - x) / d;
    assert q * d == bound - x;
    assert q > 0.0;
    if x + d < bound {
      assert (q - 1.0) * d == bound - (x + d);
      DivUnique(q - 1.0, bound - (x + d), d);
    }
  }

  lemma DivUnique(q: real, n: real, d: real)
    requires d > 0.0 && q * d == n
    ensures n / d == q
  {
  }

  /** The sweep of a face: samples by SampleAt, alpha stepping along edge a-b and beta along
      edge a-c of the atlas triangle. */
  function MakeSweep(g: FaceGeometry, p: Pass): (f: FaceSweep)
    requires ValidPass(p) && g.image < |p.srcData|
    ensures SweepFits(f, p) && f.image == g.image
    ensures forall alpha, beta :: InSweep(alpha, beta) ==> f.sample(alpha, beta) == SampleAt(g, alpha, beta, p)
    ensures f.stepA.Unbounded? <==> g.dst.a == g.dst.b
    ensures f.stepB.Unbounded? <==> g.dst.a == g.dst.c
  {
    FaceSweep((alpha, beta) => if InSweep(alpha, beta) then SampleAt(g, alpha, beta, p) else Sample(0, 0),
              g.image, StepFor(EdgeExtent(g.dst.a, g.dst.b)), StepFor(EdgeExtent(g.dst.a, g.dst.c)))
  }

  /** The inner loop of the sweep: the samples at beta, beta + step, ... below 1 - alpha. */
  function SweepRow(atlas: seq<uint8>, f: FaceSweep, alpha: real, beta: real, p: Pass): (r: seq<uint8>)
    requires SweepFits(f, p) && |atlas| >= AtlasSize(p)
    requires 0.0 <= alpha < 1.0 && 0.0 <= beta
    ensures |r| == |atlas|
    decreases StepsLeft(beta, 1.0 - alpha, f.stepB)
  {
    if beta >= 1.0 - alpha then atlas
    else
      var painted := Paint(atlas, p.srcData[f.image], f.sample(alpha, beta));
      match f.stepB
      case Unbounded => painted
      case By(d) =>
        StepsLeftDecreases(beta, 1.0 - alpha, d);
        SweepRow(painted, f, alpha, beta + d, p)
  }

  /** The outer loop of the sweep: the rows at alpha, alpha + step, ... below 1. */
  function SweepFace(atlas: seq<uint8>, f: FaceSweep, alpha: real, p: Pass): (r: seq<uint8>)
    requires SweepFits(f, p) && |atlas| >= AtlasSize(p)
    requires 0.0 <= alpha
    ensures |r| == |atlas|
    decreases StepsLeft(alpha, 1.0, f.stepA)
  {
    if alpha >= 1.0 then atlas
    else
      var row := SweepRow(atlas, f, alpha, 0.0, p);
      match f.stepA
      case Unbounded => row
      case By(d) =>
        StepsLeftDecreases(alpha, 1.0, d);
        SweepFace(row, f, alpha + d, p)
  }

  /** A face whose three atlas corners coincide is sampled exactly once, at its first corner. */
  lemma DegenerateFaceSamplesOnce(atlas: seq<uint8>, g: FaceGeometry, p: Pass)
    requires ValidPass(p) && g.image < |p.srcData| && |atlas| >= AtlasSize(p)
    requires g.dst.a == g.dst.b == g.dst.c
    ensures SweepFace(atlas, MakeSweep(g, p), 0.0, p) == Paint(atlas, p.srcData[g.image], SampleAt(g, 0.0, 0.0, p))
  {
    var f := MakeSweep(g, p);
    assert InSweep(0.0, 0.0);
  }

  /** The three channel writes of one sample step, in place. */
  method CopySample(atlas: Image, src: Image, s: Sample)
    requires atlas.data != src.data
    requires s.dst + 2 < atlas.data.Length && s.src + 2 < src.data.Length
    modifies atlas.data
    ensures atlas.data[..] == Paint(old(atlas.data[..]), src.data[..], s)
  {
    atlas.data[s.dst] := src.data[s.src];
    atlas.data[s.dst + 1] := src.data[s.src + 1];
    atlas.data[s.dst + 2] := src.data[s.src + 2];
  }

  /** One sample of the inner loop: the row from beta is that sample followed by the row from
      the next beta, or just that sample when the step is unbounded; a finite step brings the row
      closer to its end. */
  lemma SweepRowStep(atlas: seq<uint8>, painted: seq<uint8>, f: FaceSweep, alpha: real, beta: real, p: Pass)
    requires SweepFits(f, p) && |atlas| >= AtlasSize(p)
    requires InSweep(alpha, beta) && painted == Paint(atlas, p.srcData[f.image], f.sample(alpha, beta))
    ensures f.stepB.Unbounded? ==> SweepRow(atlas, f, alpha, beta, p) == painted
    ensures f.stepB.By? ==>
      && 0.0 <= beta + f.stepB.delta
      && 0 <= StepsLeft(beta + f.stepB.delta, 1.0 - alpha, f.stepB) < StepsLeft(beta, 1.0 - alpha, f.stepB)
      && SweepRow(atlas, f, alpha, beta, p) == SweepRow(painted, f, alpha, beta + f.stepB.delta, p)
  {
    if f.stepB.By? {
      StepsLeftDecreases(beta, 1.0 - alpha, f.stepB.delta);
    }
  }

  /** The inner sweep loop: one row of samples at fixed alpha, written into the atlas in place. */
  method SweepTriangleRow(atlas: Image, src: Image, f: FaceSweep, alpha: real, p: Pass)
    requires SweepFits(f, p) && 0.0 <= alpha < 1.0
    requires atlas.data != src.data && atlas.data.Length >= AtlasSize(p)
    requires src.data[..] == p.srcData[f.image]
    modifies atlas.data
    ensures atlas.data[..] == SweepRow(old(atlas.data[..]), f, alpha, 0.0, p)
  {
    var beta := 0.0;
    while beta < 1.0 - alpha
      invariant 0.0 <= beta
      invariant SweepRow(atlas.data[..], f, alpha, beta, p) == SweepRow(old(atlas.data[..]), f, alpha, 0.0, p)
      decreases StepsLeft(beta, 1.0 - alpha, f.stepB)
    {
      ghost var before := atlas.data[..];
      assert InSweep(alpha, beta);
      CopySample(atlas, src, f.sample(alpha, beta));
      SweepRowStep(before, atlas.data[..], f, alpha, beta, p);
      if f.stepB.Unbounded? {
        break;
      }
      beta := beta + f.stepB.delta;
    }
  }

  /** One row of the outer loop: the face sweep from alpha is that row followed by the sweep from
      the next alpha, or just that row when the step is unbounded; a finite step brings the sweep
      closer to its end. */
  lemma SweepFaceStep(atlas: seq<uint8>, row: seq<uint8>, f: FaceSweep, alpha: real, p: Pass)
    requires SweepFits(f, p) && |atlas| >= AtlasSize(p)
    requires 0.0 <= alpha < 1.0 && row == SweepRow(atlas, f, alpha, 0.0, p)
    ensures f.stepA.Unbounded? ==> SweepFace(atlas, f, alpha, p) == row
    ensures f.stepA.By? ==>
      && 0.0 <= alpha + f.stepA.delta
      && 0 <= StepsLeft(alpha + f.stepA.delta, 1.0, f.stepA) < StepsLeft(alpha, 1.0, f.stepA)
      && SweepFace(atlas, f, alpha, p) == SweepFace(row, f, alpha + f.stepA.delta, p)
  {
    if f.stepA.By? {
      StepsLeftDecreases(alpha, 1.0, f.stepA.delta);
    }
  }

  /** The two nested sweep loops over one face, writing into the atlas in place. */
  method SweepTriangle(atlas: Image, src: Image, f: FaceSweep, p: Pass)
    requires SweepFits(f, p)
    requires atlas.data != src.data && atlas.data.Length >= AtlasSize(p)
    requires src.data[..] == p.srcData[f.image]
    modifies atlas.data
    ensures atlas.data[..] == SweepFace(old(atlas.data[..]), f, 0.0, p)
  {
    var alpha := 0.0;
    while alpha < 1.0
      invariant 0.0 <= alpha
      invariant SweepFace(atlas.data[..], f, alpha, p) == SweepFace(old(atlas.data[..]), f, 0.0, p)
      decreases StepsLeft(alpha, 1.0, f.stepA)
    {
      ghost var rowStart := atlas.data[..];
      SweepTriangleRow(atlas, src, f, alpha, p);
      SweepFaceStep(rowStart, atlas.data[..], f, alpha, p);
      if f.stepA.Unbounded? {
        break;
      }
      alpha := alpha + f.stepA.delta;
    }
  }
}
