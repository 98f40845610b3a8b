/** MKV_Data: one camera recording. The logic around the sensor SDK: which recording is the main
    camera, the timestamp of a capture, the BGRA-to-RGB conversion of a decoded colour frame,
    the extrinsic matrix read from a calibration file, and the retry loop that finds the next
    decodable frame. */
module MkvData {
  import opened Types
  import opened Images

  /** k4a_wired_sync_mode_t */
  datatype SyncMode = Standalone | Master | Subordinate

  /** A k4a image of a capture, reduced to its device timestamp in microseconds. */
  datatype SensorImage = SensorImage(deviceTimestampUsec: uint64)

  /** k4a_capture_t: the colour, depth and IR images a capture may hold. */
  datatype Capture = Capture(color: Option<SensorImage>, depth: Option<SensorImage>, ir: Option<SensorImage>)

  /** open3d::geometry::RGBDImage: a colour and a depth image. */
  datatype RgbdImage = RgbdImage(color: seq<uint8>, depth: seq<uint8>)

  /** The static main_camera_data: the recording registered as main camera, if any. */
  class CameraRegistry {
    var mainCamera: Recording?

    constructor ()
      ensures mainCamera == null
    {
      mainCamera := null;
    }
  }

  /** What Calibrate does to the registration, or the error it raises. */
  function CalibrateStep(main: Recording?, cam: Recording, mode: SyncMode): (r: Outcome<Recording?>)
    ensures mode == Master && main == null ==> r == Returned(cam)
    ensures mode == Master && main != null ==> r.Threw?
    ensures mode == Subordinate ==> r == Returned(main)
    ensures mode == Standalone ==> r.Threw?
  {
    match mode
    case Master =>
      if main == null then Returned(cam)
      else Threw("Conflict between " + main.mkvFile + " and " + cam.mkvFile + " over main camera")
    case Subordinate => Returned(main)
    case Standalone => Threw("Bad record configuration on: " + cam.mkvFile)
  }

  /** What the destructor does to the registration. */
  function DestroyStep(main: Recording?, cam: Recording): (r: Recording?)
    ensures main == cam ==> r == null
    ensures main != cam ==> r == main
  {
    if main == cam then null else main
  }

  /** The recordings calibrated in order, stopping at the first error. */
  function CalibrateAll(main: Recording?, cams: seq<(Recording, SyncMode)>): Outcome<Recording?>
    decreases |cams|
  {
    if |cams| == 0 then Returned(main)
    else
      var r := CalibrateStep(main, cams[0].0, cams[0].1);
      if r.Threw? then r else CalibrateAll(r.value, cams[1..])
  }

  function CountMasters(cams: seq<(Recording, SyncMode)>): nat {
    if |cams| == 0 then 0 else (if cams[0].1 == Master then 1 else 0) + CountMasters(cams[1..])
  }

  /** The first recording in MASTER mode, if any. */
  function FirstMaster(cams: seq<(Recording, SyncMode)>): Recording? {
    if |cams| == 0 then null else if cams[0].1 == Master then cams[0].0 else FirstMaster(cams[1..])
  }

  predicate NoStandalone(cams: seq<(Recording, SyncMode)>) {
    forall i :: 0 <= i < |cams| ==> cams[i].1 != Standalone
  }

  /** Calibrating MASTER and SUBORDINATE recordings in turn with no main camera registered
      succeeds exactly when at most one is MASTER, and then that one is the main camera. */
  lemma {:induction false} MainCameraIsFirstMaster(cams: seq<(Recording, SyncMode)>)
    requires NoStandalone(cams)
    ensures CalibrateAll(null, cams).Returned? <==> CountMasters(cams) <= 1
    ensures CalibrateAll(null, cams).Returned? ==> CalibrateAll(null, cams).value == FirstMaster(cams)
    decreases |cams|
  {
    if |cams| > 0 {
      if cams[0].1 == Master {
        KeepsMainCamera(cams[0].0, cams[1..]);
      } else {
        MainCameraIsFirstMaster(cams[1..]);
      }
    }
  }

  /** With a main camera registered, SUBORDINATE recordings leave it and any MASTER one is a
      conflict. */
  lemma {:induction false} KeepsMainCamera(main: Recording, cams: seq<(Recording, SyncMode)>)
    requires NoStandalone(cams)
    ensures CalibrateAll(main, cams).Returned? <==> CountMasters(cams) == 0
    ensures CalibrateAll(main, cams).Returned? ==> CalibrateAll(main, cams).value == main
    decreases |cams|
  {
    if |cams| > 0 {
      KeepsMainCamera(main, cams[1..]);
    }
  }

  /** Once the main camera is destroyed, the next MASTER recording to calibrate takes its place;
      destroying any other recording leaves the main camera registered. */
  lemma DestroyFreesMainCamera(main: Recording, other: Recording, next: Recording)
    requires other != main
    ensures DestroyStep(main, other) == main
    ensures CalibrateStep(DestroyStep(main, main), next, Master) == Returned(next)
    ensures CalibrateStep(DestroyStep(main, other), next, Master).Threw?
  {
  }

  /** The reference of GetCaptureTimestamp: the least device timestamp of the images present,
      or the all-ones sentinel when none is. */
  function MinTimestamp(images: seq<Option<SensorImage>>): (t: uint64)
    ensures forall i :: 0 <= i < |images| && images[i].Some? ==> t <= images[i].value.deviceTimestampUsec
    ensures t == MaxUint64 || exists i :: 0 <= i < |images| && images[i].Some? && t == images[i].value.deviceTimestampUsec
  {
    if |images| == 0 then MaxUint64
    else
      var rest := MinTimestamp(images[..|images| - 1]);
      var last := images[|images| - 1];
      if last.Some? && last.value.deviceTimestampUsec < rest then last.value.deviceTimestampUsec
      else rest
  }

  /** A capture's colour, depth and IR images in that order. */
  function ImagesOf(capture: Capture): seq<Option<SensorImage>> {
    [capture.color, capture.depth, capture.ir]
  }

  /** k4a_result_t of the playback calls this model looks at. */
  datatype PlaybackStatus = Succeeded | Failed

  /** MKV_Data: one recording, its captures in stream order and the current one. */
  class Recording {
    const mkvFile: string
    /** The captures k4a_playback_get_next_capture hands out, in order. */
    const captures: seq<Capture>
    /** The current capture. */
    var capturePos: nat
    /** _timestamp: the timestamp of the current capture. */
    var timestamp: uint64

    ghost predicate Valid()
      reads this
    {
      capturePos < |captures|
    }

    constructor (mkvFile: string, captures: seq<Capture>)
      requires |captures| > 0
      ensures this.mkvFile == mkvFile && this.captures == captures
      ensures capturePos == 0 && timestamp == MinTimestamp(ImagesOf(captures[0]))
      ensures Valid()
    {
      this.mkvFile := mkvFile;
      this.captures := captures;
      capturePos := 0;
      timestamp := MinTimestamp(ImagesOf(captures[0]));
    }

    /** The MKV_Data constructor ends by cycling forwards onto the first capture of the stream:
        a stream without captures raises at once, otherwise the recording sits at its first
        capture with that capture's timestamp. */
    static method Open(mkvFile: string, captures: seq<Capture>) returns (r: Outcome<Recording>)
      ensures |captures| == 0 <==> r == Threw("Stream has reached EOF on: " + mkvFile)
      ensures |captures| > 0 ==>
        && r.Returned? && fresh(r.value) && r.value.Valid()
        && r.value.mkvFile == mkvFile && r.value.captures == captures
        && r.value.capturePos == 0 && r.value.timestamp == MinTimestamp(ImagesOf(captures[0]))
    {
      if |captures| == 0 {
        return Threw("Stream has reached EOF on: " + mkvFile);
      }
      var recording := new Recording(mkvFile, captures);
      return Returned(recording);
    }

    /** Calibrate: open the playback, read its configuration, then register this recording by
        its sync mode. Each LOG_ERROR raises. */
    method Calibrate(registry: CameraRegistry, openResult: PlaybackStatus, configResult: PlaybackStatus, mode: SyncMode)
      returns (r: Outcome<()>)
      modifies registry
      ensures openResult == Failed ==> r == Threw("Failed to open file: " + mkvFile)
      ensures openResult == Succeeded && configResult == Failed ==> r == Threw("Failed to get record configuration from: " + mkvFile)
      ensures openResult == Succeeded && configResult == Succeeded ==>
        var step := CalibrateStep(old(registry.mainCamera), this, mode);
        && (r.Returned? <==> step.Returned?)
        && (r.Threw? ==> r == Threw(step.message))
      ensures r.Returned? ==> registry.mainCamera == CalibrateStep(old(registry.mainCamera), this, mode).value
      ensures r.Threw? ==> registry.mainCamera == old(registry.mainCamera)
    {
      if openResult != Succeeded {
        return Threw("Failed to open file: " + mkvFile);
      }
      if configResult != Succeeded {
        return Threw("Failed to get record configuration from: " + mkvFile);
      }
      match mode {
        case Master =>
          if registry.mainCamera == null {
            registry.mainCamera := this;
          } else {
            return Threw("Conflict between " + registry.mainCamera.mkvFile + " and " + mkvFile + " over main camera");
          }
        case Subordinate =>
        case Standalone =>
          return Threw("Bad record configuration on: " + mkvFile);
      }
      return Returned(());
    }

    /** ~MKV_Data: drops the registration if this recording holds it. */
    method Destroy(registry: CameraRegistry)
      modifies registry
      ensures registry.mainCamera == DestroyStep(old(registry.mainCamera), this)
    {
      if registry.mainCamera == this {
        registry.mainCamera := null;
      }
    }

    /** GetCaptureTimestamp: folds the minimum over the images present, from the sentinel -1
        converted to uint64. */
    method GetCaptureTimestamp() returns (minTimestamp: uint64)
      requires Valid()
      ensures minTimestamp == MinTimestamp(ImagesOf(captures[capturePos]))
    {
      minTimestamp := MaxUint64;
      var images := ImagesOf(captures[capturePos]);
      var i := 0;
      while i < 3
        invariant 0 <= i <= 3
        invariant minTimestamp == MinTimestamp(images[..i])
      {
        assert images[..i + 1][..i] == images[..i];
        if images[i].Some? {
          var ts := images[i].value.deviceTimestampUsec;
          if ts < minTimestamp {
            minTimestamp := ts;
          }
        }
        i := i + 1;
      }
      assert images[..3] == images;
    }

    /** CycleCaptureForwards: moves to the next capture and takes its timestamp; at the end of
        the stream it raises. */
    method CycleCaptureForwards() returns (r: Outcome<()>)
      requires Valid()
      modifies this`capturePos, this`timestamp
      ensures Valid()
      ensures old(capturePos) + 1 < |captures| ==>
        r.Returned? && capturePos == old(capturePos) + 1 && timestamp == MinTimestamp(ImagesOf(captures[capturePos]))
      ensures old(capturePos) + 1 >= |captures| ==>
        r == Threw("Stream has reached EOF on: " + mkvFile) && capturePos == old(capturePos) && timestamp == old(timestamp)
    {
      if capturePos + 1 >= |captures| {
        return Threw("Stream has reached EOF on: " + mkvFile);
      }
      capturePos := capturePos + 1;
      timestamp := GetCaptureTimestamp();
      return Returned(());
    }

    /** GetFrameRGBD: decodes the current capture and, while that fails, cycles forward and
        tries again. The decoder is a parameter. */
    method GetFrameRgbd(decompress: Capture -> Option<RgbdImage>) returns (r: Outcome<RgbdImage>)
      requires Valid()
      modifies this`capturePos, this`timestamp
      ensures Valid()
      ensures r.Returned? <==> FirstDecodable(captures, old(capturePos), decompress).Some?
      ensures r.Returned? ==>
        && capturePos == FirstDecodable(captures, old(capturePos), decompress).value
        && decompress(captures[capturePos]) == Some(r.value)
      ensures forall p :: old(capturePos) <= p < capturePos ==> decompress(captures[p]).None?
      ensures r.Threw? ==> r == Threw("Stream has reached EOF on: " + mkvFile) && capturePos == |captures| - 1
    {
      ghost var start := capturePos;
      var rgbd := decompress(captures[capturePos]);
      var validFrame := rgbd.Some?;
      while !validFrame
        invariant Valid() && start <= capturePos
        invariant FirstDecodable(captures, capturePos, decompress) == FirstDecodable(captures, start, decompress)
        invariant forall p :: start <= p < capturePos ==> decompress(captures[p]).None?
        invariant rgbd == decompress(captures[capturePos]) && validFrame == rgbd.Some?
        decreases |captures| - capturePos
      {
        FirstDecodableSkips(captures, capturePos, decompress);
        var cycled := CycleCaptureForwards();
        if cycled.Threw? {
          FirstDecodableLast(captures, capturePos, decompress);
          return Threw(cycled.message);
        }
        rgbd := decompress(captures[capturePos]);
        validFrame := rgbd.Some?;
      }
      FirstDecodableHere(captures, capturePos, decompress);
      return Returned(rgbd.value);
    }
  }

  /** The first capture from position pos on that decodes. */
  function FirstDecodable(captures: seq<Capture>, pos: nat, decompress: Capture -> Option<RgbdImage>): (r: Option<nat>)
    ensures r.Some? ==> pos <= r.value < |captures| && decompress(captures[r.value]).Some?
    ensures r.Some? ==> forall p :: pos <= p < r.value ==> decompress(captures[p]).None?
    ensures r.None? ==> forall p :: pos <= p < |captures| ==> decompress(captures[p]).None?
    decreases |captures| - pos
  {
    if pos >= |captures| then None
    else if decompress(captures[pos]).Some? then Some(pos)
    else FirstDecodable(captures, pos + 1, decompress)
  }

  lemma FirstDecodableSkips(captures: seq<Capture>, pos: nat, decompress: Capture -> Option<RgbdImage>)
    requires pos < |captures| && decompress(captures[pos]).None?
    ensures FirstDecodable(captures, pos, decompress) == FirstDecodable(captures, pos + 1, decompress)
  {
  }

  lemma FirstDecodableLast(captures: seq<Capture>, pos: nat, decompress: Capture -> Option<RgbdImage>)
    requires pos + 1 >= |captures| && pos < |captures| && decompress(captures[pos]).None?
    ensures FirstDecodable(captures, pos, decompress).None?
  {
  }

  lemma FirstDecodableHere(captures: seq<Capture>, pos: nat, decompress: Capture -> Option<RgbdImage>)
    requires pos < |captures| && decompress(captures[pos]).Some?
    ensures FirstDecodable(captures, pos, decompress) == Some(pos)
  {
  }

  // ---------------------------------------------------------------------------------------
  // ConvertBGRAToRGB
  // ---------------------------------------------------------------------------------------

  /** The RGB bytes of n BGRA pixels: channel c of pixel k is channel 2 - c of the same pixel. */
  function RgbOf(bgra: seq<uint8>, n: nat): (rgb: seq<uint8>)
    requires |bgra| >= 4 * n
    ensures |rgb| == 3 * n
  {
    seq(3 * n, p requires 0 <= p < 3 * n => bgra[(p / 3) * 4 + 2 - p % 3])
  }

  /** Channel c of pixel k of the RGB buffer. */
  lemma RgbOfAt(bgra: seq<uint8>, n: nat, k: nat, c: nat)
    requires |bgra| >= 4 * n && k < n && c < 3
    ensures RgbOf(bgra, n)[3 * k + c] == bgra[4 * k + 2 - c]
  {
    assert (3 * k + c) / 3 == k && (3 * k + c) % 3 == c;
  }

  /** For every pixel (u, v) of a w x h image and every c < 3, rgb(u, v, c) = bgra(u, v, 2 - c). */
  lemma {:induction false} RgbChannelMap(bgra: seq<uint8>, w: nat, h: nat, u: nat, v: nat, c: nat)
    requires |bgra| >= 4 * (w * h) && u < w && v < h && c < 3
    ensures PixelOffset(u, v, c, w, 3) < 3 * (w * h) && PixelOffset(u, v, 2 - c, w, 4) < |bgra|
    ensures RgbOf(bgra, w * h)[PixelOffset(u, v, c, w, 3)] == bgra[PixelOffset(u, v, 2 - c, w, 4)]
  {
    var k := v * w + u;
    MulMonotone(v, h - 1, w);
    assert k < w * h;
    RgbOfAt(bgra, w * h, k, c);
  }

  /** The alpha channel is never read: BGRA buffers that differ only in alpha give the same RGB. */
  lemma {:induction false} RgbIgnoresAlpha(a: seq<uint8>, b: seq<uint8>, n: nat)
    requires |a| >= 4 * n && |b| >= 4 * n
    requires forall p :: 0 <= p < 4 * n && p % 4 != 3 ==> a[p] == b[p]
    ensures RgbOf(a, n) == RgbOf(b, n)
  {
    forall p | 0 <= p < 3 * n
      ensures RgbOf(a, n)[p] == RgbOf(b, n)[p]
    {
      var k, c := p / 3, p % 3;
      assert p == 3 * k + c;
      RgbOfAt(a, n, k, c);
      RgbOfAt(b, n, k, c);
      assert (4 * k + 2 - c) % 4 == 2 - c;
    }
  }

  /** The checks of ConvertBGRAToRGB in order; the first that fails raises its message. */
  function ConversionError(bgra: Image, rgb: Image): (e: Option<string>)
    ensures e.None? <==>
      && bgra.bytesPerChannel == 1 && rgb.bytesPerChannel == 1 && bgra.channels == 4 && rgb.channels == 3
      && bgra.width == rgb.width && bgra.height == rgb.height
  {
    if bgra.bytesPerChannel != 1 then Some("BGRA input image must have 1 byte per channel.")
    else if rgb.bytesPerChannel != 1 then Some("RGB output image must have 1 byte per channel.")
    else if bgra.channels != 4 then Some("BGRA input image must have 4 channels.")
    else if rgb.channels != 3 then Some("RGB output image must have 3 channels.")
    else if bgra.width != rgb.width || bgra.height != rgb.height then
      Some("BGRA input image and RGB output image have different dimensions.")
    else None
  }

  /** ConvertBGRAToRGB: after its checks, writes channel c of every RGB pixel from channel 2 - c
      of the same BGRA pixel, row by row. */
  method ConvertBgraToRgb(bgra: Image, rgb: Image) returns (r: Outcome<()>)
    requires bgra.Valid() && rgb.Valid() && bgra.data != rgb.data
    modifies rgb.data
    ensures bgra.data[..] == old(bgra.data[..])
    ensures ConversionError(bgra, rgb).Some? ==> r == Threw(ConversionError(bgra, rgb).value) && rgb.data[..] == old(rgb.data[..])
    ensures ConversionError(bgra, rgb).None? ==> r.Returned? && rgb.data[..] == RgbOf(bgra.data[..], bgra.width * bgra.height)
  {
    if bgra.bytesPerChannel != 1 {
      return Threw("BGRA input image must have 1 byte per channel.");
    }
    if rgb.bytesPerChannel != 1 {
      return Threw("RGB output image must have 1 byte per channel.");
    }
    if bgra.channels != 4 {
      return Threw("BGRA input image must have 4 channels.");
    }
    if rgb.channels != 3 {
      return Threw("RGB output image must have 3 channels.");
    }
    if bgra.width != rgb.width || bgra.height != rgb.height {
      return Threw("BGRA input image and RGB output image have different dimensions.");
    }
    assert ConversionError(bgra, rgb).None?;
    var w, h := bgra.width, bgra.height;
    ghost var n := w * h;
    ghost var src := bgra.data[..];
    var v := 0;
    while v < h
      invariant 0 <= v <= h
      invariant bgra.data[..] == src
      invariant forall p :: 0 <= p < 3 * (v * w) ==> rgb.data[p] == RgbOf(src, n)[p]
    {
      MulMonotone(v + 1, h, w);
      ConvertRow(bgra, rgb, v, src, n);
      v := v + 1;
    }
    assert rgb.data[..] == RgbOf(src, n);
    return Returned(());
  }

  /** The two inner loops of ConvertBGRAToRGB: row v, pixel by pixel, channel by channel. */
  method ConvertRow(bgra: Image, rgb: Image, v: nat, ghost src: seq<uint8>, ghost n: nat)
    requires bgra.data != rgb.data && bgra.data[..] == src
    requires bgra.channels == 4 && rgb.channels == 3 && bgra.width == rgb.width
    requires n == bgra.width * bgra.height && (v + 1) * bgra.width <= n
    requires bgra.data.Length == 4 * n && rgb.data.Length == 3 * n
    requires forall p :: 0 <= p < 3 * (v * bgra.width) ==> rgb.data[p] == RgbOf(src, n)[p]
    modifies rgb.data
    ensures forall p :: 0 <= p < 3 * ((v + 1) * bgra.width) ==> rgb.data[p] == RgbOf(src, n)[p]
  {
    var w := bgra.width;
    ghost var k := v * w;
    var u := 0;
    while u < w
      invariant 0 <= u <= w && k == v * w + u
      invariant forall p :: 0 <= p < 3 * k ==> rgb.data[p] == RgbOf(src, n)[p]
    {
      var c := 0;
      while c < 3
        invariant 0 <= c <= 3
        invariant forall p :: 0 <= p < 3 * k + c ==> rgb.data[p] == RgbOf(src, n)[p]
      {
        assert PixelOffset(u, v, c, w, 3) == 3 * k + c;
        assert PixelOffset(u, v, 2 - c, w, 4) == 4 * k + 2 - c;
        RgbOfAt(src, n, k, c);
        rgb.data[PixelOffset(u, v, c, w, 3)] := bgra.data[PixelOffset(u, v, 2 - c, w, 4)];
        c := c + 1;
      }
      u := u + 1;
      k := k + 1;
    }
  }

  // ---------------------------------------------------------------------------------------
  // GetExtrinsicTensor
  // ---------------------------------------------------------------------------------------

  /** Row i of a 3 x 3 matrix given row-major, times vector t. */
  function RowTimes(r: seq<real>, i: nat, t: seq<real>): real
    requires |r| == 9 && i < 3 && |t| == 3
  {
    r[3 * i] * t[0] + r[3 * i + 1] * t[1] + r[3 * i + 2] * t[2]
  }

  /** The matrix a calibration's tokens describe before inversion: tokens 0-2 are the
      translation t, tokens 3-11 the rotation R row-major, and the matrix is [R | R t] over the
      row 0 0 0 1. */
  function ExtrinsicMatrix(tokens: seq<real>): (m: seq<seq<real>>)
    requires |tokens| >= 12
    ensures |m| == 4 && forall i :: 0 <= i < 4 ==> |m[i]| == 4
    ensures forall a, b :: 0 <= a < 3 && 0 <= b < 3 ==> m[a][b] == tokens[3 * a + b + 3]
    ensures forall i :: 0 <= i < 3 ==>
      m[i][3] == tokens[3 * i + 3] * tokens[0] + tokens[3 * i + 4] * tokens[1] + tokens[3 * i + 5] * tokens[2]
    ensures m[3] == [0.0, 0.0, 0.0, 1.0]
  {
    var t := tokens[..3];
    var r := tokens[3..12];
    [[r[0], r[1], r[2], RowTimes(r, 0, t)],
     [r[3], r[4], r[5], RowTimes(r, 1, t)],
     [r[6], r[7], r[8], RowTimes(r, 2, t)],
     [0.0, 0.0, 0.0, 1.0]]
  }

  /** The matrix maps a point x, in homogeneous form, to R (x + t). */
  lemma {:induction false} ExtrinsicMapsPoint(tokens: seq<real>, x: seq<real>)
    requires |tokens| >= 12 && |x| == 3
    ensures var m := ExtrinsicMatrix(tokens);
      forall i :: 0 <= i < 3 ==>
        m[i][0] * x[0] + m[i][1] * x[1] + m[i][2] * x[2] + m[i][3] * 1.0
        == RowTimes(tokens[3..12], i, [x[0] + tokens[0], x[1] + tokens[1], x[2] + tokens[2]])
  {
    var m := ExtrinsicMatrix(tokens);
    var r := tokens[3..12];
    forall i | 0 <= i < 3
      ensures m[i][0] * x[0] + m[i][1] * x[1] + m[i][2] * x[2] + m[i][3] * 1.0
        == RowTimes(r, i, [x[0] + tokens[0], x[1] + tokens[1], x[2] + tokens[2]])
    {
      var a, b, c := r[3 * i], r[3 * i + 1], r[3 * i + 2];
      assert m[i][0] == a && m[i][1] == b && m[i][2] == c;
      assert m[i][3] == a * tokens[0] + b * tokens[1] + c * tokens[2];
      Distribute(a, x[0], tokens[0]);
      Distribute(b, x[1], tokens[1]);
      Distribute(c, x[2], tokens[2]);
    }
  }

  lemma Distribute(a: real, x: real, y: real)
    ensures a * (x + y) == a * x + a * y
  {
  }

  /** Entry j of a row-major 3 x 3 matrix sits at row j / 3, column j % 3. */
  lemma RowMajorIndex(j: int, row: int, col: int)
    requires 0 <= col < 3 && j == 3 * row + col
    ensures j / 3 == row && j % 3 == col
  {
  }

  /** The second loop of GetExtrinsicTensor: tokens 3-11 become r_mat_3, entry j at row j / 3
      and column j % 3. */
  method FillRotation(tokens: seq<real>, rMat: array2<real>)
    requires |tokens| >= 12 && rMat.Length0 == 3 && rMat.Length1 == 3
    modifies rMat
    ensures forall a, b :: 0 <= a < 3 && 0 <= b < 3 ==> rMat[a, b] == tokens[3 * a + b + 3]
  {
    var j := 0;
    ghost var row, col := 0, 0;
    while j < 9
      invariant 0 <= j <= 9 && 0 <= col < 3 && j == 3 * row + col
      invariant forall a, b :: 0 <= a < 3 && 0 <= b < 3 && 3 * a + b < j ==> rMat[a, b] == tokens[3 * a + b + 3]
    {
      RowMajorIndex(j, row, col);
      rMat[j / 3, j % 3] := tokens[j + 3];
      j := j + 1;
      if col == 2 {
        row, col := row + 1, 0;
      } else {
        col := col + 1;
      }
    }
  }

  /** GetExtrinsicTensor up to the inversion: the translation and the rotation filled from the
      tokens in two loops, then assembled into a 4 x 4 matrix starting from the identity. */
  method GetExtrinsicMatrix(tokens: seq<real>) returns (m: seq<seq<real>>)
    requires |tokens| >= 12
    ensures |m| == 4 && forall i :: 0 <= i < 4 ==> |m[i]| == 4
    ensures m == ExtrinsicMatrix(tokens)
  {
    var translation := new real[3];
    var rMat := new real[3, 3]((i, j) => if i == j then 1.0 else 0.0);
    var j := 0;
    while j < 3
      modifies translation
      invariant 0 <= j <= 3
      invariant forall q :: 0 <= q < j ==> translation[q] == tokens[q]
    {
      translation[j] := tokens[j];
      j := j + 1;
    }
    FillRotation(tokens, rMat);
    // final_mat: the rotation block, the column r_mat_3 * translation, and the identity's last row
    var r := [rMat[0, 0], rMat[0, 1], rMat[0, 2], rMat[1, 0], rMat[1, 1], rMat[1, 2], rMat[2, 0], rMat[2, 1], rMat[2, 2]];
    var t := translation[..];
    assert r == tokens[3..12] && t == tokens[..3];
    m := [[r[0], r[1], r[2], RowTimes(r, 0, t)],
          [r[3], r[4], r[5], RowTimes(r, 1, t)],
          [r[6], r[7], r[8], RowTimes(r, 2, t)],
          [0.0, 0.0, 0.0, 1.0]];
  }
}
