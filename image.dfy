/** geometry::Image: a width x height pixel buffer with a channel count and a byte depth. */
module Images {
  import opened Types

  class Image {
    const width: nat
    const height: nat
    const channels: nat
    const bytesPerChannel: nat
    /** data_: the pixel bytes, row after row, channels of a pixel side by side. */
    const data: array<uint8>

    /** The buffer is as large as Prepare makes it. */
    ghost predicate Valid() {
      data.Length == width * height * channels * bytesPerChannel
    }

    /** Image::Prepare on a fresh image: sizes the buffer and zero-fills it. */
    constructor Prepare(width: nat, height: nat, channels: nat, bytesPerChannel: nat)
      ensures Valid() && fresh(data)
      ensures this.width == width && this.height == height
      ensures this.channels == channels && this.bytesPerChannel == bytesPerChannel
      ensures forall i :: 0 <= i < data.Length ==> data[i] == 0
    {
      this.width := width;
      this.height := height;
      this.channels := channels;
      this.bytesPerChannel := bytesPerChannel;
      data := new uint8[width * height * channels * bytesPerChannel](_ => 0);
    }
  }

  /** Where PointerAt<uint8_t>(u, v, ch) points, counted in bytes from the start of data_. */
  function PixelOffset(u: nat, v: nat, ch: nat, width: nat, channels: nat): nat {
    (v * width + u) * channels + ch
  }

  /** Every channel of every pixel of a width x height x channels image lies inside its buffer. */
  lemma PixelOffsetInBounds(u: nat, v: nat, ch: nat, width: nat, height: nat, channels: nat)
    requires u < width && v < height && ch < channels
    ensures PixelOffset(u, v, ch, width, channels) < width * height * channels
  {
    var p := v * width + u;
    MulMonotone(v, height - 1, width);
    assert p <= height * width - 1;
    MulMonotone(p, height * width - 1, channels);
    assert p * channels + ch <= (height * width - 1) * channels + channels - 1;
  }

  lemma MulMonotone(a: nat, b: nat, c: nat)
    requires a <= b
    ensures a * c <= b * c
  {
  }
}
