/**
 * `PNGSaver` in src/renderer.rs: renders one large frame with its own
 * OpenCL renderer and turns the packed window words into the RGB byte
 * stream handed to the PNG encoder. The encoder, the file and the progress
 * messages are I/O and are not modelled; `save` returns the byte stream.
 */
module Export {
  import opened Colors
  import opened Julia
  import opened Renderer
  import opened FrameLoop

  /**
   * The three bytes `(u & 0x00FF0000) >> 16`, `(u & 0x0000FF00) >> 8` and
   * `u & 0x000000FF` of a packed word, alpha dropped. Put back under the
   * alpha byte they give the word again.
   */
  function RgbBytes(u: u32): (bytes: seq<u8>)
    ensures |bytes| == 3
    ensures Pack(u as int / 0x100_0000, bytes[0], bytes[1], bytes[2]) == u
  {
    PackOfFields(u);
    [(u as int / 0x1_0000) % 0x100, (u as int / 0x100) % 0x100, u as int % 0x100]
  }

  /** Unpacking inverts the RGB part of the packing. */
  lemma RgbBytesOfPack(a: u8, r: u8, g: u8, b: u8)
    ensures RgbBytes(Pack(a, r, g, b)) == [r, g, b]
  {
  }

  /** An encoded palette colour unpacks to its three channel bytes. */
  lemma RgbBytesOfEncode(c: LinSrgb)
    ensures RgbBytes(Encode(c)) == [Channel(c.red), Channel(c.green), Channel(c.blue)]
  {
  }

  /** The `map` to three bytes per pixel followed by `flatten`. */
  function PngData(buffer: seq<u32>): (data: seq<u8>)
    ensures |data| == 3 * |buffer|
    decreases |buffer|
  {
    if |buffer| == 0 then [] else RgbBytes(buffer[0]) + PngData(buffer[1..])
  }

  /** Bytes `3p`, `3p + 1`, `3p + 2` of the stream are the RGB bytes of pixel `p`. */
  lemma {:induction false} PngDataAt(buffer: seq<u32>, p: nat)
    requires p < |buffer|
    ensures PngData(buffer)[3 * p .. 3 * p + 3] == RgbBytes(buffer[p])
    decreases p
  {
    var head, tail := RgbBytes(buffer[0]), PngData(buffer[1..]);
    assert PngData(buffer) == head + tail;
    if p > 0 {
      PngDataAt(buffer[1..], p - 1);
      assert (head + tail)[3 * p .. 3 * p + 3] == tail[3 * (p - 1) .. 3 * (p - 1) + 3];
    }
  }

  /** `PNGSaver::WIDTH` and `PNGSaver::HEIGHT`: nine times the window. */
  const PNG_WIDTH: nat := WIDTH * 9
  const PNG_HEIGHT: nat := HEIGHT * 9

  /** The image is 10800 by 6075 pixels, well below `2^32` in all. */
  lemma PngSize()
    ensures PNG_WIDTH == 10_800 && PNG_HEIGHT == 6075
    ensures PNG_WIDTH * PNG_HEIGHT == 65_610_000 < U32_MODULUS
  {
  }

  lemma SmallIndex(p: nat)
    requires p < U32_MODULUS
    ensures p % U32_MODULUS == p
  {
  }

  /** `PNGSaver::MAX_ITERATIONS`. */
  const PNG_MAX_ITERATIONS: u32 := 1000

  /**
   * A buffer written by the kernel over the identity index buffer, with a
   * lookup buffer for cap 1000, turns into the bytes of the host pixel rule.
   */
  lemma {:induction false} SavedBytesAreHostPixels(buffer: seq<u32>, input: seq<u32>, re: real, im: real,
                                                   bounds: Bounds, lookup: seq<u32>, gradient: Gradient)
    requires |buffer| == |input| == PNG_WIDTH * PNG_HEIGHT
    requires forall i :: 0 <= i < |input| ==> input[i] as int == i % U32_MODULUS
    requires IsColorLookup(lookup, PNG_MAX_ITERATIONS, gradient)
    requires forall g :: 0 <= g < |buffer| ==>
      buffer[g] == KernelPixel(g, input, re, im, bounds, lookup, PNG_WIDTH, PNG_HEIGHT)
    ensures forall p :: 0 <= p < |buffer| ==>
      PngData(buffer)[3 * p .. 3 * p + 3]
        == RgbBytes(CpuPixel(p, PNG_WIDTH, PNG_HEIGHT, bounds, Complex(re, im), PNG_MAX_ITERATIONS as int, gradient))
  {
    forall p | 0 <= p < |buffer|
      ensures PngData(buffer)[3 * p .. 3 * p + 3]
        == RgbBytes(CpuPixel(p, PNG_WIDTH, PNG_HEIGHT, bounds, Complex(re, im), PNG_MAX_ITERATIONS as int, gradient))
    {
      PngDataAt(buffer, p);
      PngSize();
      SmallIndex(p);
      KernelMatchesCpu(p, input, Complex(re, im), bounds, lookup, PNG_MAX_ITERATIONS, PNG_WIDTH, PNG_HEIGHT, gradient);
    }
  }

  /** The saver owns one `OpenClRenderer` sized for the image. */
  class PngSaver {
    const internal: OpenClRenderer

    ghost predicate Valid()
      reads this, internal
    {
      && internal.Valid() && internal.width == PNG_WIDTH && internal.height == PNG_HEIGHT
      && IsColorLookup(internal.lookup, PNG_MAX_ITERATIONS, internal.gradient)
    }

    /**
     * `PNGSaver::new(julia)`: the renderer gets the image size, the fractal's
     * bounds and parameter, and a cap of 1000.
     */
    constructor (bounds: Bounds, add: Complex, gradient: Gradient)
      ensures Valid() && fresh(internal)
      ensures internal.bounds == bounds && internal.re == add.re && internal.im == add.im
      ensures IsColorLookup(internal.lookup, PNG_MAX_ITERATIONS, gradient)
    {
      internal := new OpenClRenderer(PNG_WIDTH, PNG_HEIGHT, bounds, add, PNG_MAX_ITERATIONS, gradient);
    }

    /**
     * `save`: one kernel dispatch into a fresh buffer of the image size,
     * then three bytes per pixel in buffer order. Byte `3p + c` is channel
     * `c` (red, green, blue) of pixel `p` as the host pixel rule colours it
     * with cap 1000: the image never holds more than `2^32` pixels, so the
     * index buffer is the identity and the kernel agrees with the host rule.
     */
    method Save() returns (data: seq<u8>)
      requires Valid()
      modifies internal
      ensures Valid()
      ensures internal.re == old(internal.re) && internal.im == old(internal.im)
      ensures internal.bounds == old(internal.bounds)
      ensures |data| == 3 * (PNG_WIDTH * PNG_HEIGHT)
      ensures forall p :: 0 <= p < PNG_WIDTH * PNG_HEIGHT ==>
        data[3 * p .. 3 * p + 3]
          == RgbBytes(CpuPixel(p, PNG_WIDTH, PNG_HEIGHT, internal.bounds, Complex(internal.re, internal.im),
                               PNG_MAX_ITERATIONS as int, internal.gradient))
    {
      var buffer := new u32[PNG_WIDTH * PNG_HEIGHT];
      internal.Render(buffer);
      data := PngData(buffer[..]);
      SavedBytesAreHostPixels(buffer[..], internal.input, internal.re, internal.im, internal.bounds,
                              internal.lookup, internal.gradient);
    }
  }
}
