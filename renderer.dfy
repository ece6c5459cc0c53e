/**
 * src/renderer.rs: the two rendering backends behind `Renderer`.
 *
 * `CpuRenderer` recomputes every pixel from the fractal each frame.
 * `OpenClRenderer` keeps device-side state (the flat index buffer, the kernel
 * arguments `re`, `im` and `bounds`, the colour lookup buffer, the output
 * buffer) and updates one piece of it per parameter hook. Device buffers
 * are modelled as sequences and the kernel as a method run once per global id.
 *
 * The palette (`get_color_gradient()`, `Gradient::get`, the `f32` division
 * that produces its argument, `LinSrgb::from`) is foreign floating-point
 * code: it enters as a function parameter, `gradient(n, d)`, the colour the
 * palette gives for the quotient `n / d`.
 */
module Renderer {
  import opened Colors
  import opened Julia

  /** A linear RGB colour as the palette returns it. */
  datatype LinSrgb = LinSrgb(red: real, green: real, blue: real)

  /** The palette colour for the quotient `n / d` of an escape count and a divisor. */
  type Gradient = (nat, nat) -> LinSrgb

  /**
   * `LinSrgb::encode()`, with the bit layout of `From<Color> for u32` and
   * alpha 1.0: the alpha byte is 255, so no encoded colour is 0.
   */
  function Encode(c: LinSrgb): (u: u32)
    ensures u / 0x100_0000 == 0xFF
    ensures u != 0
  {
    RgbIsOpaque(c.red, c.green, c.blue);
    ToU32(Rgb(c.red, c.green, c.blue))
  }

  /** The start value for the normalised pixel `(x, y)` in `bounds`. */
  function StartIn(bounds: Bounds, x: real, y: real): Complex
  {
    StartPoint((bounds.x0, bounds.x1), (bounds.y0, bounds.y1), x, y)
  }

  /** Flat pixel index `i` lies in column `i % width` and row `i / width`. */
  lemma PixelIndexInBounds(i: nat, width: nat, height: nat)
    requires width > 0
    ensures i % width < width
    ensures (i / width) * width + i % width == i
    ensures i < width * height ==> i / width < height
  {
    if i < width * height && i / width >= height {
      assert (i / width) * width >= height * width by {
        MultiplyMonotone(height, i / width, width);
      }
    }
  }

  lemma MultiplyMonotone(a: nat, b: nat, c: nat)
    requires a <= b
    ensures a * c <= b * c
  {
  }

  lemma FractionBounds(n: nat, d: nat)
    requires d > 0
    ensures 0.0 <= (n as real) / (d as real)
    ensures n < d ==> (n as real) / (d as real) < 1.0
  {
  }

  /**
   * The normalised coordinates `((i % width) / width, (i / width) / height)`
   * of flat pixel index `i`, used alike by the host loop and by the kernel.
   */
  function PixelPoint(i: nat, width: nat, height: nat): (p: (real, real))
    requires width > 0 && height > 0
    ensures 0.0 <= p.0 < 1.0 && 0.0 <= p.1
    ensures i < width * height ==> p.1 < 1.0
  {
    var x, y := i % width, i / width;
    PixelIndexInBounds(i, width, height);
    FractionBounds(x, width);
    FractionBounds(y, height);
    (x as real / width as real, y as real / height as real)
  }

  /** The escape count of flat pixel `i` under cap `cap`. */
  function PixelEscape(i: nat, width: nat, height: nat, bounds: Bounds, add: Complex, cap: nat): (j: nat)
    requires width > 0 && height > 0
    ensures j <= cap
  {
    var p := PixelPoint(i, width, height);
    EscapeTime(StartIn(bounds, p.0, p.1), add, cap)
  }

  // ---------------------------------------------------------------------
  // CpuRenderer
  // ---------------------------------------------------------------------

  /**
   * The host pixel rule: 0 ("inside the set") exactly when the escape count
   * equals `maxIterations`, otherwise the palette colour at
   * `j / (maxIterations - 1)`. The subtraction needs `maxIterations >= 1`.
   */
  function CpuPixel(i: nat, width: nat, height: nat, bounds: Bounds, add: Complex,
                    maxIterations: nat, gradient: Gradient): (v: u32)
    requires width > 0 && height > 0 && maxIterations >= 1
    ensures v == 0 <==> PixelEscape(i, width, height, bounds, add, maxIterations) == maxIterations
    ensures v != 0 ==> v / 0x100_0000 == 0xFF
  {
    var j := PixelEscape(i, width, height, bounds, add, maxIterations);
    var m := maxIterations - 1;
    if j != maxIterations then Encode(gradient(j, m)) else 0
  }

  /**
   * The per-slot fill of `CpuRenderer::render` (and of the frame loop):
   * every slot independently gets the pixel rule for its own index. The
   * parallel iteration is a sequential loop here; the slots are disjoint.
   */
  method FillPixels(buffer: array<u32>, width: nat, height: nat, bounds: Bounds, add: Complex,
                    maxIterations: nat, gradient: Gradient)
    requires buffer.Length > 0 ==> width > 0 && height > 0 && maxIterations >= 1
    modifies buffer
    ensures forall i :: 0 <= i < buffer.Length ==>
      buffer[i] == CpuPixel(i, width, height, bounds, add, maxIterations, gradient)
  {
    for i := 0 to buffer.Length
      invariant forall k :: 0 <= k < i ==>
        buffer[k] == CpuPixel(k, width, height, bounds, add, maxIterations, gradient)
    {
      var j := PixelEscape(i, width, height, bounds, add, maxIterations);
      var m := maxIterations - 1;
      if j != maxIterations {
        buffer[i] := Encode(gradient(j, m));
      } else {
        buffer[i] := 0;
      }
    }
  }

  /** `CpuRenderer`: no state; `gradient` stands for `get_color_gradient()`. */
  class CpuRenderer {
    const gradient: Gradient

    constructor (gradient: Gradient)
      ensures this.gradient == gradient
    {
      this.gradient := gradient;
    }

    /** `render`: fills the window buffer with the host pixel rule. */
    method Render(bounds: Bounds, add: Complex, maxIterations: nat, windowBuffer: array<u32>,
                  width: nat, height: nat)
      requires windowBuffer.Length > 0 ==> width > 0 && height > 0 && maxIterations >= 1
      modifies windowBuffer
      ensures forall i :: 0 <= i < windowBuffer.Length ==>
        windowBuffer[i] == CpuPixel(i, width, height, bounds, add, maxIterations, gradient)
    {
      FillPixels(windowBuffer, width, height, bounds, add, maxIterations, gradient);
    }

    // The three hooks keep nothing: no modifies clause, so no state changes.

    method OnAddChange(add: Complex)
    {
    }

    method OnBoundsChange(bounds: Bounds)
    {
    }

    method OnMaxIterationsChange(maxIterations: u32)
    {
    }
  }

  // ---------------------------------------------------------------------
  // OpenClRenderer
  // ---------------------------------------------------------------------

  /** Values of a `u32` counter wrap modulo 2^32. */
  const U32_MODULUS: nat := 0x1_0000_0000

  lemma WrapSuccessor(i: nat)
    ensures (i + 1) % U32_MODULUS == if i % U32_MODULUS + 1 == U32_MODULUS then 0 else i % U32_MODULUS + 1
  {
  }

  /**
   * The flat index buffer `[0, 1, ..., width * height - 1]` of
   * `OpenClRenderer::new`, written through a `u32` counter.
   */
  method IndexBuffer(width: nat, height: nat) returns (v: seq<u32>)
    ensures |v| == width * height
    ensures forall i :: 0 <= i < |v| ==> v[i] as int == i % U32_MODULUS
    ensures width * height <= U32_MODULUS ==> forall i :: 0 <= i < |v| ==> v[i] as int == i
  {
    var a := new u32[width * height];
    var m: u32 := 0;
    for i := 0 to a.Length
      invariant m as int == i % U32_MODULUS
      invariant forall k :: 0 <= k < i ==> a[k] as int == k % U32_MODULUS
    {
      a[i] := m;
      WrapSuccessor(i);
      m := if m as int + 1 == U32_MODULUS then 0 else m + 1;
    }
    v := a[..];
  }

  /**
   * A colour lookup buffer for cap `maxIterations`: `maxIterations + 1`
   * slots, slot 0 holding the cap (the kernel's loop bound) and slot `k`
   * the colour for escape count `k - 1`.
   */
  ghost predicate IsColorLookup(v: seq<u32>, maxIterations: u32, gradient: Gradient)
  {
    && |v| == maxIterations as int + 1
    && v[0] == maxIterations
    && forall k :: 1 <= k < |v| ==> v[k] == Encode(gradient(k - 1, maxIterations as int - 1))
  }

  /**
   * `calculate_color_lookup_buffer`. The enumerate index `i` of slot `i + 1`
   * stays below `maxIterations`, so the branch that would store 0 is never
   * taken and no slot after slot 0 holds 0.
   */
  method CalculateColorLookupBuffer(maxIterations: u32, gradient: Gradient) returns (v: seq<u32>)
    ensures IsColorLookup(v, maxIterations, gradient)
    ensures forall k :: 1 <= k < |v| ==> v[k] != 0
  {
    var n := maxIterations as int;
    var a := new u32[n + 1];
    a[0] := maxIterations;
    for i := 0 to n
      invariant a[0] == maxIterations
      invariant forall k :: 1 <= k <= i ==> a[k] == Encode(gradient(k - 1, n - 1))
    {
      var m := n - 1;
      if i != n {
        a[i + 1] := Encode(gradient(i, m));
      } else {
        assert false;
      }
    }
    v := a[..];
  }

  /**
   * What the `julia` kernel writes for global id `gid`: the lookup colour
   * `lookup[i + 1]` for the first check `i < lookup[0]` that escapes, and 0
   * when none does.
   */
  function KernelPixel(gid: nat, input: seq<u32>, re: real, im: real, bounds: Bounds,
                       lookup: seq<u32>, width: nat, height: nat): u32
    requires gid < |input| && width > 0 && height > 0
    requires |lookup| > 0 && lookup[0] as int < |lookup|
  {
    var cap := lookup[0] as int;
    var e := PixelEscape(input[gid] as nat, width, height, bounds, Complex(re, im), cap);
    if e < cap then lookup[e + 1] else 0
  }

  /**
   * The `julia` kernel for one global id. Its reads `lookup[i + 1]` stay in
   * bounds because `i < lookup[0] < |lookup|`.
   */
  method JuliaKernel(gid: nat, input: seq<u32>, re: real, im: real, bounds: Bounds,
                     lookup: seq<u32>, width: nat, height: nat) returns (out: u32)
    requires gid < |input| && width > 0 && height > 0
    requires |lookup| > 0 && lookup[0] as int < |lookup|
    ensures out == KernelPixel(gid, input, re, im, bounds, lookup, width, height)
  {
    var x := input[gid] as nat % width;
    var y := input[gid] as nat / width;
    var dx := (x as real) / (width as real);
    var dy := (y as real) / (height as real);
    var zr := Lerp(bounds.x0, bounds.x1, dx);
    var zi := Lerp(bounds.y0, bounds.y1, dy);
    ghost var z0 := Complex(zr, zi);
    ghost var c := Complex(re, im);
    ghost var cap := lookup[0] as int;
    out := 0;
    var i := 0;
    while i < lookup[0] as int
      invariant 0 <= i <= cap
      invariant Complex(zr, zi) == Orbit(z0, c, i)
      invariant forall k :: 0 <= k < i ==> !Escaped(Orbit(z0, c, k))
    {
      KernelEscapeTest(zr, zi);
      if zr * zr + zi * zi >= 4.0 {
        out := lookup[i + 1];
        FirstEscapeIsEscapeTime(z0, c, cap, i);
        return;
      }
      var tmpr := zr * zr - zi * zi;
      var tmpi := 2.0 * zr * zi;
      KernelStep(zr, zi, re, im);
      zr := tmpr + re;
      zi := tmpi + im;
      i := i + 1;
    }
    FirstEscapeIsEscapeTime(z0, c, cap, cap);
  }

  /**
   * The kernel's output in terms of the orbit: the lookup slot after the
   * first check `e < lookup[0]` that escapes, and 0 when no such check does.
   */
  lemma KernelPixelIsFirstEscapeColour(gid: nat, input: seq<u32>, re: real, im: real, bounds: Bounds,
                                       lookup: seq<u32>, width: nat, height: nat)
    requires gid < |input| && width > 0 && height > 0
    requires |lookup| > 0 && lookup[0] as int < |lookup|
    ensures var p := PixelPoint(input[gid] as nat, width, height);
      var z0, c, cap := StartIn(bounds, p.0, p.1), Complex(re, im), lookup[0] as int;
      && (forall e: nat :: e < cap && IsFirstEscape(z0, c, cap, e) ==>
            KernelPixel(gid, input, re, im, bounds, lookup, width, height) == lookup[e + 1])
      && ((forall k :: 0 <= k < cap ==> !Escaped(Orbit(z0, c, k))) ==>
            KernelPixel(gid, input, re, im, bounds, lookup, width, height) == 0)
  {
    var p := PixelPoint(input[gid] as nat, width, height);
    var z0, c, cap := StartIn(bounds, p.0, p.1), Complex(re, im), lookup[0] as int;
    EscapeTimeIsFirstEscape(z0, c, cap);
  }

  /** The kernel's escape test is `Escaped` written out. */
  lemma KernelEscapeTest(zr: real, zi: real)
    ensures (zr * zr + zi * zi >= 4.0) == Escaped(Complex(zr, zi))
  {
  }

  /** The kernel's update through `tmpr` and `tmpi` is `Step` written out. */
  lemma KernelStep(zr: real, zi: real, re: real, im: real)
    ensures Complex((zr * zr - zi * zi) + re, 2.0 * zr * zi + im) == Step(Complex(zr, zi), Complex(re, im))
  {
    var next := Step(Complex(zr, zi), Complex(re, im));
    assert next.re == zr * zr - zi * zi + re;
    assert next.im == 2.0 * zr * zi + im;
  }

  /** One kernel dispatch: the kernel runs once for every global id. */
  method Dispatch(input: seq<u32>, re: real, im: real, bounds: Bounds, lookup: seq<u32>,
                  width: nat, height: nat) returns (output: seq<u32>)
    requires width > 0 && height > 0
    requires |lookup| > 0 && lookup[0] as int < |lookup|
    ensures |output| == |input|
    ensures forall g :: 0 <= g < |input| ==>
      output[g] == KernelPixel(g, input, re, im, bounds, lookup, width, height)
  {
    var device := new u32[|input|];
    for gid := 0 to device.Length
      invariant forall g :: 0 <= g < gid ==>
        device[g] == KernelPixel(g, input, re, im, bounds, lookup, width, height)
    {
      device[gid] := JuliaKernel(gid, input, re, im, bounds, lookup, width, height);
    }
    output := device[..];
  }

  /**
   * With the index buffer entry `gid` equal to `gid` and a lookup buffer
   * built for the same cap, the kernel colours every pixel exactly as the
   * host rule does: both backends render the same frame.
   */
  lemma KernelMatchesCpu(gid: nat, input: seq<u32>, add: Complex, bounds: Bounds, lookup: seq<u32>,
                         maxIterations: u32, width: nat, height: nat, gradient: Gradient)
    requires gid < |input| && input[gid] as int == gid && width > 0 && height > 0
    requires IsColorLookup(lookup, maxIterations, gradient) && maxIterations as int >= 1
    ensures KernelPixel(gid, input, add.re, add.im, bounds, lookup, width, height)
         == CpuPixel(gid, width, height, bounds, add, maxIterations as int, gradient)
  {
    var e := PixelEscape(gid, width, height, bounds, add, maxIterations as int);
    if e < maxIterations as int {
      assert lookup[e + 1] == Encode(gradient(e, maxIterations as int - 1));
    }
  }

  /**
   * `OpenClRenderer`: the cached device state. `width` and `height` are the
   * `WIDTH` and `HEIGHT` baked into the kernel source; `input` is the index
   * buffer uploaded once; `re`, `im` and `bounds` are kernel arguments 2, 3
   * and 4; `lookup` is the colour lookup buffer; `output` the output buffer.
   */
  class OpenClRenderer {
    const width: nat
    const height: nat
    const gradient: Gradient
    const input: seq<u32>
    var re: real
    var im: real
    var bounds: Bounds
    var lookup: seq<u32>
    var output: seq<u32>

    ghost predicate Valid()
      reads this
    {
      && width > 0 && height > 0
      && |input| == width * height
      && (forall i :: 0 <= i < |input| ==> input[i] as int == i % U32_MODULUS)
      && |lookup| > 0
      && IsColorLookup(lookup, lookup[0], gradient)
      && |output| == width * height
    }

    /** `OpenClRenderer::new(width, height, julia, max_iterations)`. */
    constructor (width: nat, height: nat, bounds: Bounds, add: Complex, maxIterations: u32,
                 gradient: Gradient)
      requires width > 0 && height > 0
      ensures Valid()
      ensures this.width == width && this.height == height && this.gradient == gradient
      ensures re == add.re && im == add.im && this.bounds == bounds
      ensures IsColorLookup(lookup, maxIterations, gradient)
    {
      var v := IndexBuffer(width, height);
      var table := CalculateColorLookupBuffer(maxIterations, gradient);
      this.width := width;
      this.height := height;
      this.gradient := gradient;
      input := v;
      re := add.re;
      im := add.im;
      this.bounds := bounds;
      lookup := table;
      output := seq(width * height, _ => 0);
    }

    /**
     * `render`: one kernel dispatch over every global id, then the output
     * buffer is read back into the window buffer. The fractal, cap and size
     * arguments of the trait method are ignored, as in the source.
     */
    method Render(windowBuffer: array<u32>)
      requires Valid() && windowBuffer.Length == width * height
      modifies this, windowBuffer
      ensures Valid()
      ensures re == old(re) && im == old(im) && bounds == old(bounds) && lookup == old(lookup)
      ensures windowBuffer[..] == output
      ensures forall g :: 0 <= g < |output| ==>
        output[g] == KernelPixel(g, input, re, im, bounds, lookup, width, height)
    {
      output := Dispatch(input, re, im, bounds, lookup, width, height);
      forall g | 0 <= g < windowBuffer.Length {
        windowBuffer[g] := output[g];
      }
    }


    /** `on_add_change`: sets kernel arguments 2 and 3 and nothing else. */
    method OnAddChange(add: Complex)
      requires Valid()
      modifies this
      ensures Valid()
      ensures re == add.re && im == add.im
      ensures bounds == old(bounds) && lookup == old(lookup) && output == old(output)
    {
      re := add.re;
      im := add.im;
    }

    /** `on_bounds_change`: sets kernel argument 4 and nothing else. */
    method OnBoundsChange(bounds: Bounds)
      requires Valid()
      modifies this
      ensures Valid()
      ensures this.bounds == bounds
      ensures re == old(re) && im == old(im) && lookup == old(lookup) && output == old(output)
    {
      this.bounds := bounds;
    }

    /** `on_max_iterations_change`: rebuilds the whole lookup buffer and nothing else. */
    method OnMaxIterationsChange(maxIterations: u32)
      requires Valid()
      modifies this
      ensures Valid()
      ensures IsColorLookup(lookup, maxIterations, gradient)
      ensures re == old(re) && im == old(im) && bounds == old(bounds) && output == old(output)
    {
      lookup := CalculateColorLookupBuffer(maxIterations, gradient);
    }
  }
}
