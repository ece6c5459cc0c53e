# Julia-set viewer: a Dafny model of its integer-and-structure core

The viewer draws a Julia set into a window of 1200 by 675 packed ARGB words.
It can also export a PNG nine times that size. It has two rendering
backends:

- a host renderer that recomputes every pixel each frame;
- an OpenCL renderer that caches the kernel arguments, a flat index buffer
  and a colour lookup table on the device.

The model covers five parts:

- **`colors.dfy`, module `Colors`** (the `color` module of `src/fractal.rs`).
  Covers colours, the saturating float-to-byte cast, the clamp, and the
  ARGB packing `(a << 24) | (r << 16) | (g << 8) | b`.
- **`julia.dfy`, module `Julia`** (the `julia` module of `src/fractal.rs`).
  - The escape-time function `get`: a loop over `z := z*z + add` that
    returns the first check at which `|z|^2 >= 4`.
  - The in-place viewport updates `zoom` and `translate`, on the class
    `JuliaFractal`.
  - A ghost reference definition of the orbit (`Orbit`) and of "first
    escape" (`IsFirstEscape`), which the loop and the escape-time function
    are proved against.
- **`renderer.dfy`, module `Renderer`** (`src/renderer.rs`).
  - The host pixel rule and the in-place fill of the window buffer.
  - The flat index buffer and the colour lookup buffer, both built by loops.
  - The OpenCL kernel, run once per global id.
  - The `OpenClRenderer` class: its cached device state and the hooks that
    update one piece of that state each.
  - A proof that the kernel colours every pixel exactly as the host rule
    does.
- **`frame_loop.dfy`, module `FrameLoop`** (`src/main.rs`). The window loop
  as the class `Viewer`:
  - the per-frame refill;
  - the W/S iteration-budget state machine and its invariant
    `max_iterations >= 2`;
  - the Space key that moves the Julia parameter to the cursor.
- **`png_export.dfy`, module `Export`** (`PNGSaver` in `src/renderer.rs`).
  Unpacks each packed word into three RGB bytes and proves which host pixel
  each byte of the exported image comes from.

How the source's types are represented:

- **Words and bytes.** `u32` and `u8` are the integers they denote (a
  `newtype` on `0 .. 2^32` and a subset type on `0 .. 256`).
  - A byte shifted left by `k` inside a word is the byte times `2^k`.
  - The four shifted fields of the packing occupy disjoint bit ranges, so
    their `|` is their sum.
  - `(u & mask) >> k` is `(u / 2^k) % 256`.
- **Floating point.** `f64` and complex values are `real` and pairs of
  `real`. Every property proved holds exactly over the reals or does not
  depend on the arithmetic.
- **The palette.** `Gradient<Hsv>`, `Gradient::get`, the `f32` division that
  produces its argument, and `LinSrgb::from` are foreign float code. They
  enter as a function parameter `gradient(n, d)`: the colour for the
  quotient `n / d`.
- **Keyboard and mouse.** Their state is an input of each frame.

The three source files are out of step with one another, and each is
modelled as written:

- `src/main.rs` and `src/renderer.rs` call a three-argument `get` and read
  `julia.bounds`. `src/fractal.rs` has a two-argument `get` and the fields
  `xbounds`/`ybounds`.
- The renderers therefore use `Bounds` (four reals) and
  `EscapeTime(z0, add, cap)` with an explicit cap. `JuliaFractal.Get` uses
  the fractal's own `maxIterations`.
- `encode()` is given the packing layout of `src/fractal.rs:37` with alpha
  1.0.

Two behaviours of the code are worth stating up front:

- **Last lookup slot.** The enumerate index `i` of
  `calculate_color_lookup_buffer` (`src/renderer.rs:161-172`) never reaches
  `max_iterations`. So slot `max_iterations` holds a palette colour, not the
  0 "inside the set" colour, and the 0 branch is dead
  (`Renderer.CalculateColorLookupBuffer`). This is also what makes the
  kernel agree with the host rule: an escape at check `max_iterations - 1`
  is coloured on both paths (`Renderer.KernelMatchesCpu`).
- **No cycling, no rejection.** The code has no colour cycling and does not
  reject a zero `max_iterations`.

## Model

| member | source | states |
|---|---|---|
| Colors.New | src/fractal.rs:11-18 | definition, no contract: `Color::new()` is opaque black (`NewIsOpaqueBlack` states its packing) |
| Colors.Rgb | src/fractal.rs:20-27 | definition, no contract: the given channels with alpha 1.0 (`RgbIsOpaque` states its packing) |
| Colors.CastToU8 | src/fractal.rs:32-35 | `x as u8` saturates: at most 0 gives 0, at least 255 gives 255, and in between the byte is the integer part of `x` |
| Colors.Clamp | src/fractal.rs:32-35 | the result lies in `[lo, hi]`; it is the value itself inside the range, `lo` below it and `hi` above it |
| Colors.ClampIdempotent | src/fractal.rs:32-35 | clamping an already clamped value to the same range changes nothing |
| Colors.Channel | src/fractal.rs:32-35 | the clamp after the cast never changes the byte: each channel byte is exactly the saturating cast of `channel * 255` |
| Colors.Pack | src/fractal.rs:37 | alpha sits in bits 24-31, red in 16-23, green in 8-15 and blue in 0-7: shift and mask recover each of the four bytes |
| Colors.PackOfFields | src/fractal.rs:37 | every 32-bit word is the packing of its own four bytes, so packing and unpacking are inverse |
| Colors.PackInjective | src/fractal.rs:37 | two packings are equal if and only if all four bytes are equal |
| Colors.ToU32 | src/fractal.rs:30-38 | each byte field of the packed word is the saturating cast of the matching channel times 255 |
| Colors.NewIsOpaqueBlack | src/fractal.rs:11-38 | `Color::new()` packs to `0xFF000000` |
| Colors.RgbIsOpaque | src/fractal.rs:20-38 | `Color::rgb` always packs with alpha byte 255, so the word is never 0 |
| Julia.Lerp | src/fractal.rs:69-71 | interpolation gives the lower end at 0 and the upper end at 1 |
| Julia.LerpWithin | src/fractal.rs:69-71 | for ordered ends and `t` in `[0, 1]` the interpolated point lies between the ends |
| Julia.StartPoint | src/fractal.rs:69-71 | definition, no contract: the start value interpolates `x` into the x-interval and `y` into the y-interval |
| Julia.Step | src/fractal.rs:64-66 | definition, no contract: `f(z) = z^2 + add` on pairs of reals |
| Julia.Escaped | src/fractal.rs:74 | definition, no contract: the escape test `re^2 + im^2 >= 4` |
| Julia.EscapeFrom | src/fractal.rs:73-81 | the search from check `k` ends at a check between `k` and the cap |
| Julia.EscapeTime | src/fractal.rs:68-82 | the escape count never exceeds the cap |
| Julia.EscapeFromIsFirstEscape | src/fractal.rs:73-81 | if no check before `k` escaped, the search from `k` returns the first escaping check, or the cap if none escapes |
| Julia.EscapeTimeIsFirstEscape | src/fractal.rs:73-81 | the escape count is the first check whose orbit point has `re^2 + im^2 >= 4`, or the cap when no check before the cap escapes; an escape at the cap itself therefore looks like no escape |
| Julia.FirstEscapeIsEscapeTime | src/fractal.rs:73-81 | conversely, any count that satisfies the first-escape definition is the escape count, so the definition has exactly one solution |
| Julia.EscapedStartGivesZero | src/fractal.rs:69-76 | a start point that has already escaped gives 0 |
| Julia.EscapeTimeMonotone | src/fractal.rs:73-81 | raising the cap never lowers the count, and a count below the old cap stays the same |
| Julia.FixedPointOrbit | src/fractal.rs:64-66 | a fixed point of `z*z + add` is the whole of its orbit |
| Julia.FixedPointNeverEscapes | src/fractal.rs:64-81 | a fixed point that has not escaped returns the cap |
| Julia.DefaultCentreNeverEscapes | src/fractal.rs:55-81 | with the defaults (bounds ±1.7, `add` 0) the centre `x = y = 0.5` interpolates to 0, which never escapes, for every cap |
| Julia.DefaultLeftEdgeEscapesAtOne | src/fractal.rs:55-81 | with the defaults and cap 60, the point `(0, 0.5)` escapes at check 1 |
| Julia.ZoomAxis | src/fractal.rs:84-96 | one axis of `zoom`: the width becomes `width * (1 - 0.07 * scale)`, and scale 0 changes nothing |
| Julia.ZoomKeepsCursorPoint | src/fractal.rs:84-96 | the plane point under the normalised cursor is the same before and after the zoom |
| Julia.ZoomKeepsOrder | src/fractal.rs:84-96 | an ordered axis stays ordered when `0.07 * scale < 1` |
| Julia.ZoomOutAfterZoomIn | src/fractal.rs:84-96 | zooming by `s` and then by `-s` leaves width `width * (1 - (0.07 s)^2)`, so zoom is not undone by the negated factor |
| Julia.PanSpan | src/fractal.rs:99-101 | the pan unit (nine tenths of the sum of the widths) is positive when both axes are ordered |
| Julia.PanAxis | src/fractal.rs:102-107 | one axis of `translate`: the width is unchanged, and cursor 0.5 changes nothing |
| Julia.PanDirection | src/fractal.rs:102-107 | the bounds move up exactly when the cursor is past the centre, and down exactly when it is before it |
| Julia.JuliaFractal.New | src/fractal.rs:55-62 | the new fractal has bounds ±1.7 on both axes, `add` 0 and cap 60 |
| Julia.JuliaFractal.Get | src/fractal.rs:68-82 | the loop returns a count in `[0, max_iterations]` that is the first escaping check (the reference definition), hence the escape time |
| Julia.JuliaFractal.Zoom | src/fractal.rs:84-96 | both axes are zoomed in place around their cursor coordinate; `add` and the cap are unchanged |
| Julia.JuliaFractal.Translate | src/fractal.rs:98-108 | both axes are panned in place by the same unit, computed from the old bounds; `add` and the cap are unchanged |
| Renderer.Encode | src/renderer.rs:169 | an encoded palette colour has alpha byte 255 and is never 0 |
| Renderer.PixelIndexInBounds | src/renderer.rs:46-47 | flat index `i` has column `i % width < width` and, inside the buffer, row `i / width < height`, with `row * width + column == i` |
| Renderer.PixelPoint | src/renderer.rs:46-47 | the normalised coordinates of a pixel of the buffer lie in `[0, 1)` |
| Renderer.PixelEscape | src/renderer.rs:46-48 | the escape count of a pixel never exceeds the cap |
| Renderer.CpuPixel | src/renderer.rs:50-60 | the pixel is 0 exactly when its escape count equals `max_iterations`; any other value is an opaque palette colour |
| Renderer.FillPixels | src/renderer.rs:45-61 | after the fill, every slot holds the host pixel rule for its own index |
| Renderer.CpuRenderer.constructor | src/renderer.rs:32-34 | the host renderer keeps only its palette |
| Renderer.CpuRenderer.Render | src/renderer.rs:42-62 | `render` leaves every window slot holding the host pixel rule for its index |
| Renderer.IndexBuffer | src/renderer.rs:121-131 | the index buffer has `width * height` entries; entry `i` is `i` modulo `2^32`, and exactly `i` when the buffer has at most `2^32` entries |
| Renderer.CalculateColorLookupBuffer | src/renderer.rs:156-176 | the lookup buffer has `max_iterations + 1` slots; slot 0 holds the cap and slot `k` the colour for count `k - 1` over divisor `max_iterations - 1`; no slot after 0 is 0, so the 0 branch is never taken |
| Renderer.KernelPixel | src/renderer.rs:87-112 | definition, no contract: the value the kernel writes for a global id; `KernelPixelIsFirstEscapeColour` and `KernelMatchesCpu` state what it is |
| Renderer.JuliaKernel | src/renderer.rs:87-112 | the kernel's loop writes the kernel pixel value, with every lookup read in bounds |
| Renderer.KernelPixelIsFirstEscapeColour | src/renderer.rs:98-111 | the kernel writes `lookup[e + 1]` for the first check `e < lookup[0]` that escapes, and 0 when none does |
| Renderer.KernelEscapeTest | src/renderer.rs:101 | the kernel's test `zr*zr + zi*zi >= 4` is the escape predicate |
| Renderer.KernelStep | src/renderer.rs:106-110 | the kernel's update through `tmpr` and `tmpi` is one step of `z*z + add` |
| Renderer.Dispatch | src/renderer.rs:185 | one dispatch gives every global id its kernel value |
| Renderer.KernelMatchesCpu | src/renderer.rs:98-111 | with index entry `gid` equal to `gid` and a lookup buffer for the same cap, the kernel's value equals the host pixel rule |
| Renderer.OpenClRenderer.constructor | src/renderer.rs:78-154 | the renderer holds the identity index buffer, the fractal's `add` and bounds as kernel arguments, and a lookup buffer for the given cap |
| Renderer.OpenClRenderer.Render | src/renderer.rs:184-187 | the window buffer receives the output buffer, which holds the kernel value for every global id; the cached arguments are unchanged |
| Renderer.OpenClRenderer.OnAddChange | src/renderer.rs:189-192 | only the `re` and `im` arguments change, to the new parameter |
| Renderer.OpenClRenderer.OnBoundsChange | src/renderer.rs:194-196 | only the bounds argument changes |
| Renderer.OpenClRenderer.OnMaxIterationsChange | src/renderer.rs:198-201 | only the lookup buffer changes, rebuilt in full for the new cap |
| FrameLoop.FrameSize | src/main.rs:10-14 | `HEIGHT = 1200 / 16 * 9` is 675, and the buffer has 810000 pixels |
| FrameLoop.FramePixelInBounds | src/main.rs:45-46 | every window pixel has column below `WIDTH` and row below `HEIGHT` |
| FrameLoop.NextBudget | src/main.rs:66-73 | one frame of W/S never takes a budget of 2 or more below 2, and moves it by at most one |
| FrameLoop.Replay | src/main.rs:66-73 | definition, no contract: the budget after the W/S rule is applied frame by frame, in order |
| FrameLoop.BudgetStaysAtLeastTwo | src/main.rs:66-73 | from a budget of at least 2, every sequence of key frames keeps it at least 2, so the divisor `max_iterations - 1` is at least 1 |
| FrameLoop.ReplayWithoutS | src/main.rs:66-68 | without S, each W frame adds exactly one |
| FrameLoop.AddAtCursor | src/main.rs:86-88 | a cursor inside the window gives a parameter in `[-2, 2]` on each axis, and the centre gives 0 |
| FrameLoop.AddAtCursorInverse | src/main.rs:86-88 | the normalised cursor is recovered from the parameter |
| FrameLoop.NextAdd | src/main.rs:75-90 | a frame without Space, or with the cursor outside the window, leaves the parameter as it was |
| FrameLoop.ReplayAdd | src/main.rs:75-90 | definition, no contract: the parameter after the Space rule is applied frame by frame, in order |
| FrameLoop.ReplayAddStaysInRange | src/main.rs:85-89 | while the cursor stays inside the window, a parameter in `[-2, 2]` on each axis stays there over any run of frames |
| FrameLoop.ReplayAddWithoutSpace | src/main.rs:85-89 | frames without Space never change the parameter |
| FrameLoop.Viewer.constructor | src/main.rs:14-30 | the loop starts with a budget of 50 and a window buffer of `WIDTH * HEIGHT` zero pixels |
| FrameLoop.Viewer.DrawFrame | src/main.rs:44-60 | the refill leaves every window pixel holding the host pixel rule under the current budget |
| FrameLoop.Viewer.HandleIterationKeys | src/main.rs:66-73 | the keys change the budget by one frame of the W/S rule, keep it at least 2, and change nothing else |
| FrameLoop.Viewer.HandleSpace | src/main.rs:75-90 | Space with the cursor in the window sets the parameter from the cursor; otherwise nothing changes |
| FrameLoop.Viewer.Frame | src/main.rs:42-95 | one pass refills the buffer with the old parameter and budget, then moves the budget by the W/S rule and sets the parameter from the cursor on Space (unchanged otherwise); the bounds stay fixed |
| FrameLoop.Viewer.Run | src/main.rs:42-95 | over a run of frames, the budget and the parameter follow their per-frame rules in order, the budget stays at least 2, and the buffer holds the host pixel rule under the parameter and budget in force before the last frame (a run of no frames leaves the buffer as it was) |
| Export.RgbBytes | src/renderer.rs:235-240 | three bytes which, put back under the word's alpha byte, give the word again |
| Export.RgbBytesOfPack | src/renderer.rs:235-240 | unpacking a packed word gives its red, green and blue bytes, so the unpacking inverts the RGB part of the packing |
| Export.RgbBytesOfEncode | src/renderer.rs:235-240 | an encoded palette colour unpacks to its three channel bytes |
| Export.PngData | src/renderer.rs:234-244 | the byte stream has three bytes per pixel |
| Export.PngDataAt | src/renderer.rs:234-244 | bytes `3p`, `3p + 1` and `3p + 2` are bits 16-23, 8-15 and 0-7 of pixel `p` |
| Export.PngSize | src/renderer.rs:209-210 | the image is 10800 by 6075 pixels, fewer than `2^32` in all |
| Export.SavedBytesAreHostPixels | src/renderer.rs:230-244 | a buffer written by the kernel for cap 1000 turns into the RGB bytes of the host pixel rule, pixel by pixel |
| Export.PngSaver.constructor | src/renderer.rs:213-217 | the saver's renderer is sized for the image, takes the fractal's parameter and bounds, and has cap 1000 |
| Export.PngSaver.Save | src/renderer.rs:219-249 | the saved stream has `3 * W * H` bytes, and the three bytes of pixel `p` are the RGB bytes of the host pixel rule with cap 1000 |

## Left out

- Window creation, keyboard and mouse polling, `set_title`, `update_with_buffer`, `println!`, `SystemTime` and `delta_time`: I/O. Key flags and the cursor position are inputs of `FrameLoop.Viewer.Frame`.
- The mouse-button zoom and translate in `src/main.rs:76-84`: they call `Bounds::zoom` and `Bounds::translate`, which are not part of this model (the model's `Bounds` is only the four reals). `JuliaFractal::zoom` and `translate` in `src/fractal.rs` are modelled. As a consequence, `FrameLoop.Viewer.Frame` and `FrameLoop.Viewer.Run` keep the bounds fixed.
- `Bounds::new` and `JuliaFractal::new(bounds)` as called in `src/main.rs`: not part of this model. `FrameLoop.Viewer.constructor` takes the initial bounds and parameter as arguments.
- The OpenCL plumbing (`ProQue`, `Kernel`, `Buffer`, `enq`, `set_arg`, kernel source formatting, the ignored `Result`s of `enq`): foreign device I/O. The cached arguments and buffers are fields of `OpenClRenderer`, and a dispatch is a loop over global ids.
- The device lookup buffer has `width * height` slots, of which the kernel reads only the first `max_iterations + 1`. The model keeps only those. A lookup table longer than the device buffer, whose write would fail silently, is not modelled.
- The palette colour maths (`get_color_gradient`, the gradient of `src/main.rs`, `Gradient::get`, the `f32` quotient, `LinSrgb::from`): foreign floating-point code, taken as the parameter `gradient(n, d)`. Whatever colours it returns, the alpha byte is 255.
- IEEE rounding, infinities and NaN: the arithmetic is over `real`. A zero `height` makes the source's coordinates infinite or NaN, which reals cannot express. `Renderer.FillPixels` and `Renderer.CpuRenderer.Render` therefore require `height > 0` for a non-empty buffer, and `PixelPoint`, `PixelEscape`, `CpuPixel`, `KernelPixel`, `JuliaKernel`, `Dispatch` and the `OpenClRenderer` constructor require it outright.
- Renderer.PixelPoint: requires `width > 0`, as do `PixelIndexInBounds`, `PixelEscape`, `CpuPixel`, `FillPixels`, `CpuRenderer.Render`, `KernelPixel`, `JuliaKernel`, `Dispatch` and the `OpenClRenderer` constructor. In the source, `i % width` with `width` 0 panics on a non-empty buffer (`src/renderer.rs:46`, `src/main.rs:45`), so the model does not cover that panic.
- Renderer.CpuPixel: requires `maxIterations >= 1`, where `max_iterations - 1` on a `u32` panics in a debug build. The frame loop keeps the budget at 2 or more.
- The `rayon` parallel fill: the slots are disjoint, so the fill is a sequential loop.
- `name()` of both renderers: a constant string.
- `CpuRenderer`'s three hooks: modelled as methods with no `modifies` clause, so that they change no state; they carry no `ensures` and have no table row.
- FrameLoop.Viewer.HandleIterationKeys: the budget is a `nat`, so the `u32` overflow of W after `2^32` presses is not modelled.
- Renderer.IndexBuffer: the counter `m += 1u32` wraps modulo `2^32` (release semantics). A debug build would panic instead, for buffers of at least `2^32` pixels, since the counter is also incremented after the last write.
- `src/text.rs`: font rasterisation, not part of this model.
- The PNG encoder, `File` and `BufWriter`: I/O. `Export.PngSaver.Save` returns the byte stream that `write_image_data` receives.
