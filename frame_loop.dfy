/**
 * src/main.rs: the window loop. Every frame refills the window buffer with
 * the host pixel rule, then applies the W/S iteration-budget keys and the
 * Space key that moves the Julia parameter to the cursor.
 *
 * Window, keyboard and mouse polling are I/O: each frame's key flags and
 * cursor position are inputs. The palette enters as in `Renderer`.
 */
module FrameLoop {
  import opened Colors
  import opened Julia
  import opened Renderer

  /** `WIDTH`. */
  const WIDTH: nat := 1200

  /** `HEIGHT = WIDTH / 16 * 9` in integer arithmetic. */
  const HEIGHT: nat := WIDTH / 16 * 9

  /** The window is 1200 by 675 pixels, 810000 in all. */
  lemma FrameSize()
    ensures HEIGHT == 675
    ensures WIDTH * HEIGHT == 810_000
  {
  }

  /** Every slot of the window buffer has a column below WIDTH and a row below HEIGHT. */
  lemma FramePixelInBounds(i: nat)
    requires i < WIDTH * HEIGHT
    ensures i % WIDTH < WIDTH && i / WIDTH < HEIGHT
    ensures (i / WIDTH) * WIDTH + i % WIDTH == i
  {
    PixelIndexInBounds(i, WIDTH, HEIGHT);
  }

  datatype Option<T> = None | Some(value: T)

  /** The initial `max_iterations`. */
  const START_ITERATIONS: nat := 50

  /**
   * One frame of the budget keys: W adds one, then S takes one away only
   * while the budget is above 2. A budget of at least 2 stays at least 2,
   * and it moves by at most one per frame.
   */
  function NextBudget(m: nat, wPressed: bool, sPressed: bool): (r: nat)
    ensures m >= 2 ==> r >= 2
    ensures m - 1 <= r <= m + 1
  {
    var afterW := if wPressed then m + 1 else m;
    if sPressed && afterW > 2 then afterW - 1 else afterW
  }

  /** The budget after a run of frames, each giving its (W, S) flags, applied in order. */
  function Replay(m: nat, keys: seq<(bool, bool)>): nat
    decreases |keys|
  {
    if |keys| == 0 then m
    else
      var last := keys[|keys| - 1];
      NextBudget(Replay(m, keys[..|keys| - 1]), last.0, last.1)
  }

  /**
   * Starting from 50, no sequence of key presses brings the budget below 2,
   * so the divisor `max_iterations - 1` of the pixel rule is never 0.
   */
  lemma {:induction false} BudgetStaysAtLeastTwo(m: nat, keys: seq<(bool, bool)>)
    requires m >= 2
    ensures Replay(m, keys) >= 2
    decreases |keys|
  {
    if |keys| > 0 {
      BudgetStaysAtLeastTwo(m, keys[..|keys| - 1]);
    }
  }

  /** The number of frames with W pressed. */
  function CountW(keys: seq<(bool, bool)>): (n: nat)
    ensures n <= |keys|
    decreases |keys|
  {
    if |keys| == 0 then 0 else CountW(keys[..|keys| - 1]) + (if keys[|keys| - 1].0 then 1 else 0)
  }

  /** Without S, the budget grows by exactly the number of W frames. */
  lemma {:induction false} ReplayWithoutS(m: nat, keys: seq<(bool, bool)>)
    requires forall k :: 0 <= k < |keys| ==> !keys[k].1
    ensures Replay(m, keys) == m + CountW(keys)
    decreases |keys|
  {
    if |keys| > 0 {
      ReplayWithoutS(m, keys[..|keys| - 1]);
    }
  }

  /**
   * The Space rule: `add = ((cx - 0.5) * 2 * 2, (cy - 0.5) * 2 * 2)` for the
   * normalised cursor `(cx, cy)`. A cursor inside the window gives a
   * parameter in [-2, 2] on each axis, and the centre gives 0.
   */
  function AddAtCursor(cx: real, cy: real): (c: Complex)
    ensures 0.0 <= cx <= 1.0 ==> -2.0 <= c.re <= 2.0
    ensures 0.0 <= cy <= 1.0 ==> -2.0 <= c.im <= 2.0
    ensures cx == 0.5 && cy == 0.5 ==> c == Complex(0.0, 0.0)
  {
    var c := Complex(cx - 0.5, cy - 0.5);
    Complex(c.re * (2.0 * 2.0), c.im * (2.0 * 2.0))
  }

  /** The cursor is recovered from the parameter: the Space rule loses nothing. */
  lemma AddAtCursorInverse(cx: real, cy: real)
    ensures var c := AddAtCursor(cx, cy);
      c.re / 4.0 + 0.5 == cx && c.im / 4.0 + 0.5 == cy
  {
  }

  /** What one pass of the window loop reads from the keyboard and mouse. */
  datatype FrameInput = FrameInput(wPressed: bool, sPressed: bool,
                                   mouse: Option<(real, real)>, spaceDown: bool)

  /**
   * The Julia parameter after one frame: Space with the cursor inside the
   * window moves it to the cursor, given in pixels; otherwise it stays.
   */
  function NextAdd(add: Complex, input: FrameInput): (next: Complex)
    ensures !(input.mouse.Some? && input.spaceDown) ==> next == add
  {
    if input.mouse.Some? && input.spaceDown then
      AddAtCursor(input.mouse.value.0 / WIDTH as real, input.mouse.value.1 / HEIGHT as real)
    else add
  }

  /** The Julia parameter after a run of frames, applied in order. */
  function ReplayAdd(add: Complex, inputs: seq<FrameInput>): Complex
    decreases |inputs|
  {
    if |inputs| == 0 then add
    else NextAdd(ReplayAdd(add, inputs[..|inputs| - 1]), inputs[|inputs| - 1])
  }

  /** Both components of the parameter lie in [-2, 2]. */
  predicate AddInRange(add: Complex)
  {
    -2.0 <= add.re <= 2.0 && -2.0 <= add.im <= 2.0
  }

  /** The frame's cursor, if any, lies inside the window. */
  predicate CursorInWindow(input: FrameInput)
  {
    input.mouse.Some? ==>
      0.0 <= input.mouse.value.0 <= WIDTH as real && 0.0 <= input.mouse.value.1 <= HEIGHT as real
  }

  /**
   * While the cursor stays inside the window, the Space key keeps the
   * parameter in [-2, 2] on each axis, however many frames go by.
   */
  lemma {:induction false} ReplayAddStaysInRange(add: Complex, inputs: seq<FrameInput>)
    requires AddInRange(add)
    requires forall k :: 0 <= k < |inputs| ==> CursorInWindow(inputs[k])
    ensures AddInRange(ReplayAdd(add, inputs))
    decreases |inputs|
  {
    if |inputs| > 0 {
      var prefix, last := inputs[..|inputs| - 1], inputs[|inputs| - 1];
      ReplayAddStaysInRange(add, prefix);
      assert CursorInWindow(last);
      if last.mouse.Some? && last.spaceDown {
        var (a, b) := last.mouse.value;
        CursorFraction(a, WIDTH as real);
        CursorFraction(b, HEIGHT as real);
      }
    }
  }

  lemma CursorFraction(a: real, extent: real)
    requires extent > 0.0 && 0.0 <= a <= extent
    ensures 0.0 <= a / extent <= 1.0
  {
  }

  /** Without Space, no run of frames changes the parameter. */
  lemma {:induction false} ReplayAddWithoutSpace(add: Complex, inputs: seq<FrameInput>)
    requires forall k :: 0 <= k < |inputs| ==> !inputs[k].spaceDown
    ensures ReplayAdd(add, inputs) == add
    decreases |inputs|
  {
    if |inputs| > 0 {
      ReplayAddWithoutSpace(add, inputs[..|inputs| - 1]);
    }
  }

  /**
   * The state `main` mutates across frames: the window buffer, the fractal's
   * `bounds` and `add`, and `max_iterations`.
   */
  class Viewer {
    const buffer: array<u32>
    const gradient: Gradient
    var bounds: Bounds
    var add: Complex
    var maxIterations: nat

    ghost predicate Valid()
      reads this
    {
      maxIterations >= 2 && buffer.Length == WIDTH * HEIGHT
    }

    /**
     * The state before the first frame. `JuliaFractal::new(bounds)` is not
     * part of this model, so the initial bounds and `add` are parameters.
     */
    constructor (bounds: Bounds, add: Complex, gradient: Gradient)
      ensures Valid() && fresh(buffer)
      ensures this.bounds == bounds && this.add == add && this.gradient == gradient
      ensures maxIterations == START_ITERATIONS
      ensures forall i :: 0 <= i < buffer.Length ==> buffer[i] == 0
    {
      buffer := new u32[WIDTH * HEIGHT](_ => 0);
      this.bounds := bounds;
      this.add := add;
      this.gradient := gradient;
      maxIterations := START_ITERATIONS;
    }

    /**
     * The per-frame refill: each pixel is 0 exactly when its escape count
     * is the budget, and an opaque palette colour otherwise.
     */
    method DrawFrame()
      requires Valid()
      modifies buffer
      ensures forall i :: 0 <= i < buffer.Length ==>
        buffer[i] == CpuPixel(i, WIDTH, HEIGHT, bounds, add, maxIterations, gradient)
    {
      FillPixels(buffer, WIDTH, HEIGHT, bounds, add, maxIterations, gradient);
    }

    /** The W and S keys change `max_iterations` and nothing else. */
    method HandleIterationKeys(wPressed: bool, sPressed: bool)
      requires Valid()
      modifies this
      ensures Valid()
      ensures maxIterations == NextBudget(old(maxIterations), wPressed, sPressed)
      ensures bounds == old(bounds) && add == old(add)
    {
      if wPressed {
        maxIterations := maxIterations + 1;
      }
      if sPressed {
        if maxIterations > 2 {
          maxIterations := maxIterations - 1;
        }
      }
    }

    /**
     * Space with the cursor inside the window sets `add` from the cursor
     * position `(a, b)` in pixels; otherwise nothing changes.
     */
    method HandleSpace(mouse: Option<(real, real)>, spaceDown: bool)
      requires Valid()
      modifies this
      ensures Valid()
      ensures mouse.Some? && spaceDown ==>
        add == AddAtCursor(mouse.value.0 / WIDTH as real, mouse.value.1 / HEIGHT as real)
      ensures !(mouse.Some? && spaceDown) ==> add == old(add)
      ensures bounds == old(bounds) && maxIterations == old(maxIterations)
    {
      if mouse.Some? {
        var (a, b) := mouse.value;
        if spaceDown {
          add := AddAtCursor(a / WIDTH as real, b / HEIGHT as real);
        }
      }
    }

    /** One pass of the window loop. */
    method Frame(input: FrameInput)
      requires Valid()
      modifies this, buffer
      ensures Valid()
      ensures maxIterations == NextBudget(old(maxIterations), input.wPressed, input.sPressed)
      ensures input.mouse.Some? && input.spaceDown ==>
        add == AddAtCursor(input.mouse.value.0 / WIDTH as real, input.mouse.value.1 / HEIGHT as real)
      ensures !(input.mouse.Some? && input.spaceDown) ==> add == old(add)
      ensures add == NextAdd(old(add), input)
      // The mouse-button zoom and translate of the loop are not modelled,
      // which is why the bounds stay fixed.
      ensures bounds == old(bounds)
      ensures forall i :: 0 <= i < buffer.Length ==>
        buffer[i] == CpuPixel(i, WIDTH, HEIGHT, bounds, old(add), old(maxIterations), gradient)
    {
      DrawFrame();
      HandleIterationKeys(input.wPressed, input.sPressed);
      HandleSpace(input.mouse, input.spaceDown);
    }

    /**
     * The window loop over a run of frames: the budget and the parameter
     * follow their per-frame rules in order, the budget stays at least 2,
     * and the buffer shows the frame drawn with the parameter and budget in
     * force before the last frame's keys.
     */
    method Run(inputs: seq<FrameInput>)
      requires Valid()
      modifies this, buffer
      ensures Valid()
      ensures maxIterations == Replay(old(maxIterations), KeyFlags(inputs))
      ensures add == ReplayAdd(old(add), inputs)
      // Fixed only because the mouse-button zoom and translate are not modelled.
      ensures bounds == old(bounds)
      ensures |inputs| == 0 ==> buffer[..] == old(buffer[..])
      ensures |inputs| > 0 ==> (
        BudgetStaysAtLeastTwo(old(maxIterations), KeyFlags(inputs[..|inputs| - 1]));
        forall i :: 0 <= i < buffer.Length ==>
          buffer[i] == CpuPixel(i, WIDTH, HEIGHT, bounds, ReplayAdd(old(add), inputs[..|inputs| - 1]),
                                Replay(old(maxIterations), KeyFlags(inputs[..|inputs| - 1])), gradient))
    {
      var n := 0;
      while n < |inputs|
        invariant 0 <= n <= |inputs|
        invariant Valid()
        invariant maxIterations == Replay(old(maxIterations), KeyFlags(inputs[..n]))
        invariant add == ReplayAdd(old(add), inputs[..n])
        invariant bounds == old(bounds)
        invariant n == 0 ==> buffer[..] == old(buffer[..])
        invariant n > 0 ==> (
          BudgetStaysAtLeastTwo(old(maxIterations), KeyFlags(inputs[..n - 1]));
          forall i :: 0 <= i < buffer.Length ==>
            buffer[i] == CpuPixel(i, WIDTH, HEIGHT, bounds, ReplayAdd(old(add), inputs[..n - 1]),
                                  Replay(old(maxIterations), KeyFlags(inputs[..n - 1])), gradient))
      {
        ghost var before := inputs[..n];
        assert inputs[..n + 1][..n] == before;
        assert KeyFlags(inputs[..n + 1])[..n] == KeyFlags(before);
        Frame(inputs[n]);
        n := n + 1;
      }
      assert inputs[..n] == inputs;
    }
  }

  /**
   * The (W, S) flags of each frame. The ensures only spell out the
   * comprehension for the verifier's use.
   */
  function KeyFlags(inputs: seq<FrameInput>): (keys: seq<(bool, bool)>)
    ensures |keys| == |inputs|
    ensures forall k :: 0 <= k < |inputs| ==> keys[k] == (inputs[k].wPressed, inputs[k].sPressed)
  {
    seq(|inputs|, k requires 0 <= k < |inputs| => (inputs[k].wPressed, inputs[k].sPressed))
  }
}
