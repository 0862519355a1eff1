/**
 Painting a frame into a window of another size
 (`render` in crates/termland-client/src/display.rs): nearest-neighbour
 scaling with 16.16 fixed-point ratios held in 32 bits.
 */
module Scaling {
  import opened Prelude

  const ONE: nat := 0x1_0000          // 1.0 in 16.16
  const WRAP: nat := 0x1_0000_0000    // 32-bit arithmetic wraps here

  /** The step through the source for one destination pixel, before it is cut to 32 bits. */
  function Ratio(source: nat, window: nat): nat
    requires window > 0
  {
    source * ONE / window
  }

  /** `(k as u32 * ratio) >> 16`, the product cut to 32 bits. */
  function Step(k: nat, ratio: nat): nat {
    (k % WRAP) * ratio % WRAP / ONE
  }

  /** The source index for destination pixel `k`, as 32-bit arithmetic computes it. */
  function Index(k: nat, source: nat, window: nat): nat
    requires window > 0
  {
    Step(k, Ratio(source, window) % WRAP)
  }

  /** The index the code uses: clamped to the last one. */
  function Clamped(k: nat, source: nat, window: nat): (i: nat)
    requires window > 0 && source > 0
    ensures i < source
  {
    var i := Index(k, source, window);
    if i < source - 1 then i else source - 1
  }

  /** The same step with unbounded integers. */
  function Wide(k: nat, source: nat, window: nat): nat
    requires window > 0
  {
    k * Ratio(source, window) / ONE
  }

  // ----- Arithmetic -----

  lemma MulMono(a: nat, b: nat, c: nat)
    requires a <= b
    ensures a * c <= b * c
  {
  }

  /** `a / n` is the only quotient with a remainder below `n`. */
  lemma QuotientIs(a: nat, n: nat, q: nat)
    requires n > 0 && q * n <= a < q * n + n
    ensures a / n == q
  {
    var d := a / n;
    assert (d + 1) * n == d * n + n && (q + 1) * n == q * n + n;
    if d < q {
      MulMono(d + 1, q, n);
    } else if d > q {
      MulMono(q + 1, d, n);
    }
  }

  lemma DivMono(a: nat, b: nat, n: nat)
    requires a <= b && n > 0
    ensures a / n <= b / n
  {
    assert (b / n + 1) * n == b / n * n + n;
    if b / n < a / n {
      MulMono(b / n + 1, a / n, n);
    }
  }

  /** Every step below the end of the window stays below the end of the source, in 16.16 too. */
  lemma StepsStayInside(k: nat, source: nat, window: nat)
    requires k < window && source > 0
    ensures k * Ratio(source, window) < source * ONE
  {
    var r := Ratio(source, window);
    MulMono(k + 1, window, r);
    assert r * window <= source * ONE;
    assert (k + 1) * r == k * r + r;
    if r == 0 {
      assert k * r == 0;
    }
  }

  // ----- The index map -----

  /** What the clamped index would be with unbounded integers. */
  function Meant(k: nat, source: nat, window: nat): nat
    requires window > 0 && source > 0
  {
    if Wide(k, source, window) < source - 1 then Wide(k, source, window) else source - 1
  }

  /** 32-bit arithmetic draws every pixel as meant exactly when the last step of the window fits in 32 bits. */
  lemma DrawnAsMeantIff(source: nat, window: nat)
    requires source > 0 && 0 < window < WRAP
    ensures (window - 1) * Ratio(source, window) < WRAP <==>
            forall k :: 0 <= k < window ==> Clamped(k, source, window) == Meant(k, source, window)
  {
    var r, last := Ratio(source, window), window - 1;
    if last * r < WRAP {
      forall k | 0 <= k < window
        ensures Clamped(k, source, window) == Meant(k, source, window)
      {
        MulMono(k, last, r);
        OneStepExact(k, source, window);
      }
    } else {
      StepsStayInside(last, source, window);
      DivMono(WRAP, last * r, ONE);
      assert WRAP / ONE == ONE;
      assert Clamped(last, source, window) <= Index(last, source, window) < ONE;
      assert ONE <= source - 1;
      assert Clamped(last, source, window) != Meant(last, source, window);
    }
  }

  lemma OneStepExact(k: nat, source: nat, window: nat)
    requires window > 0 && k < WRAP && k * Ratio(source, window) < WRAP
    ensures Index(k, source, window) == Wide(k, source, window)
  {
    var r := Ratio(source, window);
    if k == 0 {
      assert k * (r % WRAP) == 0 && k * r == 0;
    } else {
      MulMono(1, k, r);
      assert r % WRAP == r && k % WRAP == k;
    }
  }

  /** A source below 65536 pixels is enough, whatever the window; and no clamp is needed. */
  lemma SmallSourceIsExact(source: nat, window: nat, k: nat)
    requires 0 < source < ONE && k < window < WRAP
    ensures (window - 1) * Ratio(source, window) < WRAP
    ensures Index(k, source, window) == Wide(k, source, window) < source
    ensures Clamped(k, source, window) == Wide(k, source, window)
  {
    StepsStayInside(k, source, window);
    StepsStayInside(window - 1, source, window);
    assert source * ONE <= (ONE - 1) * ONE < WRAP;
    OneStepExact(k, source, window);
  }

  /** 65536 pixels and up can go wrong: half of this frame's width is drawn from its first column. */
  lemma WideSourceWraps()
    ensures Index(1, 2 * ONE, 2) == 0 && Wide(1, 2 * ONE, 2) == ONE
    ensures Clamped(1, 2 * ONE, 2) == 0
  {
    assert Ratio(2 * ONE, 2) == WRAP;
  }

  /** Never out of order, and every pixel its own when the sizes match. */
  lemma MapIsMonotone(j: nat, k: nat, source: nat, window: nat)
    requires 0 < source < ONE && j <= k < window < WRAP
    ensures Clamped(j, source, window) <= Clamped(k, source, window)
    ensures source == window ==> Clamped(k, source, window) == k
  {
    var r := Ratio(source, window);
    SmallSourceIsExact(source, window, j);
    SmallSourceIsExact(source, window, k);
    MulMono(j, k, r);
    DivMono(j * r, k * r, ONE);
    if source == window {
      QuotientIs(source * ONE, window, ONE);
      QuotientIs(k * ONE, ONE, k);
    }
  }

  /**
   Rounding the ratio down costs less than one source pixel per 65536 window
   pixels: up to there the index is the true one or the one before it.
   */
  lemma StepsAreClose(k: nat, blocks: nat, source: nat, window: nat)
    requires window > 0 && k <= blocks * ONE
    ensures Wide(k, source, window) <= k * source / window <= Wide(k, source, window) + blocks
  {
    var r, t, s := Ratio(source, window), k * source / window, Wide(k, source, window);
    var rest := source * ONE - r * window;
    assert 0 <= rest < window;
    // k * r * window == k * source * ONE - k * rest
    assert k * (source * ONE) == k * (r * window + rest);
    assert k * (r * window) == k * r * window;
    assert k * (source * ONE) == k * source * ONE;
    assert k * (r * window + rest) == k * r * window + k * rest;
    assert s * ONE <= k * r < s * ONE + ONE;
    assert t * window <= k * source < t * window + window;
    UpperBound(s, k * r, k * source, k * rest, window);
    MulMono(rest, window, k);
    LowerBound(t, s, blocks, k, k * r, k * source, k * rest, window);
  }

  /** On windows up to 65536 pixels, the column or row drawn is the true one or its left or upper neighbour. */
  lemma DrawnIsNear(k: nat, source: nat, window: nat)
    requires 0 < source < ONE && k < window <= ONE
    ensures Clamped(k, source, window) <= k * source / window <= Clamped(k, source, window) + 1
  {
    SmallSourceIsExact(source, window, k);
    StepsAreClose(k, 1, source, window);
  }

  /** The fixed-point index does not pass the true one. */
  lemma UpperBound(s: nat, steps: nat, exact: nat, lost: nat, window: nat)
    requires window > 0 && s * ONE <= steps
    requires exact * ONE == steps * window + lost
    ensures s <= exact / window
  {
    MulMono(s * ONE, steps, window);
    assert s * ONE * window == s * window * ONE;
    assert s * window <= exact;
    DivMono(s * window, exact, window);
    QuotientIs(s * window, window, s);
  }

  lemma LowerBound(t: nat, s: nat, blocks: nat, k: nat, steps: nat, exact: nat, lost: nat, window: nat)
    requires window > 0 && steps < s * ONE + ONE && t * window <= exact
    requires exact * ONE == steps * window + lost
    requires lost <= k * window && k <= blocks * ONE
    ensures t <= s + blocks
  {
    MulMono(k, blocks * ONE, window);
    MulMono(steps + 1, s * ONE + ONE, window);
    assert exact * ONE < (s * ONE + ONE) * window + blocks * ONE * window by {
      assert (steps + 1) * window == steps * window + window;
    }
    assert (s * ONE + ONE) * window + blocks * ONE * window == (s + 1 + blocks) * window * ONE;
    assert exact < (s + 1 + blocks) * window;
    if t > s + blocks {
      MulMono(s + 1 + blocks, t, window);
    }
  }

  // ----- Painting -----

  type Pixel = u32

  /** The frame pixel drawn at window position (`x`, `y`). */
  function Source(x: nat, y: nat, fw: nat, fh: nat, winW: nat, winH: nat): nat
    requires winW > 0 && winH > 0 && fw > 0 && fh > 0
  {
    Clamped(y, fh, winH) * fw + Clamped(x, fw, winW)
  }

  lemma SourceInFrame(x: nat, y: nat, fw: nat, fh: nat, winW: nat, winH: nat)
    requires winW > 0 && winH > 0 && fw > 0 && fh > 0
    ensures Source(x, y, fw, fh, winW, winH) < fw * fh
  {
    MulMono(Clamped(y, fh, winH) + 1, fh, fw);
    assert (Clamped(y, fh, winH) + 1) * fw == Clamped(y, fh, winH) * fw + fw;
  }

  /** A row and a column are told apart by the position in the buffer. */
  lemma Position(x: nat, y: nat, winW: nat)
    requires x < winW
    ensures (y * winW + x) / winW == y && (y * winW + x) % winW == x
  {
    QuotientIs(y * winW + x, winW, y);
  }

  /** What the scaling branch makes of the first `n` pixels. */
  ghost predicate Scaled(buffer: seq<Pixel>, n: nat, frame: seq<Pixel>, fw: nat, fh: nat, winW: nat, winH: nat)
    requires winW > 0 && winH > 0 && fw > 0 && fh > 0 && fw * fh <= |frame| && n <= |buffer|
  {
    forall i :: 0 <= i < n ==>
      Source(i % winW, i / winW, fw, fh, winW, winH) < |frame|
      && buffer[i] == frame[Source(i % winW, i / winW, fw, fh, winW, winH)]
  }

  /**
   The part of `render` that fills the window: nothing without a frame, a copy
   when the sizes match, of as much as there is, a scaled frame, or black for a
   frame without rows. Only scaling indexes the frame by its size.
   */
  method Paint(frame: seq<Pixel>, fw: nat, fh: nat, buffer: array<Pixel>, winW: nat, winH: nat)
    requires 0 < winW < WRAP && 0 < winH < WRAP && buffer.Length == winW * winH
    requires fw < WRAP && fh < WRAP
    requires !(fw == winW && fh == winH) && frame != [] ==> fw * fh <= |frame|
    modifies buffer
    ensures frame == [] || fw == 0 ==> buffer[..] == old(buffer[..])
    ensures frame != [] && fw > 0 && fw == winW && fh == winH ==>
              forall i :: 0 <= i < buffer.Length ==>
                buffer[i] == if i < |frame| then frame[i] else old(buffer[i])
    ensures frame != [] && fw > 0 && fh > 0 && !(fw == winW && fh == winH) ==>
              Scaled(buffer[..], buffer.Length, frame, fw, fh, winW, winH)
    ensures frame != [] && fw > 0 && fh == 0 ==> forall i :: 0 <= i < buffer.Length ==> buffer[i] == 0
  {
    if frame == [] || fw == 0 {
      return;
    }
    if fw == winW && fh == winH {
      var len := if buffer.Length < |frame| then buffer.Length else |frame|;
      forall i | 0 <= i < len {
        buffer[i] := frame[i];
      }
    } else if fw > 0 && fh > 0 {
      ScaleInto(frame, fw, fh, buffer, winW, winH);
    } else {
      forall i | 0 <= i < buffer.Length {
        buffer[i] := 0;
      }
    }
  }

  method ScaleInto(frame: seq<Pixel>, fw: nat, fh: nat, buffer: array<Pixel>, winW: nat, winH: nat)
    requires 0 < winW < WRAP && 0 < winH < WRAP && buffer.Length == winW * winH
    requires 0 < fw < WRAP && 0 < fh < WRAP && fw * fh <= |frame|
    modifies buffer
    ensures Scaled(buffer[..], buffer.Length, frame, fw, fh, winW, winH)
  {
    var xRatio, yRatio := Ratio(fw, winW) % WRAP, Ratio(fh, winH) % WRAP;
    for y := 0 to winH
      invariant y * winW <= buffer.Length
      invariant Scaled(buffer[..], y * winW, frame, fw, fh, winW, winH)
    {
      var srcY := Step(y, yRatio);
      if srcY > fh - 1 {
        srcY := fh - 1;
      }
      RowFits(y, winW, winH);
      assert srcY == Clamped(y, fh, winH);
      hide Scaled, Step, Ratio, Clamped;
      ScaleRow(frame, fw, fh, buffer, winW, winH, y, srcY * fw, xRatio);
    }
  }

  /** The inner loop: window row `y`, from the source row starting at `srcRow`. */
  method ScaleRow(frame: seq<Pixel>, fw: nat, fh: nat, buffer: array<Pixel>, winW: nat, winH: nat,
                  y: nat, srcRow: nat, xRatio: nat)
    requires winW > 0 && winH > 0 && fw > 0 && fh > 0 && fw * fh <= |frame|
    requires y * winW + winW <= buffer.Length
    requires srcRow == Clamped(y, fh, winH) * fw && xRatio == Ratio(fw, winW) % WRAP
    requires Scaled(buffer[..], y * winW, frame, fw, fh, winW, winH)
    modifies buffer
    ensures Scaled(buffer[..], y * winW + winW, frame, fw, fh, winW, winH)
  {
    var dstRow := y * winW;
    for x := 0 to winW
      invariant Scaled(buffer[..], dstRow + x, frame, fw, fh, winW, winH)
    {
      var srcX := Step(x, xRatio);
      if srcX > fw - 1 {
        srcX := fw - 1;
      }
      SourceInFrame(x, y, fw, fh, winW, winH);
      ghost var was := buffer[..];
      buffer[dstRow + x] := frame[srcRow + srcX];
      ScaledOneMore(was, buffer[..], x, y, frame, fw, fh, winW, winH);
    }
  }

  lemma RowFits(y: nat, winW: nat, winH: nat)
    requires y < winH
    ensures y * winW + winW == (y + 1) * winW <= winW * winH
  {
    MulMono(y + 1, winH, winW);
  }

  lemma ScaledOneMore(was: seq<Pixel>, now: seq<Pixel>, x: nat, y: nat,
                      frame: seq<Pixel>, fw: nat, fh: nat, winW: nat, winH: nat)
    requires winW > 0 && winH > 0 && fw > 0 && fh > 0 && fw * fh <= |frame|
    requires x < winW && y * winW + x < |was| && Scaled(was, y * winW + x, frame, fw, fh, winW, winH)
    requires Source(x, y, fw, fh, winW, winH) < |frame|
    requires now == was[y * winW + x := frame[Source(x, y, fw, fh, winW, winH)]]
    ensures Scaled(now, y * winW + x + 1, frame, fw, fh, winW, winH)
  {
    Position(x, y, winW);
  }
}
