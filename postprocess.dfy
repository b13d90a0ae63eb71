/** Post-processing shared by both detectors: the person filter over the raw
    SSD output tensors and the scaling of a normalised box to frame pixels.
    Python's `int(...)` and C++'s `static_cast<int>` on a float both truncate
    toward zero; floats are modelled as reals. */
module Postprocess {

  /** Truncation toward zero, as `int(x)` in Python and `static_cast<int>(x)` in C++. */
  function Trunc(x: real): (r: int)
    ensures 0.0 <= x ==> 0 <= r && r as real <= x < r as real + 1.0
    ensures x < 0.0 ==> r <= 0 && x <= r as real && r as real < x + 1.0
  {
    if 0.0 <= x then x.Floor else -((-x).Floor)
  }

  /** An SSD output box, normalised to [0, 1], in the tensor's own order. */
  datatype Box = Box(ymin: real, xmin: real, ymax: real, xmax: real)

  /** A person detection in pixel coordinates of the original frame: the
      Python `{'bbox': [x, y, w, h], 'score': s}` and the C++ `DetectedObject`. */
  datatype DetectedObject = DetectedObject(x: int, y: int, w: int, h: int, score: real)

  /** The keep-test of both loops: class index 0 (person) after truncation and
      a score strictly above the threshold. */
  function IsPerson(cls: real, score: real, threshold: real): (r: bool)
    ensures r <==> -1.0 < cls < 1.0 && score > threshold
  {
    Trunc(cls) == 0 && score > threshold
  }

  /** One axis of a pixel box: the truncated start and the truncated extent. */
  datatype Span = Span(start: int, extent: int)

  /** The normalised interval [lo, hi] on an axis of `n` pixels. */
  function ScaleSpan(lo: real, hi: real, n: nat): Span
  {
    Span(Trunc(lo * n as real), Trunc((hi - lo) * n as real))
  }

  /** Box `b` read as `ymin, xmin, ymax, xmax` and scaled by the ORIGINAL
      frame's `rows` (height) and `cols` (width), giving `(x, y, w, h)`. */
  function ScaleBox(b: Box, score: real, rows: nat, cols: nat): DetectedObject
  {
    var sx := ScaleSpan(b.xmin, b.xmax, cols);
    var sy := ScaleSpan(b.ymin, b.ymax, rows);
    DetectedObject(sx.start, sy.start, sx.extent, sy.extent, score)
  }

  /** Truncation moves a value by less than one. */
  lemma TruncWithinOne(x: real)
    ensures -1.0 < Trunc(x) as real - x < 1.0
  {
  }

  lemma SpanWithinOne(lo: real, hi: real, n: nat)
    ensures -1.0 < ScaleSpan(lo, hi, n).start as real - lo * n as real < 1.0
    ensures -1.0 < ScaleSpan(lo, hi, n).extent as real - (hi - lo) * n as real < 1.0
  {
    TruncWithinOne(lo * n as real);
    TruncWithinOne((hi - lo) * n as real);
  }

  /** Each pixel coordinate lies within one pixel of the exact product of the
      normalised coordinate and the original frame's size, and the score is
      carried through unchanged. */
  lemma ScaleBoxWithinOnePixel(b: Box, score: real, rows: nat, cols: nat)
    ensures -1.0 < ScaleBox(b, score, rows, cols).x as real - b.xmin * cols as real < 1.0
    ensures -1.0 < ScaleBox(b, score, rows, cols).y as real - b.ymin * rows as real < 1.0
    ensures -1.0 < ScaleBox(b, score, rows, cols).w as real - (b.xmax - b.xmin) * cols as real < 1.0
    ensures -1.0 < ScaleBox(b, score, rows, cols).h as real - (b.ymax - b.ymin) * rows as real < 1.0
    ensures ScaleBox(b, score, rows, cols).score == score
  {
    SpanWithinOne(b.xmin, b.xmax, cols);
    SpanWithinOne(b.ymin, b.ymax, rows);
  }

  /** Two non-negative parts whose sum is at most `n` truncate to parts whose
      sum is at most `n`. */
  lemma TruncPartsBelow(a: real, b: real, n: nat)
    requires 0.0 <= a && 0.0 <= b && a + b <= n as real
    ensures 0 <= Trunc(a) && 0 <= Trunc(b) && Trunc(a) + Trunc(b) <= n
  {
    assert (Trunc(a) + Trunc(b)) as real <= a + b;
  }

  lemma MulNonNegative(a: real, n: nat)
    requires 0.0 <= a
    ensures 0.0 <= a * n as real
  {
  }

  lemma MulAtMostOne(a: real, n: nat)
    requires a <= 1.0
    ensures a * n as real <= n as real
  {
    assert a * n as real + (1.0 - a) * n as real == n as real;
    MulNonNegative(1.0 - a, n);
  }

  lemma MulSplit(lo: real, hi: real, n: nat)
    ensures lo * n as real + (hi - lo) * n as real == hi * n as real
  {
  }

  lemma SpanParts(lo: real, hi: real, n: nat)
    requires 0.0 <= lo <= hi <= 1.0
    ensures 0.0 <= lo * n as real && 0.0 <= (hi - lo) * n as real
    ensures lo * n as real + (hi - lo) * n as real <= n as real
  {
    MulNonNegative(lo, n);
    MulNonNegative(hi - lo, n);
    MulSplit(lo, hi, n);
    MulAtMostOne(hi, n);
  }

  /** On an axis of `n` pixels, an interval inside [0, 1] scales to a pixel
      span inside [0, n]. */
  lemma SpanInside(lo: real, hi: real, n: nat)
    requires 0.0 <= lo <= hi <= 1.0
    ensures 0 <= ScaleSpan(lo, hi, n).start && 0 <= ScaleSpan(lo, hi, n).extent
    ensures ScaleSpan(lo, hi, n).start + ScaleSpan(lo, hi, n).extent <= n
  {
    SpanParts(lo, hi, n);
    TruncPartsBelow(lo * n as real, (hi - lo) * n as real, n);
  }

  /** A box inside the unit square lands inside the frame: the scaled box has
      non-negative extent and does not cross the right or bottom edge. */
  lemma ScaleBoxInsideFrame(b: Box, score: real, rows: nat, cols: nat)
    requires 0.0 <= b.xmin <= b.xmax <= 1.0
    requires 0.0 <= b.ymin <= b.ymax <= 1.0
    ensures 0 <= ScaleBox(b, score, rows, cols).x && 0 <= ScaleBox(b, score, rows, cols).w
    ensures ScaleBox(b, score, rows, cols).x + ScaleBox(b, score, rows, cols).w <= cols
    ensures 0 <= ScaleBox(b, score, rows, cols).y && 0 <= ScaleBox(b, score, rows, cols).h
    ensures ScaleBox(b, score, rows, cols).y + ScaleBox(b, score, rows, cols).h <= rows
  {
    SpanInside(b.xmin, b.xmax, cols);
    SpanInside(b.ymin, b.ymax, rows);
  }

  /** The indices `i` with `mask[i]`, in increasing order: the shape of a
      `for i` loop that appends only when its test holds. */
  function Selected(mask: seq<bool>): (r: seq<nat>)
    ensures |r| <= |mask|
    ensures forall k :: 0 <= k < |r| ==> r[k] < |mask| && mask[r[k]]
    ensures forall k, l :: 0 <= k < l < |r| ==> r[k] < r[l]
    ensures forall i :: 0 <= i < |mask| && mask[i] ==> i in r
  {
    if |mask| == 0 then []
    else
      var front := Selected(mask[..|mask| - 1]);
      assert forall k :: 0 <= k < |front| ==> mask[..|mask| - 1][front[k]] == mask[front[k]];
      front + (if mask[|mask| - 1] then [|mask| - 1] else [])
  }

  /** One more loop step: the index list of a longer prefix. */
  lemma SelectedStep(mask: seq<bool>, i: nat)
    requires i < |mask|
    ensures Selected(mask[..i + 1]) == Selected(mask[..i]) + (if mask[i] then [i] else [])
  {
    assert mask[..i + 1][..i] == mask[..i];
  }

  /** The detections for the selected indices `idx`, in that order. */
  function ScaledAt(boxes: seq<Box>, scores: seq<real>, idx: seq<nat>, rows: nat, cols: nat): (r: seq<DetectedObject>)
    requires forall k :: 0 <= k < |idx| ==> idx[k] < |boxes| && idx[k] < |scores|
    ensures |r| == |idx|
    ensures forall k :: 0 <= k < |idx| ==> r[k] == ScaleBox(boxes[idx[k]], scores[idx[k]], rows, cols)
  {
    seq(|idx|, k requires 0 <= k < |idx| => ScaleBox(boxes[idx[k]], scores[idx[k]], rows, cols))
  }
}
