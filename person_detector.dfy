/** The C++ `PersonDetector`: a constructor that sets its TfLite handles with
    early returns, and `detect`, which filters the raw output buffers by class
    and threshold and scales the kept boxes to the frame.

    The TfLite and Edge TPU C API calls and `cv::resize` are inputs: whether
    each handle was created, whether the resized frame is empty, whether
    `TfLiteInterpreterInvoke` returned `kTfLiteOk`, and the four output
    buffers. */
module PersonDetector {
  import opened Wrappers
  import opened Postprocess
  import Inference

  /** The output buffers: boxes as four floats per detection, classes,
      scores, and the single-float detection count. */
  datatype OutputTensors = OutputTensors(boxes: seq<real>, classes: seq<real>, scores: seq<real>, count: real)

  /** `num`: the count tensor cast to `int`. */
  function Num(out: OutputTensors): int
  {
    Trunc(out.count)
  }

  /** The number of iterations of `for (int i = 0; i < num; ++i)`. */
  function Iterations(out: OutputTensors): (n: nat)
    ensures Num(out) >= 0 ==> n == Num(out)
    ensures Num(out) < 0 ==> n == 0
  {
    if Num(out) < 0 then 0 else Num(out)
  }

  /** Each buffer covers all `num` indices: `num` classes, `num` scores and
      `4 * num` box entries. The loop reads less than this, since it reads a
      score only after a class of 0 and a box only for a kept index. TfLite's
      SSD post-processing sizes all three buffers for the same maximum count,
      which `num` never exceeds, so every real call meets it. */
  predicate BuffersCover(out: OutputTensors)
  {
    Iterations(out) <= |out.classes| && Iterations(out) <= |out.scores| && 4 * Iterations(out) <= |out.boxes|
  }

  /** `boxes_data[4i .. 4i+3]` read as `ymin, xmin, ymax, xmax`. */
  function BoxAt(boxes: seq<real>, i: nat): Box
    requires 4 * i + 3 < |boxes|
  {
    Box(boxes[4 * i], boxes[4 * i + 1], boxes[4 * i + 2], boxes[4 * i + 3])
  }

  function Boxes(out: OutputTensors): (bs: seq<Box>)
    requires BuffersCover(out)
    ensures |bs| == Iterations(out)
    ensures forall i :: 0 <= i < Iterations(out) ==> bs[i] == BoxAt(out.boxes, i)
  {
    seq(Iterations(out), i requires 0 <= i < Iterations(out) => BoxAt(out.boxes, i))
  }

  /** Index `i < num` passes `static_cast<int>(classes_data[i]) == 0 && scores_data[i] > threshold_`. */
  function KeptMask(out: OutputTensors, threshold: real): (m: seq<bool>)
    requires BuffersCover(out)
    ensures |m| == Iterations(out)
  {
    seq(Iterations(out), i requires 0 <= i < Iterations(out) => IsPerson(out.classes[i], out.scores[i], threshold))
  }

  /** What `detect` returns once inference has run: one object per kept index,
      in increasing index order. */
  function Detections(out: OutputTensors, threshold: real, rows: nat, cols: nat): (r: seq<DetectedObject>)
    requires BuffersCover(out)
  {
    ScaledAt(Boxes(out), out.scores, Selected(KeptMask(out, threshold)), rows, cols)
  }

  /** Each detection comes from an index `i < num` that passes the keep-test,
      in increasing order, with the box read from `boxes_data[4i..4i+3]`
      scaled by the frame and the score unchanged; there are at most `num`. */
  lemma DetectionsFromKeptIndices(out: OutputTensors, threshold: real, rows: nat, cols: nat)
    requires BuffersCover(out)
    ensures var idx := Selected(KeptMask(out, threshold));
      var r := Detections(out, threshold, rows, cols);
      && |r| == |idx| <= Iterations(out)
      && (forall k, l :: 0 <= k < l < |idx| ==> idx[k] < idx[l])
      && (forall i :: 0 <= i < Iterations(out) && IsPerson(out.classes[i], out.scores[i], threshold) ==> i in idx)
      && forall k :: 0 <= k < |idx| ==>
           && idx[k] < Iterations(out)
           && IsPerson(out.classes[idx[k]], out.scores[idx[k]], threshold)
           && r[k] == ScaleBox(BoxAt(out.boxes, idx[k]), out.scores[idx[k]], rows, cols)
           && r[k].score == out.scores[idx[k]]
  {
    var m := KeptMask(out, threshold);
    var idx := Selected(m);
    forall i | 0 <= i < Iterations(out) && IsPerson(out.classes[i], out.scores[i], threshold)
      ensures i in idx
    {
      assert m[i];
    }
  }

  /** The loop of `detect` and the loop of the Python CPU path agree: given
      the buffers as Python's three tensors of length `num`, Python returns
      the same detections and no exception. */
  lemma SameAsPythonCpuPath(out: OutputTensors, threshold: real, rows: nat, cols: nat)
    requires BuffersCover(out)
    ensures var n := Iterations(out);
      Inference.CpuDetections(Inference.CpuTensors(Boxes(out), out.classes[..n], out.scores[..n]), threshold, rows, cols)
      == Some(Detections(out, threshold, rows, cols))
  {
    var n := Iterations(out);
    var py := Inference.CpuTensors(Boxes(out), out.classes[..n], out.scores[..n]);
    Inference.CpuDetectionsOfWellShapedTensors(py, threshold, rows, cols);
    assert Inference.CpuMask(py, threshold) == KeptMask(out, threshold);
    var idx := Selected(KeptMask(out, threshold));
    assert ScaledAt(py.boxes, py.scores, idx, rows, cols) == ScaledAt(Boxes(out), out.scores, idx, rows, cols);
  }

  /** One iteration of the loop of `detect`. */
  lemma LoopStep(out: OutputTensors, threshold: real, rows: nat, cols: nat, i: nat)
    requires BuffersCover(out) && i < Iterations(out)
    ensures var m := KeptMask(out, threshold);
      ScaledAt(Boxes(out), out.scores, Selected(m[..i + 1]), rows, cols)
      == ScaledAt(Boxes(out), out.scores, Selected(m[..i]), rows, cols)
         + (if m[i] then [ScaleBox(BoxAt(out.boxes, i), out.scores[i], rows, cols)] else [])
  {
    SelectedStep(KeptMask(out, threshold), i);
  }

  class PersonDetector {
    var model: bool
    var options: bool
    var delegate: bool
    var optionsHaveDelegate: bool
    var interpreter: bool
    const threshold: real

    /** `PersonDetector(model_path, threshold)`. Each flag says whether the
        matching C API call returned a non-null handle; `tensorsAllocated` is
        whether `TfLiteInterpreterAllocateTensors` returned `kTfLiteOk`, which
        the source only logs. */
    constructor (threshold: real, modelLoads: bool, delegateCreated: bool,
                 interpreterCreated: bool, tensorsAllocated: bool)
      ensures this.threshold == threshold
      ensures model == modelLoads && options == modelLoads
      ensures delegate == (modelLoads && delegateCreated)
      ensures optionsHaveDelegate == delegate
      ensures interpreter == (modelLoads && interpreterCreated)
    {
      this.threshold := threshold;
      model := false;
      options := false;
      delegate := false;
      optionsHaveDelegate := false;
      interpreter := false;
      new;
      model := modelLoads;
      if !model {
        return;
      }
      options := true;
      delegate := delegateCreated;
      if delegate {
        optionsHaveDelegate := true;
      }
      interpreter := interpreterCreated;
      if !interpreter {
        return;
      }
      // `tensorsAllocated` is only reported on stderr; the interpreter is kept.
    }

    /** `detect(frame)`: `frameRows` and `frameCols` are the ORIGINAL frame's
        `rows` and `cols`. */
    method Detect(frameRows: nat, frameCols: nat, resizedEmpty: bool, invokeOk: bool, out: OutputTensors)
      returns (results: seq<DetectedObject>)
      requires interpreter && !resizedEmpty && invokeOk ==> BuffersCover(out)
      ensures !interpreter || resizedEmpty || !invokeOk ==> results == []
      ensures interpreter && !resizedEmpty && invokeOk ==>
        results == Detections(out, threshold, frameRows, frameCols)
    {
      results := [];
      if !interpreter {
        return;
      }
      if resizedEmpty {
        return;
      }
      if !invokeOk {
        return;
      }
      var num := Trunc(out.count);
      var h, w := frameRows, frameCols;
      ghost var m := KeptMask(out, threshold);
      var i := 0;
      while i < num
        invariant 0 <= i <= Iterations(out)
        invariant results == ScaledAt(Boxes(out), out.scores, Selected(m[..i]), h, w)
      {
        LoopStep(out, threshold, h, w, i);
        if Trunc(out.classes[i]) == 0 && out.scores[i] > threshold {
          var ymin := out.boxes[4 * i];
          var xmin := out.boxes[4 * i + 1];
          var ymax := out.boxes[4 * i + 2];
          var xmax := out.boxes[4 * i + 3];
          var obj := ScaleBox(Box(ymin, xmin, ymax, xmax), out.scores[i], h, w);
          results := results + [obj];
        }
        i := i + 1;
      }
      assert m[..Iterations(out)] == m;
    }
  }
}
