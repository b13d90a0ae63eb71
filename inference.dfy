/** The Python `PersonDetector`: label loading, interpreter set-up with the
    one-way Edge TPU failover flag, the input-shape dispatch, and `detect`
    with TPU first and the CPU path as fallback.

    Every foreign call is an input: the outcome of loading each interpreter,
    the frame `cv2.resize` returns, the outcome of the TPU attempt (it raises,
    or `get_objects` yields objects) and of the CPU attempt (it raises, or
    yields the three output tensors). */
module Inference {
  import opened Wrappers
  import opened Postprocess

  // ---------------------------------------------------------------------
  // Labels: `_load_labels`
  // ---------------------------------------------------------------------

  /** The characters Python's `str.isspace` accepts, which `str.strip()` removes. */
  predicate IsSpace(c: char)
  {
    || ('\U{0009}' <= c <= '\U{000D}')
    || ('\U{001C}' <= c <= '\U{0020}')
    || c == '\U{0085}' || c == '\U{00A0}' || c == '\U{1680}'
    || ('\U{2000}' <= c <= '\U{200A}')
    || c == '\U{2028}' || c == '\U{2029}' || c == '\U{202F}' || c == '\U{205F}' || c == '\U{3000}'
  }

  /** The length of the whitespace run that starts `s`. */
  function LeadingSpaces(s: string): (n: nat)
    ensures n <= |s|
    ensures forall k :: 0 <= k < n ==> IsSpace(s[k])
    ensures n < |s| ==> !IsSpace(s[n])
  {
    if |s| == 0 || !IsSpace(s[0]) then 0 else 1 + LeadingSpaces(s[1..])
  }

  /** The length of the whitespace run that ends `s`. */
  function TrailingSpaces(s: string): (n: nat)
    ensures n <= |s|
    ensures forall k :: |s| - n <= k < |s| ==> IsSpace(s[k])
    ensures n < |s| ==> !IsSpace(s[|s| - 1 - n])
  {
    if |s| == 0 || !IsSpace(s[|s| - 1]) then 0 else 1 + TrailingSpaces(s[..|s| - 1])
  }

  /** Python's `str.strip()` with no argument: `s` without its leading and
      trailing whitespace. */
  function Strip(s: string): (r: string)
    ensures LeadingSpaces(s) + |r| <= |s|
    ensures r == s[LeadingSpaces(s)..LeadingSpaces(s) + |r|]
    ensures forall k :: 0 <= k < LeadingSpaces(s) ==> IsSpace(s[k])
    ensures forall k :: LeadingSpaces(s) + |r| <= k < |s| ==> IsSpace(s[k])
    ensures r == [] || (!IsSpace(r[0]) && !IsSpace(r[|r| - 1]))
  {
    var t := s[LeadingSpaces(s)..];
    t[..|t| - TrailingSpaces(t)]
  }

  /** Stripping twice is stripping once. */
  lemma StripIdempotent(s: string)
    ensures Strip(Strip(s)) == Strip(s)
  {
    var r := Strip(s);
    assert LeadingSpaces(r) == 0;
    assert r[0..] == r;
    assert TrailingSpaces(r) == 0;
  }

  /** `m` is the label table of the line sequence `lines`: key `i` exactly for
      each line, with that line stripped. */
  predicate IsLabelMap(m: map<nat, string>, lines: seq<string>)
  {
    && (forall i :: i in m ==> i < |lines|)
    && (forall i :: 0 <= i < |lines| ==> i in m && m[i] == Strip(lines[i]))
  }

  /** `_load_labels`: `lines` are the lines the file yields before it ends or
      reading fails (none when it cannot be opened); the exception is
      swallowed, so the table keeps what was read. */
  method LoadLabels(lines: seq<string>) returns (labels: map<nat, string>)
    ensures IsLabelMap(labels, lines)
  {
    labels := map[];
    for idx := 0 to |lines|
      invariant IsLabelMap(labels, lines[..idx])
    {
      labels := labels[idx := Strip(lines[idx])];
    }
    assert lines[..|lines|] == lines;
  }

  // ---------------------------------------------------------------------
  // Frames and the shape dispatch of `detect`
  // ---------------------------------------------------------------------

  /** Number of elements of an array of shape `dims`. */
  function Size(dims: seq<nat>): nat
  {
    if |dims| == 0 then 1 else dims[0] * Size(dims[1..])
  }

  /** A numpy array: its shape and its elements in row-major order. */
  datatype RawImage = RawImage(dims: seq<nat>, pixels: seq<int>)
  type Image = i: RawImage | |i.pixels| == Size(i.dims) witness RawImage([], [0])

  /** The stride between two pixels of one channel: the channel count of a
      3-D array, 1 for a 2-D one. */
  function Channels(img: Image): nat
  {
    if |img.dims| == 3 then img.dims[2] else 1
  }

  /** The shapes `detect` accepts: 2-D, or 3-D with one or three channels. */
  predicate AcceptedShape(dims: seq<nat>)
  {
    |dims| == 2 || (|dims| == 3 && (dims[2] == 1 || dims[2] == 3))
  }

  lemma SizeOfFrameShapes(h: nat, w: nat, c: nat)
    ensures Size([h, w]) == h * w
    ensures Size([h, w, c]) == h * w * c
    ensures Size([1, h, w, 1]) == h * w
  {
    assert Size([w]) == w by { assert [w][1..] == []; }
    assert Size([c]) == c by { assert [c][1..] == []; }
    assert Size([1]) == 1 by { assert [1][1..] == []; }
    assert Size([h, w]) == h * w by { assert [h, w][1..] == [w]; }
    assert Size([w, c]) == w * c by { assert [w, c][1..] == [c]; }
    assert Size([h, w, c]) == h * (w * c) by { assert [h, w, c][1..] == [w, c]; }
    assert Size([w, 1]) == w by { assert [w, 1][1..] == [1]; }
    assert Size([h, w, 1]) == h * w by { assert [h, w, 1][1..] == [w, 1]; }
    assert Size([1, h, w, 1]) == h * w by { assert [1, h, w, 1][1..] == [h, w, 1]; }
  }

  lemma ChannelIndexInRange(k: nat, h: nat, w: nat, c: nat)
    requires k < h * w && 0 < c
    ensures k * c < h * w * c
  {
  }

  /** The batched `(1, H, W, 1)` input built from the resized frame: a 2-D frame
      gets a channel axis, a one-channel frame is kept, a three-channel frame
      keeps channel 0, and any other shape is refused (`None`). */
  function PrepareInput(img: Image): (r: Option<Image>)
    ensures r.Some? <==> AcceptedShape(img.dims)
    ensures r.Some? ==> r.value.dims == [1, img.dims[0], img.dims[1], 1]
    ensures r.Some? ==> forall k :: 0 <= k < |r.value.pixels| ==>
      k * Channels(img) < |img.pixels| && r.value.pixels[k] == img.pixels[k * Channels(img)]
  {
    var d := img.dims;
    if |d| == 2 || (|d| == 3 && d[2] == 1) then
      SizeOfFrameShapes(d[0], d[1], 1);
      assert d == [d[0], d[1]] || d == [d[0], d[1], 1];
      var input: Image := RawImage([1, d[0], d[1], 1], img.pixels);
      Some(input)
    else if |d| == 3 && d[2] == 3 then
      SizeOfFrameShapes(d[0], d[1], 3);
      assert d == [d[0], d[1], 3];
      assert forall k :: 0 <= k < d[0] * d[1] ==> 3 * k < |img.pixels| by {
        forall k | 0 <= k < d[0] * d[1] ensures 3 * k < |img.pixels| {
          ChannelIndexInRange(k, d[0], d[1], 3);
        }
      }
      var input: Image := RawImage([1, d[0], d[1], 1], seq(d[0] * d[1], k requires 0 <= k < d[0] * d[1] => img.pixels[3 * k]));
      Some(input)
    else
      None
  }

  // ---------------------------------------------------------------------
  // The TPU result: `get_objects` filtered to class 0
  // ---------------------------------------------------------------------

  /** A box of pycoral's `Object`, in model-input pixels. */
  datatype BBox = BBox(xmin: int, ymin: int, xmax: int, ymax: int)

  /** What `get_objects` yields; `id` is `None` for an object without an `id`
      attribute. */
  datatype TpuObject = TpuObject(id: Option<int>, score: real, bbox: BBox)

  predicate IsPersonObject(o: TpuObject)
  {
    o.id == Some(0)
  }

  /** The objects whose `id` is 0, in their order; an object without an `id`
      is dropped. */
  function PersonObjects(objs: seq<TpuObject>): (r: seq<TpuObject>)
    ensures |r| <= |objs|
    ensures forall k :: 0 <= k < |r| ==> IsPersonObject(r[k]) && r[k] in objs
  {
    if |objs| == 0 then []
    else
      var last := objs[|objs| - 1];
      PersonObjects(objs[..|objs| - 1]) + (if IsPersonObject(last) then [last] else [])
  }

  function PersonMask(objs: seq<TpuObject>): (m: seq<bool>)
    ensures |m| == |objs|
  {
    seq(|objs|, i requires 0 <= i < |objs| => IsPersonObject(objs[i]))
  }

  /** The elements of `s` at the indices `idx`, in that order. */
  function Gather<T>(s: seq<T>, idx: seq<nat>): (r: seq<T>)
    requires forall k :: 0 <= k < |idx| ==> idx[k] < |s|
    ensures |r| == |idx|
    ensures forall k :: 0 <= k < |idx| ==> r[k] == s[idx[k]]
  {
    seq(|idx|, k requires 0 <= k < |idx| => s[idx[k]])
  }

  /** The TPU result is exactly the person objects of `get_objects`, in their
      original order: the elements at the increasing indices whose `id` is 0. */
  lemma {:induction false} PersonObjectsAreSelection(objs: seq<TpuObject>)
    ensures PersonObjects(objs) == Gather(objs, Selected(PersonMask(objs)))
  {
    if |objs| > 0 {
      var n := |objs| - 1;
      var front := objs[..n];
      PersonObjectsAreSelection(front);
      assert PersonMask(objs)[..n] == PersonMask(front);
      SelectedStep(PersonMask(objs), n);
      assert PersonMask(objs)[..n + 1] == PersonMask(objs);
      var idx := Selected(PersonMask(front));
      assert Gather(objs, idx) == Gather(front, idx);
    }
  }

  // ---------------------------------------------------------------------
  // The CPU result: the filter and scaling loop over the output tensors
  // ---------------------------------------------------------------------

  /** `boxes`, `classes` and `scores` as `get_tensor(...)[0]` returns them. */
  datatype CpuTensors = CpuTensors(boxes: seq<Box>, classes: seq<real>, scores: seq<real>)

  /** Index `i` of `range(len(scores))` passes the keep-test. */
  function CpuMask(out: CpuTensors, threshold: real): (m: seq<bool>)
    ensures |m| == |out.scores|
  {
    seq(|out.scores|, i requires 0 <= i < |out.scores| =>
      i < |out.classes| && IsPerson(out.classes[i], out.scores[i], threshold))
  }

  /** Iteration `i` raises `IndexError`: `classes[i]` is out of range, or the
      index is kept and `boxes[i]` is out of range. */
  predicate Faults(out: CpuTensors, threshold: real, i: nat)
    requires i < |out.scores|
  {
    || i >= |out.classes|
    || (IsPerson(out.classes[i], out.scores[i], threshold) && i >= |out.boxes|)
  }

  predicate RaisesIndexError(out: CpuTensors, threshold: real)
  {
    exists i :: 0 <= i < |out.scores| && Faults(out, threshold, i)
  }

  /** The CPU detections: `None` when the loop raises, otherwise one detection
      per kept index in increasing order, scaled to the original frame. */
  function CpuDetections(out: CpuTensors, threshold: real, rows: nat, cols: nat): (r: Option<seq<DetectedObject>>)
  {
    if RaisesIndexError(out, threshold) then None
    else
      var idx := Selected(CpuMask(out, threshold));
      assert forall k :: 0 <= k < |idx| ==> !Faults(out, threshold, idx[k]);
      Some(ScaledAt(out.boxes, out.scores, idx, rows, cols))
  }

  /** Tensors of one common length never raise, and give at most one detection
      per score, each the scaled box and unchanged score of a kept index. */
  lemma CpuDetectionsOfWellShapedTensors(out: CpuTensors, threshold: real, rows: nat, cols: nat)
    requires |out.boxes| == |out.classes| == |out.scores|
    ensures CpuDetections(out, threshold, rows, cols).Some?
    ensures var ds := CpuDetections(out, threshold, rows, cols).value;
      var idx := Selected(CpuMask(out, threshold));
      && |ds| == |idx| <= |out.scores|
      && forall k :: 0 <= k < |idx| ==>
           && IsPerson(out.classes[idx[k]], out.scores[idx[k]], threshold)
           && ds[k] == ScaleBox(out.boxes[idx[k]], out.scores[idx[k]], rows, cols)
           && ds[k].score == out.scores[idx[k]]
  {
  }

  /** The kept indices below `i` all lie inside `boxes` when no iteration
      below `i` raised. */
  predicate PrefixInRange(out: CpuTensors, threshold: real, i: nat)
    requires i <= |out.scores|
  {
    var idx := Selected(CpuMask(out, threshold)[..i]);
    forall k :: 0 <= k < |idx| ==> idx[k] < |out.boxes| && idx[k] < |out.scores|
  }

  /** One iteration of the CPU loop that does not raise. */
  lemma CpuLoopStep(out: CpuTensors, threshold: real, rows: nat, cols: nat, i: nat)
    requires i < |out.scores| && PrefixInRange(out, threshold, i)
    requires !Faults(out, threshold, i)
    ensures PrefixInRange(out, threshold, i + 1)
    ensures var m := CpuMask(out, threshold);
      ScaledAt(out.boxes, out.scores, Selected(m[..i + 1]), rows, cols)
      == ScaledAt(out.boxes, out.scores, Selected(m[..i]), rows, cols)
         + (if m[i] then [ScaleBox(out.boxes[i], out.scores[i], rows, cols)] else [])
  {
    var m := CpuMask(out, threshold);
    SelectedStep(m, i);
  }

  /** Lines 126-144 of `detect`: the `for i in range(len(scores))` loop. */
  method CpuPostprocess(out: CpuTensors, threshold: real, rows: nat, cols: nat)
    returns (r: Option<seq<DetectedObject>>)
    ensures r.None? <==> RaisesIndexError(out, threshold)
    ensures r == CpuDetections(out, threshold, rows, cols)
  {
    var detections: seq<DetectedObject> := [];
    ghost var m := CpuMask(out, threshold);
    var i := 0;
    while i < |out.scores|
      invariant 0 <= i <= |out.scores|
      invariant forall j :: 0 <= j < i ==> !Faults(out, threshold, j)
      invariant PrefixInRange(out, threshold, i)
      invariant detections == ScaledAt(out.boxes, out.scores, Selected(m[..i]), rows, cols)
    {
      if i >= |out.classes| {
        assert Faults(out, threshold, i);
        return None;
      }
      if IsPerson(out.classes[i], out.scores[i], threshold) && i >= |out.boxes| {
        assert Faults(out, threshold, i);
        return None;
      }
      CpuLoopStep(out, threshold, rows, cols, i);
      if IsPerson(out.classes[i], out.scores[i], threshold) {
        detections := detections + [ScaleBox(out.boxes[i], out.scores[i], rows, cols)];
      }
      i := i + 1;
    }
    assert m[..|out.scores|] == m;
    r := Some(detections);
  }

  // ---------------------------------------------------------------------
  // Detector state, construction and one call of `detect`
  // ---------------------------------------------------------------------

  /** How `make_interpreter` followed by `allocate_tensors` ends for the TPU model. */
  datatype TpuLoad = MakeInterpreterFails | AllocateTensorsFails | TpuLoaded

  /** What `detect` reads: the module flag `TPU_AVAILABLE`, and the
      attributes `threshold`, whether
      `interpreter_tpu` and `interpreter_cpu` are non-`None`, and `tpu_failed`. */
  datatype DetectorState = DetectorState(
    tpuAvailable: bool, threshold: real,
    interpreterTpu: bool, interpreterCpu: bool, tpuFailed: bool)

  /** The guard of line 108: the TPU is tried. */
  predicate TpuUsable(s: DetectorState)
  {
    s.tpuAvailable && !s.tpuFailed && s.interpreterTpu
  }

  /** The check of lines 25-26: `__init__` raises `RuntimeError`. */
  predicate ConstructionRaises(s: DetectorState)
  {
    !s.interpreterTpu && !s.interpreterCpu
  }

  /** The state after `self.tpu_failed = False` and `_init_interpreters()`.
      `cpuRuntime`: `tflite_runtime` or `tensorflow.lite` imports;
      `cpuLoads`: the CPU `Interpreter(...)` and its `allocate_tensors` succeed. */
  function InitialState(tpuAvailable: bool, threshold: real, tpuLoad: TpuLoad, cpuRuntime: bool, cpuLoads: bool)
    : (s: DetectorState)
    ensures s.tpuAvailable == tpuAvailable && s.threshold == threshold
    ensures TpuUsable(s) <==> tpuAvailable && tpuLoad == TpuLoaded
    ensures s.tpuFailed <==> tpuAvailable && tpuLoad != TpuLoaded
    ensures s.interpreterCpu <==> cpuRuntime && cpuLoads
    ensures ConstructionRaises(s) <==>
      (!tpuAvailable || tpuLoad == MakeInterpreterFails) && !(cpuRuntime && cpuLoads)
  {
    DetectorState(
      tpuAvailable, threshold,
      tpuAvailable && tpuLoad != MakeInterpreterFails,
      cpuRuntime && cpuLoads,
      tpuAvailable && tpuLoad != TpuLoaded)
  }

  /** The outcome of lines 110-114 for one call. */
  datatype TpuAttempt = TpuRaises | TpuObjects(objects: seq<TpuObject>)

  /** The outcome of lines 120-125 for one call. */
  datatype CpuAttempt = CpuRaises | CpuOutputs(tensors: CpuTensors)

  /** Everything one `detect(frame)` call sees from outside: the original
      frame's height and width, what `cv2.resize` returns (`None`: it raised),
      and how the TPU and CPU attempts would end. */
  datatype Call = Call(frameRows: nat, frameCols: nat, resized: Option<Image>, tpu: TpuAttempt, cpu: CpuAttempt)

  /** `(filtered, 'TPU')`, `(detections, 'CPU')`, `([], 'NONE')`, or an
      exception that leaves `detect`. */
  datatype DetectResult =
    | TpuResult(objects: seq<TpuObject>)
    | CpuResult(detections: seq<DetectedObject>)
    | NoneResult
    | Raised

  datatype Step = Step(result: DetectResult, next: DetectorState)

  /** The call reaches line 108 and the TPU guard holds. */
  predicate TpuTried(s: DetectorState, c: Call)
  {
    c.resized.Some? && AcceptedShape(c.resized.value.dims) && TpuUsable(s)
  }

  /** The call reaches the CPU fallback of line 119: the frame was resized and
      accepted, the TPU did not return, and there is a CPU interpreter. */
  predicate CpuReached(s: DetectorState, c: Call)
  {
    c.resized.Some? && AcceptedShape(c.resized.value.dims)
    && !(TpuUsable(s) && c.tpu.TpuObjects?) && s.interpreterCpu
  }

  /** The CPU loop of this call raises or the CPU calls before it do. */
  predicate CpuFails(s: DetectorState, c: Call)
  {
    c.cpu.CpuRaises? || CpuDetections(c.cpu.tensors, s.threshold, c.frameRows, c.frameCols).None?
  }

  /** One call of `detect`: its result and the state afterwards. */
  function DetectStep(s: DetectorState, c: Call): (r: Step)
    ensures r.next == s.(tpuFailed := r.next.tpuFailed)
    ensures r.next.tpuFailed <==> s.tpuFailed || (TpuTried(s, c) && c.tpu.TpuRaises?)
    ensures s.tpuFailed ==> !r.result.TpuResult?
    ensures r.result.TpuResult? <==> TpuTried(s, c) && c.tpu.TpuObjects?
    ensures r.result.TpuResult? ==> r.result.objects == PersonObjects(c.tpu.objects)
    ensures r.result.CpuResult? ==>
      && s.interpreterCpu && c.cpu.CpuOutputs?
      && CpuDetections(c.cpu.tensors, s.threshold, c.frameRows, c.frameCols) == Some(r.result.detections)
    ensures c.resized.Some? && !AcceptedShape(c.resized.value.dims) ==> r == Step(NoneResult, s)
    ensures !s.interpreterCpu && c.resized.Some? && !r.result.TpuResult? ==> r.result.NoneResult?
    ensures CpuReached(s, c) && !CpuFails(s, c) ==>
      r.result == CpuResult(CpuDetections(c.cpu.tensors, s.threshold, c.frameRows, c.frameCols).value)
    ensures r.result.Raised? <==> c.resized.None? || (CpuReached(s, c) && CpuFails(s, c))
  {
    match c.resized
    case None => Step(Raised, s)
    case Some(img) =>
      if PrepareInput(img).None? then Step(NoneResult, s)
      else if TpuUsable(s) && c.tpu.TpuObjects? then Step(TpuResult(PersonObjects(c.tpu.objects)), s)
      else
        var s1 := if TpuUsable(s) then s.(tpuFailed := true) else s;
        if !s1.interpreterCpu then Step(NoneResult, s1)
        else match c.cpu
          case CpuRaises => Step(Raised, s1)
          case CpuOutputs(out) =>
            match CpuDetections(out, s.threshold, c.frameRows, c.frameCols)
            case None => Step(Raised, s1)
            case Some(ds) => Step(CpuResult(ds), s1)
  }

  /** The source's `__init__` checks only that the interpreters are not
      `None`. An `allocate_tensors` failure on the TPU leaves `interpreter_tpu`
      set (with `tpu_failed`), so construction succeeds although no call can
      ever produce detections. */
  lemma AllocateFailureStillConstructs(threshold: real, c: Call)
    ensures var s := InitialState(true, threshold, AllocateTensorsFails, false, false);
      && !ConstructionRaises(s) && !TpuUsable(s) && !s.interpreterCpu
      && (DetectStep(s, c).result.NoneResult? || DetectStep(s, c).result.Raised?)
  {
  }

  // ---------------------------------------------------------------------
  // Sequences of calls: the failover is permanent
  // ---------------------------------------------------------------------

  datatype Trace = Trace(results: seq<DetectResult>, final: DetectorState)

  /** The results of calling `detect` once per element of `calls`, from state `s`. */
  function Run(s: DetectorState, calls: seq<Call>): (t: Trace)
    ensures |t.results| == |calls|
    decreases |calls|
  {
    if |calls| == 0 then Trace([], s)
    else
      var st := DetectStep(s, calls[0]);
      var rest := Run(st.next, calls[1..]);
      Trace([st.result] + rest.results, rest.final)
  }

  /** Calls change nothing but `tpu_failed`, and never reset it. */
  lemma {:induction false} RunKeepsConfiguration(s: DetectorState, calls: seq<Call>)
    ensures Run(s, calls).final == s.(tpuFailed := Run(s, calls).final.tpuFailed)
    ensures s.tpuFailed ==> Run(s, calls).final.tpuFailed
    decreases |calls|
  {
    if |calls| > 0 {
      RunKeepsConfiguration(DetectStep(s, calls[0]).next, calls[1..]);
    }
  }

  /** Once `tpu_failed` is set, no later call returns a TPU result. */
  lemma {:induction false} NoTpuOnceFailed(s: DetectorState, calls: seq<Call>)
    requires s.tpuFailed
    ensures forall k :: 0 <= k < |calls| ==> !Run(s, calls).results[k].TpuResult?
    ensures Run(s, calls).final.tpuFailed
    decreases |calls|
  {
    if |calls| > 0 {
      var st := DetectStep(s, calls[0]);
      NoTpuOnceFailed(st.next, calls[1..]);
      var t := Run(s, calls);
      forall k | 0 <= k < |calls| ensures !t.results[k].TpuResult? {
        if k > 0 {
          assert t.results[k] == Run(st.next, calls[1..]).results[k - 1];
        }
      }
    }
  }

  /** Running `a` then `b` is running `a + b`. */
  lemma {:induction false} RunSplit(s: DetectorState, a: seq<Call>, b: seq<Call>)
    ensures Run(s, a + b).results == Run(s, a).results + Run(Run(s, a).final, b).results
    ensures Run(s, a + b).final == Run(Run(s, a).final, b).final
    decreases |a|
  {
    if |a| == 0 {
      assert a + b == b;
    } else {
      var st := DetectStep(s, a[0]);
      assert (a + b)[0] == a[0];
      assert (a + b)[1..] == a[1..] + b;
      RunSplit(st.next, a[1..], b);
    }
  }

  /** The state in which call `k` of `calls` runs. */
  function StateBefore(s: DetectorState, calls: seq<Call>, k: nat): DetectorState
    requires k <= |calls|
  {
    Run(s, calls[..k]).final
  }

  /** Call `k` is the result of one step from the state the first `k` calls leave. */
  lemma RunAt(s: DetectorState, calls: seq<Call>, k: nat)
    requires k < |calls|
    ensures Run(s, calls).results[k] == DetectStep(StateBefore(s, calls, k), calls[k]).result
    ensures StateBefore(s, calls, k + 1) == DetectStep(StateBefore(s, calls, k), calls[k]).next
  {
    assert calls == calls[..k] + calls[k..];
    RunSplit(s, calls[..k], calls[k..]);
    assert calls[..k + 1] == calls[..k] + [calls[k]];
    RunSplit(s, calls[..k], [calls[k]]);
    assert [calls[k]][1..] == [];
  }

  /** From call `k` on, a run continues as a run from the state the first `k`
      calls leave. */
  lemma RunSuffix(s: DetectorState, calls: seq<Call>, k: nat)
    requires k <= |calls|
    ensures Run(s, calls).results[k..] == Run(StateBefore(s, calls, k), calls[k..]).results
    ensures Run(s, calls).final == Run(StateBefore(s, calls, k), calls[k..]).final
  {
    var front, back := calls[..k], calls[k..];
    assert calls == front + back;
    RunSplit(s, front, back);
  }

  /** After a TPU exception in call `k` (or any earlier failure), every later
      call takes the CPU path or none, even where the TPU would succeed. */
  lemma NoTpuAfterFailover(s: DetectorState, calls: seq<Call>, k: nat)
    requires k <= |calls|
    requires StateBefore(s, calls, k).tpuFailed
    ensures forall j :: k <= j < |calls| ==> !Run(s, calls).results[j].TpuResult?
  {
    RunSuffix(s, calls, k);
    var suffix := Run(StateBefore(s, calls, k), calls[k..]).results;
    NoTpuOnceFailed(StateBefore(s, calls, k), calls[k..]);
    forall j | k <= j < |calls| ensures !Run(s, calls).results[j].TpuResult? {
      assert Run(s, calls).results[j] == suffix[j - k];
    }
  }

  /** A TPU exception in call `k` falls through to the CPU in the same call
      (which returns the CPU detections when a CPU interpreter is present and
      its outputs do not raise), and sets `tpu_failed` for good. */
  lemma TpuExceptionFailsOver(s: DetectorState, calls: seq<Call>, k: nat)
    requires k < |calls|
    requires TpuTried(StateBefore(s, calls, k), calls[k]) && calls[k].tpu.TpuRaises?
    ensures !Run(s, calls).results[k].TpuResult?
    ensures forall j :: k < j < |calls| ==> !Run(s, calls).results[j].TpuResult?
    ensures Run(s, calls).final.tpuFailed
    ensures var sk, c := StateBefore(s, calls, k), calls[k];
      sk.interpreterCpu && !CpuFails(sk, c) ==>
        Run(s, calls).results[k] == CpuResult(CpuDetections(c.cpu.tensors, sk.threshold, c.frameRows, c.frameCols).value)
  {
    RunAt(s, calls, k);
    NoTpuAfterFailover(s, calls, k + 1);
    RunSuffix(s, calls, k + 1);
    RunKeepsConfiguration(StateBefore(s, calls, k + 1), calls[k + 1..]);
  }

  /** `tpu_failed` is set during a run only by a TPU exception in some call. */
  lemma {:induction false} FailureNeedsTpuException(s: DetectorState, calls: seq<Call>)
    requires !s.tpuFailed && Run(s, calls).final.tpuFailed
    ensures exists k :: 0 <= k < |calls| && TpuTried(StateBefore(s, calls, k), calls[k]) && calls[k].tpu.TpuRaises?
    decreases |calls|
  {
    var st := DetectStep(s, calls[0]);
    assert calls[..0] == [];
    if st.next.tpuFailed {
      assert TpuTried(StateBefore(s, calls, 0), calls[0]);
    } else {
      var rest := calls[1..];
      FailureNeedsTpuException(st.next, rest);
      var k' :| 0 <= k' < |rest| && TpuTried(StateBefore(st.next, rest, k'), rest[k']) && rest[k'].tpu.TpuRaises?;
      assert calls[..k' + 1] == [calls[0]] + rest[..k'];
      assert calls[..k' + 1][0] == calls[0];
      assert calls[..k' + 1][1..] == rest[..k'];
      assert StateBefore(s, calls, k' + 1) == StateBefore(st.next, rest, k');
      assert calls[k' + 1] == rest[k'];
    }
  }

  // ---------------------------------------------------------------------
  // The detector object
  // ---------------------------------------------------------------------

  class PersonDetector {
    const tpuAvailable: bool
    const threshold: real
    const labels: map<nat, string>
    var interpreterTpu: bool
    var interpreterCpu: bool
    var tpuFailed: bool

    function State(): DetectorState
      reads this
    {
      DetectorState(tpuAvailable, threshold, interpreterTpu, interpreterCpu, tpuFailed)
    }

    /** Lines 15-24 of `__init__`: labels, `tpu_failed = False`, then
        `_init_interpreters()`. Model paths are not modelled; the load outcomes
        stand for them. */
    constructor (tpuAvailable: bool, threshold: real, labelLines: seq<string>,
                 tpuLoad: TpuLoad, cpuRuntime: bool, cpuLoads: bool)
      ensures State() == InitialState(tpuAvailable, threshold, tpuLoad, cpuRuntime, cpuLoads)
      ensures IsLabelMap(labels, labelLines)
    {
      this.tpuAvailable := tpuAvailable;
      this.threshold := threshold;
      var table := LoadLabels(labelLines);
      labels := table;
      tpuFailed := false;
      new;
      InitInterpreters(tpuLoad, cpuRuntime, cpuLoads);
    }

    /** `_init_interpreters`: both interpreters start as `None`; a TPU load
        failure sets `tpu_failed`, a CPU load failure leaves `None`. */
    method InitInterpreters(tpuLoad: TpuLoad, cpuRuntime: bool, cpuLoads: bool)
      modifies this`interpreterTpu, this`interpreterCpu, this`tpuFailed
      ensures interpreterTpu <==> tpuAvailable && tpuLoad != MakeInterpreterFails
      ensures interpreterCpu <==> cpuRuntime && cpuLoads
      ensures tpuFailed <==> old(tpuFailed) || (tpuAvailable && tpuLoad != TpuLoaded)
    {
      interpreterTpu := false;
      interpreterCpu := false;
      if tpuAvailable {
        if tpuLoad != MakeInterpreterFails {
          interpreterTpu := true;
        }
        if tpuLoad != TpuLoaded {
          tpuFailed := true;
        }
      }
      if cpuRuntime {
        if cpuLoads {
          interpreterCpu := true;
        } else {
          interpreterCpu := false;
        }
      } else {
        interpreterCpu := false;
      }
    }

    /** `detect(frame)`: shape dispatch, the TPU first unless it has failed,
        then the CPU; `tpu_failed` is the only attribute it changes. */
    method Detect(c: Call) returns (r: DetectResult)
      modifies this`tpuFailed
      ensures DetectStep(old(State()), c) == Step(r, State())
    {
      if c.resized.None? {
        return Raised;
      }
      var input := PrepareInput(c.resized.value);
      if input.None? {
        return NoneResult;
      }
      if tpuAvailable && !tpuFailed && interpreterTpu {
        match c.tpu {
          case TpuObjects(objs) =>
            return TpuResult(PersonObjects(objs));
          case TpuRaises =>
            tpuFailed := true;
        }
      }
      if interpreterCpu {
        match c.cpu {
          case CpuRaises =>
            return Raised;
          case CpuOutputs(out) =>
            var detections := CpuPostprocess(out, threshold, c.frameRows, c.frameCols);
            if detections.None? {
              return Raised;
            }
            return CpuResult(detections.value);
        }
      }
      return NoneResult;
    }
  }

  /** The whole of `__init__`: `None` where it raises `RuntimeError` because
      both interpreters are `None`. */
  method Create(tpuAvailable: bool, threshold: real, labelLines: seq<string>,
                tpuLoad: TpuLoad, cpuRuntime: bool, cpuLoads: bool)
    returns (d: Option<PersonDetector>)
    ensures d.None? <==> ConstructionRaises(InitialState(tpuAvailable, threshold, tpuLoad, cpuRuntime, cpuLoads))
    ensures d.Some? ==> (
      && fresh(d.value)
      && d.value.State() == InitialState(tpuAvailable, threshold, tpuLoad, cpuRuntime, cpuLoads)
      && IsLabelMap(d.value.labels, labelLines))
  {
    var detector := new PersonDetector(tpuAvailable, threshold, labelLines, tpuLoad, cpuRuntime, cpuLoads);
    if detector.interpreterTpu == false && detector.interpreterCpu == false {
      return None;
    }
    return Some(detector);
  }
}
