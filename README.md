# Person detector: a Dafny model

This project models the detection engine of a person-detection system for
a Coral Edge TPU camera, in its two implementations:

- the Python `PersonDetector` (`python_implementation/src/inference.py`).
  It loads a label table and sets up a TPU interpreter and a CPU
  interpreter. `detect` then tries the TPU and falls back to the CPU. The
  first exception on the TPU path sets `tpu_failed`, and no later call
  tries the TPU again.
- the C++ `PersonDetector` (`cpp_implementation/src/PersonDetector.cpp`).
  It holds one TfLite interpreter, set up with early returns. Its `detect`
  reads the four SSD output buffers and keeps the entries of class 0 whose
  score is strictly above the threshold.

Both CPU paths turn a normalised box `ymin, xmin, ymax, xmax` into pixel
coordinates `(x, y, w, h)`. They scale by the height and width of the
ORIGINAL frame, not by the 300x300 model input, and they truncate toward
zero.

Files:

- `wrappers.dfy`: `Option`.
- `postprocess.dfy` (module `Postprocess`): the shared keep-test, the
  truncation, the box scaling, and the index selection that both filter
  loops perform.
- `inference.dfy` (module `Inference`): the Python detector. It has label
  loading, the construction and interpreter set-up, the input-shape
  dispatch, and the CPU loop as a method. `DetectStep` is one `detect` call
  as a state transition and `Run` is a sequence of calls. The module also
  holds the failover lemmas and the `PersonDetector` class, whose `Detect`
  only updates `tpuFailed`.
- `person_detector.dfy` (module `PersonDetector`): the C++ detector. Its
  constructor sets the handles and its `Detect` loops over the raw
  buffers. It also contains a lemma showing that this loop computes the
  same thing as the Python CPU loop.

Every foreign call is an input of the model rather than code:

| foreign call | stands for it |
|---|---|
| TFLite / pycoral loading | a `TpuLoad` outcome and two booleans (Python); one boolean per C API handle (C++) |
| `cv2.resize` | the resized frame, or the exception it raises |
| `cv::resize` | whether the resized frame is empty |
| TPU inference plus `get_objects` | a `TpuAttempt`: it raises, or it yields objects |
| CPU inference | a `CpuAttempt`: it raises, or it yields the three output tensors |
| C++ `TfLiteInterpreterInvoke` | a success flag and the output buffers |

An exception that leaves the Python `detect` is the result `Raised`.

The source's own intent and its code part ways on construction, and the
model follows the code. The `RuntimeError` message at inference.py:26 and the
"fatal if neither interpreter is available" comment at inference.py:64-66
say that a detector is built only when some interpreter can be used. The
check at line 25, however, only asks whether both interpreter attributes
are `None`. If `allocate_tensors` fails on the TPU (lines 33-38),
`interpreter_tpu` stays set and `tpu_failed` becomes true. Construction
then succeeds even when the CPU interpreter is also missing, and every
later call returns `NONE` or raises.
`Inference.AllocateFailureStillConstructs` states this case.

## Model

| member | source | states |
|---|---|---|
| Postprocess.Trunc | python_implementation/src/inference.py:137-140 | `int(...)` on a float truncates toward zero: for a non-negative value the result is its floor, for a negative one the result is within one above it and at most zero |
| Postprocess.IsPerson | python_implementation/src/inference.py:131 | an entry is kept exactly when its class value lies strictly between -1 and 1 (so it truncates to class 0) and its score is strictly above the threshold |
| Postprocess.TruncWithinOne | cpp_implementation/src/PersonDetector.cpp:68-71 | `static_cast<int>` moves a value by less than one |
| Postprocess.ScaleBoxWithinOnePixel | python_implementation/src/inference.py:135-142 | each of `x, y, w, h` is within one pixel of the exact product of the normalised coordinate (or difference) and the original frame's width or height; the score is carried through unchanged |
| Postprocess.SpanInside | python_implementation/src/inference.py:137-140 | on an axis of n pixels, a normalised interval inside [0, 1] becomes a start and an extent that are non-negative and whose sum is at most n |
| Postprocess.ScaleBoxInsideFrame | python_implementation/src/inference.py:136-141 | a box inside the unit square becomes a pixel box with non-negative extents that does not cross the right or bottom edge of the original frame |
| Postprocess.Selected | python_implementation/src/inference.py:130-131 | the indices a `for i` loop keeps: all in range, each passing the test, strictly increasing, and every passing index included |
| Inference.Strip | python_implementation/src/inference.py:73 | `line.strip()` is the contiguous middle of the line; everything removed before and after it is whitespace, and the result neither starts nor ends with whitespace |
| Inference.StripIdempotent | python_implementation/src/inference.py:73 | stripping a stripped label changes nothing |
| Inference.LoadLabels | python_implementation/src/inference.py:68-76 | the table has key i exactly for each line read, mapped to that line stripped; lines read before a failure are kept |
| Inference.PrepareInput | python_implementation/src/inference.py:86-104 | a frame is accepted exactly when it is 2-D, or 3-D with one or three channels; the input has shape (1, H, W, 1), each pixel being channel 0 of the frame at the same position; any other shape gives `NONE` |
| Inference.PersonObjects | python_implementation/src/inference.py:114 | the TPU result holds only objects of `get_objects` whose `id` is 0, and no more of them than there were objects |
| Inference.PersonObjectsAreSelection | python_implementation/src/inference.py:114 | the TPU result is exactly the objects with `id` 0, in their original order |
| Inference.CpuDetectionsOfWellShapedTensors | python_implementation/src/inference.py:130-144 | tensors of one common length never raise; each detection is the scaled box and unchanged score of a kept index, and there are at most as many as there are scores |
| Inference.CpuPostprocess | python_implementation/src/inference.py:126-144 | the CPU loop raises `IndexError` exactly when `classes` is shorter than `scores` at some index, or a kept index is past the end of `boxes`; otherwise it returns the kept detections in index order |
| Inference.InitialState | python_implementation/src/inference.py:28-62 | after set-up the TPU can be used exactly when the pycoral import succeeded and both load steps succeeded; `tpu_failed` is set exactly when a TPU load step raised; the CPU interpreter is present exactly when a runtime was found and it loaded; construction raises exactly when neither the TPU interpreter object nor the CPU interpreter exists |
| Inference.DetectStep | python_implementation/src/inference.py:84-145 | one `detect` changes only `tpu_failed`, and sets it exactly when the TPU was tried and raised; a TPU result is returned exactly when the TPU was tried and yielded objects, and never once `tpu_failed` is set; a CPU result is the CPU loop's output and needs a CPU interpreter; an unaccepted shape returns `NONE` and changes nothing; without a CPU interpreter, a call that does not return a TPU result returns `NONE`; a call that reaches the CPU fallback (resized and accepted, no TPU result, a CPU interpreter) returns the CPU loop's detections whenever the CPU calls and the loop do not raise; the call raises exactly when `cv2.resize` raised, or the CPU fallback was reached and the CPU calls or the loop raised |
| Inference.AllocateFailureStillConstructs | python_implementation/src/inference.py:25-38 | a TPU `allocate_tensors` failure with no CPU interpreter does not make `__init__` raise; every call then returns `NONE` or raises |
| Inference.RunKeepsConfiguration | python_implementation/src/inference.py:107-119 | over any sequence of calls, only `tpu_failed` changes, and it is never reset |
| Inference.NoTpuOnceFailed | python_implementation/src/inference.py:108 | from a state with `tpu_failed` set, no call in a sequence returns a TPU result |
| Inference.NoTpuAfterFailover | python_implementation/src/inference.py:107-117 | once `tpu_failed` is set before call k, no call from k on returns a TPU result, even where the TPU would succeed |
| Inference.TpuExceptionFailsOver | python_implementation/src/inference.py:116-119 | a TPU exception in call k means call k does not return from the TPU but, with a CPU interpreter whose outputs do not raise, returns the CPU detections in the same call; no later call returns from the TPU, and `tpu_failed` is set at the end |
| Inference.FailureNeedsTpuException | python_implementation/src/inference.py:116-117 | if `tpu_failed` goes from false to true over a sequence of calls, some call tried the TPU and it raised |
| Inference.PersonDetector.constructor | python_implementation/src/inference.py:15-24 | the new detector's state is the set-up state of the load outcomes, and its labels are the table of the label lines |
| Inference.PersonDetector.InitInterpreters | python_implementation/src/inference.py:28-66 | the interpreter attributes and `tpu_failed` after `_init_interpreters`, for every load outcome |
| Inference.PersonDetector.Detect | python_implementation/src/inference.py:78-145 | the result and the new `tpu_failed` are those of one `DetectStep` from the object's state |
| Inference.Create | python_implementation/src/inference.py:15-26 | `__init__` raises exactly in the state where both interpreter attributes are `None`; otherwise the detector is new and has that state and the label table |
| PersonDetector.DetectionsFromKeptIndices | cpp_implementation/src/PersonDetector.cpp:61-73 | there are at most `num` detections; each comes from an index below `num` that passes the keep-test, in increasing order, and every passing index is included; each box is read from `boxes_data[4i..4i+3]` and scaled by the frame, with the score unchanged |
| PersonDetector.SameAsPythonCpuPath | cpp_implementation/src/PersonDetector.cpp:61-76 | on the same first `num` entries, the C++ loop and the Python CPU loop return the same detections, and Python raises nothing |
| PersonDetector.PersonDetector.constructor | cpp_implementation/src/PersonDetector.cpp:4-27 | the model handle and options exist exactly when the model loads; the delegate exists and is added to the options exactly when it is created after a successful model load; the interpreter exists exactly when the model loads and the interpreter is created; a failed tensor allocation keeps the interpreter |
| PersonDetector.PersonDetector.Detect | cpp_implementation/src/PersonDetector.cpp:36-77 | no interpreter, an empty resized frame or a failed invoke gives an empty result; otherwise the result is the detections of the kept indices below `num` |

## Left out

- Files, paths and printing: resolving paths against the project root, opening the label file, and all `print` and `std::cerr` output. The label lines are an input, and so is the point where reading stops.
- Line splitting: how the file splits into lines is left out. Each line is given as a string.
- Library internals: `cv2.resize` and `cv::resize`, `set_tensor` and `invoke`, and TfLite's tensor handling. Their outcomes are inputs. The input pixels are not passed to the interpreters.
- `get_objects`: its own score filter (`score >= threshold`) and its box computation are left out. The objects it yields are an input, so `TpuResult` holds them as given, filtered to `id == 0`.
- Floating point: floats are modelled as exact reals, so rounding in `xmin * w` and similar products is not captured. NaN and infinity are also left out; for them `int(...)` raises in Python and the cast is undefined in C++.
- The `uint8` cast: `astype(np.uint8)` of the input is left out. The pixels are integers and are passed through as they are.
- Inference.CpuPostprocess: each `boxes[i]` is taken to be a row of four values. The `ValueError` or `TypeError` that the unpacking at inference.py:132 raises for a row of another width, or for a 1-D `boxes`, is not modelled.
- PersonDetector.PersonDetector.Detect: requires every buffer to cover all `num` indices: `num` classes, `num` scores and `4 * num` box entries. This is more than the loop reads. Because of the short-circuit `&&` at PersonDetector.cpp:62, the loop reads a score only after a class of 0, and it reads the box entries only for a kept index. So inputs with shorter buffers that the loop would not read past are excluded too. No real call is excluded, because TfLite's SSD post-processing sizes all three buffers for the same maximum count and `num` never exceeds it. Reads past a buffer's end are undefined behaviour, with no outcome to model.
- PersonDetector.PersonDetector.Detect: exceptions thrown by `cv::resize` (for an empty source frame) or by the C API calls are not modelled. They would leave `detect`, and the model has no such outcome.
- Integer width: the C++ `int` is not modelled at 32 bits. Overflow in `static_cast<int>` and in `4 * i` is undefined behaviour, and Python integers are unbounded.
- C++ options and delegate: their effect on whether `TfLiteInterpreterCreate` succeeds is not modelled. That outcome is its own input.
- C++ destructor: it frees the handles. Memory is not modelled.
- The rest of the repository: the camera stream, MQTT, Zigbee, the display, the main loops and the build files are not part of this model.
- Concurrency: none exists in the core. Every call is sequential.
