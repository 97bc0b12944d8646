# Webcam object detection: session settings and overlay drawing

This project models the core of a small webcam object-detection application
written in Python. A camera session holds a capture source and three settings:
the task (`detect`, `segment` or `pose`), the model base name and the
confidence threshold. It also holds the detector built for those settings and
the checkpoint path that detector came from. For every frame, the session runs
the detector and hands the results to a visualizer. The visualizer draws
boxes with labels above them, or pose skeletons, onto the image. An older
stand-alone script draws its labels below the boxes instead. Before drawing,
that script filters boxes by a confidence rounded up to hundredths.

Drawing is modelled as the sequence of `ImageDraw` calls a pass makes
(`Canvas.Command`): outlines, filled rectangles, texts, lines and ellipses,
with their exact coordinates, colours and widths. Text measurement is a
parameter `Measure` from a label to its width and height. Each drawing loop
of the source is a Dafny method with a `while` loop, proved equal to a
recursive specification function. The properties are then proved about those
functions.

The session is a class `CameraSession.Camera` with the source's fields.
A ghost field `loads` records every checkpoint a detector build was
attempted for. `SetSettings` is proved against a pure step function
`SetSettingsStep` on a `Session` snapshot, and the lemmas beside that function
state the reload rules.

Modules:

- `Wrappers`: the `Option` type.
- `Inference`: the detector output the drawing code reads. This is a list of
  results, each with a class-name table, boxes and optional keypoints.
- `Canvas`: colours, labels, text extents and drawing calls.
- `Visualizer` (`src/visualizer.py`): the box-and-label pass and the pose pass.
- `LegacyLabels` (`main.py`): the below-box labels and the confidence filter.
- `CameraSession` (`src/camera.py`): path resolution, model loading, the
  settings update and the per-frame dispatch.

Behaviour of the code worth knowing before reading the contracts:

- A class id missing from a result's name table raises inside
  `draw_detections` (src/visualizer.py:33). That aborts the whole box pass;
  `get_frame` catches the error and returns the frame without any overlay
  (src/camera.py:109-111, `CameraSession.Render`). Only the older script
  skips just that one box and goes on with the next (main.py:147-149,
  `LegacyLabels.BoxCommands`).
- The visualizer draws every box it receives. The confidence threshold only
  reaches the detector, as the `conf` argument of `predict`. A filter on
  drawn boxes exists only in the older script (`LegacyLabels.FrameOnlyConfident`).
- A failed model reload keeps the old detector and the old `model_path`.
  The new task and model base stay assigned, though, so the session reports
  settings that the running detector does not match
  (`CameraSession.FailedReload`, `CameraSession.ConsistencyAfterUpdate`).
- The web page sends the confidence as a string. When `float()` rejects it,
  `set_settings` raises after the task and model base were already
  replaced and before any reload (`CameraSession.BadConfSkipsReload`).
- The string `"0"` is truthy, so it sets the confidence to `0.0`.
- A failed frame read returns a blank 480x640 array, not an encoded JPEG
  (`CameraSession.FrameOut.NoSignal`).

## Model

| member | source | states |
|---|---|---|
| Visualizer.LabelBackground | src/visualizer.py:38-50 | The label background is as wide as the text plus 4 and as tall as the text plus 4, and starts at the box's left edge. It sits on top of the box (its bottom on `y1`) when that keeps it inside the top edge; otherwise it starts at `y1`. It never starts above the frame when the box does not. |
| Visualizer.DrawResultBoxes | src/visualizer.py:25-52 | The loop over one result's boxes succeeds iff every class id is in the name table. It then makes exactly the calls of `BoxesCommands` on the labelled boxes. |
| Visualizer.DrawDetections | src/visualizer.py:15-53 | The box pass succeeds iff every class id of every result is known. It then makes exactly the calls of `DetectionCommands`. |
| Visualizer.BoxesCommandsAppend | src/visualizer.py:24-27 | Drawing two sequences of boxes one after the other makes the concatenation of their calls. |
| Visualizer.BoxesCommandsPerBox | src/visualizer.py:27-52 | Each box contributes exactly three calls, and the k-th triple is that box's outline, background and text. |
| Visualizer.DetectionCommandsPerBox | src/visualizer.py:24-52 | The pass makes 3 calls per box of every result, in input order. They are an outline of width 3 in green, a green fill on `LabelBackground`, and black text 2 pixels right of the background's top-left corner. |
| Visualizer.AllBoxesCount | src/visualizer.py:24-33 | The labelled boxes are exactly the boxes of the results, one per box: their number is the total number of boxes, every box of every result is among them with its own result's class name and its confidence, and nothing else is. No confidence filter applies. |
| Visualizer.DetectionCommandsCount | src/visualizer.py:24-52 | The box pass makes exactly three calls per box of every result. |
| Visualizer.BackgroundsBelowTop | src/visualizer.py:47-51 | When no box starts above the frame, no label background does either. |
| Visualizer.DetectionBackgroundsInsideFrame | src/visualizer.py:42-51 | The same for the whole pass: the flip keeps every label background inside the top edge. |
| Visualizer.DrawSkeleton | src/visualizer.py:107-113 | The edge loop draws exactly the lines of `SkeletonLines`. |
| Visualizer.DrawKeypoints | src/visualizer.py:116-118 | The point loop draws exactly the ellipses of `KeypointDots`. |
| Visualizer.DrawPersons | src/visualizer.py:105-118 | Each person's lines come first, then that person's points, persons in order. |
| Visualizer.DrawPose | src/visualizer.py:89-119 | The pose pass makes exactly the calls of `PoseCommands`. A result without keypoints draws nothing. |
| Visualizer.SkeletonLinesExact | src/visualizer.py:101-113 | A line is drawn iff it is one of the 19 COCO edges whose two endpoints exist in the person's keypoints and are both detected (positive x and y). At most one line is drawn per edge. |
| Visualizer.KeypointDotsExact | src/visualizer.py:116-118 | An ellipse is drawn iff it is the 7x7 blue ellipse around a detected keypoint. |
| Visualizer.EdgeEndpointsDrawn | src/visualizer.py:101-118 | At most 19 lines per person. Both ends of every line are detected keypoints that also get an ellipse. |
| Visualizer.PersonLinesVisible | src/visualizer.py:105-118 | No line of a person touches an undetected keypoint. |
| Visualizer.PersonsLinesVisible | src/visualizer.py:105-118 | The same for every person of a result. |
| Visualizer.PoseLinesVisible | src/visualizer.py:95-118 | The same for the whole pose pass. |
| LegacyLabels.Ceil | main.py:94 | `math.ceil`: the least integer not below its argument. |
| LegacyLabels.ConfidentIff | main.py:94-101 | A box passes the 0.5 threshold after rounding up to hundredths iff its score is above 0.49. |
| LegacyLabels.BelowBox | main.py:120-133 | The label background starts 5 pixels below the box and pads the text by 4 on every side. Its left edge is clamped at 0. The text is left-aligned with the box. |
| LegacyLabels.BoxCommands | main.py:90-141 | One box draws nothing, one call or three calls; it draws something iff its class id is known and its rounded confidence reaches the threshold. |
| LegacyLabels.BoxOutcomes | main.py:90-141 | A box draws nothing iff its class is unknown or it is not confident. Otherwise its first call is the width-2 outline. The background and the text follow iff the background ends above the frame's last row, and the text then lies vertically inside the background. |
| LegacyLabels.DrawBoxes | main.py:88-149 | The per-box loop makes exactly the calls of `BoxesCommands`. |
| LegacyLabels.DrawFrame | main.py:86-149 | The loop over results makes exactly the calls of `FrameCommands`. |
| LegacyLabels.BoxesCommandsAppend | main.py:86-89 | Drawing two sequences of boxes one after the other makes the concatenation of their calls. |
| LegacyLabels.AllDetectionsMembers | main.py:86-89 | The flattened boxes are exactly the boxes of the results. |
| LegacyLabels.BoxesCommandsOnlyConfident | main.py:99-101 | Every call made for a sequence of boxes belongs to a confident box of a known class. |
| LegacyLabels.FrameOnlyConfident | main.py:86-141 | No call on a frame belongs to a box below the confidence threshold or of an unknown class. |
| LegacyLabels.BackgroundsInsideFrame | main.py:130-139 | Every drawn label background starts at or right of the left edge and ends above the frame's bottom row. |
| LegacyLabels.BelowVersusAbove | main.py:121 | The older script's label starts strictly below the box. The visualizer's starts at or above the box's top. |
| CameraSession.ResolveModelPath | src/camera.py:32-40 | The checkpoint name starts with the model base and ends in `.pt`. |
| CameraSession.ResolveModelPathCases | src/camera.py:34-40 | `segment` gives `-seg.pt` and `pose` gives `-pose.pt`. Every other task, `detect` included, gives the plain `.pt`. |
| CameraSession.ResolveModelPathInjective | src/camera.py:32-40 | For a fixed task the checkpoint name determines the model base. The three tasks give three different checkpoints. |
| CameraSession.SetSettingsStep | src/camera.py:55-75 | An update that raises attempts no load. Without a load attempt, or when the load fails, the detector and the recorded path are the old ones. A truthy task or model base argument always ends up assigned. |
| CameraSession.Dispatch | src/camera.py:98-105 | No pass runs iff there are no results or the task is not one of the three known tasks. The box pass runs iff there are results and the task is `detect` or `segment`, and the pose pass iff it is `pose`. The mask pass comes first. |
| CameraSession.Render | src/camera.py:94-111 | The frame carries the passes of `Dispatch` or, when visualization failed, no pass and no overlay. When the box pass is due, it fails iff some class id is missing from its name table. |
| CameraSession.DispatchCases | src/camera.py:98-105 | Without results no pass runs. Otherwise `detect` runs the box pass, `segment` runs masks and then the box pass, `pose` runs the pose pass, and any other task runs nothing. |
| CameraSession.RenderWithoutResults | src/camera.py:87-98 | After an inference error, or with no results, the frame gets no overlay. |
| CameraSession.SegmentDrawsDetectionsAfterMasks | src/camera.py:101-103 | The segmentation task draws exactly the box overlay of the detection task, after the mask pass. |
| CameraSession.ReloadIff | src/camera.py:57-72 | A load is attempted iff a truthy task or model base differs from the current one and the update did not raise first. The load is always for the checkpoint of the new settings. Truthy task and model base arguments are always assigned. |
| CameraSession.ConfidenceOnlyUpdate | src/camera.py:59-68 | An update that changes neither task nor model base never reloads and changes only the confidence. A truthy `conf` sets it to `float(conf)`; a falsy one leaves it. |
| CameraSession.SuccessfulReload | src/camera.py:42-53 | After a successful reload, the detector and the recorded path are those of the resolved checkpoint. |
| CameraSession.FailedReload | src/camera.py:70-75 | A failed reload is swallowed. The task and model base keep their new values; the detector and the path keep their old ones. |
| CameraSession.BadConfSkipsReload | src/camera.py:59-68 | A `conf` string that `float()` rejects raises after the task and model base were replaced. No load is attempted and the confidence is unchanged. |
| CameraSession.ConsistencyAfterUpdate | src/camera.py:55-75 | From a consistent session, the result is consistent iff it reloaded successfully or the new settings resolve to the checkpoint already loaded. |
| CameraSession.UpdateIdempotent | src/camera.py:55-75 | Repeating an update changes nothing and attempts no load. |
| CameraSession.SegmentUpdateSelectsSegmentation | src/camera.py:59-61 | After an update naming `segment`, frames with results get the mask pass followed by the box pass. |
| CameraSession.Camera.constructor | src/camera.py:12-30 | A new session has task `detect` and confidence 0.5, and the detector is built from `<model_base>.pt` on the given device. |
| CameraSession.Camera.Open | src/camera.py:12-30 | Construction succeeds iff the capture opens and the initial detector builds. |
| CameraSession.Camera.OpenWithDefaults | src/camera.py:12-30 | With every argument at its default, the session reads device 0 and runs `yolo11n.pt` on the CPU, with task `detect` and confidence 0.5. |
| CameraSession.Camera.LoadModel | src/camera.py:42-53 | Records one attempt for the resolved checkpoint. The detector and path change only when the build succeeds, and nothing else changes. |
| CameraSession.Camera.SetSettings | src/camera.py:55-75 | The new fields are those of `SetSettingsStep`. At most one load attempt is recorded. Source and device are untouched. |
| CameraSession.Camera.GetFrame | src/camera.py:77-114 | A failed read gives the blank frame. Otherwise the frame is `Render` of the task and of the current detector's predictions at the current confidence. |

## Left out

- Capture, JPEG encoding, the blank image's pixels, the Flask server and the web page are not modelled. A frame read and a detector build are boolean parameters. Inference is a function parameter, with `None` when it raises.
- YOLO inference, device placement and the CUDA fallback of the detector adapter are not modelled; `src/detector.py` is not part of this model.
- Segmentation mask blending: it makes no vector drawing calls. It appears only as `SegmentationPass` in the frame's list of passes.
- Font loading and text measurement are the `Measure` parameter.
- Label text formatting (`{name}: {conf:.2f}`): a label is the class name and the confidence value.
- Confidences are exact reals. Binary floating point and the `ceil(conf * 100) / 100` rounding error of floats are not modelled.
- Box coordinates and keypoints are integers. The truncation of float box coordinates by `.int()` and the float keypoint coordinates of the pose pass are not modelled.
- The lock and the concurrency between the settings endpoint and the frame loop are not modelled: each operation is one atomic step.
- Console logging is not modelled, including the warning for a missing checkpoint file (`os.path.exists`), since it has no effect on state.
- `stop` and `__del__`, which release the capture, are not modelled.
- Pillow errors on degenerate rectangles are not modelled: every coordinate is accepted.
- CameraSession.Camera.constructor: assumes the initial build succeeds; `Open` covers the failing capture and the failing build.
- CameraSession.Camera.GetFrame: only a missing class name makes visualization fail; other Pillow or OpenCV errors are not modelled.
- Only task, model base and confidence arguments of string or number form are modelled; other JSON types are not.
