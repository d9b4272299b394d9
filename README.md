# Gas-flare detector: detection and annotation pipeline

A Dafny model of the deterministic core of a small web service that finds gas
flares, fire and smoke in an uploaded image. A pretrained YOLO detector locates
the objects. The service turns its output into detection records, draws the
boxes and labels on a copy of the image, counts detections per class and names
the two files it stores. The detector, OpenCV and the file system are outside
the model. What they return is passed in as a parameter.

- `Numeric` (`numeric.dfy`): Python's `int()` on a float, which truncates
  toward zero, and `str()` on an integer, with a parser that inverts it.
- `Detector` (`detector.dfy`): `process_with_yolo` after inference. A raw row
  `(x1, y1, x2, y2, conf, cls)` becomes a `Detection`. The class name is looked
  up in the model's label table, and a missing entry falls back to
  `class_<id>`. The centre and size are derived from the corners.
- `Annotation` (`annotation.dfy`): `draw_predictions` and the `COLORS` table.
  An image is a `Canvas`: its decoded pixel buffer (kept opaque), its size and
  the drawing commands applied to it so far. `cv2.rectangle` and
  `cv2.putText` append commands. The renderer draws on a fresh copy. The
  function `AnnotationPlan` gives the commands it draws: for each detection a
  box, a filled label background and the label text.
- `Statistics` (`statistics.dfy`): the loop that builds `class_stats`.
- `Naming` (`naming.dfy`): the stored upload name, the result name and the test
  image name.
- `Pipeline` (`pipeline.dfy`): the sequence of steps in `process_image`, with
  the payload it returns.
- `Wrappers` (`wrappers.dfy`): `Option` and `Result`.

Coordinates and scores are exact `real`s. The source computes them in
floating point.

Two facts about the source:
- The `confidence` query parameter reaches `model.predict` without any range
  check (main.py:909, 939, 60-62). In the model it is only copied into the
  payload, since the detector's output is an input.
- An undecodable upload raises a 400 error (main.py:933) inside the request's
  `try` block, and the catch-all handler turns it into a 500 error
  (main.py:978-982). The model reports this case as `ImageUnreadable`, while
  the source answers only with the generic 500 (see "Left out").

## Model

| member | source | states |
|---|---|---|
| `Numeric.TruncTowardZero` | main.py:115-118 | `int()` on a float rounds toward zero: for `x >= 0` the result `n` has `n <= x < n+1`, and for `x < 0` it has `n-1 < x <= n`. |
| `Numeric.TruncOdd` | main.py:115-118 | Truncation is symmetric about zero: `Trunc(-x) == -Trunc(x)`. |
| `Numeric.TruncIsNotFloor` | main.py:115-118 | Truncation is not `Floor`: `Trunc(-2.5) == -2` but `(-2.5).Floor == -3`. |
| `Numeric.DecimalSign` | main.py:83 | The decimal form of an id is non-empty and starts with `-` exactly when the id is negative. |
| `Numeric.DecimalRoundTrip` | main.py:83 | Parsing the decimal form of any integer gives back that integer. |
| `Numeric.DecimalInjective` | main.py:83 | Distinct integers have distinct decimal forms. |
| `Numeric.NatToDecimalDigits` | main.py:83 | The decimal form of a natural number is a non-empty string of digits with no leading zero. |
| `Detector.KnownLabel` | main.py:83 | An id that is in the label table gets the table's name. |
| `Detector.FallbackLabelNamesId` | main.py:83 | An id that is missing from the table gets a `class_` label, and reading the id back from that label gives the id. Label resolution is defined for every id, so it never fails. |
| `Detector.FallbackForSeven` | main.py:83 | With no entry for 7 in the table, the label is exactly `class_7`. |
| `Detector.FallbackLabelsDistinct` | main.py:83 | Two different ids that are missing from the table get different labels. |
| `Detector.NormalizeFields` | main.py:76-103 | The corners and the score are copied unchanged. The class id is the truncated tensor value, and the label is resolved from it. Centre minus or plus half the size gives back the corners. For an ordered box the centre lies between the corners and the size is non-negative. |
| `Detector.Boxes` | main.py:72-76 | When there is a first prediction and it has boxes, the rows are exactly its boxes. Otherwise there are no rows. Later predictions are never read. |
| `Detector.NormalizeAllLength` | main.py:70-103 | There is one record per raw row. |
| `Detector.NormalizeAllAt` | main.py:70-103 | Record `i` is `Normalize(row i)`, so the rows' order is preserved. |
| `Detector.ProcessWithYolo` | main.py:53-105 | Fails with `ModelNotLoaded` exactly when no model is loaded. Otherwise it returns `NormalizeAll` of the rows it reads: one record per raw row, in the detector's order. |
| `Annotation.SelectColour` | main.py:126 | `COLORS` is searched by class name first, then by class id, then white is used. The result is always a palette colour or white. |
| `Annotation.FallbackLabelColouredById` | main.py:126 | A synthesised `class_<id>` label is never a palette name, so its colour comes from the id. |
| `Annotation.PaletteAgreesOnNamesAndIds` | main.py:44-51 | `flare`/0, `fire`/1 and `smoke`/2 map to the same colour as each other, and that colour is not white. |
| `Annotation.Thickness` | main.py:129 | The stroke is 2 or 3, and it is 3 exactly when the confidence exceeds 0.5. |
| `Annotation.ThicknessMonotone` | main.py:129 | A higher confidence never gives a thinner stroke. |
| `Annotation.LabelBackground` | main.py:145-148 | Left is `x1`, right is `x1 + text_width` and bottom is `y1`. Top is never negative, and it is 0 exactly when `y1 - text_height - 10 <= 0`. If top is not clamped, the band is `text_height + 10` tall. |
| `Annotation.BackgroundAtTopBorder` | main.py:145 | A box with `y1 == 0` has its label background start at row 0. |
| `Annotation.DetectionCommands` | main.py:113-167 | Each detection gives exactly three draw commands. |
| `Annotation.PlanLength` | main.py:113-167 | The plan has three commands per detection. |
| `Annotation.PlanAppend` | main.py:113-167 | The plan for `a + b` is the plan for `a` followed by the plan for `b`. Commands come in detection order, and later detections draw over earlier ones. |
| `Annotation.PlanAt` | main.py:113-167 | Commands `3i..3i+3` of the plan are exactly the commands of detection `i`. |
| `Annotation.PlanShape` | main.py:115-167 | For detection `i`, in order: a box over its truncated corners, whose stroke is set by its confidence; a filled background spanning `LabelBackground` of the truncated top-left corner and the measured label, whose top is at least 0, in the same colour as the box and chosen by the three-tier lookup; then the text of its label, `LabelText(className, confidence)` (the same text that was measured), in white, in the renderer's font, scale and thickness, 5 pixels above the top-left corner. |
| `Annotation.Canvas.Decode` | main.py:931 | A decoded image has its size and pixels and nothing drawn on it. |
| `Annotation.Canvas.Copy` | main.py:110 | A copy has the same size, pixels and drawing history as the source. |
| `Annotation.Canvas.DrawRectangle` | main.py:130 | `cv2.rectangle` appends one rectangle command and changes nothing else. |
| `Annotation.Canvas.DrawText` | main.py:159-167 | `cv2.putText` appends one text command and changes nothing else. |
| `Annotation.DrawDetection` | main.py:113-167 | One pass of the renderer's loop appends exactly `DetectionCommands` of the detection to the image's history and leaves its size and pixels unchanged. |
| `Annotation.DrawPredictions` | main.py:107-169 | Returns a fresh image with the source's size and pixels, and with the source's history followed by `AnnotationPlan(detections)`. It modifies no existing object, so the source is untouched. An empty detection list leaves the copy equal to the source. |
| `Statistics.ClassStats` | main.py:952-955 | The keys are exactly the class names that occur. Each count is the number of detections with that name and is at least 1, so there are no zero entries. The counts add up to the number of detections. |
| `Naming.Extension` | main.py:919 | The extension is never empty. A non-empty upload extension is kept, and an empty one becomes `.jpg`. |
| `Naming.StoredName` | main.py:919-920 | The stored name is the id followed by the upload's extension, or by `.jpg` when that extension is empty. It is always longer than the id. |
| `Naming.TestImageName` | main.py:1004 | The test image's stored name is `test_` followed by the stored name of the id with the default extension. |
| `Naming.ResultName` | main.py:946 | The result name is `result_` followed by the stored name. |
| `Naming.ResultNameRoundTrip` | main.py:946 | The stored name can be recovered from the result name. |
| `Naming.StoredNameOfInverts` | main.py:1016 | A name from which a stored name is recovered is that stored name's result name. |
| `Naming.DistinctIdsDistinctNames` | main.py:919-920 | Distinct ids of equal length (UUIDs) give distinct stored names and distinct result names, whatever the extensions. |
| `Pipeline.ProcessImage` | main.py:909-982 | With no model: `ModelUnavailable`. With an undecodable upload: `ImageUnreadable` and no annotated image. Otherwise: <br>• the original and result names are derived from the id; <br>• the detections are `NormalizeAll` of the rows, in order; <br>• `total_detections` is their number and equals the sum of `class_stats`; <br>• `class_stats` holds exactly the per-class counts; <br>• the reported size and threshold are the decoded image's and the caller's; <br>• the annotated image is fresh, has the decoded size and pixels, and holds exactly the plan's commands. |

## Left out

- YOLO loading and inference, and tensor extraction: the model is an
  `Option<Model>` carrying its label table. The list it returns is a
  `seq<Prediction>`. The confidence threshold, the IoU threshold and box order
  are the detector's business, so nothing is claimed about them.
- `Detector.ProcessWithYolo`: takes the detector's output as an input instead
  of calling `model.predict` itself, because the detector is opaque.
- The float32-to-float conversions and floating-point rounding: coordinates
  and scores are exact reals.
- `cv2.imread`, `cv2.imwrite`, pixel effects of `cv2.rectangle`/`cv2.putText`:
  an image is an opaque pixel buffer plus its drawing history, and writing
  files is not modelled.
- `cv2.getTextSize`: passed in as the function `measure` from a label to its
  text size. Its `baseline` output is unused by the source and left out.
- The label text `f"{class_name} {confidence:.0%}"`: kept as a
  `LabelText(className, confidence)` pair, because percent formatting of
  floats is not modelled.
- `os.path.splitext`: the extension of the uploaded name is an input.
- UUID generation is an input `id`. The identifiers it generates are assumed
  to be distinct strings of equal length, which is what
  `Naming.DistinctIdsDistinctNames` needs.
- `time.time()` and the `processing_time` field, the constant
  `"success": True` field (main.py:961), the `model_info` part of the payload
  (it lists the label table's values), and the `print`/traceback logging are
  not modelled.
- The mapping of failures to HTTP responses and its status codes: the model
  distinguishes only `ModelUnavailable` and `ImageUnreadable`. In the source,
  the 400 error for an undecodable image is raised inside the `try` block. The
  `except Exception` handler therefore reports it as a 500 error.
- `Pipeline.ProcessImage`: does not model the write of the upload to disk
  before decoding, or the write of the annotated image. Its `decoded` input is
  what decoding the stored upload gave.
- `Pipeline.ProcessImage`: promises success whenever a model is loaded and the
  upload decodes. In the source, any exception raised inside the `try` block
  (main.py:917-982) by reading the upload, by `model.predict` or by a file
  write becomes a 500 error. Those failures are not modelled.
- `Pipeline.ProcessImage`: the threshold is a required input, so the default
  of 0.25 for `confidence` (main.py:909) and for `confidence_threshold`
  (main.py:53) is not modelled.
- `test_image_processing` (main.py:995-1025): only its file names
  (`Naming.TestImageName` and the same `result_` prefix) are modelled. Its
  steps differ from `process_image`, and the differences are not modelled:
  - it returns an error payload when the bundled test image is missing;
  - it copies that image with `shutil.copy2`;
  - it has no model check and no `try` block of its own;
  - it runs `process_with_yolo` at a fixed threshold of 0.25 before it decodes
    the image;
  - it passes the decoded image to `draw_predictions` without checking for
    `None`;
  - its payload holds the file names, the number of detections and the
    detection list, with no `class_stats`.
- The HTML/CSS/JS page with its own colour tables and `count > 0` filter, the
  `/model_info` and `/test` endpoints, static mounting, `uvicorn.run`, and
  concurrency between requests: framework glue and UI.
