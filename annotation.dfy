/**
 * The annotation renderer (`draw_predictions` and the `COLORS` table). Pixels
 * are not modelled: an image is its decoded pixel buffer, kept opaque, plus the
 * drawing commands applied to it since, in order. For each detection the
 * renderer draws its box, a filled background for its label and the label text.
 */
module Annotation {
  import Numeric
  import opened Detector

  /** An OpenCV colour, blue-green-red. */
  datatype Colour = Bgr(b: int, g: int, r: int)

  /** `COLORS` mixes string and integer keys; the two kinds never collide. */
  datatype ColourKey = ByName(name: string) | ById(id: int)

  const WHITE: Colour := Bgr(255, 255, 255)
  const RED: Colour := Bgr(0, 0, 255)
  const ORANGE: Colour := Bgr(0, 165, 255)
  const GREY: Colour := Bgr(128, 128, 128)

  const COLOURS: map<ColourKey, Colour> := map[
    ByName("flare") := RED, ByName("fire") := ORANGE, ByName("smoke") := GREY,
    ById(0) := RED, ById(1) := ORANGE, ById(2) := GREY]

  /** Python's `dict.get(key, default)`. */
  function Get(m: map<ColourKey, Colour>, key: ColourKey, default: Colour): (c: Colour)
    ensures key in m ==> c == m[key]
    ensures key !in m ==> c == default
  {
    if key in m then m[key] else default
  }

  /** `COLORS.get(class_name, COLORS.get(class_id, (255, 255, 255)))`. */
  function SelectColour(className: string, classId: int): (c: Colour)
    ensures ByName(className) in COLOURS ==> c == COLOURS[ByName(className)]
    ensures ByName(className) !in COLOURS && ById(classId) in COLOURS ==> c == COLOURS[ById(classId)]
    ensures ByName(className) !in COLOURS && ById(classId) !in COLOURS ==> c == WHITE
    ensures c in COLOURS.Values || c == WHITE
  {
    Get(COLOURS, ByName(className), Get(COLOURS, ById(classId), WHITE))
  }

  /** A label synthesised by the detector adapter is never a colour name, so its colour comes from the class index. */
  lemma FallbackLabelColouredById(names: map<int, string>, classId: int)
    requires classId !in names
    ensures SelectColour(ResolveLabel(names, classId), classId) == Get(COLOURS, ById(classId), WHITE)
  {
    var name := ResolveLabel(names, classId);
    assert name[0] == 'c';
    assert ByName(name) !in COLOURS;
  }

  /** The palette lists `flare`, `fire` and `smoke` beside the indices 0, 1 and 2 with the same colours, and none is white. */
  lemma PaletteAgreesOnNamesAndIds(id: int, name: string)
    requires (id, name) in {(0, "flare"), (1, "fire"), (2, "smoke")}
    ensures SelectColour(name, id) == SelectColour("", id) != WHITE
  {
  }

  const STROKE_THRESHOLD: real := 0.5

  /** The box's stroke width: 3 for a confident detection, 2 otherwise. */
  function Thickness(confidence: real): (t: int)
    ensures t == 2 || t == 3
    ensures t == 3 <==> confidence > STROKE_THRESHOLD
  {
    if confidence > STROKE_THRESHOLD then 3 else 2
  }

  lemma ThicknessMonotone(c1: real, c2: real)
    requires c1 <= c2
    ensures Thickness(c1) <= Thickness(c2)
  {
  }

  /** What `cv2.getTextSize` reports for a label: its width and height in pixels. */
  datatype TextSize = TextSize(width: nat, height: nat)

  /** An axis-aligned rectangle in pixel coordinates. */
  datatype Rect = Rect(left: int, top: int, right: int, bottom: int)

  const LABEL_PADDING: int := 10

  function Max(a: int, b: int): int {
    if a < b then b else a
  }

  /**
   * The label's background: from the box's top-left corner up by the text
   * height plus padding and right by the text width, clamped at the top
   * border of the image.
   */
  function LabelBackground(x1: int, y1: int, size: TextSize): (r: Rect)
    ensures r.left == x1 && r.right == x1 + size.width && r.bottom == y1
    ensures 0 <= r.top
    ensures r.top == 0 <==> y1 - size.height - LABEL_PADDING <= 0
    ensures 0 < r.top ==> r.bottom - r.top == size.height + LABEL_PADDING
    ensures 0 <= y1 ==> r.top <= r.bottom
  {
    Rect(x1, Max(0, y1 - size.height - LABEL_PADDING), x1 + size.width, y1)
  }

  /** A box at the top border gets its label background starting at row 0. */
  lemma BackgroundAtTopBorder(x1: int, size: TextSize)
    ensures LabelBackground(x1, 0, size).top == 0
  {
  }

  datatype Point = Point(x: int, y: int)

  /** The label `f"{class_name} {confidence:.0%}"`, kept as its two parts; the formatting is not modelled. */
  datatype LabelText = LabelText(className: string, confidence: real)

  const FILLED: int := -1
  const FONT_HERSHEY_SIMPLEX: int := 0
  const FONT_SCALE: real := 0.6
  const TEXT_THICKNESS: int := 2
  const TEXT_LIFT: int := 5

  /** `cv2.rectangle` (a negative thickness fills it) and `cv2.putText`. */
  datatype DrawCommand =
    | Rectangle(corner1: Point, corner2: Point, colour: Colour, thickness: int)
    | PutText(text: LabelText, origin: Point, font: int, scale: real, colour: Colour, thickness: int)

  /** The three commands drawn for one detection: its box, its label background and its label. */
  function DetectionCommands(d: Detection, measure: LabelText -> TextSize): (cmds: seq<DrawCommand>)
    ensures |cmds| == 3
  {
    var x1, y1 := Numeric.Trunc(d.x1), Numeric.Trunc(d.y1);
    var x2, y2 := Numeric.Trunc(d.x2), Numeric.Trunc(d.y2);
    var colour := SelectColour(d.className, d.classId);
    var text := LabelText(d.className, d.confidence);
    var bg := LabelBackground(x1, y1, measure(text));
    [ Rectangle(Point(x1, y1), Point(x2, y2), colour, Thickness(d.confidence)),
      Rectangle(Point(bg.left, bg.top), Point(bg.right, bg.bottom), colour, FILLED),
      PutText(text, Point(x1, y1 - TEXT_LIFT), FONT_HERSHEY_SIMPLEX, FONT_SCALE, WHITE, TEXT_THICKNESS) ]
  }

  /** Everything the renderer draws for a detection list, in list order. */
  function AnnotationPlan(detections: seq<Detection>, measure: LabelText -> TextSize): seq<DrawCommand> {
    if detections == [] then []
    else AnnotationPlan(detections[..|detections| - 1], measure)
         + DetectionCommands(detections[|detections| - 1], measure)
  }

  lemma {:induction false} PlanLength(detections: seq<Detection>, measure: LabelText -> TextSize)
    ensures |AnnotationPlan(detections, measure)| == 3 * |detections|
  {
    if detections != [] {
      PlanLength(detections[..|detections| - 1], measure);
    }
  }

  /** The plan of a concatenation is the concatenation of the plans: later detections draw over earlier ones. */
  lemma {:induction false} PlanAppend(a: seq<Detection>, b: seq<Detection>, measure: LabelText -> TextSize)
    ensures AnnotationPlan(a + b, measure) == AnnotationPlan(a, measure) + AnnotationPlan(b, measure)
    decreases |b|
  {
    if b == [] {
      assert a + b == a;
    } else {
      var b' := b[..|b| - 1];
      assert (a + b)[..|a + b| - 1] == a + b';
      assert (a + b)[|a + b| - 1] == b[|b| - 1];
      PlanAppend(a, b', measure);
    }
  }

  /** Commands 3i, 3i+1 and 3i+2 of the plan are exactly those of detection i. */
  lemma {:induction false} PlanAt(detections: seq<Detection>, measure: LabelText -> TextSize, i: nat)
    requires i < |detections|
    ensures |AnnotationPlan(detections, measure)| == 3 * |detections|
    ensures AnnotationPlan(detections, measure)[3 * i .. 3 * i + 3] == DetectionCommands(detections[i], measure)
  {
    var front := detections[..|detections| - 1];
    var plan, rest := AnnotationPlan(detections, measure), AnnotationPlan(front, measure);
    PlanLength(detections, measure);
    PlanLength(front, measure);
    if i < |front| {
      PlanAt(front, measure, i);
      assert plan[3 * i .. 3 * i + 3] == rest[3 * i .. 3 * i + 3];
    } else {
      assert plan[3 * i .. 3 * i + 3] == plan[|rest|..];
    }
  }

  /**
   * Per detection, in detection order: one box over the truncated corners,
   * stroked 2 or 3 wide; then one filled background, the label band above the
   * box's top-left corner, which never starts above row 0; then the label in
   * white just above that corner; nothing else.
   */
  lemma PlanShape(detections: seq<Detection>, measure: LabelText -> TextSize, i: nat)
    requires i < |detections|
    ensures var plan, d := AnnotationPlan(detections, measure), detections[i];
      var x1, y1 := Numeric.Trunc(d.x1), Numeric.Trunc(d.y1);
      var bg := LabelBackground(x1, y1, measure(LabelText(d.className, d.confidence)));
      && |plan| == 3 * |detections|
      && plan[3 * i].Rectangle? && plan[3 * i].thickness == Thickness(d.confidence)
      && plan[3 * i].corner1 == Point(x1, y1)
      && plan[3 * i].corner2 == Point(Numeric.Trunc(d.x2), Numeric.Trunc(d.y2))
      && plan[3 * i + 1].Rectangle? && plan[3 * i + 1].thickness == FILLED && 0 <= plan[3 * i + 1].corner1.y
      && plan[3 * i + 1].corner1 == Point(bg.left, bg.top)
      && plan[3 * i + 1].corner2 == Point(bg.right, bg.bottom)
      && plan[3 * i + 2].PutText? && plan[3 * i + 2].text == LabelText(d.className, d.confidence)
      && plan[3 * i + 2].font == FONT_HERSHEY_SIMPLEX && plan[3 * i + 2].scale == FONT_SCALE
      && plan[3 * i + 2].thickness == TEXT_THICKNESS
      && plan[3 * i + 2].origin == Point(x1, y1 - TEXT_LIFT) && plan[3 * i + 2].colour == WHITE
      && plan[3 * i].colour == plan[3 * i + 1].colour == SelectColour(d.className, d.classId)
  {
    var plan := AnnotationPlan(detections, measure);
    PlanAt(detections, measure, i);
    assert plan[3 * i] == plan[3 * i .. 3 * i + 3][0];
    assert plan[3 * i + 1] == plan[3 * i .. 3 * i + 3][1];
    assert plan[3 * i + 2] == plan[3 * i .. 3 * i + 3][2];
  }

  /**
   * An image: its decoded pixel buffer (opaque) and, in order, the drawing
   * commands applied to it since it was decoded or copied.
   */
  class Canvas {
    var width: nat
    var height: nat
    var pixels: seq<bv8>
    var history: seq<DrawCommand>

    /** A decoded image with nothing drawn on it yet (`cv2.imread`). */
    constructor Decode(width: nat, height: nat, pixels: seq<bv8>)
      ensures this.width == width && this.height == height && this.pixels == pixels && history == []
    {
      this.width, this.height, this.pixels, this.history := width, height, pixels, [];
    }

    /** `image.copy()`: a new image with the same contents. */
    constructor Copy(source: Canvas)
      ensures width == source.width && height == source.height
      ensures pixels == source.pixels && history == source.history
    {
      width, height, pixels, history := source.width, source.height, source.pixels, source.history;
    }

    /** `cv2.rectangle(self, corner1, corner2, colour, thickness)`. */
    method DrawRectangle(corner1: Point, corner2: Point, colour: Colour, thickness: int)
      modifies this
      ensures history == old(history) + [Rectangle(corner1, corner2, colour, thickness)]
      ensures width == old(width) && height == old(height) && pixels == old(pixels)
    {
      history := history + [Rectangle(corner1, corner2, colour, thickness)];
    }

    /** `cv2.putText(self, text, origin, font, scale, colour, thickness)`. */
    method DrawText(text: LabelText, origin: Point, font: int, scale: real, colour: Colour, thickness: int)
      modifies this
      ensures history == old(history) + [PutText(text, origin, font, scale, colour, thickness)]
      ensures width == old(width) && height == old(height) && pixels == old(pixels)
    {
      history := history + [PutText(text, origin, font, scale, colour, thickness)];
    }
  }

  /** The body of the renderer's loop: the box, the label background and the label of one detection. */
  method DrawDetection(annotated: Canvas, detection: Detection, measure: LabelText -> TextSize)
    modifies annotated
    ensures annotated.history == old(annotated.history) + DetectionCommands(detection, measure)
    ensures annotated.width == old(annotated.width) && annotated.height == old(annotated.height)
    ensures annotated.pixels == old(annotated.pixels)
  {
    var x1 := Numeric.Trunc(detection.x1);
    var y1 := Numeric.Trunc(detection.y1);
    var x2 := Numeric.Trunc(detection.x2);
    var y2 := Numeric.Trunc(detection.y2);
    var colour := SelectColour(detection.className, detection.classId);
    var thickness := Thickness(detection.confidence);
    annotated.DrawRectangle(Point(x1, y1), Point(x2, y2), colour, thickness);
    var text := LabelText(detection.className, detection.confidence);
    var size := measure(text);
    var textBgY1 := Max(0, y1 - size.height - LABEL_PADDING);
    var textBgY2 := y1;
    var textBgX1 := x1;
    var textBgX2 := x1 + size.width;
    annotated.DrawRectangle(Point(textBgX1, textBgY1), Point(textBgX2, textBgY2), colour, FILLED);
    annotated.DrawText(text, Point(x1, y1 - TEXT_LIFT), FONT_HERSHEY_SIMPLEX, FONT_SCALE, WHITE, TEXT_THICKNESS);
  }

  /**
   * `draw_predictions`: draws the plan for `detections` onto a fresh copy of
   * `image`, which is left untouched (the method may modify no existing object).
   * `measure` stands for `cv2.getTextSize` with the renderer's font settings.
   */
  method DrawPredictions(image: Canvas, detections: seq<Detection>, measure: LabelText -> TextSize)
    returns (annotated: Canvas)
    ensures fresh(annotated)
    ensures annotated.width == image.width && annotated.height == image.height
    ensures annotated.pixels == image.pixels
    ensures annotated.history == image.history + AnnotationPlan(detections, measure)
    ensures detections == [] ==> annotated.history == image.history
  {
    annotated := new Canvas.Copy(image);
    for i := 0 to |detections|
      invariant fresh(annotated)
      invariant annotated.width == image.width && annotated.height == image.height
      invariant annotated.pixels == image.pixels
      invariant annotated.history == image.history + AnnotationPlan(detections[..i], measure)
    {
      DrawDetection(annotated, detections[i], measure);
      assert detections[..i + 1][..i] == detections[..i];
    }
    assert detections[..|detections|] == detections;
  }
}
