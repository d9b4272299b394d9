/**
 * The detector adapter (`process_with_yolo`): it turns the rows of the
 * detector's box tensor into detection records, resolving each class index
 * through the model's label table. The detector itself is opaque; what it
 * returned for one image is an input here.
 */
module Detector {
  import opened Wrappers
  import Numeric

  /** One row of the box tensor: the corners, the score and the class index (a float in the tensor). */
  datatype RawBox = RawBox(x1: real, y1: real, x2: real, y2: real, conf: real, cls: real)

  /** One element of the list the detector returns; its `boxes` may be absent. */
  datatype Prediction = Prediction(boxes: Option<seq<RawBox>>)

  /** The loaded model, seen only through its label table (class index to name). */
  datatype Model = Model(names: map<int, string>)

  /** A detection record: the resolved label, the class index, the score, the centre and size, and the corners. */
  datatype Detection = Detection(
    className: string, classId: int, confidence: real,
    x: real, y: real, width: real, height: real,
    x1: real, y1: real, x2: real, y2: real)

  datatype DetectorError = ModelNotLoaded

  const FALLBACK_PREFIX: string := "class_"

  /** The class index a synthesised `class_<id>` label stands for, or `None` for any other label. */
  function FallbackClassId(name: string): Option<int> {
    if |FALLBACK_PREFIX| <= |name| && name[..|FALLBACK_PREFIX|] == FALLBACK_PREFIX
    then Numeric.ParseInt(name[|FALLBACK_PREFIX|..])
    else None
  }

  /**
   * `names.get(class_id, f"class_{class_id}")`: the table's name for a known
   * index, and otherwise a `class_` label. It is defined for every index.
   */
  function ResolveLabel(names: map<int, string>, classId: int): string {
    if classId in names then names[classId] else FALLBACK_PREFIX + Numeric.IntToDecimal(classId)
  }

  /** An index in the table gets the table's name. */
  lemma KnownLabel(names: map<int, string>, classId: int)
    requires classId in names
    ensures ResolveLabel(names, classId) == names[classId]
  {
  }

  /** A synthesised label names its class index: reading the index back from it gives that index. */
  lemma FallbackLabelNamesId(names: map<int, string>, classId: int)
    requires classId !in names
    ensures FallbackClassId(ResolveLabel(names, classId)) == Some(classId)
  {
    var name := ResolveLabel(names, classId);
    assert name[|FALLBACK_PREFIX|..] == Numeric.IntToDecimal(classId);
    Numeric.DecimalRoundTrip(classId);
  }

  /** A table without an entry for 7 labels class 7 as `class_7`. */
  lemma FallbackForSeven(names: map<int, string>)
    requires 7 !in names
    ensures ResolveLabel(names, 7) == "class_7"
  {
  }

  /** Two indices missing from the table never share a synthesised label. */
  lemma FallbackLabelsDistinct(names: map<int, string>, a: int, b: int)
    requires a !in names && b !in names && a != b
    ensures ResolveLabel(names, a) != ResolveLabel(names, b)
  {
    FallbackLabelNamesId(names, a);
    FallbackLabelNamesId(names, b);
  }

  /** One row to one record: the corners are copied, the centre and the size derived from them. */
  function Normalize(box: RawBox, names: map<int, string>): Detection {
    var classId := Numeric.Trunc(box.cls);
    Detection(
      ResolveLabel(names, classId), classId, box.conf,
      (box.x1 + box.x2) / 2.0, (box.y1 + box.y2) / 2.0,
      box.x2 - box.x1, box.y2 - box.y1,
      box.x1, box.y1, box.x2, box.y2)
  }

  /**
   * The record keeps the corners and the score, carries the truncated class
   * index and its label, and its centre -/+ half its size gives the corners
   * back; an ordered box has a non-negative size and its centre inside it.
   */
  lemma NormalizeFields(box: RawBox, names: map<int, string>)
    ensures var d := Normalize(box, names);
      && d.x1 == box.x1 && d.y1 == box.y1 && d.x2 == box.x2 && d.y2 == box.y2
      && d.confidence == box.conf
      && d.classId == Numeric.Trunc(box.cls) && d.className == ResolveLabel(names, d.classId)
      && d.x - d.width / 2.0 == d.x1 && d.x + d.width / 2.0 == d.x2
      && d.y - d.height / 2.0 == d.y1 && d.y + d.height / 2.0 == d.y2
      && (box.x1 <= box.x2 ==> 0.0 <= d.width && d.x1 <= d.x <= d.x2)
      && (box.y1 <= box.y2 ==> 0.0 <= d.height && d.y1 <= d.y <= d.y2)
  {
  }

  /** The rows the adapter reads: those of the first prediction, when there is one and it has boxes. */
  function Boxes(results: seq<Prediction>): (rows: seq<RawBox>)
    ensures |results| > 0 && results[0].boxes.Some? ==> rows == results[0].boxes.value
    ensures |results| == 0 || results[0].boxes.None? ==> rows == []
  {
    if |results| > 0 && results[0].boxes.Some? then results[0].boxes.value else []
  }

  /** The records for a sequence of rows, one per row, in row order. */
  function NormalizeAll(rows: seq<RawBox>, names: map<int, string>): seq<Detection> {
    if rows == [] then []
    else NormalizeAll(rows[..|rows| - 1], names) + [Normalize(rows[|rows| - 1], names)]
  }

  lemma {:induction false} NormalizeAllLength(rows: seq<RawBox>, names: map<int, string>)
    ensures |NormalizeAll(rows, names)| == |rows|
  {
    if rows != [] {
      NormalizeAllLength(rows[..|rows| - 1], names);
    }
  }

  /** Order and number are preserved: record `i` is the normalisation of row `i`. */
  lemma {:induction false} NormalizeAllAt(rows: seq<RawBox>, names: map<int, string>, i: nat)
    requires i < |rows|
    ensures |NormalizeAll(rows, names)| == |rows|
    ensures NormalizeAll(rows, names)[i] == Normalize(rows[i], names)
  {
    var front := rows[..|rows| - 1];
    var all, rest := NormalizeAll(rows, names), NormalizeAll(front, names);
    NormalizeAllLength(front, names);
    assert all == rest + [Normalize(rows[|rows| - 1], names)];
    if i < |front| {
      NormalizeAllAt(front, names, i);
      assert all[i] == rest[i];
      assert front[i] == rows[i];
    }
  }

  /**
   * `process_with_yolo` after inference: fails when no model is loaded, and
   * otherwise yields one record per row, in the detector's order.
   */
  method ProcessWithYolo(model: Option<Model>, results: seq<Prediction>)
    returns (r: Result<seq<Detection>, DetectorError>)
    ensures model.None? ==> r == Failure(ModelNotLoaded)
    ensures model.Some? ==> r == Success(NormalizeAll(Boxes(results), model.value.names))
  {
    if model.None? {
      return Failure(ModelNotLoaded);
    }
    var names := model.value.names;
    var detections: seq<Detection> := [];
    if |results| > 0 {
      var boxes := results[0].boxes;
      if boxes.Some? && |boxes.value| > 0 {
        var rows := boxes.value;
        for k := 0 to |rows|
          invariant detections == NormalizeAll(rows[..k], names)
        {
          detections := detections + [Normalize(rows[k], names)];
          assert rows[..k + 1][..k] == rows[..k];
        }
        assert rows[..|rows|] == rows;
      }
    }
    return Success(detections);
  }
}
