/**
 * The deterministic skeleton of `process_image`: it names the stored upload,
 * decodes it, normalises the detector's output, draws the
 * annotations on a copy, names the result and counts detections per class.
 * The upload's bytes, the decoded image, the detector's output and the text
 * measurements are inputs; writing the files and timing the request are not
 * modelled.
 */
module Pipeline {
  import opened Wrappers
  import opened Detector
  import opened Annotation
  import Statistics
  import Naming

  datatype RequestError =
    | ModelUnavailable  // no model is loaded (HTTP 503)
    | ImageUnreadable   // the stored upload does not decode as an image

  /** What `cv2.imread` decodes from the stored upload: its size and pixel buffer. */
  datatype Bitmap = Bitmap(width: nat, height: nat, pixels: seq<bv8>)

  /** The response payload, without the constant `success` flag, the processing time and the model description. */
  datatype Response = Response(
    originalImage: string,
    resultImage: string,
    totalDetections: nat,
    classStats: map<string, nat>,
    detections: seq<Detection>,
    imageWidth: nat,
    imageHeight: nat,
    confidenceThreshold: real)

  /**
   * `POST /process`. `id` is the generated identifier, `uploadExtension` the
   * extension of the uploaded file name, `decoded` what `cv2.imread` gave for
   * the stored upload (`None` when it could not be decoded), and `results` what
   * the detector returned for it at threshold `confidence`.
   */
  method ProcessImage(
    model: Option<Model>, id: string, uploadExtension: string, decoded: Option<Bitmap>,
    results: seq<Prediction>, confidence: real, measure: LabelText -> TextSize)
    returns (r: Result<Response, RequestError>, annotated: Canvas?)
    ensures model.None? ==> r == Failure(ModelUnavailable) && annotated == null
    ensures model.Some? && decoded.None? ==> r == Failure(ImageUnreadable) && annotated == null
    ensures model.Some? && decoded.Some? ==> r.Success? && annotated != null
    ensures r.Success? ==> decoded.Some? && annotated != null && fresh(annotated)
    ensures r.Success? ==> r.value.originalImage == Naming.StoredName(id, uploadExtension)
    ensures r.Success? ==> r.value.resultImage == Naming.ResultName(r.value.originalImage)
    ensures r.Success? ==> r.value.detections == NormalizeAll(Boxes(results), model.value.names)
    ensures r.Success? ==>
      r.value.totalDetections == |r.value.detections| == Statistics.Total(r.value.classStats)
    ensures r.Success? ==> r.value.classStats.Keys == Statistics.ClassNames(r.value.detections)
    ensures r.Success? ==> forall c :: c in r.value.classStats ==>
      r.value.classStats[c] == Statistics.Count(r.value.detections, c)
    ensures r.Success? && decoded.Some? ==>
      r.value.imageWidth == decoded.value.width && r.value.imageHeight == decoded.value.height
    ensures r.Success? ==> r.value.confidenceThreshold == confidence
    ensures r.Success? && decoded.Some? && annotated != null ==>
      && annotated.width == decoded.value.width && annotated.height == decoded.value.height
      && annotated.pixels == decoded.value.pixels
      && annotated.history == AnnotationPlan(r.value.detections, measure)
  {
    annotated := null;
    if model.None? {
      return Failure(ModelUnavailable), annotated;
    }
    var filename := Naming.StoredName(id, uploadExtension);
    if decoded.None? {
      return Failure(ImageUnreadable), annotated;
    }
    var image := new Canvas.Decode(decoded.value.width, decoded.value.height, decoded.value.pixels);
    var width, height := image.width, image.height;
    var detected := ProcessWithYolo(model, results);
    var detections := detected.value;
    annotated := DrawPredictions(image, detections, measure);
    var resultFilename := Naming.ResultName(filename);
    var classStats := Statistics.ClassStats(detections);
    r := Success(Response(
      filename, resultFilename, |detections|, classStats, detections,
      width, height, confidence));
  }
}
