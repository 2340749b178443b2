/** The `POST /predict/` handler `website_detect_image`: decode the upload,
    run the detection model at threshold `conf`, turn its boxes into the
    `detections` and `predictions` lists, and return them with the annotated
    image. Raised `HTTPException`s become `HttpException` replies. */
module Predictor {
  import opened Wrappers
  import opened PyNumeric
  import opened DetectionRecords

  type Bytes = seq<bv8>

  /** A decoded upload. */
  datatype Image = Image(height: nat, width: nat, pixels: seq<bv8>)

  /** The collaborators the handler calls and does not own: the upload
      decoder, the module-level model's `predict`, and the annotation path
      (`plot`, conversion to an image and base64 encoding), which draws the
      engine result's boxes on the image the engine was given. */
  datatype Backend = Backend(
    decode: Bytes -> Result<Image, string>,
    predict: (Image, real) -> Result<Results, string>,
    render: (Image, Results) -> string)

  /** Collaborator invocations, in the order the handler makes them. */
  datatype Call = Decode(upload: Bytes) | Predict(source: Image, conf: real) | Plot

  /** What the handler ends with: the three-field payload, a raised
      `HTTPException`, or the `KeyError` that `names[class_id]` raises for a
      class index missing from the table, which escapes the handler. */
  datatype Reply =
    | Payload(image: string, detections: seq<Detection>, predictions: seq<Prediction>)
    | HttpException(status: int, detail: string)
    | MissingLabel(classId: int)

  /** Threshold used when the request gives no `conf`. */
  const DefaultConf: real := 0.5

  const UnreadableImageDetail: string := "Không đọc được ảnh tải lên."

  const YoloErrorPrefix: string := "Lỗi YOLO: "

  /** The loop over the engine's boxes: per box, read the class index, look
      up its name, and append one summary entry and one prediction entry.
      A missing name stops the loop at the first such box; `nextId'` then
      counts the identifiers drawn for the boxes before it. */
  method CollectBoxes(boxes: seq<Box>, names: map<int, string>, nextId: nat)
    returns (detections: seq<Detection>, predictions: seq<Prediction>, nextId': nat, missing: Option<int>)
    ensures var k := FirstUnlabelled(boxes, names);
      nextId' == nextId + k
      && (k < |boxes| ==> missing == Some(ClassIdOf(boxes[k])))
      && (k == |boxes| ==>
            missing == None
            && detections == Detections(boxes, names)
            && predictions == Predictions(boxes, names, nextId))
  {
    detections, predictions := [], [];
    var id := nextId;
    var i := 0;
    while i < |boxes|
      invariant i <= |boxes|
      invariant AllLabelled(boxes[..i], names)
      invariant detections == Detections(boxes[..i], names)
      invariant predictions == Predictions(boxes[..i], names, nextId)
      invariant id == nextId + i
    {
      var b := boxes[i];
      var classId := PyInt(b.cls);
      if classId !in names {
        FirstUnlabelledAt(boxes, names, i);
        return detections, predictions, id, Some(classId);
      }
      var className := names[classId];
      var confScore := b.conf;

      detections := detections + [Detection(className, Round3(confScore))];
      predictions := predictions + [Prediction(b.cx, b.cy, b.w, b.h, confScore, className, classId, id)];
      id := id + 1;

      ExtendByOne(boxes, names, nextId, i);
      i := i + 1;
    }
    assert boxes[..i] == boxes;
    nextId', missing := id, None;
  }

  /** The handler. Detection identifiers are drawn from a counter: the caller
      passes the next unused one and gets back the next unused one after the
      call. `calls` records which collaborators ran. */
  method WebsiteDetectImage(backend: Backend, file: Bytes, conf: Option<real>, nextId: nat)
    returns (reply: Reply, nextId': nat, ghost calls: seq<Call>)
    // An unreadable upload is a client error.
    ensures backend.decode(file).Failure? ==>
      reply == HttpException(400, UnreadableImageDetail) && nextId' == nextId
    // A model failure is a server error carrying the model's error text.
    ensures backend.decode(file).Success? ==>
      var img := backend.decode(file).value;
      backend.predict(img, conf.GetOr(DefaultConf)).Failure? ==>
        reply == HttpException(500, YoloErrorPrefix + backend.predict(img, conf.GetOr(DefaultConf)).error)
        && nextId' == nextId
    // Otherwise the boxes decide: the first box without a name aborts (ids
    // for the boxes before it were already drawn), else the payload.
    ensures backend.decode(file).Success? ==>
      var img := backend.decode(file).value;
      backend.predict(img, conf.GetOr(DefaultConf)).Success? ==>
        var res := backend.predict(img, conf.GetOr(DefaultConf)).value;
        var k := FirstUnlabelled(res.boxes, res.names);
        if k < |res.boxes| then
          reply == MissingLabel(ClassIdOf(res.boxes[k])) && nextId' == nextId + k
        else
          reply == Payload(backend.render(img, res),
                           Detections(res.boxes, res.names),
                           Predictions(res.boxes, res.names, nextId))
          && nextId' == nextId + |res.boxes|
    // The collaborators called: the decoder always; the model only after a
    // successful decode, once, on the decoded image, with the requested
    // threshold (0.5 when absent) taken as it is; the renderer only when the
    // payload is returned.
    ensures backend.decode(file).Failure? ==> calls == [Decode(file)]
    ensures backend.decode(file).Success? ==>
      var called := [Decode(file), Predict(backend.decode(file).value, conf.GetOr(DefaultConf))];
      calls == if reply.Payload? then called + [Plot] else called
  {
    var decoded := backend.decode(file);
    calls := [Decode(file)];
    if decoded.Failure? {
      return HttpException(400, UnreadableImageDetail), nextId, calls;
    }
    var img := decoded.value;

    var threshold := conf.GetOr(DefaultConf);
    var predicted := backend.predict(img, threshold);
    calls := calls + [Predict(img, threshold)];
    if predicted.Failure? {
      return HttpException(500, YoloErrorPrefix + predicted.error), nextId, calls;
    }
    var results := predicted.value;

    var boxes, names := results.boxes, results.names;
    var detections, predictions, id, missing := CollectBoxes(boxes, names, nextId);
    if missing.Some? {
      return MissingLabel(missing.value), id, calls;
    }

    var annotated := backend.render(img, results);
    calls := calls + [Plot];
    reply := Payload(annotated, detections, predictions);
    nextId' := id;
  }
}
