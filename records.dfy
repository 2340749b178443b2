/** The engine's per-box output and the two public record shapes the handler
    builds from it: the `detections` summary entries and the `predictions`
    entries, each list one entry per box in box order. */
module DetectionRecords {
  import opened PyNumeric

  /** One engine box: centre, extents (`xywh`), class tensor value and score. */
  datatype Box = Box(cx: real, cy: real, w: real, h: real, cls: real, conf: real)

  /** The engine output for the single submitted image: its boxes in engine
      order and the model's class-index-to-name table. */
  datatype Results = Results(boxes: seq<Box>, names: map<int, string>)

  /** A `detections` entry: label (JSON key "label") and score rounded to three decimals. */
  datatype Detection = Detection(name: string, confidence: real)

  /** A `predictions` entry; `className` is the JSON key "class". */
  datatype Prediction = Prediction(
    x: real, y: real, width: real, height: real,
    confidence: real, className: string, classId: int, detectionId: nat)

  /** The class index the handler reads from a box: `int(b.cls[0])`. */
  function ClassIdOf(b: Box): int {
    PyInt(b.cls)
  }

  predicate Labelled(b: Box, names: map<int, string>) {
    ClassIdOf(b) in names
  }

  predicate AllLabelled(boxes: seq<Box>, names: map<int, string>) {
    forall i :: 0 <= i < |boxes| ==> Labelled(boxes[i], names)
  }

  /** Index of the first box whose class index has no name, or |boxes| when
      every box has one: the point where `names[class_id]` raises. */
  function FirstUnlabelled(boxes: seq<Box>, names: map<int, string>): (k: nat)
    ensures k <= |boxes|
    ensures forall i :: 0 <= i < k ==> Labelled(boxes[i], names)
    ensures k < |boxes| ==> !Labelled(boxes[k], names)
    ensures k == |boxes| <==> AllLabelled(boxes, names)
  {
    if boxes == [] || !Labelled(boxes[0], names) then 0
    else 1 + FirstUnlabelled(boxes[1..], names)
  }

  /** The summary entry for one box. */
  function Summarize(b: Box, names: map<int, string>): (d: Detection)
    requires Labelled(b, names)
    ensures d.name == names[ClassIdOf(b)]
    ensures ThreeDecimals(d.confidence)
    ensures b.conf - 0.0005 <= d.confidence <= b.conf + 0.0005
  {
    Detection(names[ClassIdOf(b)], Round3(b.conf))
  }

  /** The summary list as the handler builds it: one append per box. */
  function Detections(boxes: seq<Box>, names: map<int, string>): (ds: seq<Detection>)
    requires AllLabelled(boxes, names)
    ensures |ds| == |boxes|
    ensures forall i :: 0 <= i < |boxes| ==> ds[i] == Summarize(boxes[i], names)
  {
    if boxes == [] then []
    else
      var n := |boxes| - 1;
      Detections(boxes[..n], names) + [Summarize(boxes[n], names)]
  }

  /** The prediction list as the handler builds it: one append per box, the
      i-th drawing the i-th identifier after `firstId`. */
  function Predictions(boxes: seq<Box>, names: map<int, string>, firstId: nat): (ps: seq<Prediction>)
    requires AllLabelled(boxes, names)
    ensures |ps| == |boxes|
    ensures forall i :: 0 <= i < |boxes| ==>
      ps[i] == Prediction(boxes[i].cx, boxes[i].cy, boxes[i].w, boxes[i].h, boxes[i].conf,
                          names[ClassIdOf(boxes[i])], ClassIdOf(boxes[i]), firstId + i)
  {
    if boxes == [] then []
    else
      var n := |boxes| - 1;
      var b := boxes[n];
      Predictions(boxes[..n], names, firstId)
        + [Prediction(b.cx, b.cy, b.w, b.h, b.conf, names[ClassIdOf(b)], ClassIdOf(b), firstId + n)]
  }

  /** The first i + 1 boxes give the lists of the first i boxes extended by
      box i's entries. */
  lemma ExtendByOne(boxes: seq<Box>, names: map<int, string>, firstId: nat, i: int)
    requires 0 <= i < |boxes|
    requires AllLabelled(boxes[..i], names) && Labelled(boxes[i], names)
    ensures AllLabelled(boxes[..i + 1], names)
    ensures Detections(boxes[..i + 1], names)
            == Detections(boxes[..i], names) + [Summarize(boxes[i], names)]
    ensures Predictions(boxes[..i + 1], names, firstId)
            == Predictions(boxes[..i], names, firstId)
               + [Prediction(boxes[i].cx, boxes[i].cy, boxes[i].w, boxes[i].h, boxes[i].conf,
                             names[ClassIdOf(boxes[i])], ClassIdOf(boxes[i]), firstId + i)]
  {
  }

  /** When the first i boxes have names and box i has none, box i is where
      the lookup fails. */
  lemma FirstUnlabelledAt(boxes: seq<Box>, names: map<int, string>, i: int)
    requires 0 <= i < |boxes|
    requires AllLabelled(boxes[..i], names) && !Labelled(boxes[i], names)
    ensures FirstUnlabelled(boxes, names) == i
  {
  }

  /** Entry i of both lists describes box i: same label, the label is the
      table's name for the class index, and the summary score is the full
      score rounded. */
  lemma ListsAligned(boxes: seq<Box>, names: map<int, string>, firstId: nat, i: int)
    requires AllLabelled(boxes, names)
    requires 0 <= i < |boxes|
    ensures Detections(boxes, names)[i].name == Predictions(boxes, names, firstId)[i].className
    ensures Predictions(boxes, names, firstId)[i].className
            == names[Predictions(boxes, names, firstId)[i].classId]
    ensures Detections(boxes, names)[i].confidence
            == Round3(Predictions(boxes, names, firstId)[i].confidence)
  {
  }

  function IdsOf(ps: seq<Prediction>): set<nat> {
    set p | p in ps :: p.detectionId
  }

  /** Identifiers within one response are pairwise distinct. */
  lemma IdsDistinct(boxes: seq<Box>, names: map<int, string>, firstId: nat)
    requires AllLabelled(boxes, names)
    ensures var ps := Predictions(boxes, names, firstId);
      forall i, j :: 0 <= i < j < |ps| ==> ps[i].detectionId != ps[j].detectionId
  {
  }

  /** Identifiers of a response lie in [firstId, firstId + |boxes|). */
  lemma IdsInRange(boxes: seq<Box>, names: map<int, string>, firstId: nat)
    requires AllLabelled(boxes, names)
    ensures forall id :: id in IdsOf(Predictions(boxes, names, firstId)) ==>
      firstId <= id < firstId + |boxes|
  {
  }

  /** Responses served one after another from one identifier counter:
      response i draws from `starts[i]` on, and the next one starts no
      earlier than where response i stopped (a request aborted in between
      only moves the counter further). */
  predicate CounterThreaded(batches: seq<seq<Box>>, starts: seq<nat>) {
    |starts| == |batches|
    && forall i :: 0 <= i < |batches| - 1 ==> starts[i] + |batches[i]| <= starts[i + 1]
  }

  /** The counter never moves back: every later response starts at or after
      the end of every earlier one. */
  lemma {:induction false} CounterOnlyAdvances(batches: seq<seq<Box>>, starts: seq<nat>, i: int, j: int)
    requires CounterThreaded(batches, starts)
    requires 0 <= i < j < |batches|
    ensures starts[i] + |batches[i]| <= starts[j]
    decreases j - i
  {
    if i + 1 < j {
      CounterOnlyAdvances(batches, starts, i, j - 1);
    }
  }

  /** Over any number of responses served from one counter, no detection
      identifier is ever handed out twice, whatever label table each
      response was built with. */
  lemma ResponsesNeverReuseIds(
    batches: seq<seq<Box>>, names: seq<map<int, string>>, starts: seq<nat>, i: int, j: int)
    requires CounterThreaded(batches, starts)
    requires |names| == |batches|
    requires forall k :: 0 <= k < |batches| ==> AllLabelled(batches[k], names[k])
    requires 0 <= i < j < |batches|
    ensures IdsOf(Predictions(batches[i], names[i], starts[i]))
            !! IdsOf(Predictions(batches[j], names[j], starts[j]))
  {
    CounterOnlyAdvances(batches, starts, i, j);
    IdsInRange(batches[i], names[i], starts[i]);
    IdsInRange(batches[j], names[j], starts[j]);
  }

  /** If the engine kept only boxes scoring at least `t`, every full score in
      the response is at least `t` and every rounded score at least `t` rounded. */
  lemma ThresholdCarriesOver(boxes: seq<Box>, names: map<int, string>, firstId: nat, t: real)
    requires AllLabelled(boxes, names)
    requires forall i :: 0 <= i < |boxes| ==> t <= boxes[i].conf
    ensures forall p :: p in Predictions(boxes, names, firstId) ==> t <= p.confidence
    ensures forall d :: d in Detections(boxes, names) ==> Round3(t) <= d.confidence
  {
    var ds := Detections(boxes, names);
    forall d | d in ds ensures Round3(t) <= d.confidence {
      var i :| 0 <= i < |ds| && ds[i] == d;
      Round3Monotone(t, boxes[i].conf);
    }
  }

  /** Scores in [0, 1] give summary scores in [0, 1]. */
  lemma ConfidenceInUnitRange(boxes: seq<Box>, names: map<int, string>)
    requires AllLabelled(boxes, names)
    requires forall i :: 0 <= i < |boxes| ==> 0.0 <= boxes[i].conf <= 1.0
    ensures forall d :: d in Detections(boxes, names) ==> 0.0 <= d.confidence <= 1.0
  {
  }
}
