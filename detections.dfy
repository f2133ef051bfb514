/**
 * What `ObjectDetector.detect` computes from one YOLO inference (detector.py:36-71):
 * one detection record per predicted box, in the order of the boxes, labelled
 * through the result's class-name table; any exception raised on the way
 * (inside the model, while unpacking a box, or looking up a class name)
 * collapses the whole answer to the empty list.
 */
module Detections {

  datatype Option<T> = None | Some(value: T)

  /** One predicted box as YOLO reports it: `xyxy[0]`, `conf[0]` and `cls[0]`. */
  datatype RawBox = RawBox(xyxy: seq<real>, conf: real, cls: real)

  /** One element of the list YOLO returns: its boxes and its `names` table. */
  datatype YoloResult = YoloResult(boxes: seq<RawBox>, names: map<int, string>)

  /** What calling the model on a frame gave: a list of results, or an exception. */
  datatype Inference = Predicted(results: seq<YoloResult>) | Raised

  datatype Box = Box(xmin: real, ymin: real, xmax: real, ymax: real)

  /** The record `detect` appends: box, label, score and class id. */
  datatype Detection = Detection(box: Box, className: string, score: real, classId: int)

  /** Python's `int(x)` on a float: truncation toward zero. */
  function Trunc(x: real): (n: int)
    ensures 0.0 <= x ==> n as real <= x < n as real + 1.0
    ensures x < 0.0 ==> n as real - 1.0 < x <= n as real
  {
    if x >= 0.0 then x.Floor else -((-x).Floor)
  }

  /** A box `detect` can convert without raising: four coordinates, a known class. */
  predicate Convertible(b: RawBox, names: map<int, string>) {
    |b.xyxy| == 4 && Trunc(b.cls) in names
  }

  /** `d` is the record built from box `b` under the class table `names`. */
  predicate Describes(d: Detection, b: RawBox, names: map<int, string>) {
    && Convertible(b, names)
    && d.box == Box(b.xyxy[0], b.xyxy[1], b.xyxy[2], b.xyxy[3])
    && d.score == b.conf
    && d.classId == Trunc(b.cls)
    && d.className == names[d.classId]
  }

  /** The body of one iteration of the box loop; None where Python raises. */
  function ConvertBox(b: RawBox, names: map<int, string>): Option<Detection> {
    if |b.xyxy| != 4 then None
    else
      var classId := Trunc(b.cls);
      if classId !in names then None
      else Some(Detection(Box(b.xyxy[0], b.xyxy[1], b.xyxy[2], b.xyxy[3]), names[classId], b.conf, classId))
  }

  /** The whole box loop: the appended list, or None if some iteration raised. */
  function ConvertAll(boxes: seq<RawBox>, names: map<int, string>): (r: Option<seq<Detection>>)
    ensures r.Some? ==> |r.value| == |boxes|
  {
    if boxes == [] then Some([])
    else
      match ConvertAll(boxes[..|boxes| - 1], names)
      case None => None
      case Some(prefix) =>
        match ConvertBox(boxes[|boxes| - 1], names)
        case None => None
        case Some(d) => Some(prefix + [d])
  }

  /** The list `detect` returns for a given inference outcome. */
  function Extract(inference: Inference): seq<Detection> {
    match inference
    case Raised => []
    case Predicted(results) =>
      if |results| == 0 then []
      else
        match ConvertAll(results[0].boxes, results[0].names)
        case None => []
        case Some(detections) => detections
  }

  /** The box loop succeeds exactly when every box converts, and then yields one record per box, in order. */
  lemma {:induction false} ConvertAllSpec(boxes: seq<RawBox>, names: map<int, string>)
    ensures ConvertAll(boxes, names).Some? <==> forall i :: 0 <= i < |boxes| ==> Convertible(boxes[i], names)
    ensures ConvertAll(boxes, names).Some? ==>
      forall i :: 0 <= i < |boxes| ==> Describes(ConvertAll(boxes, names).value[i], boxes[i], names)
  {
    if boxes != [] {
      var n := |boxes| - 1;
      var front := boxes[..n];
      ConvertAllSpec(front, names);
      assert forall i :: 0 <= i < n ==> front[i] == boxes[i];
      if !Convertible(boxes[n], names) {
        assert ConvertAll(boxes, names).None?;
      }
    }
  }

  /** Once a box in the prefix raises, the whole loop has raised. */
  lemma {:induction false} ConvertAllPrefixFails(boxes: seq<RawBox>, names: map<int, string>, k: nat)
    requires k <= |boxes|
    requires ConvertAll(boxes[..k], names).None?
    ensures ConvertAll(boxes, names).None?
  {
    if k < |boxes| {
      var n := |boxes| - 1;
      assert boxes[..n][..k] == boxes[..k];
      ConvertAllPrefixFails(boxes[..n], names, k);
    } else {
      assert boxes[..k] == boxes;
    }
  }

  /**
   * `detect` answers either [] or one record per box of the first result, in
   * order; it answers a non-empty list exactly when the model did not raise,
   * returned a result with at least one box, and every box converts.
   */
  lemma ExtractSpec(inference: Inference)
    ensures var r := Extract(inference);
      r != [] <==>
        && inference.Predicted?
        && |inference.results| > 0
        && |inference.results[0].boxes| > 0
        && forall i :: 0 <= i < |inference.results[0].boxes| ==>
             Convertible(inference.results[0].boxes[i], inference.results[0].names)
    ensures var r := Extract(inference);
      r != [] ==>
        && |r| == |inference.results[0].boxes|
        && forall i :: 0 <= i < |r| ==>
             Describes(r[i], inference.results[0].boxes[i], inference.results[0].names)
  {
    if inference.Predicted? && |inference.results| > 0 {
      ConvertAllSpec(inference.results[0].boxes, inference.results[0].names);
    }
  }

  /** A model exception or an empty result list both give the empty answer. */
  lemma ExtractFailures(inference: Inference)
    ensures inference.Raised? ==> Extract(inference) == []
    ensures inference.Predicted? && inference.results == [] ==> Extract(inference) == []
  {
  }
}
