/**
 * The annotation the loop paints on each frame, as integer geometry:
 * `draw_boxes` (detector.py:73-117) and the information overlay drawn inline
 * in `run` (detector.py:197-216). A frame is modelled by the log of the draw
 * commands issued on it; pixels are not modelled.
 */
module Annotation {
  import opened Config
  import opened Detections

  datatype Point = Point(x: int, y: int)

  /** The `(text_width, text_height)` that `cv2.getTextSize` reports. */
  datatype TextSize = TextSize(width: int, height: int)

  /**
   * The string a `putText` call writes. Floating-point formatting (the score
   * as a percentage, the FPS figure) stays symbolic.
   */
  datatype Caption =
    | BoxCaption(className: string, score: real)  // "<label>: <score as %>"
    | FpsCaption                                  // "FPS: <fps>"
    | CountCaption(count: nat)                    // "Detected: <count>"
    | ModelCaption                                // the model banner
    | PausedCaption                               // "PAUSED"
    | QuitHint(key: char)                         // "Press '<key>' to quit"

  /** One OpenCV drawing call: `rectangle` (thickness -1 fills) or `putText`. */
  datatype DrawCommand =
    | Rectangle(corner1: Point, corner2: Point, color: Color, thickness: int)
    | Text(caption: Caption, origin: Point, scale: real, color: Color, thickness: int)

  const Filled: int := -1
  const White: Color := Bgr(255, 255, 255)
  const Green: Color := Bgr(0, 255, 0)
  const Yellow: Color := Bgr(0, 255, 255)
  const Red: Color := Bgr(0, 0, 255)

  /** A frame being annotated: its size and the draw calls issued on it so far. */
  class Frame {
    const width: nat
    const height: nat
    var log: seq<DrawCommand>

    constructor (width: nat, height: nat)
      ensures this.width == width && this.height == height && log == []
    {
      this.width := width;
      this.height := height;
      log := [];
    }

    /** `cv2.rectangle(frame, corner1, corner2, color, thickness)` */
    method DrawRectangle(corner1: Point, corner2: Point, color: Color, thickness: int)
      modifies this
      ensures log == old(log) + [Rectangle(corner1, corner2, color, thickness)]
    {
      log := log + [Rectangle(corner1, corner2, color, thickness)];
    }

    /** `cv2.putText(frame, text, origin, font, scale, color, thickness)` */
    method PutText(caption: Caption, origin: Point, scale: real, color: Color, thickness: int)
      modifies this
      ensures log == old(log) + [Text(caption, origin, scale, color, thickness)]
    {
      log := log + [Text(caption, origin, scale, color, thickness)];
    }
  }

  /** The colour of the detection at position `idx`: round-robin through the palette. */
  function ColorFor(idx: nat): (c: Color)
    ensures c in Colors && IsBgr(c)
  {
    Colors[idx % |Colors|]
  }

  function CaptionOf(d: Detection): Caption {
    BoxCaption(d.className, d.score)
  }

  /** The three draw calls for the detection at position `idx`. */
  function BoxCommands(idx: nat, d: Detection, measure: Caption -> TextSize): seq<DrawCommand> {
    var xmin, ymin, xmax, ymax := Trunc(d.box.xmin), Trunc(d.box.ymin), Trunc(d.box.xmax), Trunc(d.box.ymax);
    var size := measure(CaptionOf(d));
    var color := ColorFor(idx);
    [ Rectangle(Point(xmin, ymin), Point(xmax, ymax), color, LineThickness),
      Rectangle(Point(xmin, ymin - size.height - 10), Point(xmin + size.width + 5, ymin), color, Filled),
      Text(CaptionOf(d), Point(xmin + 2, ymin - 5), FontScale, White, 2) ]
  }

  /** Everything `draw_boxes` draws for a list of detections. */
  function BoxesCommands(detections: seq<Detection>, measure: Caption -> TextSize): (cmds: seq<DrawCommand>)
    ensures |cmds| == 3 * |detections|
  {
    if detections == [] then []
    else
      var n := |detections| - 1;
      BoxesCommands(detections[..n], measure) + BoxCommands(n, detections[n], measure)
  }

  /** The overlay `run` draws after the boxes; `shown` is the number of this iteration's detections. */
  function OverlayCommands(width: nat, height: nat, shown: nat, paused: bool): seq<DrawCommand> {
    (if ShowFps then [Text(FpsCaption, Point(10, 30), 0.7, Green, 2)] else [])
    + (if ShowDetectedCount then [Text(CountCaption(shown), Point(10, 70), 0.7, Green, 2)] else [])
    + [Text(ModelCaption, Point(10, 110), 0.6, Yellow, 2)]
    + (if paused then [Text(PausedCaption, Point(width / 2 - 50, 30), 1.0, Red, 2)] else [])
    + [Text(QuitHint(QuitKey), Point(10, height - 10), 0.5, White, 1)]
  }

  /** The complete drawing on one displayed frame. */
  function Annotate(width: nat, height: nat, detections: seq<Detection>, paused: bool,
                    measure: Caption -> TextSize): seq<DrawCommand> {
    BoxesCommands(detections, measure) + OverlayCommands(width, height, |detections|, paused)
  }

  /**
   * For the detection at position i, `draw_boxes` issues, in order: the box
   * outline at the truncated corners in palette colour i mod 8, a filled label
   * background from (xmin, ymin - th - 10) to (xmin + tw + 5, ymin), and the
   * label text in white at (xmin + 2, ymin - 5).
   */
  lemma {:induction false} BoxesCommandsAt(detections: seq<Detection>, measure: Caption -> TextSize, i: nat)
    requires i < |detections|
    ensures var cmds, d := BoxesCommands(detections, measure), detections[i];
      var xmin, ymin := Trunc(d.box.xmin), Trunc(d.box.ymin);
      var size := measure(BoxCaption(d.className, d.score));
      && cmds[3 * i] == Rectangle(Point(xmin, ymin), Point(Trunc(d.box.xmax), Trunc(d.box.ymax)),
                                  Colors[i % 8], LineThickness)
      && cmds[3 * i + 1] == Rectangle(Point(xmin, ymin - size.height - 10),
                                      Point(xmin + size.width + 5, ymin), Colors[i % 8], Filled)
      && cmds[3 * i + 2] == Text(BoxCaption(d.className, d.score), Point(xmin + 2, ymin - 5),
                                 FontScale, White, 2)
  {
    var n := |detections| - 1;
    var front := detections[..n];
    if i < n {
      BoxesCommandsAt(front, measure, i);
      assert front[i] == detections[i];
    }
  }

  /** The label text starts inside its background, which sits on the box's top edge. */
  lemma LabelInsideBackground(d: Detection, measure: Caption -> TextSize, idx: nat)
    requires measure(CaptionOf(d)).width >= 0 && measure(CaptionOf(d)).height >= 0
    ensures var cmds := BoxCommands(idx, d, measure);
      && cmds[1].corner2.y == cmds[0].corner1.y
      && cmds[1].corner1.x == cmds[0].corner1.x
      && cmds[1].corner1.x <= cmds[2].origin.x <= cmds[1].corner2.x
      && cmds[1].corner1.y <= cmds[2].origin.y <= cmds[1].corner2.y
  {
  }

  /** Positions a palette length apart get the same colour, and positions closer than that differ. */
  lemma ColorRoundRobin(i: nat, j: nat)
    ensures ColorFor(i) == ColorFor(j) <==> i % 8 == j % 8
  {
    PaletteWellFormed();
  }

  /** Every draw call `draw_boxes` makes is an outline, a filled background or a label. */
  lemma {:induction false} BoxesRectangles(detections: seq<Detection>, measure: Caption -> TextSize)
    ensures forall k :: 0 <= k < |BoxesCommands(detections, measure)| ==>
      (BoxesCommands(detections, measure)[k].Rectangle? <==> k % 3 != 2)
  {
    if detections != [] {
      var n := |detections| - 1;
      BoxesRectangles(detections[..n], measure);
    }
  }

  /**
   * A frame annotated with no detections carries no rectangle at all and its
   * overlay reports "Detected: 0"; the pause banner appears exactly when paused.
   */
  lemma AnnotateEmpty(width: nat, height: nat, paused: bool, measure: Caption -> TextSize)
    ensures var image := Annotate(width, height, [], paused, measure);
      && (forall k :: 0 <= k < |image| ==> !image[k].Rectangle?)
      && Text(CountCaption(0), Point(10, 70), 0.7, Green, 2) in image
      && (paused <==> exists k :: 0 <= k < |image| && image[k].Text? && image[k].caption == PausedCaption)
  {
    var image := Annotate(width, height, [], paused, measure);
    assert image == OverlayCommands(width, height, 0, paused);
    if paused {
      assert image[3].caption == PausedCaption;
    }
  }

  /** The overlay's count is the number of detections drawn in the same frame. */
  lemma AnnotateCount(width: nat, height: nat, detections: seq<Detection>, paused: bool,
                      measure: Caption -> TextSize)
    ensures var image := Annotate(width, height, detections, paused, measure);
      && |image| == 3 * |detections| + (if paused then 5 else 4)
      && image[3 * |detections| + 1] == Text(CountCaption(|detections|), Point(10, 70), 0.7, Green, 2)
  {
  }
}
