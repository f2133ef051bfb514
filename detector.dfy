/**
 * `ObjectDetector` (detector.py:10-244): the object that owns the session
 * counters, turns a YOLO inference into detection records, draws them, and
 * runs the capture loop. Each method is proved against the specification
 * functions of Detections, Annotation and Schedule.
 */
module Detector {
  import opened Config
  import opened Detections
  import opened Annotation
  import opened Devices
  import opened Schedule

  /** The sequence bookkeeping behind one completed iteration of `Run`. */
  lemma RecordIteration(done: seq<Iteration>, it: Iteration, measure: Caption -> TextSize)
    ensures Images(done + [it], measure) == Images(done, measure) + [Image(it, measure)]
    ensures Screenshots(done + [it], measure) == Screenshots(done, measure)
      + if it.action == Screenshot then [SavedImage(ScreenshotPath(it.stamp), Image(it, measure))] else []
    ensures DetectorFrames(done + [it]) == DetectorFrames(done) + if it.detectorCalled then [it.frameNo] else []
    ensures forall rest: Session {:trigger Prepend(done + [it], rest)} ::
      Prepend(done, Prepend([it], rest)) == Prepend(done + [it], rest)
  {
    hide Image;
    assert (done + [it])[..|done|] == done;
  }

  /** `draw_boxes` after idx+1 detections: what it drew after idx, then the three calls for detection idx. */
  lemma BoxesCommandsSnoc(detections: seq<Detection>, measure: Caption -> TextSize, idx: nat)
    requires idx < |detections|
    ensures BoxesCommands(detections[..idx + 1], measure)
      == BoxesCommands(detections[..idx], measure) + BoxCommands(idx, detections[idx], measure)
  {
    assert detections[..idx + 1][..idx] == detections[..idx];
  }

  /**
   * A loop that has not started yet has completed nothing. A proof step only:
   * it supplies, from the definitions of Loop, Drop, Images and Screenshots,
   * the facts CaptureLoop needs while those bodies are hidden there.
   */
  lemma LoopResumes(total: Session, s: LoopState, stream: seq<Capture>, events: seq<Event>, measure: Caption -> TextSize)
    requires total == Loop(s, stream, events, measure)
    ensures total == Prepend([], Loop(s, Drop(stream, 0), events[0..], measure))
    ensures Images([], measure) == [] && Screenshots([], measure) == []
  {
    assert events[0..] == events;
  }

  /**
   * The reads a session made: one per completed iteration, plus the read that
   * failed, if one did. A proof step only: it restates the body of ReadsMade
   * for CaptureLoop, which hides that body.
   */
  lemma ReadsCounted(session: Session)
    ensures ReadsMade(session) == |session.iterations| + if session.reason == ReadFailed then 1 else 0
  {
  }

  /** How the rest of the loop ends when the events run out, an interrupt arrives, or the read fails. */
  lemma LoopHalts(total: Session, done: seq<Iteration>, s: LoopState, stream: seq<Capture>, events: seq<Event>,
                  i: nat, measure: Caption -> TextSize)
    requires i <= |events| && total == Prepend(done, Loop(s, stream, events[i..], measure))
    ensures i == |events| ==> total == Session(EventsExhausted, done, s)
    ensures i < |events| && events[i].Interrupt? ==> total == Session(Interrupted, done, s)
    ensures i < |events| && events[i].Tick? && Next(stream).NotGrabbed? ==> total == Session(ReadFailed, done, s)
  {
    if i < |events| {
      assert events[i..][0] == events[i];
    } else {
      assert done + [] == done;
    }
  }

  /** A completed iteration on event i: the loop either stops on the quit key or goes on from the state after it. */
  lemma LoopAdvances(total: Session, done: seq<Iteration>, s: LoopState, stream: seq<Capture>, events: seq<Event>,
                     i: nat, it: Iteration, measure: Caption -> TextSize)
    requires i < |events| && total == Prepend(done, Loop(s, stream, events[i..], measure))
    requires events[i].Tick? && Next(stream).Grabbed?
    requires it == Iterate(s, Next(stream).width, Next(stream).height, events[i].inference, events[i].rawKey, events[i].stamp)
    ensures it.action == Quit ==> total == Session(QuitRequested, done + [it], After(s, it))
    ensures it.action != Quit ==>
      total == Prepend(done + [it], Loop(After(s, it), Drop(stream, 1), events[i + 1..], measure))
  {
    assert events[i..][0] == events[i] && events[i..][1..] == events[i + 1..];
    LoopUnfold(s, stream, events[i..], measure);
    RecordIteration(done, it, measure);
  }

  class ObjectDetector {
    /** `self.frame_count`: frames read in the current session. */
    var frameCount: nat
    /** `self.detection_count`: detections summed over the session. */
    var detectionCount: nat

    /** `__init__`: both counters start at zero. */
    constructor ()
      ensures frameCount == 0 && detectionCount == 0
    {
      frameCount := 0;
      detectionCount := 0;
    }

    /** `detect`: one record per box of the first result, or [] if anything raises. */
    method Detect(inference: Inference) returns (detections: seq<Detection>)
      ensures detections == Extract(inference)
    {
      if inference.Raised? || |inference.results| == 0 {
        return [];
      }
      var boxes, names := inference.results[0].boxes, inference.results[0].names;
      detections := [];
      var i := 0;
      while i < |boxes|
        invariant 0 <= i <= |boxes|
        invariant ConvertAll(boxes[..i], names) == Some(detections)
      {
        var b := boxes[i];
        assert boxes[..i + 1][..i] == boxes[..i];
        if |b.xyxy| != 4 {
          ConvertAllPrefixFails(boxes, names, i + 1);
          return [];
        }
        var classId := Trunc(b.cls);
        if classId !in names {
          ConvertAllPrefixFails(boxes, names, i + 1);
          return [];
        }
        detections := detections + [Detection(Box(b.xyxy[0], b.xyxy[1], b.xyxy[2], b.xyxy[3]), names[classId], b.conf, classId)];
        i := i + 1;
      }
      assert boxes[..i] == boxes;
    }

    /** One pass of the `draw_boxes` loop: the box, the filled caption background and the caption of detection `idx`. */
    method DrawBox(frame: Frame, idx: nat, d: Detection, measure: Caption -> TextSize)
      modifies frame
      ensures frame.log == old(frame.log) + BoxCommands(idx, d, measure)
    {
      var xmin, ymin, xmax, ymax := Trunc(d.box.xmin), Trunc(d.box.ymin), Trunc(d.box.xmax), Trunc(d.box.ymax);
      var color := Colors[idx % |Colors|];
      frame.DrawRectangle(Point(xmin, ymin), Point(xmax, ymax), color, LineThickness);
      var size := measure(BoxCaption(d.className, d.score));
      frame.DrawRectangle(Point(xmin, ymin - size.height - 10), Point(xmin + size.width + 5, ymin), color, Filled);
      frame.PutText(BoxCaption(d.className, d.score), Point(xmin + 2, ymin - 5), FontScale, White, 2);
    }

    /** `draw_boxes`: draws every detection on `frame` and hands the same frame back. */
    method DrawBoxes(frame: Frame, detections: seq<Detection>, measure: Caption -> TextSize) returns (annotated: Frame)
      modifies frame
      ensures annotated == frame
      ensures frame.log == old(frame.log) + BoxesCommands(detections, measure)
    {
      for idx := 0 to |detections|
        invariant frame.log == old(frame.log) + BoxesCommands(detections[..idx], measure)
      {
        DrawBox(frame, idx, detections[idx], measure);
        BoxesCommandsSnoc(detections, measure, idx);
      }
      assert detections[..|detections|] == detections;
      return frame;
    }

    /** The information overlay `run` draws after the boxes; `shown` is the number of this frame's detections. */
    method DrawOverlay(frame: Frame, shown: nat, paused: bool)
      modifies frame
      ensures frame.log == old(frame.log) + OverlayCommands(frame.width, frame.height, shown, paused)
    {
      if ShowFps {
        frame.PutText(FpsCaption, Point(10, 30), 0.7, Green, 2);
      }
      if ShowDetectedCount {
        frame.PutText(CountCaption(shown), Point(10, 70), 0.7, Green, 2);
      }
      frame.PutText(ModelCaption, Point(10, 110), 0.6, Yellow, 2);
      if paused {
        frame.PutText(PausedCaption, Point(frame.width / 2 - 50, 30), 1.0, Red, 2);
      }
      frame.PutText(QuitHint(QuitKey), Point(10, frame.height - 10), 0.5, White, 1);
    }

    /**
     * One frame's processing inside `run` (detector.py:173-216): the mirrored
     * copy of the captured frame, the frame counter, the detector call when the
     * skip rule allows it, then the boxes and the overlay drawn on the copy.
     * `called` records whether `Detect` ran.
     */
    method ProcessFrame(width: nat, height: nat, inference: Inference, paused: bool, measure: Caption -> TextSize)
      returns (frame: Frame, detections: seq<Detection>, ghost called: bool)
      modifies this
      ensures fresh(frame) && frame.width == width && frame.height == height
      ensures frameCount == old(frameCount) + 1
      ensures called == ShouldDetect(frameCount, paused)
      ensures detections == if called then Extract(inference) else []
      ensures detectionCount == old(detectionCount) + |detections|
      ensures frame.log == Annotate(width, height, detections, paused, measure)
    {
      hide BoxesCommands, OverlayCommands, Extract;
      frame := new Frame(width, height);
      frameCount := frameCount + 1;
      detections := [];
      called := false;
      if !paused && frameCount % SkipFrames == 0 {
        detections := Detect(inference);
        detectionCount := detectionCount + |detections|;
        called := true;
      }
      frame := DrawBoxes(frame, detections, measure);
      DrawOverlay(frame, |detections|, paused);
    }

    /**
     * The rest of one pass of the `while True` loop once a frame of the given
     * size was read (detector.py:173-236): the frame is processed and shown,
     * then the masked key is dispatched through the `if`/`elif` chain.
     * `quit` is true where the source breaks out of the loop; `it` is the
     * specification's record of the pass.
     */
    method HandleFrame(display: Display, sink: OutputSink, width: nat, height: nat, inference: Inference,
                       rawKey: int, stamp: string, paused: bool, measure: Caption -> TextSize)
      returns (quit: bool, pausedAfter: bool, ghost it: Iteration)
      modifies this, display, sink
      ensures it == Iterate(LoopState(old(frameCount), old(detectionCount), paused), width, height, inference, rawKey, stamp)
      ensures LoopState(frameCount, detectionCount, pausedAfter)
        == After(LoopState(old(frameCount), old(detectionCount), paused), it)
      ensures quit == (it.action == Quit)
      ensures display.shown == old(display.shown) + [Image(it, measure)] && display.destroyed == old(display.destroyed)
      ensures sink.files == old(sink.files)
        + if it.action == Screenshot then [SavedImage(ScreenshotPath(it.stamp), Image(it, measure))] else []
    {
      ghost var s := LoopState(frameCount, detectionCount, paused);
      var frame, detections, called := ProcessFrame(width, height, inference, paused, measure);
      display.Show(frame);

      var key := MaskKey(rawKey);
      it := Iterate(s, width, height, inference, rawKey, stamp);
      assert it.detections == detections && Image(it, measure) == frame.log;
      quit, pausedAfter := false, paused;
      if key == QuitKey as int {
        quit := true;
      } else if key == PauseKey as int {
        pausedAfter := !paused;
      } else if key == ScreenshotKey as int {
        var filename := ScreenshotPath(stamp);
        sink.Write(filename, frame);
      }
    }

    /**
     * The `while True` loop of `run` (detector.py:165-240), started with the
     * loop not paused: one event per pass until an interrupt arrives (caught
     * around the loop), a read fails, the quit key is pressed, or the events
     * run out. Its counters, shown frames, screenshots and reads are those of
     * the session `Loop` computes from the counters and stream it starts with.
     */
    method CaptureLoop(camera: Camera, display: Display, sink: OutputSink, events: seq<Event>,
                       measure: Caption -> TextSize, ghost session: Session)
      returns (reason: StopReason)
      requires session == Loop(LoopState(frameCount, detectionCount, false), camera.stream, events, measure)
      modifies this, camera, display, sink
      ensures reason == session.reason
        && frameCount == session.final.frameCount
        && detectionCount == session.final.detectionCount
        && display.shown == old(display.shown) + Images(session.iterations, measure)
        && sink.files == old(sink.files) + Screenshots(session.iterations, measure)
        && camera.stream == Drop(old(camera.stream), ReadsMade(session))
        && camera.readCalls == old(camera.readCalls) + ReadsMade(session)
      ensures camera.releaseCalls == old(camera.releaseCalls) && display.destroyed == old(display.destroyed)
    {
      // Only the step lemmas below need to see inside the session functions.
      hide *;
      var paused := false;
      // The specification's view of the loop: the whole session, the
      // iterations completed so far, and the state and stream they left.
      ghost var stream0 := camera.stream;
      ghost var st := LoopState(frameCount, detectionCount, paused);
      ghost var total := session;
      ghost var done: seq<Iteration> := [];
      LoopResumes(total, st, stream0, events, measure);
      var i := 0;
      while i < |events|
        invariant 0 <= i <= |events| && |done| == i
        invariant total == Prepend(done, Loop(st, Drop(stream0, i), events[i..], measure))
        invariant st == LoopState(frameCount, detectionCount, paused)
        invariant camera.stream == Drop(stream0, i) && camera.readCalls == old(camera.readCalls) + i
        invariant camera.releaseCalls == old(camera.releaseCalls) && display.destroyed == old(display.destroyed)
        invariant display.shown == old(display.shown) + Images(done, measure)
        invariant sink.files == old(sink.files) + Screenshots(done, measure)
      {
        LoopHalts(total, done, st, camera.stream, events, i, measure);
        if events[i].Interrupt? {
          ReadsCounted(total);
          return Interrupted;
        }
        var capture := camera.Read();
        DropDrop(stream0, i, 1);
        if capture.NotGrabbed? {
          ReadsCounted(total);
          return ReadFailed;
        }
        var quit;
        ghost var it;
        quit, paused, it := HandleFrame(display, sink, capture.width, capture.height, events[i].inference,
                                        events[i].rawKey, events[i].stamp, paused, measure);
        LoopAdvances(total, done, st, Drop(stream0, i), events, i, it, measure);
        RecordIteration(done, it, measure);
        done, st := done + [it], After(st, it);
        i := i + 1;
        if quit {
          ReadsCounted(total);
          return QuitRequested;
        }
      }
      LoopHalts(total, done, st, Drop(stream0, i), events, i, measure);
      ReadsCounted(total);
      return EventsExhausted;
    }

    /**
     * `run`: if the camera opened, reset the counters, discard the warm-up
     * reads, run the capture loop, then release the camera and destroy the
     * windows however the loop ended. Everything observable is the session
     * `Loop` computes from the start state on the stream after warm-up.
     */
    method Run(camera: Camera, display: Display, sink: OutputSink, events: seq<Event>, measure: Caption -> TextSize)
      returns (reason: StopReason)
      modifies this, camera, display, sink
      ensures !camera.isOpen ==> reason == CameraUnavailable && unchanged(this, camera, display, sink)
      ensures camera.isOpen ==>
        var session := Loop(Start, Drop(old(camera.stream), CameraWarmupFrames), events, measure);
        && reason == session.reason
        && frameCount == session.final.frameCount
        && detectionCount == session.final.detectionCount
        && display.shown == old(display.shown) + Images(session.iterations, measure)
        && sink.files == old(sink.files) + Screenshots(session.iterations, measure)
        && camera.stream == Drop(old(camera.stream), CameraWarmupFrames + ReadsMade(session))
        && camera.readCalls == old(camera.readCalls) + CameraWarmupFrames + ReadsMade(session)
        && camera.releaseCalls == old(camera.releaseCalls) + 1
        && display.destroyed == old(display.destroyed) + 1
    {
      if !camera.isOpen {
        return CameraUnavailable;
      }
      frameCount := 0;
      detectionCount := 0;

      for w := 0 to CameraWarmupFrames
        invariant camera.stream == Drop(old(camera.stream), w)
        invariant camera.readCalls == old(camera.readCalls) + w
        invariant camera.releaseCalls == old(camera.releaseCalls)
        invariant frameCount == 0 && detectionCount == 0 && unchanged(display, sink)
      {
        var discarded := camera.Read();
        DropDrop(old(camera.stream), w, 1);
      }

      ghost var session := Loop(Start, camera.stream, events, measure);
      DropDrop(old(camera.stream), CameraWarmupFrames, ReadsMade(session));
      reason := CaptureLoop(camera, display, sink, events, measure, session);
      camera.Release();
      display.DestroyAllWindows();
    }
  }
}
