/**
 * The per-iteration control logic of `ObjectDetector.run` (detector.py:154-236)
 * as a pure specification: one loop iteration per event, with the counters,
 * the skip rule, the pause flag and the key dispatch. `Loop` says what a whole
 * session does; the lemmas below state what the source promises about it.
 */
module Schedule {
  import opened Config
  import opened Detections
  import opened Annotation
  import opened Devices

  /** What a key press asks for, in the order the `if`/`elif` chain tests them. */
  datatype KeyAction = Quit | TogglePause | Screenshot | NoAction

  /** `cv2.waitKey(...) & 0xFF`: Python's `&` with 0xFF keeps the residue mod 256, also for -1. */
  function MaskKey(raw: int): (key: int)
    ensures 0 <= key < 256
    ensures (raw - key) % 256 == 0
  {
    raw % 256
  }

  /** The key dispatch; each action is chosen by exactly its own key. */
  function Dispatch(key: int): (action: KeyAction)
    ensures action == Quit <==> key == QuitKey as int
    ensures action == TogglePause <==> key == PauseKey as int
    ensures action == Screenshot <==> key == ScreenshotKey as int
  {
    if key == QuitKey as int then Quit
    else if key == PauseKey as int then TogglePause
    else if key == ScreenshotKey as int then Screenshot
    else NoAction
  }

  /** `waitKey` answers -1 when no key was pressed; masked, that triggers nothing. */
  lemma NoKeyDoesNothing()
    ensures MaskKey(-1) == 255 && Dispatch(MaskKey(-1)) == NoAction
  {
  }

  /** The skip rule, tested after `frame_count` has been incremented. */
  predicate ShouldDetect(frameNo: int, paused: bool) {
    !paused && frameNo % SkipFrames == 0
  }

  /** The screenshot file name built from a time stamp. */
  function ScreenshotPath(stamp: string): (path: string)
    ensures |path| == |OutputDir| + |stamp| + 15
    ensures path[..|OutputDir|] == OutputDir
    ensures path[|path| - 4..] == ".jpg"
    ensures '/' !in stamp ==> forall k :: |OutputDir| <= k < |path| ==> path[k] != '/'
  {
    OutputDir + "screenshot_" + stamp + ".jpg"
  }

  /** `self.frame_count`, `self.detection_count` and the local `paused`. */
  datatype LoopState = LoopState(frameCount: nat, detectionCount: nat, paused: bool)

  /** The state set just before warm-up (detector.py:154-157). */
  const Start: LoopState := LoopState(0, 0, false)

  /**
   * The outside world's part in one pass of the loop: what the detector would
   * answer on this frame, the raw `waitKey` result, and the clock's stamp; or a
   * KeyboardInterrupt arriving before the next read.
   */
  datatype Event = Tick(inference: Inference, rawKey: int, stamp: string) | Interrupt

  /** Why `run` returned. EventsExhausted: the loop was still running when the events ran out. */
  datatype StopReason = CameraUnavailable | ReadFailed | QuitRequested | Interrupted | EventsExhausted

  /** The record of one completed iteration (a frame that was read, drawn and shown). */
  datatype Iteration = Iteration(
    frameNo: nat, width: nat, height: nat,
    pausedBefore: bool, detectorCalled: bool, detections: seq<Detection>,
    key: int, action: KeyAction, stamp: string)

  /** The iterations completed, the reason the loop ended, and the state it ended in. */
  datatype Session = Session(reason: StopReason, iterations: seq<Iteration>, final: LoopState)

  /** One iteration on a successfully read frame of the given size. */
  function Iterate(s: LoopState, width: nat, height: nat, inference: Inference, rawKey: int, stamp: string):
    Iteration
  {
    var frameNo := s.frameCount + 1;
    var called := ShouldDetect(frameNo, s.paused);
    var detections := if called then Extract(inference) else [];
    var key := MaskKey(rawKey);
    Iteration(frameNo, width, height, s.paused, called, detections, key, Dispatch(key), stamp)
  }

  /** The frame an iteration shows: this iteration's detections and overlay, nothing else. */
  function Image(it: Iteration, measure: Caption -> TextSize): seq<DrawCommand> {
    Annotate(it.width, it.height, it.detections, it.pausedBefore, measure)
  }

  /** The state after an iteration. */
  function After(s: LoopState, it: Iteration): LoopState {
    LoopState(it.frameNo, s.detectionCount + |it.detections|,
              if it.action == TogglePause then !s.paused else s.paused)
  }

  function Prepend(done: seq<Iteration>, rest: Session): Session {
    Session(rest.reason, done + rest.iterations, rest.final)
  }

  /** The `while True` loop from state `s`, reading from `stream`, one event per pass. */
  function Loop(s: LoopState, stream: seq<Capture>, events: seq<Event>, measure: Caption -> TextSize): Session
    decreases |events|
  {
    if events == [] then Session(EventsExhausted, [], s)
    else
      match events[0]
      case Interrupt => Session(Interrupted, [], s)
      case Tick(inference, rawKey, stamp) =>
        match Next(stream)
        case NotGrabbed => Session(ReadFailed, [], s)
        case Grabbed(width, height) =>
          var it := Iterate(s, width, height, inference, rawKey, stamp);
          if it.action == Quit then Session(QuitRequested, [it], After(s, it))
          else Prepend([it], Loop(After(s, it), Drop(stream, 1), events[1..], measure))
  }

  /** The number of `cap.read()` calls the loop made. */
  function ReadsMade(session: Session): nat {
    |session.iterations| + if session.reason == ReadFailed then 1 else 0
  }

  /** The frames shown, one per completed iteration. */
  function Images(its: seq<Iteration>, measure: Caption -> TextSize): seq<seq<DrawCommand>> {
    if its == [] then [] else Images(its[..|its| - 1], measure) + [Image(its[|its| - 1], measure)]
  }

  /** The files written by the screenshot key. */
  function Screenshots(its: seq<Iteration>, measure: Caption -> TextSize): seq<SavedImage> {
    if its == [] then []
    else
      var it := its[|its| - 1];
      Screenshots(its[..|its| - 1], measure)
      + if it.action == Screenshot then [SavedImage(ScreenshotPath(it.stamp), Image(it, measure))] else []
  }

  /** The frame numbers on which the detector was invoked. */
  function DetectorFrames(its: seq<Iteration>): seq<nat> {
    if its == [] then []
    else
      var it := its[|its| - 1];
      DetectorFrames(its[..|its| - 1]) + if it.detectorCalled then [it.frameNo] else []
  }

  /** The sum of the lengths of the detection lists. */
  function TotalDetections(its: seq<Iteration>): nat {
    if its == [] then 0 else |its[0].detections| + TotalDetections(its[1..])
  }

  /** How many iterations toggled the pause flag. */
  function Toggles(its: seq<Iteration>): nat {
    if its == [] then 0
    else Toggles(its[..|its| - 1]) + if its[|its| - 1].action == TogglePause then 1 else 0
  }

  /**
   * Counting: each completed iteration adds one frame, numbered consecutively,
   * and exactly the length of its detection list to the detection count.
   */
  lemma {:induction false} LoopCounts(s: LoopState, stream: seq<Capture>, events: seq<Event>,
                                      measure: Caption -> TextSize)
    ensures var r := Loop(s, stream, events, measure);
      && r.final.frameCount == s.frameCount + |r.iterations|
      && r.final.detectionCount == s.detectionCount + TotalDetections(r.iterations)
      && forall k :: 0 <= k < |r.iterations| ==> r.iterations[k].frameNo == s.frameCount + k + 1
    decreases |events|
  {
    if events != [] && events[0].Tick? && Next(stream).Grabbed? {
      var it := Iterate(s, Next(stream).width, Next(stream).height, events[0].inference,
                        events[0].rawKey, events[0].stamp);
      if it.action != Quit {
        LoopCounts(After(s, it), Drop(stream, 1), events[1..], measure);
        var rest := Loop(After(s, it), Drop(stream, 1), events[1..], measure);
        assert ([it] + rest.iterations)[1..] == rest.iterations;
      } else {
        assert [it][1..] == [];
      }
    }
  }

  /** The first iteration of a loop whose first event is a Tick and whose first read succeeds. */
  function FirstIteration(s: LoopState, stream: seq<Capture>, events: seq<Event>,
                          measure: Caption -> TextSize): Iteration
    requires events != [] && events[0].Tick? && Next(stream).Grabbed?
  {
    Iterate(s, Next(stream).width, Next(stream).height, events[0].inference, events[0].rawKey,
            events[0].stamp)
  }

  /**
   * One unfolding of Loop on a completed first iteration. A proof step only:
   * it restates Loop's definition so that callers need not expand it.
   */
  lemma LoopUnfold(s: LoopState, stream: seq<Capture>, events: seq<Event>, measure: Caption -> TextSize)
    requires events != [] && events[0].Tick? && Next(stream).Grabbed?
    ensures var it := FirstIteration(s, stream, events, measure);
      Loop(s, stream, events, measure) ==
        if it.action == Quit then Session(QuitRequested, [it], After(s, it))
        else Prepend([it], Loop(After(s, it), Drop(stream, 1), events[1..], measure))
  {
  }

  /** An iteration consumed the Tick event `e` and the successful read `c`, and masked that event's key. */
  predicate Consumed(it: Iteration, e: Event, c: Capture) {
    && e.Tick?
    && c == Grabbed(it.width, it.height)
    && it.key == MaskKey(e.rawKey)
    && it.stamp == e.stamp
  }

  /**
   * Consumption: the completed iterations consumed the Tick events and the
   * successful reads one by one, in order, and each masked its own event's key.
   */
  lemma {:induction false} LoopConsumes(s: LoopState, stream: seq<Capture>, events: seq<Event>,
                                        measure: Caption -> TextSize)
    ensures var its := Loop(s, stream, events, measure).iterations;
      && |its| <= |events| && |its| <= |stream|
      && forall k :: 0 <= k < |its| ==> Consumed(its[k], events[k], stream[k])
    decreases |events|
  {
    if events != [] && events[0].Tick? && Next(stream).Grabbed? {
      var it := FirstIteration(s, stream, events, measure);
      LoopUnfold(s, stream, events, measure);
      assert Consumed(it, events[0], stream[0]);
      if it.action != Quit {
        var tail := Drop(stream, 1);
        LoopConsumes(After(s, it), tail, events[1..], measure);
        var rest := Loop(After(s, it), tail, events[1..], measure).iterations;
        var its := [it] + rest;
        assert Loop(s, stream, events, measure).iterations == its;
        forall k | 1 <= k < |its|
          ensures Consumed(its[k], events[k], stream[k])
        {
          assert its[k] == rest[k - 1];
          assert events[k] == events[1..][k - 1];
          assert tail[k - 1] == stream[k];
        }
      }
    }
  }

  /**
   * Quitting: only the last completed iteration can have asked to quit, and
   * the loop ended on the quit key exactly when it did.
   */
  lemma {:induction false} LoopQuitsLast(s: LoopState, stream: seq<Capture>, events: seq<Event>,
                                         measure: Caption -> TextSize)
    ensures var r := Loop(s, stream, events, measure); var its := r.iterations;
      && (forall k :: 0 <= k < |its| - 1 ==> its[k].action != Quit)
      && (r.reason == QuitRequested <==> |its| > 0 && its[|its| - 1].action == Quit)
    decreases |events|
  {
    if events != [] && events[0].Tick? && Next(stream).Grabbed? {
      var it := FirstIteration(s, stream, events, measure);
      LoopUnfold(s, stream, events, measure);
      if it.action != Quit {
        LoopQuitsLast(After(s, it), Drop(stream, 1), events[1..], measure);
        var r := Loop(After(s, it), Drop(stream, 1), events[1..], measure);
        var its := [it] + r.iterations;
        assert Loop(s, stream, events, measure) == Session(r.reason, its, r.final);
        forall k | 1 <= k < |its|
          ensures its[k] == r.iterations[k - 1]
        {
        }
        if r.iterations == [] {
          assert r.reason != QuitRequested;
        } else {
          assert its[|its| - 1] == r.iterations[|r.iterations| - 1];
        }
      } else {
        assert Loop(s, stream, events, measure) == Session(QuitRequested, [it], After(s, it));
      }
    }
  }

  /** Why a loop of `its` iterations over `events` and `stream` stopped with `reason`. */
  predicate StopExplained(reason: StopReason, its: seq<Iteration>, events: seq<Event>, stream: seq<Capture>) {
    && reason != CameraUnavailable
    && (reason == EventsExhausted ==> |its| == |events|)
    && (reason == Interrupted ==> |its| < |events| && events[|its|] == Interrupt)
    && (reason == ReadFailed ==>
          |its| < |events| && events[|its|].Tick? && Next(Drop(stream, |its|)) == NotGrabbed)
  }

  /**
   * Stopping: the loop never reports an unopened camera, runs out of events
   * only after consuming them all, and an interrupt or a failed read stops it
   * exactly at the event or read that caused it.
   */
  lemma {:induction false} LoopStops(s: LoopState, stream: seq<Capture>, events: seq<Event>,
                                     measure: Caption -> TextSize)
    ensures var r := Loop(s, stream, events, measure);
      StopExplained(r.reason, r.iterations, events, stream)
    decreases |events|
  {
    if events != [] && events[0].Tick? && Next(stream).Grabbed? {
      var it := FirstIteration(s, stream, events, measure);
      LoopUnfold(s, stream, events, measure);
      if it.action != Quit {
        var tail := Drop(stream, 1);
        LoopStops(After(s, it), tail, events[1..], measure);
        var r := Loop(After(s, it), tail, events[1..], measure);
        var its := [it] + r.iterations;
        assert Loop(s, stream, events, measure) == Session(r.reason, its, r.final);
        if r.reason == Interrupted {
          assert events[|its|] == events[1..][|r.iterations|];
        }
        if r.reason == ReadFailed {
          assert events[|its|] == events[1..][|r.iterations|];
          DropDrop(stream, 1, |r.iterations|);
        }
        assert StopExplained(r.reason, its, events, stream);
      }
    }
  }


  /** The skip rule and the fresh detection list, as one iteration applies them. */
  predicate Scheduled(it: Iteration, e: Event) {
    && it.detectorCalled == (!it.pausedBefore && it.frameNo % SkipFrames == 0)
    && e.Tick?
    && it.detections == (if it.detectorCalled then Extract(e.inference) else [])
    && it.action == Dispatch(it.key)
  }

  /**
   * Scheduling: on every completed iteration the detector ran exactly when the
   * loop was not paused and the new frame number is a multiple of SkipFrames;
   * the detections are that call's answer or, when it did not run, the empty
   * list, so nothing is carried over from an earlier frame (and `Image` draws
   * exactly these detections); the key was dispatched once.
   */
  lemma {:induction false} LoopSchedule(s: LoopState, stream: seq<Capture>, events: seq<Event>,
                                        measure: Caption -> TextSize)
    ensures var its := Loop(s, stream, events, measure).iterations;
      && |its| <= |events|
      && forall k :: 0 <= k < |its| ==> Scheduled(its[k], events[k])
    decreases |events|
  {
    if events != [] && events[0].Tick? && Next(stream).Grabbed? {
      var it := FirstIteration(s, stream, events, measure);
      LoopUnfold(s, stream, events, measure);
      assert Scheduled(it, events[0]);
      if it.action != Quit {
        LoopSchedule(After(s, it), Drop(stream, 1), events[1..], measure);
        var rest := Loop(After(s, it), Drop(stream, 1), events[1..], measure).iterations;
        var its := [it] + rest;
        forall k | 1 <= k < |its|
          ensures Scheduled(its[k], events[k])
        {
          assert its[k] == rest[k - 1];
          assert events[k] == events[1..][k - 1];
        }
      }
    }
  }

  /** The pause state after an iteration: flipped by the pause key, otherwise kept. */
  function PausedAfter(it: Iteration): bool {
    it.pausedBefore != (it.action == TogglePause)
  }

  /** The iterations start from pause state `paused`, and each one starts in the state the previous one left. */
  predicate PauseChain(paused: bool, its: seq<Iteration>) {
    && (|its| > 0 ==> its[0].pausedBefore == paused)
    && forall k :: 0 <= k < |its| - 1 ==> its[k + 1].pausedBefore == PausedAfter(its[k])
  }

  /**
   * Pausing: the pause key flips the state from the next iteration on (the
   * frame on which it was pressed was already processed with the old state),
   * and the loop ends in the state the last iteration left.
   */
  lemma {:induction false} LoopPause(s: LoopState, stream: seq<Capture>, events: seq<Event>,
                                     measure: Caption -> TextSize)
    ensures var r := Loop(s, stream, events, measure); var its := r.iterations;
      && PauseChain(s.paused, its)
      && r.final.paused == if its == [] then s.paused else PausedAfter(its[|its| - 1])
    decreases |events|
  {
    if events != [] && events[0].Tick? && Next(stream).Grabbed? {
      var it := FirstIteration(s, stream, events, measure);
      LoopUnfold(s, stream, events, measure);
      if it.action != Quit {
        var s' := After(s, it);
        LoopPause(s', Drop(stream, 1), events[1..], measure);
        var rest := Loop(s', Drop(stream, 1), events[1..], measure).iterations;
        var its := [it] + rest;
        assert forall k :: 0 <= k < |rest| ==> its[k + 1] == rest[k];
      }
    }
  }

  /** Along a pause chain, an iteration is paused exactly when an odd number of earlier ones toggled. */
  lemma {:induction false} PauseParity(paused: bool, its: seq<Iteration>, k: nat)
    requires PauseChain(paused, its) && k < |its|
    ensures its[k].pausedBefore == (paused != (Toggles(its[..k]) % 2 == 1))
    decreases k
  {
    if k > 0 {
      PauseParity(paused, its, k - 1);
      assert its[..k][..k - 1] == its[..k - 1];
    }
  }

  /** Two presses of the pause key in a row restore the state the first one found. */
  lemma PauseTwiceRestores(paused: bool, its: seq<Iteration>, k: nat)
    requires PauseChain(paused, its) && k + 2 < |its|
    requires its[k].action == TogglePause && its[k + 1].action == TogglePause
    ensures its[k + 2].pausedBefore == its[k].pausedBefore
  {
  }

  /** Whatever the iterations, their trace lists exactly the frame numbers of those that called the detector. */
  lemma {:induction false} DetectorFramesMembers(its: seq<Iteration>, n: nat)
    ensures n in DetectorFrames(its) <==> exists k :: 0 <= k < |its| && its[k].detectorCalled && its[k].frameNo == n
  {
    if its != [] {
      var m := |its| - 1;
      DetectorFramesMembers(its[..m], n);
      assert forall k :: 0 <= k < m ==> its[..m][k] == its[k];
    }
  }

  /**
   * The detector was invoked on frame n exactly when frame n was processed in
   * this run, n is a multiple of SkipFrames, and the loop was not paused on it;
   * so it is never invoked on an odd frame.
   */
  lemma DetectorTrace(s: LoopState, stream: seq<Capture>, events: seq<Event>,
                      measure: Caption -> TextSize, n: nat)
    ensures var its := Loop(s, stream, events, measure).iterations; var k := n - s.frameCount - 1;
      n in DetectorFrames(its) <==> 0 <= k < |its| && n % SkipFrames == 0 && !its[k].pausedBefore
  {
    LoopCounts(s, stream, events, measure);
    LoopSchedule(s, stream, events, measure);
    var its := Loop(s, stream, events, measure).iterations;
    DetectorFramesMembers(its, n);
    if s.frameCount < n <= s.frameCount + |its| {
      var k := n - s.frameCount - 1;
      assert its[k].frameNo == n;
      assert Scheduled(its[k], events[k]);
    }
  }

  /** Skipped and paused frames are shown with no box at all and with "Detected: 0". */
  lemma SkippedFramesDrawNothing(s: LoopState, stream: seq<Capture>, events: seq<Event>,
                                 measure: Caption -> TextSize, k: nat)
    requires k < |Loop(s, stream, events, measure).iterations|
    requires !Loop(s, stream, events, measure).iterations[k].detectorCalled
    ensures var it := Loop(s, stream, events, measure).iterations[k];
      && it.detections == []
      && (forall j :: 0 <= j < |Image(it, measure)| ==> !Image(it, measure)[j].Rectangle?)
      && Text(CountCaption(0), Point(10, 70), 0.7, Green, 2) in Image(it, measure)
  {
    LoopSchedule(s, stream, events, measure);
    var it := Loop(s, stream, events, measure).iterations[k];
    assert Scheduled(it, events[k]);
    AnnotateEmpty(it.width, it.height, it.pausedBefore, measure);
  }

  /** A Tick whose key neither quits nor pauses. */
  predicate Calm(e: Event) {
    e.Tick? && Dispatch(MaskKey(e.rawKey)) in {NoAction, Screenshot}
  }

  /** A Tick whose key does not quit: the loop goes on past it if its read succeeds. */
  predicate Continues(e: Event) {
    e.Tick? && Dispatch(MaskKey(e.rawKey)) != Quit
  }

  /** A calm event on which the detector, if called, answers m detections. */
  predicate Steady(e: Event, m: nat) {
    Calm(e) && |Extract(e.inference)| == m
  }

  /**
   * A failed read ends the loop before anything is counted: if the first j
   * reads succeed and read j+1 fails, and none of the first j+1 events is an
   * interrupt or a quit key (pause presses are allowed), the session ends with
   * ReadFailed and exactly j more frames counted.
   */
  lemma {:induction false} ReadFailureStops(s: LoopState, stream: seq<Capture>, events: seq<Event>,
                                            measure: Caption -> TextSize, j: nat)
    requires j < |events| && forall k :: 0 <= k <= j ==> Continues(events[k])
    requires j <= |stream| && forall k :: 0 <= k < j ==> stream[k].Grabbed?
    requires Next(Drop(stream, j)) == NotGrabbed
    ensures var r := Loop(s, stream, events, measure);
      r.reason == ReadFailed && r.final.frameCount == s.frameCount + j && |r.iterations| == j
    decreases j
  {
    if j > 0 {
      var it := Iterate(s, stream[0].width, stream[0].height, events[0].inference,
                        events[0].rawKey, events[0].stamp);
      assert it.action != Quit;
      DropDrop(stream, 1, j - 1);
      var tail := Drop(stream, 1);
      forall k | 0 <= k < j - 1
        ensures k < |tail| && tail[k].Grabbed?
      {
        assert k + 1 < j;
        assert tail[k] == stream[k + 1];
      }
      assert forall k :: 0 <= k <= j - 1 ==> events[1..][k] == events[k + 1];
      ReadFailureStops(After(s, it), tail, events[1..], measure, j - 1);
    }
  }

  /**
   * The capture-failure scenario: with the fifth read failing and no quit key
   * or interrupt before it, `run` ends with frame_count 4, whatever was paused.
   */
  lemma FifthReadFails(stream: seq<Capture>, events: seq<Event>, measure: Caption -> TextSize)
    requires |events| >= 5 && forall k :: 0 <= k < 5 ==> Continues(events[k])
    requires |stream| >= 5 && stream[4] == NotGrabbed
    requires forall k :: 0 <= k < 4 ==> stream[k].Grabbed?
    ensures Loop(Start, stream, events, measure).reason == ReadFailed
    ensures Loop(Start, stream, events, measure).final.frameCount == 4
  {
    ReadFailureStops(Start, stream, events, measure, 4);
  }

  /** The detections counted over frames f+1..f+n when every even frame yields m and no other frame counts. */
  function EvenFrameDetections(m: nat, f: nat, n: nat): nat
    decreases n
  {
    if n == 0 then 0 else (if (f + 1) % 2 == 0 then m else 0) + EvenFrameDetections(m, f + 1, n - 1)
  }

  /** The closed form: m detections for each of the (f+n)/2 - f/2 even frame numbers in f+1..f+n. */
  lemma {:induction false} EvenFrameDetectionsClosed(m: nat, f: nat, n: nat)
    ensures EvenFrameDetections(m, f, n) == m * ((f + n) / 2 - f / 2)
    decreases n
  {
    if n > 0 {
      EvenFrameDetectionsClosed(m, f + 1, n - 1);
      var a, b, c := (f + n) / 2, (f + 1) / 2, f / 2;
      assert f + 1 + (n - 1) == f + n;
      assert b - c == if (f + 1) % 2 == 0 then 1 else 0;
      assert m * (a - c) == m * (b - c) + m * (a - b);
    }
  }

  /** What n steady, unpaused iterations from `s` leave behind: all events used, n frames, m per even frame. */
  predicate SteadyOutcome(s: LoopState, r: Session, n: nat, m: nat) {
    && r.reason == EventsExhausted
    && r.final.frameCount == s.frameCount + n
    && r.final.detectionCount == s.detectionCount + EvenFrameDetections(m, s.frameCount, n)
  }

  /**
   * One steady, unpaused iteration: one more frame, and m more detections on an
   * even frame, followed by whatever the rest of the loop does.
   */
  lemma SteadyStep(s: LoopState, s': LoopState, stream: seq<Capture>, events: seq<Event>,
                   measure: Caption -> TextSize, m: nat)
    requires !s.paused && events != [] && Steady(events[0], m) && Next(stream).Grabbed?
    requires s' == LoopState(s.frameCount + 1, s.detectionCount + (if (s.frameCount + 1) % 2 == 0 then m else 0), false)
    requires SteadyOutcome(s', Loop(s', Drop(stream, 1), events[1..], measure), |events| - 1, m)
    ensures SteadyOutcome(s, Loop(s, stream, events, measure), |events|, m)
  {
    LoopUnfold(s, stream, events, measure);
    var it := FirstIteration(s, stream, events, measure);
    assert it.action != Quit && it.action != TogglePause;
    assert it.detectorCalled == ((s.frameCount + 1) % 2 == 0);
    assert |it.detections| == if it.detectorCalled then m else 0;
    assert After(s, it) == s';
    var r, r' := Loop(s, stream, events, measure), Loop(s', Drop(stream, 1), events[1..], measure);
    assert r.reason == r'.reason && r.final == r'.final;
  }

  /**
   * With the loop not paused, no quit or pause key, every read succeeding and
   * every detector call answering m detections, n iterations add n frames and
   * m detections for each even frame number among them.
   */
  lemma {:induction false} SteadyDetectionCount(s: LoopState, stream: seq<Capture>, events: seq<Event>,
                                                measure: Caption -> TextSize, m: nat)
    requires !s.paused && forall k :: 0 <= k < |events| ==> Steady(events[k], m)
    requires |events| <= |stream| && forall k :: 0 <= k < |events| ==> stream[k].Grabbed?
    ensures SteadyOutcome(s, Loop(s, stream, events, measure), |events|, m)
    decreases |events|
  {
    if events != [] {
      var f := s.frameCount;
      var s' := LoopState(f + 1, s.detectionCount + (if (f + 1) % 2 == 0 then m else 0), false);
      var tail, rest := Drop(stream, 1), events[1..];
      forall k | 0 <= k < |rest|
        ensures Steady(rest[k], m) && tail[k].Grabbed?
      {
        assert rest[k] == events[k + 1] && tail[k] == stream[k + 1];
      }
      SteadyDetectionCount(s', tail, rest, measure, m);
      SteadyStep(s, s', stream, events, measure, m);
    }
  }

  /** The end-to-end scenario: ten frames, two detections per call: five calls, ten detections. */
  lemma TenFramesTwoDetectionsEach(stream: seq<Capture>, events: seq<Event>, measure: Caption -> TextSize)
    requires |events| == 10 && forall k :: 0 <= k < 10 ==> Steady(events[k], 2)
    requires |stream| >= 10 && forall k :: 0 <= k < 10 ==> stream[k].Grabbed?
    ensures Loop(Start, stream, events, measure).final.frameCount == 10
    ensures Loop(Start, stream, events, measure).final.detectionCount == 10
  {
    SteadyDetectionCount(Start, stream, events, measure, 2);
    assert EvenFrameDetections(2, 0, 10) == 10;
  }
}
