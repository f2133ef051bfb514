# Live object detection: a verified model of the capture loop

The repository is a webcam object detector. `ObjectDetector` (detector.py) owns
a YOLOv8 model and two session counters. `detect` turns one inference into a
list of detection records. `draw_boxes` paints a box, a filled label background
and a caption for each detection. `run` opens the camera, resets the counters,
discards 30 warm-up frames and then loops over captured frames:

- read a frame, mirror it and count it;
- run the detector on every second frame unless paused;
- draw the boxes and an information overlay;
- show the frame and act on the pressed key (quit, pause, or screenshot).

It stops when a read fails, the quit key is pressed or the user interrupts.
Afterwards it releases the camera and closes the windows.

The Dafny project models that core in six modules:

- `Config` (config.dfy): the constants of config.py the loop and the
  annotator read, and the facts they rely on.
- `Detections` (detections.dfy): the value `detect` computes from one
  inference outcome. `Extract` is defined through `ConvertAll`, the box loop in
  which any exception collapses the answer to `[]`.
- `Annotation` (annotation.dfy): the drawing on a frame as a log of OpenCV
  draw calls. The `Frame` class appends to that log. `BoxesCommands` and
  `OverlayCommands` are the specification functions for `draw_boxes` and for
  the overlay drawn inside `run`.
- `Devices` (devices.dfy): the capture device, the window and the screenshot
  files. These are classes whose fields record what `run` did to them. A
  camera's future reads are a sequence of `Capture` outcomes.
- `Schedule` (schedule.dfy): the loop as a pure specification. `Loop`
  consumes one `Event` per pass: a Tick carries the inference result, the raw
  `waitKey` code and a time stamp, and an Interrupt is a KeyboardInterrupt. The
  result is a `Session`: the completed iterations, the stop reason and the
  final counters. The lemmas state what the source promises about a session.
- `Detector` (detector.dfy): the class `ObjectDetector`, with imperative
  methods for `__init__`, `detect`, `draw_boxes`, the overlay, one pass of the
  loop, the loop itself and `run`. Each method is proved against the functions
  above.

Two consequences of the code are worth stating, because a reader might expect otherwise:

- Detections are not carried forward. `detections = []` is re-bound on every
  pass (detector.py:176), so skipped and paused frames are drawn with no
  boxes and "Detected: 0". `LoopSchedule` and `SkippedFramesDrawNothing`
  state this.
- No handler surrounds the overlay (detector.py:197-216), so drawing has no
  error path in the model.

## Model

| member | source | states |
|---|---|---|
| Config.SkipFramesPositive | config.py:14 | The skip interval is positive, so the modulo in the skip rule is defined. |
| Config.PaletteWellFormed | config.py:30-39 | The palette has eight colours, each a valid 8-bit BGR triple, and all eight differ. |
| Config.KeyBindingsDistinct | config.py:42-44 | The quit, pause and screenshot keys are three different characters, all below 256, so a masked key code can match each one. |
| Config.OutputDirIsDirectory | config.py:26 | The output directory is non-empty and ends in '/', so the screenshot name is concatenated into it. |
| Detections.ConvertBox | detector.py:46-66 | One pass of the box loop: a record when the box has four coordinates and a known class id, otherwise the exception (None). Definition; specified by ConvertAllSpec. |
| Detections.Extract | detector.py:36-71 | `detect` on one inference outcome. Definition; specified by ExtractSpec, ExtractFailures and ObjectDetector.Detect. |
| Detections.Trunc | detector.py:77-80 | Python's `int()` on a float truncates toward zero: the result is within one of the input, below it for positive inputs and above it for negative ones. |
| Detections.ConvertAll | detector.py:45-66 | A box loop that does not raise yields exactly one record per box. |
| Detections.ConvertAllSpec | detector.py:45-66 | The box loop succeeds if and only if every box has four coordinates and a known class id. When it succeeds, record i is built from box i: its corners, score, truncated class id and that id's name. |
| Detections.ConvertAllPrefixFails | detector.py:45-71 | Once a box in a prefix raises, the whole loop raises. |
| Detections.ExtractSpec | detector.py:36-71 | `detect` gives a non-empty list if and only if the model did not raise, returned a result with at least one box, and every box converts. Such a list has one record per box of the first result, in order. |
| Detections.ExtractFailures | detector.py:39-42 | A model exception, or an empty result list, gives `[]`. |
| Annotation.BoxCommands | detector.py:76-115 | The three draw calls of one `draw_boxes` pass. Definition; specified by BoxesCommandsAt, LabelInsideBackground and ObjectDetector.DrawBox. |
| Annotation.OverlayCommands | detector.py:197-216 | The information overlay drawn after the boxes. Definition; specified by AnnotateEmpty, AnnotateCount and ObjectDetector.DrawOverlay. |
| Annotation.Annotate | detector.py:191-216 | The complete drawing on one shown frame: the boxes, then the overlay. Definition; specified by AnnotateEmpty, AnnotateCount and ObjectDetector.ProcessFrame. |
| Annotation.Frame.DrawRectangle | detector.py:89 | `cv2.rectangle` appends exactly one rectangle command to the frame's drawing. |
| Annotation.Frame.PutText | detector.py:110-115 | `cv2.putText` appends exactly one text command to the frame's drawing. |
| Annotation.ColorFor | detector.py:86 | The colour for a position is a palette colour and a valid BGR triple. |
| Annotation.BoxesCommands | detector.py:75-115 | `draw_boxes` issues three draw calls per detection. |
| Annotation.BoxesCommandsAt | detector.py:75-115 | For detection i, calls 3i, 3i+1 and 3i+2 are, in order: the outline at the truncated corners in palette colour i mod 8 with thickness 3; the filled background from (xmin, ymin-th-10) to (xmin+tw+5, ymin); and the white caption at (xmin+2, ymin-5). |
| Annotation.LabelInsideBackground | detector.py:96-115 | For non-negative text sizes, the filled background sits on the outline's top edge and starts at its left edge, and the caption origin lies inside the background. |
| Annotation.ColorRoundRobin | detector.py:86 | Two positions get the same colour if and only if they are congruent mod 8. |
| Annotation.BoxesRectangles | detector.py:89-115 | Call k of `draw_boxes` is a rectangle if and only if k mod 3 is not 2; the others are captions. |
| Annotation.AnnotateEmpty | detector.py:197-216 | A frame annotated with no detections has no rectangle and shows "Detected: 0". The PAUSED banner appears if and only if the loop is paused. |
| Annotation.AnnotateCount | detector.py:202-204 | The drawing has 3n+4 commands, or 3n+5 when paused. Its count caption reports n, the number of boxes drawn on the same frame. |
| Devices.Camera.Read | detector.py:167 | `cap.read()` returns the next outcome (NotGrabbed once the source has nothing left), consumes it and counts the call. |
| Devices.Camera.Release | detector.py:243 | `cap.release()` is counted and changes nothing else. |
| Devices.Display.Show | detector.py:219 | `imshow` appends the frame's current drawing to the frames shown. |
| Devices.Display.DestroyAllWindows | detector.py:244 | `destroyAllWindows` is counted and leaves the shown frames alone. |
| Devices.OutputSink.Write | detector.py:235 | `imwrite` appends the path and the annotated drawing to the files written. |
| Schedule.MaskKey | detector.py:222 | `& 0xFF` yields a code in 0..255 congruent to the raw `waitKey` answer mod 256. |
| Schedule.Dispatch | detector.py:224-236 | The `if`/`elif` chain quits, toggles pause or takes a screenshot if and only if the code is that action's key. |
| Schedule.NoKeyDoesNothing | detector.py:222-236 | No key pressed (-1) masks to 255 and triggers no action. |
| Schedule.ScreenshotPath | detector.py:233 | The screenshot path is the output directory, then "screenshot_", the stamp and ".jpg". A stamp without '/' keeps the file directly inside the directory. |
| Schedule.ShouldDetect | detector.py:179 | The skip rule, tested on the incremented frame counter. Definition; specified by LoopSchedule and DetectorTrace. |
| Schedule.Iterate | detector.py:173-222 | One pass on a frame that was read: frame number, detector call, detections, masked key and action. Definition; specified by LoopSchedule, LoopConsumes and ObjectDetector.HandleFrame. |
| Schedule.After | detector.py:174-181 | The counters and pause flag after a pass (the pause flip is detector.py:228-229). Definition; specified by LoopCounts, LoopPause and ObjectDetector.HandleFrame. |
| Schedule.Loop | detector.py:165-240 | The `while True` loop, one event per pass, with its stop reasons. Definition; specified by LoopCounts, LoopConsumes, LoopQuitsLast, LoopStops, LoopSchedule, LoopPause and ObjectDetector.CaptureLoop. |
| Schedule.LoopCounts | detector.py:174-181 | Each completed iteration adds one to the frame counter, numbering the frames consecutively. It adds exactly its own number of detections to the detection counter. |
| Schedule.LoopConsumes | detector.py:166-222 | Completed iteration k used the k-th event, which is a Tick, and the k-th read, which succeeded. It took that read's frame size, that event's masked key and that event's stamp. |
| Schedule.LoopQuitsLast | detector.py:224-227 | Only the last completed iteration can have pressed quit. The loop reports QuitRequested if and only if it did. |
| Schedule.LoopStops | detector.py:165-240 | A loop never reports an unopened camera. It runs out of events only after using them all. An interrupt or a failed read stops it exactly at the event that caused it. |
| Schedule.LoopSchedule | detector.py:176-181 | On every iteration the detector ran if and only if the loop was not paused and the new frame number is a multiple of SKIP_FRAMES. The detections are that call's answer, or `[]`; nothing is carried over. The key went through the dispatch. |
| Schedule.LoopPause | detector.py:228-229 | The pause key flips the state from the next iteration on; the iteration that saw the key was processed in the old state. The loop ends in the state the last iteration left. |
| Schedule.PauseParity | detector.py:228-229 | An iteration is paused if and only if the starting state, flipped once for each earlier pause press, is paused. |
| Schedule.PauseTwiceRestores | detector.py:228-229 | Two pause presses in a row restore the state the first one found. |
| Schedule.DetectorFramesMembers | detector.py:179-180 | Frame n is in the detector trace if and only if some iteration numbered n called the detector. |
| Schedule.DetectorTrace | detector.py:174-181 | The detector was invoked on frame n if and only if frame n was processed in this loop, n is a multiple of SKIP_FRAMES, and the loop was not paused on it. |
| Schedule.SkippedFramesDrawNothing | detector.py:176-204 | A frame on which the detector did not run has no detections, is shown with no rectangle, and shows "Detected: 0". |
| Schedule.ReadFailureStops | detector.py:167-171 | Suppose the first j reads succeed, read j+1 fails, and none of the first j+1 events is an interrupt or the quit key (pause presses are allowed). Then the loop stops with ReadFailed after exactly j iterations, and j frames are counted. |
| Schedule.FifthReadFails | detector.py:167-174 | If the fifth read fails and no quit key or interrupt comes first, whatever is paused, `run` stops with ReadFailed and a frame counter of 4. |
| Schedule.EvenFrameDetectionsClosed | detector.py:179-181 | Suppose m detections are counted on each even frame among f+1..f+n and none on the others. Then the total is m times the number of even frames in that range, ((f+n)/2 - f/2). |
| Schedule.SteadyStep | detector.py:174-181 | One unpaused iteration with no quit or pause key adds one frame, plus m detections if the new frame number is even. The rest of the loop continues from that state. |
| Schedule.SteadyDetectionCount | detector.py:174-181 | Assume the loop is not paused, no quit or pause key is pressed, every read succeeds and every detector call answers m boxes. Then n iterations use all events, add n frames, and add m detections for each even frame number among them. |
| Schedule.TenFramesTwoDetectionsEach | detector.py:174-181 | Ten frames with two detections per call end with a frame counter of 10 and a detection counter of 10. |
| Detector.ObjectDetector.constructor | detector.py:23-26 | A new detector starts with both counters at zero. |
| Detector.ObjectDetector.Detect | detector.py:36-71 | The loop over the boxes returns exactly `Extract`. When a box fails to convert, the partial list is dropped and `[]` returned. |
| Detector.ObjectDetector.DrawBox | detector.py:76-115 | One pass of the `draw_boxes` loop appends exactly the three commands `BoxCommands` specifies for that position. |
| Detector.ObjectDetector.DrawBoxes | detector.py:73-117 | `draw_boxes` returns the same frame, with exactly `BoxesCommands` of the detections appended to its drawing. |
| Detector.ObjectDetector.DrawOverlay | detector.py:197-216 | The overlay appends exactly `OverlayCommands` for the frame's size, the count shown and the pause state. |
| Detector.ObjectDetector.ProcessFrame | detector.py:173-216 | A fresh frame of the captured size is used. The frame counter goes up by one. The detector ran if and only if the skip rule allowed it, and the detection counter grew by the length of its answer. The frame carries exactly `Annotate` of this pass's detections. |
| Detector.ObjectDetector.HandleFrame | detector.py:173-236 | One pass on a frame that was read does the following. It is the specification's `Iterate` and leaves the counters and pause flag `After` gives. It shows exactly that iteration's `Image`. It breaks out if and only if quit was pressed. It writes a screenshot of the shown drawing, named by the stamp, if and only if the screenshot key was pressed. |
| Detector.ObjectDetector.CaptureLoop | detector.py:165-240 | The `while True` loop, including its interrupt handler, ends with the stop reason, counters, shown frames, screenshots and reads of the session `Loop` computes from the counters and stream it starts with. The camera is not released and the windows are not destroyed inside the loop. |
| Detector.ObjectDetector.Run | detector.py:119-244 | If the camera did not open, `run` returns with nothing changed, not even a release. Otherwise it resets the counters, makes 30 warm-up reads, and then behaves as `Loop` from the start state on the stream after warm-up. However the loop ended, it releases the camera once and destroys the windows once. |

## Left out

- Printing: the banners, the per-frame detection list, the pause messages and the session statistics are output only. This includes the average-FPS line at detector.py:255, which divides by the elapsed time without a guard.
- Timing and FPS: `time.time()`, `start_time` and the FPS figure (detector.py:156, 193-195) are floating point and depend on the clock. The FPS caption is kept as the symbolic `FpsCaption`.
- Caption text: the score formatting (`{score:.1%}`) and the other format strings are symbolic `Caption` values. `cv2.getTextSize` is the parameter `measure`.
- The model and device: loading YOLOv8, choosing CUDA or CPU, and the confidence threshold given to the model (detector.py:15-23, 39) are foreign calls. The model's answer on a frame is the `Inference` value carried by each event, and `Raised` stands for any exception inside it.
- Pixels: `cv2.flip` (detector.py:173) only mirrors pixel content, which is not modelled. A frame is its size plus the log of draw calls made on it.
- Camera set-up: the `cap.set` property calls (detector.py:136-141) do not affect the loop's logic and are not modelled. Opening the camera is the camera's `isOpen`.
- Clock and filesystem: the screenshot time stamp (`datetime.now().strftime`) is the event's `stamp` parameter. `os.makedirs` (detector.py:234) is not modelled: the sink accepts any path.
- Interrupts: a KeyboardInterrupt is modelled only between passes (before a read). An interrupt part-way through a pass, after the counter was incremented but before the frame was shown, is not modelled.
- Endless running: the loop runs on a finite list of events. `EventsExhausted` means the loop was still running when the list ended, which the source itself never reports.
- Exceptions other than the model's: an exception while unpacking a box or looking up a class name is modelled as part of `detect`. Errors raised by OpenCV drawing or display calls are not modelled.
- Unused configuration: CAMERA_INDEX, CAMERA_WIDTH, CAMERA_HEIGHT, CAMERA_FPS, MODEL_NAME, CONFIDENCE_THRESHOLD, WINDOW_TITLE, SHOW_CONFIDENCE, SAVE_DETECTIONS, SAVE_FREQUENCY, DEBUG_MODE and LOG_FILE (config.py) do not affect the modelled behaviour.
- main.py and setup.py are not part of this model.
- Schedule.SteadyDetectionCount: the steady-state count is stated for the configured SKIP_FRAMES of 2 (even frames), not for an arbitrary interval.
