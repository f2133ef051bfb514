/**
 * The configuration constants the detection loop and the annotator read
 * (config.py). Only the constants that the modelled behaviour depends on are
 * declared; camera resolution, camera index and model name feed foreign calls.
 */
module Config {

  /** A colour as OpenCV takes it: blue, green, red. */
  datatype Color = Bgr(b: int, g: int, r: int)

  /** Every channel of an 8-bit BGR colour lies in 0..255. */
  predicate IsBgr(c: Color) {
    0 <= c.b <= 255 && 0 <= c.g <= 255 && 0 <= c.r <= 255
  }

  /** Frames read and thrown away before the loop starts. */
  const CameraWarmupFrames: nat := 30

  /** Detection runs on every SkipFrames-th frame. */
  const SkipFrames: int := 2

  const ShowFps: bool := true
  const ShowDetectedCount: bool := true
  const LineThickness: int := 3
  const FontScale: real := 0.6

  /** Directory screenshots are written to; it ends with a separator. */
  const OutputDir: string := "outputs/"

  /** The palette detections are coloured from, round-robin by position. */
  const Colors: seq<Color> := [
    Bgr(0, 255, 0),     // green
    Bgr(255, 0, 0),     // blue
    Bgr(0, 0, 255),     // red
    Bgr(0, 255, 255),   // yellow
    Bgr(255, 0, 255),   // magenta
    Bgr(255, 165, 0),   // orange
    Bgr(128, 0, 128),   // purple
    Bgr(0, 128, 128)    // teal
  ]

  const QuitKey: char := 'q'
  const PauseKey: char := 'p'
  const ScreenshotKey: char := 's'

  /** The skip interval is positive, so `frame % SkipFrames` is defined. */
  lemma SkipFramesPositive()
    ensures SkipFrames > 0
  {
  }

  /** The palette has eight distinct, well-formed BGR colours. */
  lemma PaletteWellFormed()
    ensures |Colors| == 8
    ensures forall i :: 0 <= i < |Colors| ==> IsBgr(Colors[i])
    ensures forall i, j :: 0 <= i < j < |Colors| ==> Colors[i] != Colors[j]
  {
  }

  /** The three key bindings are different keys, so the key dispatch never has two candidates. */
  lemma KeyBindingsDistinct()
    ensures QuitKey != PauseKey && QuitKey != ScreenshotKey && PauseKey != ScreenshotKey
    ensures QuitKey as int < 256 && PauseKey as int < 256 && ScreenshotKey as int < 256
  {
  }

  /** The output directory is a non-empty path ending in '/'. */
  lemma OutputDirIsDirectory()
    ensures |OutputDir| > 0 && OutputDir[|OutputDir| - 1] == '/'
  {
  }
}
