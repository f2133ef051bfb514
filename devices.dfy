/**
 * The OpenCV devices `run` talks to, reduced to what the loop observes of
 * them: the capture (`cv2.VideoCapture`: isOpened, read, release), the window
 * (`imshow`, `destroyAllWindows`) and the screenshot files (`imwrite`).
 */
module Devices {
  import opened Annotation

  /** The outcome of one `cap.read()`: a frame of the given size, or `ret == False`. */
  datatype Capture = Grabbed(width: nat, height: nat) | NotGrabbed

  /** The outcome of the next read; a source with nothing left fails the read. */
  function Next(stream: seq<Capture>): Capture {
    if stream == [] then NotGrabbed else stream[0]
  }

  /** What is left of a stream after `n` reads. */
  function Drop(stream: seq<Capture>, n: nat): (rest: seq<Capture>)
    ensures |rest| == if n <= |stream| then |stream| - n else 0
    ensures forall k :: 0 <= k < |rest| ==> rest[k] == stream[n + k]
  {
    if n >= |stream| then [] else stream[n..]
  }

  lemma DropDrop(stream: seq<Capture>, m: nat, n: nat)
    ensures Drop(Drop(stream, m), n) == Drop(stream, m + n)
  {
  }

  /** A camera: whether it opened, the outcomes of the reads still to come, and call counts. */
  class Camera {
    const isOpen: bool
    var stream: seq<Capture>
    var readCalls: nat
    var releaseCalls: nat

    constructor (isOpen: bool, stream: seq<Capture>)
      ensures this.isOpen == isOpen && this.stream == stream && readCalls == 0 && releaseCalls == 0
    {
      this.isOpen := isOpen;
      this.stream := stream;
      readCalls := 0;
      releaseCalls := 0;
    }

    /** `cap.read()` */
    method Read() returns (c: Capture)
      modifies this
      ensures c == Next(old(stream)) && stream == Drop(old(stream), 1)
      ensures readCalls == old(readCalls) + 1 && releaseCalls == old(releaseCalls)
    {
      c := Next(stream);
      stream := Drop(stream, 1);
      readCalls := readCalls + 1;
    }

    /** `cap.release()` */
    method Release()
      modifies this
      ensures releaseCalls == old(releaseCalls) + 1 && readCalls == old(readCalls) && stream == old(stream)
    {
      releaseCalls := releaseCalls + 1;
    }
  }

  /** The display window: the annotated frames shown so far, and `destroyAllWindows` calls. */
  class Display {
    var shown: seq<seq<DrawCommand>>
    var destroyed: nat

    constructor ()
      ensures shown == [] && destroyed == 0
    {
      shown := [];
      destroyed := 0;
    }

    /** `cv2.imshow(WINDOW_TITLE, frame)` */
    method Show(frame: Frame)
      modifies this
      ensures shown == old(shown) + [frame.log] && destroyed == old(destroyed)
    {
      shown := shown + [frame.log];
    }

    /** `cv2.destroyAllWindows()` */
    method DestroyAllWindows()
      modifies this
      ensures destroyed == old(destroyed) + 1 && shown == old(shown)
    {
      destroyed := destroyed + 1;
    }
  }

  /** A screenshot written to disk: its path and the annotated frame. */
  datatype SavedImage = SavedImage(path: string, image: seq<DrawCommand>)

  /** The files `cv2.imwrite` has written. */
  class OutputSink {
    var files: seq<SavedImage>

    constructor ()
      ensures files == []
    {
      files := [];
    }

    /** `cv2.imwrite(path, frame)` */
    method Write(path: string, frame: Frame)
      modifies this
      ensures files == old(files) + [SavedImage(path, frame.log)]
    {
      files := files + [SavedImage(path, frame.log)];
    }
  }
}
