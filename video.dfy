/**
 * The bounded frame-annotation pipelines of helpers.py, `process_video`
 * (an uploaded file) and `process_youtube_video` (a stream URL).
 *
 * Both open a capture, compute a frame budget of five seconds' worth of
 * frames, read and annotate frames one at a time into a raw `mp4v` writer
 * until the budget is spent or a read fails, re-encode the raw file with an
 * external transcoder and return the re-encoded bytes, removing their
 * temporary files on the way out.
 *
 * The decoder behind the capture, the detector, the text measurement and
 * the transcoder are parameters; temporary files are a set of live paths.
 */
module Video {
  import opened Annotation

  newtype byte = x: int | 0 <= x < 256

  type Bytes = seq<byte>

  /** Seconds of source video the pipelines process at most. */
  const ClipSeconds: nat := 5

  /** The raw codec the frame loop writes, and the codecs the transcoder is asked for. */
  const RawCodec: string := "mp4v"
  const VideoCodec: string := "libx264"
  const AudioCodec: string := "aac"
  const TempSuffix: string := ".mp4"

  /**
   * What the decoder makes of a file or URL: whether it opens, the
   * properties it reports (fps already truncated to an integer) and the
   * frames it can read before a read fails.
   */
  datatype Source = Source(openable: bool, width: nat, height: nat, fps: nat, frames: seq<Frame>)

  /** The content of a raw intermediate video file once its writer is released. */
  datatype RawVideo = RawVideo(codec: string, fps: nat, width: nat, height: nat, frames: seq<Frame>)

  /** A temporary file name; the serial number makes every name unique. */
  datatype Path = TempPath(serial: nat, suffix: string)

  /** What one capture read gives back. */
  datatype ReadResult = Got(frame: Frame) | NoFrame

  /** Exit of the transcoder: the bytes of its output file, or a non-zero status. */
  datatype Transcoded = ExitOk(output: Bytes) | ExitNonZero

  /** The exception a pipeline ends with. */
  datatype VideoError = CouldNotOpenSource | TranscodeFailed

  /** What a pipeline returns or raises. */
  datatype Outcome = Encoded(video: Bytes) | Failed(error: VideoError)

  /** The transcoder: raw input, video codec and audio codec to an exit. */
  type Transcoder = (RawVideo, string, string) -> Transcoded

  function Min(a: nat, b: nat): nat {
    if a <= b then a else b
  }

  /** The frame budget: five times the integer frame rate. */
  function FrameBudget(fps: nat): nat {
    fps * ClipSeconds
  }

  /** The frames the loop reads: at most `limit`, stopping at the first failed read. */
  function ReadFrames(frames: seq<Frame>, limit: nat): seq<Frame> {
    frames[..Min(limit, |frames|)]
  }

  /** Every frame annotated, in order. */
  function AnnotatedClip(detector: Detector, frames: seq<Frame>, style: Style, measure: Measure): seq<Frame>
    decreases |frames|
  {
    if frames == [] then []
    else
      var n := |frames| - 1;
      AnnotatedClip(detector, frames[..n], style, measure) + [AnnotateFrame(detector, frames[n], style, measure)]
  }

  /** The properties a capture of `src` reports: all zero when it did not open. */
  function ReportedFps(src: Source): nat { if src.openable then src.fps else 0 }
  function ReportedWidth(src: Source): nat { if src.openable then src.width else 0 }
  function ReportedHeight(src: Source): nat { if src.openable then src.height else 0 }

  /** The raw video the frame loop leaves behind for a source. */
  function RawOutput(src: Source, detector: Detector, style: Style, measure: Measure): RawVideo {
    var fps := ReportedFps(src);
    var frames := if src.openable then src.frames else [];
    RawVideo(RawCodec, fps, ReportedWidth(src), ReportedHeight(src),
             AnnotatedClip(detector, ReadFrames(frames, FrameBudget(fps)), style, measure))
  }

  /** What a pipeline returns once its transcoder has run. */
  function TranscodeOutcome(t: Transcoded): Outcome {
    match t
    case ExitOk(bytes) => Encoded(bytes)
    case ExitNonZero => Failed(TranscodeFailed)
  }

  /** One output frame per input frame, each the annotation of the frame at the same position. */
  lemma {:induction false} AnnotatedClipAt(detector: Detector, frames: seq<Frame>, style: Style, measure: Measure)
    ensures |AnnotatedClip(detector, frames, style, measure)| == |frames|
    ensures forall k :: 0 <= k < |frames| ==>
      AnnotatedClip(detector, frames, style, measure)[k] == AnnotateFrame(detector, frames[k], style, measure)
    decreases |frames|
  {
    if frames != [] {
      var n := |frames| - 1;
      AnnotatedClipAt(detector, frames[..n], style, measure);
      forall k | 0 <= k < n
        ensures AnnotatedClip(detector, frames, style, measure)[k] == AnnotateFrame(detector, frames[k], style, measure)
      {
        assert frames[..n][k] == frames[k];
      }
    }
  }

  /**
   * Frames written = min(budget, readable frames), the budget being five
   * times the reported fps; the k-th written frame is the k-th frame read,
   * annotated; the raw file keeps the capture's fps and size.
   */
  lemma WrittenFrames(src: Source, detector: Detector, style: Style, measure: Measure)
    requires src.openable
    ensures var raw := RawOutput(src, detector, style, measure);
      && raw.fps == src.fps && raw.width == src.width && raw.height == src.height
      && |raw.frames| == Min(5 * src.fps, |src.frames|)
      && |raw.frames| <= 5 * src.fps
      && forall k :: 0 <= k < |raw.frames| ==>
           raw.frames[k] == AnnotateFrame(detector, src.frames[k], style, measure)
  {
    var read := ReadFrames(src.frames, FrameBudget(src.fps));
    AnnotatedClipAt(detector, read, style, measure);
  }

  /**
   * In the k-th written frame, detection i of that frame is drawn in colour
   * i mod 8 on top of what the frame already showed: the colour index
   * restarts at 0 in every frame.
   */
  lemma WrittenFrameDrawing(src: Source, detector: Detector, style: Style, measure: Measure, k: nat, i: nat)
    requires src.openable && k < Min(5 * src.fps, |src.frames|)
    requires i < |detector(src.frames[k])|
    ensures var raw := RawOutput(src, detector, style, measure);
      var f, d := src.frames[k], detector(src.frames[k])[i];
      && k < |raw.frames|
      && raw.frames[k].pixels == f.pixels
      && |raw.frames[k].overlay| == |f.overlay| + 2 * |detector(f)|
      && raw.frames[k].overlay[..|f.overlay|] == f.overlay
      && raw.frames[k].overlay[|f.overlay| + 2 * i] == Rectangle(d.box, Palette[i % 8], style.outlineWidth)
      && CommandColor(raw.frames[k].overlay[|f.overlay| + 2 * i + 1]) == Palette[i % 8]
  {
    var f := src.frames[k];
    WrittenFrames(src, detector, style, measure);
    AnnotationsLayout(detector(f), style, measure, i);
    var raw := RawOutput(src, detector, style, measure);
    assert raw.frames[k].overlay == f.overlay + Annotations(detector(f), style, measure);
  }

  /** A source with at least five seconds of frames fills the budget exactly. */
  lemma LongSourceFillsBudget(src: Source, detector: Detector, style: Style, measure: Measure)
    requires src.openable && |src.frames| >= 5 * src.fps
    ensures |RawOutput(src, detector, style, measure).frames| == 5 * src.fps
  {
    WrittenFrames(src, detector, style, measure);
  }

  /** A shorter source is written in full: the loop ends at the end of the stream. */
  lemma ShortSourceWrittenInFull(src: Source, detector: Detector, style: Style, measure: Measure)
    requires src.openable && |src.frames| < 5 * src.fps
    ensures |RawOutput(src, detector, style, measure).frames| == |src.frames|
  {
    WrittenFrames(src, detector, style, measure);
  }

  /** A frame rate of 0, or a source that does not open, gives an empty raw video. */
  lemma NoBudgetNoFrames(src: Source, detector: Detector, style: Style, measure: Measure)
    requires !src.openable || src.fps == 0
    ensures RawOutput(src, detector, style, measure).frames == []
  {
  }

  /** With nothing detected, the written frames are the frames read, unchanged. */
  lemma {:induction false} NothingDetectedCopiesFrames(detector: Detector, frames: seq<Frame>, style: Style, measure: Measure)
    requires forall k :: 0 <= k < |frames| ==> detector(frames[k]) == []
    ensures AnnotatedClip(detector, frames, style, measure) == frames
    decreases |frames|
  {
    if frames != [] {
      var n := |frames| - 1;
      NothingDetectedCopiesFrames(detector, frames[..n], style, measure);
      assert Annotations(detector(frames[n]), style, measure) == [];
      assert frames[n].overlay + [] == frames[n].overlay;
      assert frames[..n] + [frames[n]] == frames;
    }
  }

  /**
   * A ten-second source at 10 fps with nothing detected gives 50 unchanged
   * frames; a three-second one gives all of its 30 frames.
   */
  lemma TenFpsClips(detector: Detector, style: Style, measure: Measure, frames: seq<Frame>)
    requires forall f :: detector(f) == []
    requires |frames| == 100
    ensures RawOutput(Source(true, 640, 480, 10, frames), detector, style, measure).frames == frames[..50]
    ensures RawOutput(Source(true, 640, 480, 10, frames[..30]), detector, style, measure).frames == frames[..30]
  {
    NothingDetectedCopiesFrames(detector, frames[..50], style, measure);
    NothingDetectedCopiesFrames(detector, frames[..30], style, measure);
    assert frames[..30][..30] == frames[..30];
  }

  /** A `cv2.VideoCapture`: the frames still to be read, in order. */
  class Capture {
    var isOpen: bool
    var pending: seq<Frame>
    const width: nat
    const height: nat
    const fps: nat

    /** Opens a capture on a decoded source; an unopened capture reports zeros. */
    constructor (src: Source)
      ensures isOpen == src.openable
      ensures pending == (if src.openable then src.frames else [])
      ensures width == ReportedWidth(src) && height == ReportedHeight(src) && fps == ReportedFps(src)
    {
      isOpen := src.openable;
      pending := if src.openable then src.frames else [];
      width, height, fps := ReportedWidth(src), ReportedHeight(src), ReportedFps(src);
    }

    /** Reads the next frame; fails once the capture is released or exhausted. */
    method Read() returns (r: ReadResult)
      modifies this
      ensures isOpen == old(isOpen)
      ensures old(isOpen) && old(pending) != [] ==> r == Got(old(pending)[0]) && pending == old(pending)[1..]
      ensures !(old(isOpen) && old(pending) != []) ==> r == NoFrame && pending == old(pending)
    {
      if isOpen && pending != [] {
        r := Got(pending[0]);
        pending := pending[1..];
      } else {
        r := NoFrame;
      }
    }

    method Release()
      modifies this
      ensures !isOpen && pending == old(pending)
    {
      isOpen := false;
    }
  }

  /** A `cv2.VideoWriter`: the frames written so far to its file. */
  class Writer {
    const path: Path
    const codec: string
    const fps: nat
    const width: nat
    const height: nat
    var frames: seq<Frame>
    var released: bool

    constructor (path: Path, codec: string, fps: nat, width: nat, height: nat)
      ensures this.path == path && this.codec == codec
      ensures this.fps == fps && this.width == width && this.height == height
      ensures frames == [] && !released
    {
      this.path, this.codec := path, codec;
      this.fps, this.width, this.height := fps, width, height;
      frames, released := [], false;
    }

    /** Appends a frame; a released writer ignores it. */
    method Write(f: Frame)
      modifies this
      ensures released == old(released)
      ensures frames == if old(released) then old(frames) else old(frames) + [f]
    {
      if !released {
        frames := frames + [f];
      }
    }

    method Release()
      modifies this
      ensures released && frames == old(frames)
    {
      released := true;
    }

    /** The content of the writer's file. */
    function Content(): RawVideo
      reads this
    {
      RawVideo(codec, fps, width, height, frames)
    }
  }

  /** The temporary directory: the temporary files that currently exist. */
  class TempDir {
    var live: set<Path>
    var created: nat

    ghost predicate Valid()
      reads this
    {
      forall p :: p in live ==> p.serial < created
    }

    constructor ()
      ensures Valid() && live == {}
    {
      live, created := {}, 0;
    }

    /** `NamedTemporaryFile(delete=False)`: creates a file under a fresh name and leaves it. */
    method NamedTemporaryFile(suffix: string) returns (p: Path)
      requires Valid()
      modifies this
      ensures Valid()
      ensures p.suffix == suffix && p !in old(live) && live == old(live) + {p}
    {
      p := TempPath(created, suffix);
      live := live + {p};
      created := created + 1;
    }

    /** `os.remove`. */
    method Remove(p: Path)
      requires Valid() && p in live
      modifies this
      ensures Valid() && live == old(live) - {p}
    {
      live := live - {p};
    }
  }

  /**
   * The frame loop shared by both pipelines: while the capture is open and
   * fewer than `frameLimit` frames were written, read a frame (stopping at
   * a failed read), annotate it and write it.
   */
  method AnnotateFrames(vid: Capture, out: Writer, frameLimit: nat,
                        detector: Detector, style: Style, measure: Measure) returns (frameCount: nat)
    requires !out.released
    modifies vid, out
    ensures var available := if old(vid.isOpen) then old(vid.pending) else [];
      && frameCount == Min(frameLimit, |available|)
      && out.frames == old(out.frames) + AnnotatedClip(detector, available[..frameCount], style, measure)
      && vid.pending == old(vid.pending)[frameCount..]
    ensures vid.isOpen == old(vid.isOpen) && !out.released
  {
    ghost var available := if vid.isOpen then vid.pending else [];
    frameCount := 0;
    while vid.isOpen && frameCount < frameLimit
      invariant vid.isOpen == old(vid.isOpen) && !out.released
      invariant frameCount <= frameLimit && frameCount <= |available|
      invariant vid.pending == old(vid.pending)[frameCount..]
      invariant vid.isOpen ==> vid.pending == available[frameCount..]
      invariant out.frames == old(out.frames) + AnnotatedClip(detector, available[..frameCount], style, measure)
      decreases frameLimit - frameCount
    {
      var r := vid.Read();
      if r.NoFrame? {
        break;
      }
      var image := new Canvas(r.frame);
      var detections := detector(image.frame);
      DrawDetections(image, detections, style, measure);
      out.Write(image.frame);
      assert available[..frameCount + 1][..frameCount] == available[..frameCount];
      frameCount := frameCount + 1;
    }
  }

  /**
   * The part both pipelines share once the capture is open: read the
   * capture's size and fps, open a raw writer on `processedPath` with them,
   * run the frame loop under a budget of five seconds' worth of frames,
   * release capture and writer and give back the writer's file content.
   */
  method WriteAnnotatedVideo(vid: Capture, ghost src: Source, processedPath: Path,
                             detector: Detector, style: Style, measure: Measure) returns (raw: RawVideo)
    requires vid.isOpen == src.openable && vid.pending == (if src.openable then src.frames else [])
    requires vid.width == ReportedWidth(src) && vid.height == ReportedHeight(src) && vid.fps == ReportedFps(src)
    modifies vid
    ensures raw == RawOutput(src, detector, style, measure)
    ensures !vid.isOpen
  {
    var width, height, fps := vid.width, vid.height, vid.fps;
    var frameLimit := fps * ClipSeconds;
    var out := new Writer(processedPath, RawCodec, fps, width, height);
    var frameCount := AnnotateFrames(vid, out, frameLimit, detector, style, measure);
    vid.Release();
    out.Release();
    raw := out.Content();
  }

  /**
   * process_video: copies the upload to a temporary file, opens it, writes
   * the annotated first five seconds to a second temporary file, transcodes
   * that into a third and returns the third's bytes.
   *
   * An upload that does not open raises at once and leaves its copy behind.
   * A failing transcoder raises with all three files left behind.
   * On success every temporary file is removed.
   */
  method ProcessVideo(upload: Bytes, decode: Bytes -> Source, detector: Detector,
                      transcode: Transcoder, measure: Measure, tmp: TempDir) returns (outcome: Outcome)
    requires tmp.Valid()
    modifies tmp
    ensures tmp.Valid() && old(tmp.live) <= tmp.live
    ensures var src := decode(upload);
      !src.openable ==> outcome == Failed(CouldNotOpenSource) && |tmp.live - old(tmp.live)| == 1
    ensures var src := decode(upload);
      src.openable ==>
        && outcome == TranscodeOutcome(transcode(RawOutput(src, detector, UploadedVideo, measure), VideoCodec, AudioCodec))
        && (outcome.Encoded? ==> tmp.live == old(tmp.live))
        && (outcome.Failed? ==> |tmp.live - old(tmp.live)| == 3)
  {
    var videoPath := tmp.NamedTemporaryFile(TempSuffix);
    var src := decode(upload);
    var vid := new Capture(src);
    if !vid.isOpen {
      assert tmp.live - old(tmp.live) == {videoPath};
      return Failed(CouldNotOpenSource);
    }
    var processedPath := tmp.NamedTemporaryFile(TempSuffix);
    var raw := WriteAnnotatedVideo(vid, src, processedPath, detector, UploadedVideo, measure);

    var h264Path := tmp.NamedTemporaryFile(TempSuffix);
    var exit := transcode(raw, VideoCodec, AudioCodec);
    if exit.ExitNonZero? {
      assert tmp.live - old(tmp.live) == {videoPath, processedPath, h264Path};
      return Failed(TranscodeFailed);
    }
    var videoBytes := exit.output;

    tmp.Remove(videoPath);
    tmp.Remove(processedPath);
    tmp.Remove(h264Path);
    outcome := Encoded(videoBytes);
  }

  /**
   * process_youtube_video: the same pipeline on a stream URL, with no copy
   * of the source. A stream that does not open raises nothing: the loop
   * guard is false, so an empty raw video goes to the transcoder.
   * A failing transcoder raises with both files left behind; on success
   * both are removed.
   */
  method ProcessYoutubeVideo(stream: string, openUrl: string -> Source, detector: Detector,
                             transcode: Transcoder, measure: Measure, tmp: TempDir) returns (outcome: Outcome)
    requires tmp.Valid()
    modifies tmp
    ensures tmp.Valid() && old(tmp.live) <= tmp.live
    ensures var src := openUrl(stream);
      && outcome == TranscodeOutcome(transcode(RawOutput(src, detector, StreamedVideo, measure), VideoCodec, AudioCodec))
      && (outcome.Encoded? ==> tmp.live == old(tmp.live))
      && (outcome.Failed? ==> |tmp.live - old(tmp.live)| == 2)
  {
    var src := openUrl(stream);
    var vid := new Capture(src);
    var processedPath := tmp.NamedTemporaryFile(TempSuffix);
    var raw := WriteAnnotatedVideo(vid, src, processedPath, detector, StreamedVideo, measure);

    var h264Path := tmp.NamedTemporaryFile(TempSuffix);
    var exit := transcode(raw, VideoCodec, AudioCodec);
    if exit.ExitNonZero? {
      assert tmp.live - old(tmp.live) == {processedPath, h264Path};
      return Failed(TranscodeFailed);
    }
    var videoBytes := exit.output;

    tmp.Remove(processedPath);
    tmp.Remove(h264Path);
    outcome := Encoded(videoBytes);
  }
}
