# Yolo-Vision annotation helpers, modelled in Dafny

This project models the logic that the Yolo-Vision demo owns in `helpers.py`:

- the **annotation rule** of `predict_and_annotate` and of the two video loops. For each `(class_name, bbox)` pair in detector order, the code draws one rectangle outline at the box corners and one text label. Detection *i* uses colour `colors[i % 8]` from a fixed eight-colour palette.
- the **bounded frame loop** of `process_video` (an uploaded file) and `process_youtube_video` (a stream URL). The budget is `frame_limit = int(fps) * 5`. Frames are read one at a time until the budget is spent or a read fails. Each frame is annotated and written to a raw `mp4v` writer.
- what happens around the loop: opening the capture, the error raised for an unopenable upload, the external H.264 re-encode, and the creation and removal of the temporary files.

Two modules, one per concern:

- `annotation.dfy`, module `Annotation`: the palette, boxes, detections, draw commands and styles. It has a `Canvas` class for a PIL image that `ImageDraw` mutates in place. It holds the per-detection loop `DrawDetections` and `PredictAndAnnotate`. Pixels are not drawn: drawing appends a `Command` to the image's `overlay`. The spec function `Annotations` gives the commands for one image's detections.
- `video.dfy`, module `Video`: classes for `cv2.VideoCapture` (`Capture`), `cv2.VideoWriter` (`Writer`) and the temporary directory (`TempDir`, a set of live paths). It holds the shared frame loop `AnnotateFrames` and the two pipelines. The spec function `RawOutput` gives the raw video the loop leaves for a decoded source.

The model follows the code where it does less than a clean-up-on-every-path discipline would:

- `process_video` does not clean up on every path. An unopenable upload raises `ValueError` but leaves its temporary copy behind: the copy was made with `delete=False` and is only closed.
- A failing `ffmpeg` raises before any `os.remove` runs. So `process_video` leaves three files behind and `process_youtube_video` leaves two.
- `process_youtube_video` raises no open error for a stream that does not open. The capture reports fps, width and height 0 and the loop guard is false. An empty raw video with fps, width and height 0 goes to the transcoder, and the outcome is the transcoder's. A non-zero exit still raises, as on any other stream.

These are modelled as written. For the first bullet the code contradicts its own comment. At helpers.py:60 the unopenable-upload branch calls `tfile.close()` with the comment "Clean up temporary file". The file was made with `delete=False` (helpers.py:51) and was already closed when its `with` block ended (helpers.py:55). So the authors meant to remove the copy, but the call removes nothing, and the model keeps the copy as the code does.

The comments at helpers.py:66 and helpers.py:133 say processing is limited to "the first 10 seconds". The code computes `fps * 5`, and the model follows the code: `ClipSeconds` is 5.

Collaborators are parameters:
- the detector (`Frame -> seq<Detection>`);
- the text-height measurement (`textsize`);
- the decoder behind `cv2.VideoCapture`, which takes the uploaded bytes or the stream URL to a `Source`: whether it opens, its width, height and integer fps, and the frames readable before the first failed read;
- the transcoder (`ffmpeg`), which takes the raw video and the codec names to an exit status and output bytes.

A capture that did not open reports width, height and fps as 0, as OpenCV's `get` does.

## Model

| member | source | states |
|---|---|---|
| Annotation.SameColorIff | helpers.py:39-42 | two detection positions get the same colour exactly when they are equal modulo 8, so detections 0 and 8 share a colour and 0..7 are all different |
| Annotation.AnnotationsLength | helpers.py:41-45 | each detection produces exactly two drawing calls |
| Annotation.AnnotationsLayout | helpers.py:41-45 | detection i produces call 2i, a rectangle at its box corners in colour `palette[i % 8]` with the style's width, and call 2i+1, its class name in the same colour and the style's font; the label is at `(x0, y0)` for video styles and at `(x0, y0 - text height)` for still images |
| Annotation.ColorsIgnoreDetections | helpers.py:92-93 | the colour of every drawing call is `palette[(k / 2) % 8]`; it depends only on the detection's position, not on labels or boxes |
| Annotation.Canvas.constructor | helpers.py:81 | an image made from a decoded frame shows that frame and nothing drawn yet |
| Annotation.Canvas.DrawRectangle | helpers.py:43 | drawing a rectangle appends exactly that rectangle to the image's overlay |
| Annotation.Canvas.DrawText | helpers.py:45 | drawing a text appends exactly that text to the image's overlay |
| Annotation.DrawDetections | helpers.py:92-95 | the `enumerate` loop leaves the image with `Annotations(dets)` appended to its overlay, in detector order |
| Annotation.PredictAndAnnotate | helpers.py:31-47 | the image is changed in place to itself plus the still-image annotations of what the detector found in it |
| Video.AnnotatedClipAt | helpers.py:76-100 | the annotated clip has one frame per frame read, and frame k is the annotation of input frame k: none skipped, duplicated or reordered |
| Video.WrittenFrames | helpers.py:63-100 | for an opened source, frames written = min(5 × fps, readable frames), never more than the budget; written frame k is input frame k annotated; the raw file keeps the source's fps, width and height |
| Video.WrittenFrameDrawing | helpers.py:87-99 | in written frame k, detection i is drawn in `palette[i % 8]` on top of the frame's pixels and earlier overlay; the colour index restarts in every frame |
| Video.LongSourceFillsBudget | helpers.py:65-66 | a source with at least 5 × fps readable frames gives exactly 5 × fps written frames |
| Video.ShortSourceWrittenInFull | helpers.py:75-78 | a source with fewer readable frames than the budget is written in full, because the loop ends at the first failed read |
| Video.NoBudgetNoFrames | helpers.py:132-142 | fps 0, or a capture that did not open, gives a budget of 0 and an empty raw video |
| Video.NothingDetectedCopiesFrames | helpers.py:92-99 | when the detector finds nothing, the written frames equal the frames read |
| Video.TenFpsClips | helpers.py:65-100 | with nothing detected, 100 frames at 10 fps give the first 50 frames unchanged, and 30 frames at 10 fps give all 30 |
| Video.Capture.constructor | helpers.py:58-65 | a capture of an openable source is open with all its frames pending; an unopenable one is closed, has nothing to read and reports 0 for width, height and fps |
| Video.Capture.Read | helpers.py:76-78 | a read on an open capture with frames left returns the first one and consumes it; otherwise it fails and changes nothing |
| Video.Capture.Release | helpers.py:102 | releasing closes the capture |
| Video.Writer.constructor | helpers.py:69-72 | a new writer has the given path, codec, fps and size and no frames |
| Video.Writer.Write | helpers.py:99 | writing appends the frame to the writer's file, unless the writer is released |
| Video.Writer.Release | helpers.py:103 | releasing keeps the frames written |
| Video.TempDir.NamedTemporaryFile | helpers.py:51-55 | a temporary file is created under a name no live file has, and is left in place |
| Video.TempDir.Remove | helpers.py:117-119 | removing deletes exactly that path |
| Video.AnnotateFrames | helpers.py:74-100 | the loop writes exactly `min(frame_limit, frames available)` frames, or none on a closed capture; it writes them in read order, each annotated; the capture is left at the first unread frame |
| Video.WriteAnnotatedVideo | helpers.py:63-103 | from a fresh capture, the raw file is `RawOutput(src)`: the capture's fps and size with the annotated budget-bounded prefix; the capture ends released |
| Video.ProcessVideo | helpers.py:50-121 | an unopenable upload raises `CouldNotOpenSource` and leaves one new temporary file; otherwise the result is the transcoder's output on `RawOutput` in the uploaded-video style; success removes all three temporary files, and a transcoder failure raises `TranscodeFailed` and leaves all three |
| Video.ProcessYoutubeVideo | helpers.py:123-186 | raises no open error for an unopenable stream: an empty raw video with fps, width and height 0 goes to the transcoder, and the outcome is the transcoder's; in general the result is the transcoder's output on `RawOutput` in the streamed-video style, which is empty for such a stream; success removes both temporary files, and a transcoder failure raises `TranscodeFailed` and leaves both |

## Left out

- `get_youtube_stream_url` and yt_dlp: network I/O. The function swallows every exception into `None`. The stream URL is a parameter here.
- `load_model` and YOLO inference, including the tensor conversions of class indices and boxes: a foreign ML library. It is the detector parameter.
- OpenCV decoding, the BGR/RGB colour conversions, PIL pixel drawing, font loading and `textsize`: foreign libraries. Drawing is recorded as commands, the conversions are treated as identity, and text height is a parameter.
- The `ffmpeg` subprocess: an external process, modelled as a function from its input and codec names to an exit.
- Writing the upload's bytes into its temporary copy, and reading the H.264 file back into memory, are not modelled as file contents. The decoder sees the upload's bytes directly, and the returned bytes are the transcoder's output.
- Floating-point box coordinates and the float-to-int conversions of fps and size: boxes are integers, and fps is taken as an already truncated natural number.
- The `print(frame_limit)` calls: console output.
- Exceptions from the detector, a read or the writer inside the loop: the model assumes they do not happen.
- Concurrent users sharing the temporary directory, and real filesystem semantics: temporary files are a set of unique names.
- The Streamlit pages `app.py` and `home.py`: UI only.
