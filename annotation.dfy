/**
 * The per-detection annotation rule of helpers.py: every detection the
 * detector reports for one image is drawn as one rectangle outline at its
 * box corners and one text label, coloured by the detection's position in
 * the detector's output through a fixed palette of eight colours.
 *
 * Pixels are not modelled: drawing on an image appends a draw command to the
 * image's overlay, in the order the drawing calls are made.
 */
module Annotation {

  /** The eight colours of the palette. */
  datatype Color = Red | Blue | Green | Yellow | Purple | Orange | Cyan | Magenta

  /** The palette, in the order helpers.py lists it. */
  const Palette: seq<Color> := [Red, Blue, Green, Yellow, Purple, Orange, Cyan, Magenta]

  /** An axis-aligned box given by its corners (x_min, y_min, x_max, y_max). */
  datatype Box = Box(x0: int, y0: int, x1: int, y1: int)

  /** One detector result: a class name and its bounding box. */
  datatype Detection = Detection(className: string, box: Box)

  /** A TrueType font, identified by its file and point size. */
  datatype Font = Font(path: string, size: nat)

  /** A drawing call made on an image. */
  datatype Command =
    | Rectangle(corners: Box, outline: Color, width: nat)
    | Text(x: int, y: int, text: string, fill: Color, font: Font)

  /**
   * An image: its raster as decoded, and everything drawn on it so far,
   * in drawing order.
   */
  datatype Frame = Frame(pixels: seq<int>, overlay: seq<Command>)

  /** The drawing parameters one call site of the rule uses. */
  datatype Style = Style(font: Font, outlineWidth: nat, raiseLabel: bool)

  /** Still images: Arial 40, outline width 3, label placed above the box. */
  const StillImage: Style := Style(Font("arial.ttf", 40), 3, true)

  /** Frames of an uploaded video: DejaVu Sans Bold 30, outline width 2. */
  const UploadedVideo: Style :=
    Style(Font("/usr/share/fonts/truetype/dejavu/DejaVuSans-Bold.ttf", 30), 2, false)

  /** Frames of a streamed video: Arial 40, outline width 3. */
  const StreamedVideo: Style := Style(Font("arial.ttf", 40), 3, false)

  /** The height the font renderer reports for a text in a font. */
  type Measure = (string, Font) -> nat

  /** The detector: the boxes and class names it finds in an image. */
  type Detector = Frame -> seq<Detection>

  /** Colour of the detection at position `i` of one image's detector output. */
  function ColorOf(i: nat): Color {
    Palette[i % |Palette|]
  }

  /** The colour a drawing call uses. */
  function CommandColor(c: Command): Color {
    match c
    case Rectangle(_, outline, _) => outline
    case Text(_, _, _, fill, _) => fill
  }

  /** `f` with `cmds` drawn on top of what it already shows. */
  function Overlay(f: Frame, cmds: seq<Command>): Frame {
    f.(overlay := f.overlay + cmds)
  }

  /** The two drawing calls for detection `d` at position `i`. */
  function DetectionDrawing(d: Detection, i: nat, style: Style, measure: Measure): seq<Command> {
    var y := if style.raiseLabel then d.box.y0 - measure(d.className, style.font) else d.box.y0;
    [Rectangle(d.box, ColorOf(i), style.outlineWidth), Text(d.box.x0, y, d.className, ColorOf(i), style.font)]
  }

  /** All drawing calls for one image's detections, in detector order. */
  function Annotations(dets: seq<Detection>, style: Style, measure: Measure): seq<Command>
    decreases |dets|
  {
    if dets == [] then []
    else
      var n := |dets| - 1;
      Annotations(dets[..n], style, measure) + DetectionDrawing(dets[n], n, style, measure)
  }

  /** The image the rule produces from `f`: `f` with its detections drawn on it. */
  function AnnotateFrame(detector: Detector, f: Frame, style: Style, measure: Measure): Frame {
    Overlay(f, Annotations(detector(f), style, measure))
  }

  /** Two positions share a colour exactly when they agree modulo eight. */
  lemma SameColorIff(i: nat, j: nat)
    ensures ColorOf(i) == ColorOf(j) <==> i % 8 == j % 8
  {
  }

  /** Every detection contributes exactly two drawing calls. */
  lemma {:induction false} AnnotationsLength(dets: seq<Detection>, style: Style, measure: Measure)
    ensures |Annotations(dets, style, measure)| == 2 * |dets|
    decreases |dets|
  {
    if dets != [] {
      AnnotationsLength(dets[..|dets| - 1], style, measure);
    }
  }

  /**
   * Detection `i` is drawn as calls `2i` and `2i + 1`: a rectangle at its
   * corners and then its label, both in colour `i mod 8`; the label sits at
   * the box's top-left corner, raised by the text height for still images.
   */
  lemma {:induction false} AnnotationsLayout(dets: seq<Detection>, style: Style, measure: Measure, i: nat)
    requires i < |dets|
    ensures |Annotations(dets, style, measure)| == 2 * |dets|
    ensures Annotations(dets, style, measure)[2 * i]
         == Rectangle(dets[i].box, Palette[i % 8], style.outlineWidth)
    ensures Annotations(dets, style, measure)[2 * i + 1]
         == Text(dets[i].box.x0,
                 if style.raiseLabel then dets[i].box.y0 - measure(dets[i].className, style.font)
                 else dets[i].box.y0,
                 dets[i].className, Palette[i % 8], style.font)
    decreases |dets|
  {
    var n := |dets| - 1;
    AnnotationsLength(dets, style, measure);
    AnnotationsLength(dets[..n], style, measure);
    if i < n {
      AnnotationsLayout(dets[..n], style, measure, i);
      assert dets[..n][i] == dets[i];
    }
  }

  /**
   * The colour of a drawing call depends only on the position of its
   * detection, never on the detections' labels or boxes.
   */
  lemma ColorsIgnoreDetections(d1: seq<Detection>, d2: seq<Detection>, style: Style, measure: Measure, k: nat)
    requires |d1| == |d2|
    requires k < 2 * |d1|
    ensures |Annotations(d1, style, measure)| == |Annotations(d2, style, measure)| == 2 * |d1|
    ensures CommandColor(Annotations(d1, style, measure)[k]) == ColorOf(k / 2)
    ensures CommandColor(Annotations(d1, style, measure)[k])
         == CommandColor(Annotations(d2, style, measure)[k])
  {
    var i := k / 2;
    AnnotationsLayout(d1, style, measure, i);
    AnnotationsLayout(d2, style, measure, i);
    assert k == 2 * i || k == 2 * i + 1;
  }

  /** A PIL image that `ImageDraw` draws on in place. */
  class Canvas {
    var frame: Frame

    constructor (f: Frame)
      ensures frame == f
    {
      frame := f;
    }

    /** Draws a rectangle outline. */
    method DrawRectangle(corners: Box, outline: Color, width: nat)
      modifies this
      ensures frame == Overlay(old(frame), [Rectangle(corners, outline, width)])
    {
      frame := Overlay(frame, [Rectangle(corners, outline, width)]);
    }

    /** Draws a text with its top-left corner at (x, y). */
    method DrawText(x: int, y: int, text: string, fill: Color, font: Font)
      modifies this
      ensures frame == Overlay(old(frame), [Text(x, y, text, fill, font)])
    {
      frame := Overlay(frame, [Text(x, y, text, fill, font)]);
    }
  }

  /** The `for i, (class_name, bbox) in enumerate(...)` loop over one image's detections. */
  method DrawDetections(canvas: Canvas, dets: seq<Detection>, style: Style, measure: Measure)
    modifies canvas
    ensures canvas.frame == Overlay(old(canvas.frame), Annotations(dets, style, measure))
  {
    for i := 0 to |dets|
      invariant canvas.frame == Overlay(old(canvas.frame), Annotations(dets[..i], style, measure))
    {
      var d := dets[i];
      var color := Palette[i % |Palette|];
      canvas.DrawRectangle(d.box, color, style.outlineWidth);
      var y := d.box.y0;
      if style.raiseLabel {
        y := d.box.y0 - measure(d.className, style.font);
      }
      canvas.DrawText(d.box.x0, y, d.className, color, style.font);
      assert dets[..i + 1][..i] == dets[..i];
    }
    assert dets[..|dets|] == dets;
  }

  /**
   * predict_and_annotate: runs the detector on the image and draws every
   * detection on that same image, in the still-image style.
   */
  method PredictAndAnnotate(detector: Detector, image: Canvas, measure: Measure)
    modifies image
    ensures image.frame == AnnotateFrame(detector, old(image.frame), StillImage, measure)
  {
    var detections := detector(image.frame);
    DrawDetections(image, detections, StillImage, measure);
  }
}
