/**
 * The download button of the generator (`handleDownload` in
 * components/QRGenerator.tsx) and the generator's own state cells.
 *
 * Without a frame, the QR library saves its own PNG. With a frame, the library's
 * rendered PNG (an image of some width W and height H) is composited on a fresh canvas
 * of (W + 2b) by (H + 2b), where b is the frame thickness: a white background, the QR
 * image inset by b, and a stroked rounded rectangle on the midline of that margin.
 * The result is saved as `qr-pro-frame.png`. `ExportPlan` is the list of canvas calls
 * that the export makes, or the error that stops it; `Generator.HandleDownload` makes
 * those calls one by one on a `Canvas`.
 */
module QRGenerator {
  import opened Wrappers
  import opened QRConfig
  import opened Canvas2D

  /** The natural size of the raw PNG once it has loaded as an image. */
  datatype ImageSize = ImageSize(width: nat, height: nat)

  /**
   * What the browser and the QR library supply at download time:
   * whether the library instance exists, the raw PNG it returns (None when it returns
   * nothing), whether the canvas yields a 2D context, and whether that context has
   * the native `roundRect`.
   */
  datatype Env = Env(encoderReady: bool, raw: Option<ImageSize>, hasContext: bool, hasRoundRect: bool)

  datatype ExportError =
    | QRGenerationFailed   // no raw PNG from the library
    | ContextUnavailable   // the canvas has no 2D context

  datatype Outcome =
    | LibraryDownload(name: string, extension: string) // the library saves its own file
    | NothingDownloaded                                // no frame and no library instance
    | Framed(commands: seq<Command>)                   // the canvas calls made, the last one saving the file
    | Failed(error: ExportError)                       // caught, reported with an alert; nothing saved

  const LibraryName := "qr-pro-studio"
  const LibraryExtension := "png"
  const FramedFileName := "qr-pro-frame.png"
  const PngMime := "image/png"
  const White := "#ffffff"

  function Half(b: nat): real {
    b as real / 2.0
  }

  // ---------------------------------------------------------------------------
  // Geometry

  /**
   * The rectangle the frame is stroked along on a canvas of cw by ch: it keeps the
   * same margin of b/2 from all four edges of the canvas.
   */
  function StrokeRect(cw: nat, ch: nat, b: nat): (r: Rect)
    ensures r.x == Half(b) && r.y == Half(b)
    ensures cw as real - (r.x + r.w) == Half(b)
    ensures ch as real - (r.y + r.h) == Half(b)
  {
    Rect(Half(b), Half(b), cw as real - b as real, ch as real - b as real)
  }

  /**
   * The stroke's centre line runs halfway between the canvas edge and the QR image
   * edge on every side, so the stroke of width b covers the outer margin and overlaps
   * the image by b/2. The rectangle is W + b wide and H + b high.
   */
  lemma StrokeRectOnMidline(img: ImageSize, b: nat)
    ensures var cw, ch := img.width + 2 * b, img.height + 2 * b;
            var r := StrokeRect(cw, ch, b);
            && r.w == (img.width + b) as real && r.h == (img.height + b) as real
            && r.x == (0.0 + b as real) / 2.0
            && r.y == (0.0 + b as real) / 2.0
            && r.x + r.w == (cw as real + (b + img.width) as real) / 2.0
            && r.y + r.h == (ch as real + (b + img.height) as real) / 2.0
  {
  }

  /**
   * The code passes the corner radius through without clamping it. Within the
   * sliders' ranges (images of at least 500 px a side, a thickness of at most 50 and a
   * radius of at most 100) the radius is never more than half of either side of the
   * stroke rectangle, so the arcs never overlap.
   */
  lemma RadiusFitsWithinSliderRanges(img: ImageSize, f: FrameOptions)
    requires img.width >= 500 && img.height >= 500
    requires f.thickness <= 50 && f.cornerRadius <= 100
    ensures var r := StrokeRect(img.width + 2 * f.thickness, img.height + 2 * f.thickness, f.thickness);
            f.cornerRadius as real <= r.w / 2.0 && f.cornerRadius as real <= r.h / 2.0
  {
  }

  /**
   * The line dash for a frame style: dashes of 2b for `dashed` and b for `dotted`,
   * with gaps of b; a solid line for every other style, `double` included.
   */
  function DashPattern(style: FrameStyle, b: nat): (dash: seq<real>)
    ensures dash == [] <==> (style == Solid || style == Double)
    ensures dash != [] ==> |dash| == 2 && dash[1] == b as real
    ensures style == Dashed ==> dash[0] == 2.0 * dash[1]
    ensures style == Dotted ==> dash[0] == dash[1]
    ensures forall i :: 0 <= i < |dash| ==> dash[i] >= 0.0
  {
    match style
    case Dashed => [2.0 * b as real, b as real]
    case Dotted => [b as real, b as real]
    case Solid => []
    case Double => []
  }

  /** The corners of a rectangle, clockwise on screen from the top left. */
  function Corner(r: Rect, i: nat): Point
    requires i < 4
  {
    if i == 0 then Point(r.x, r.y)
    else if i == 1 then Point(r.x + r.w, r.y)
    else if i == 2 then Point(r.x + r.w, r.y + r.h)
    else Point(r.x, r.y + r.h)
  }

  /**
   * The hand-built rounded rectangle for contexts without `roundRect`: start on the
   * top edge, one radius in from the top-left corner; then one `arcTo` per corner,
   * clockwise from the top right, each aimed along the next edge, all with the
   * unclamped radius; then close the path.
   */
  function ArcPath(r: Rect, radius: real): (p: seq<Command>)
    ensures |p| == 6
    ensures p[0] == MoveTo(Point(r.x + radius, r.y))
    ensures forall i :: 1 <= i <= 4 ==> p[i] == ArcTo(Corner(r, i % 4), Corner(r, (i + 1) % 4), radius)
    ensures p[5] == ClosePath
  {
    var x, y, w, h := r.x, r.y, r.w, r.h;
    [ MoveTo(Point(x + radius, y)),
      ArcTo(Point(x + w, y), Point(x + w, y + h), radius),
      ArcTo(Point(x + w, y + h), Point(x, y + h), radius),
      ArcTo(Point(x, y + h), Point(x, y), radius),
      ArcTo(Point(x, y), Point(x + w, y), radius),
      ClosePath ]
  }

  /** The path of the frame: one native `roundRect` call, or the hand-built fallback. */
  function FramePath(r: Rect, radius: real, native: bool): (p: seq<Command>)
    ensures forall i :: 0 <= i < |p| ==> IsPathCommand(p[i])
    ensures native ==> p == [RoundRect(r, radius)]
    ensures !native ==> p == ArcPath(r, radius)
  {
    if native then [RoundRect(r, radius)] else ArcPath(r, radius)
  }

  // ---------------------------------------------------------------------------
  // The framed export

  /** Size the canvas to the image plus the border, paint it white, draw the image inset. */
  function BackgroundCalls(img: ImageSize, b: nat): seq<Command>
  {
    var cw, ch := img.width + 2 * b, img.height + 2 * b;
    [ SetWidth(cw),
      SetHeight(ch),
      SetFillStyle(White),
      FillRect(Rect(0.0, 0.0, cw as real, ch as real)),
      DrawImage(Rect(b as real, b as real, img.width as real, img.height as real)) ]
  }

  /** Line width, colour and dash of the frame, then a new path. */
  function StrokeStyleCalls(f: FrameOptions): seq<Command>
  {
    [ SetLineWidth(f.thickness as real),
      SetStrokeStyle(f.color),
      SetLineDash(DashPattern(f.style, f.thickness)),
      BeginPath ]
  }

  /** The frame's path on the composite canvas, then the stroke and the saved file. */
  function OutlineCalls(img: ImageSize, f: FrameOptions, native: bool): seq<Command>
  {
    var b := f.thickness;
    var rect := StrokeRect(img.width + 2 * b, img.height + 2 * b, b);
    FramePath(rect, f.cornerRadius as real, native) + [Stroke, SaveAs(FramedFileName, PngMime)]
  }

  /** The canvas calls of a framed export, in the order the code makes them. */
  function FramedPlan(img: ImageSize, f: FrameOptions, native: bool): (cmds: seq<Command>)
    ensures |cmds| >= 12
    ensures cmds[0] == SetWidth(img.width + 2 * f.thickness)
    ensures cmds[1] == SetHeight(img.height + 2 * f.thickness)
    ensures cmds[|cmds| - 1] == SaveAs(FramedFileName, PngMime)
    ensures forall i :: 0 <= i < |cmds| - 1 ==> !cmds[i].SaveAs?
  {
    BackgroundCalls(img, f.thickness) + StrokeStyleCalls(f) + OutlineCalls(img, f, native)
  }

  /**
   * The picture a framed export saves: on a (W + 2b) by (H + 2b) canvas, first a white
   * fill of the whole canvas, then the QR image at its own size inset by b on every
   * side, then, on top, the frame stroked b wide in the frame colour with the style's
   * dash along the centred stroke rectangle.
   */
  function FramedPicture(img: ImageSize, f: FrameOptions, native: bool): (p: Picture)
    ensures p.width == img.width + 2 * f.thickness
    ensures p.height == img.height + 2 * f.thickness
    ensures |p.layers| == 3
    ensures p.layers[0] == Filled(Rect(0.0, 0.0, p.width as real, p.height as real), White)
    ensures p.layers[1].Drawn?
    ensures var d := p.layers[1].dest;
            && d.x == f.thickness as real && d.y == f.thickness as real
            && p.width as real - (d.x + d.w) == f.thickness as real
            && p.height as real - (d.y + d.h) == f.thickness as real
            && d.w == img.width as real && d.h == img.height as real
    ensures p.layers[2].Stroked?
    ensures p.layers[2].width == f.thickness as real && p.layers[2].color == f.color
    ensures p.layers[2].dash == DashPattern(f.style, f.thickness)
    ensures p.layers[2].path == FramePath(StrokeRect(p.width, p.height, f.thickness), f.cornerRadius as real, native)
  {
    var b := f.thickness;
    var cw, ch := img.width + 2 * b, img.height + 2 * b;
    Picture(cw, ch,
      [ Filled(Rect(0.0, 0.0, cw as real, ch as real), White),
        Drawn(Rect(b as real, b as real, img.width as real, img.height as real)),
        Stroked(FramePath(StrokeRect(cw, ch, b), f.cornerRadius as real, native),
                b as real, f.color, DashPattern(f.style, b)) ])
  }

  /** Replaying a list that starts with `c` applies `c` first. */
  lemma ReplayCons(st: CanvasState, c: Command, rest: seq<Command>)
    ensures Replay(st, [c] + rest) == Replay(Apply(st, c), rest)
  {
  }

  lemma ReplayOne(st: CanvasState, c: Command)
    ensures Replay(st, [c]) == Apply(st, c)
  {
  }

  /** The background calls leave a white canvas of the composite size with the image drawn on it. */
  lemma {:induction false} BackgroundReplay(st: CanvasState, img: ImageSize, b: nat)
    ensures var cw, ch := img.width + 2 * b, img.height + 2 * b;
            Replay(st, BackgroundCalls(img, b)) ==
            Reset(st).(width := cw, height := ch, fillStyle := White,
                       layers := [Filled(Rect(0.0, 0.0, cw as real, ch as real), White),
                                  Drawn(Rect(b as real, b as real, img.width as real, img.height as real))])
  {
    var calls := BackgroundCalls(img, b);
    ReplayCons(st, calls[0], calls[1..]);
    var s1 := Apply(st, calls[0]);
    ReplayCons(s1, calls[1], calls[2..]);
    var s2 := Apply(s1, calls[1]);
    ReplayCons(s2, calls[2], calls[3..]);
    var s3 := Apply(s2, calls[2]);
    ReplayCons(s3, calls[3], calls[4..]);
    var s4 := Apply(s3, calls[3]);
    ReplayOne(s4, calls[4]);
  }

  /** The style calls set the frame's width, colour and dash, and start an empty path. */
  lemma {:induction false} StrokeStyleReplay(st: CanvasState, f: FrameOptions)
    requires f.thickness >= 1
    ensures Replay(st, StrokeStyleCalls(f)) ==
            st.(lineWidth := f.thickness as real, strokeStyle := f.color,
                lineDash := DashPattern(f.style, f.thickness), path := [])
  {
    var calls := StrokeStyleCalls(f);
    var dash := DashPattern(f.style, f.thickness);
    ReplayCons(st, calls[0], calls[1..]);
    var s1 := Apply(st, calls[0]);
    ReplayCons(s1, calls[1], calls[2..]);
    var s2 := Apply(s1, calls[1]);
    ReplayCons(s2, calls[2], calls[3..]);
    assert !exists i :: 0 <= i < |dash| && dash[i] < 0.0;
    var s3 := Apply(s2, calls[2]);
    assert s3.lineDash == dash;
    ReplayOne(s3, calls[3]);
  }

  /** Tracing a path from scratch, stroking it and saving adds the stroked layer to the saved picture. */
  lemma {:induction false} OutlineReplay(st: CanvasState, path: seq<Command>)
    requires st.path == []
    requires forall i :: 0 <= i < |path| ==> IsPathCommand(path[i])
    ensures var layers := st.layers + [Stroked(path, st.lineWidth, st.strokeStyle, st.lineDash)];
            Replay(st, path + [Stroke, SaveAs(FramedFileName, PngMime)]).saved ==
            st.saved + [SavedFile(FramedFileName, PngMime, Picture(st.width, st.height, layers))]
  {
    var tail := [Stroke, SaveAs(FramedFileName, PngMime)];
    ReplayAppend(st, path, tail);
    ReplayPath(st, path);
    var s1 := Replay(st, path);
    assert s1 == st.(path := path);
    ReplayCons(s1, Stroke, [SaveAs(FramedFileName, PngMime)]);
    ReplayOne(Apply(s1, Stroke), SaveAs(FramedFileName, PngMime));
  }

  /**
   * Replaying the calls of a framed export on a new canvas saves exactly one file,
   * `qr-pro-frame.png`, holding the framed picture. (A thickness of at least 1, as the
   * slider allows, is needed: the browser ignores a line width of 0.)
   */
  /** The canvas once the background is painted and the frame style is set, ready for the outline. */
  lemma {:induction false} PreparedCanvas(img: ImageSize, f: FrameOptions)
    requires f.thickness >= 1
    ensures var b := f.thickness;
            var s := Replay(Blank, BackgroundCalls(img, b) + StrokeStyleCalls(f));
            && s.saved == [] && s.path == []
            && s.width == img.width + 2 * b && s.height == img.height + 2 * b
            && s.lineWidth == b as real && s.strokeStyle == f.color && s.lineDash == DashPattern(f.style, b)
            && s.layers == [Filled(Rect(0.0, 0.0, s.width as real, s.height as real), White),
                            Drawn(Rect(b as real, b as real, img.width as real, img.height as real))]
  {
    var b := f.thickness;
    var bg := BackgroundCalls(img, b);
    ReplayAppend(Blank, bg, StrokeStyleCalls(f));
    BackgroundReplay(Blank, img, b);
    StrokeStyleReplay(Replay(Blank, bg), f);
  }

  /** The stroke over a prepared canvas yields the framed picture. */
  lemma FramedPictureFromPrepared(img: ImageSize, f: FrameOptions, native: bool, s: CanvasState)
    requires s.width == img.width + 2 * f.thickness && s.height == img.height + 2 * f.thickness
    requires s.lineWidth == f.thickness as real && s.strokeStyle == f.color
    requires s.lineDash == DashPattern(f.style, f.thickness)
    requires s.layers == [Filled(Rect(0.0, 0.0, s.width as real, s.height as real), White),
                          Drawn(Rect(f.thickness as real, f.thickness as real, img.width as real, img.height as real))]
    ensures var path := FramePath(StrokeRect(s.width, s.height, f.thickness), f.cornerRadius as real, native);
            Picture(s.width, s.height, s.layers + [Stroked(path, s.lineWidth, s.strokeStyle, s.lineDash)])
            == FramedPicture(img, f, native)
  {
  }

  lemma {:induction false} FramedPlanSavesPicture(img: ImageSize, f: FrameOptions, native: bool)
    requires f.thickness >= 1
    ensures Replay(Blank, FramedPlan(img, f, native)).saved ==
            [SavedFile(FramedFileName, PngMime, FramedPicture(img, f, native))]
  {
    var b := f.thickness;
    var prefix := BackgroundCalls(img, b) + StrokeStyleCalls(f);
    var path := FramePath(StrokeRect(img.width + 2 * b, img.height + 2 * b, b), f.cornerRadius as real, native);
    ReplayAppend(Blank, prefix, OutlineCalls(img, f, native));
    PreparedCanvas(img, f);
    var s := Replay(Blank, prefix);
    OutlineReplay(s, path);
    FramedPictureFromPrepared(img, f, native, s);
  }



  /**
   * What one press of the download button does with the frame settings `f`:
   * the library's own download without a frame; with a frame, the canvas calls of the
   * composition, or the error that stops it before any call on the canvas.
   */
  function ExportPlan(f: FrameOptions, env: Env): (o: Outcome)
    ensures o.LibraryDownload? <==> !f.enabled && env.encoderReady
    ensures o.LibraryDownload? ==> o.name == LibraryName && o.extension == LibraryExtension
    ensures o.NothingDownloaded? <==> !f.enabled && !env.encoderReady
    ensures o.Failed? <==> f.enabled && (!env.encoderReady || env.raw.None? || !env.hasContext)
    ensures o.Failed? ==> (o.error == QRGenerationFailed <==> (!env.encoderReady || env.raw.None?))
    ensures o.Framed? ==> env.raw.Some? && o.commands == FramedPlan(env.raw.value, f, env.hasRoundRect)
  {
    if !f.enabled then
      if env.encoderReady then LibraryDownload(LibraryName, LibraryExtension) else NothingDownloaded
    else if !env.encoderReady || env.raw.None? then
      Failed(QRGenerationFailed)
    else if !env.hasContext then
      Failed(ContextUnavailable)
    else
      Framed(FramedPlan(env.raw.value, f, env.hasRoundRect))
  }

  /**
   * A framed export that gets its raw PNG and a context saves exactly the framed
   * picture, and saves it as `qr-pro-frame.png`.
   */
  lemma FramedExportSaves(f: FrameOptions, env: Env)
    requires f.enabled && env.encoderReady && env.raw.Some? && env.hasContext
    requires f.thickness >= 1
    ensures ExportPlan(f, env).Framed?
    ensures Replay(Blank, ExportPlan(f, env).commands).saved ==
            [SavedFile(FramedFileName, PngMime, FramedPicture(env.raw.value, f, env.hasRoundRect))]
  {
    FramedPlanSavesPicture(env.raw.value, f, env.hasRoundRect);
  }

  // ---------------------------------------------------------------------------
  // The framed export, call by call

  /** Sizes the canvas, paints it white and draws the QR image inset by the border. */
  method DrawBackground(canvas: Canvas, img: ImageSize, border: nat)
    requires canvas.Valid()
    modifies canvas
    ensures canvas.Valid()
    ensures canvas.log == old(canvas.log) + BackgroundCalls(img, border)
    ensures canvas.width == img.width + 2 * border && canvas.height == img.height + 2 * border
  {
    canvas.Perform(SetWidth(img.width + border * 2));
    canvas.Perform(SetHeight(img.height + border * 2));
    canvas.Perform(SetFillStyle(White));
    canvas.Perform(FillRect(Rect(0.0, 0.0, canvas.width as real, canvas.height as real)));
    canvas.Perform(DrawImage(Rect(border as real, border as real, img.width as real, img.height as real)));
  }

  /** Sets the frame's line width, colour and dash, and begins a new path. */
  method SetFrameStyle(canvas: Canvas, frame: FrameOptions)
    requires canvas.Valid()
    modifies canvas
    ensures canvas.Valid()
    ensures canvas.log == old(canvas.log) + StrokeStyleCalls(frame)
    ensures canvas.width == old(canvas.width) && canvas.height == old(canvas.height)
  {
    canvas.Perform(SetLineWidth(frame.thickness as real));
    canvas.Perform(SetStrokeStyle(frame.color));
    canvas.Perform(SetLineDash(DashPattern(frame.style, frame.thickness)));
    canvas.Perform(BeginPath);
  }

  /** The first half of the hand-built path: the starting point and the two right-hand corners. */
  method TraceRightCorners(canvas: Canvas, r: Rect, radius: real)
    requires canvas.Valid()
    modifies canvas
    ensures canvas.Valid()
    ensures canvas.log == old(canvas.log) + ArcPath(r, radius)[..3]
    ensures canvas.width == old(canvas.width) && canvas.height == old(canvas.height)
  {
    var x, y, w, h := r.x, r.y, r.w, r.h;
    canvas.Perform(MoveTo(Point(x + radius, y)));
    canvas.Perform(ArcTo(Point(x + w, y), Point(x + w, y + h), radius));
    canvas.Perform(ArcTo(Point(x + w, y + h), Point(x, y + h), radius));
  }

  /** The second half of the hand-built path: the two left-hand corners and the close. */
  method TraceLeftCorners(canvas: Canvas, r: Rect, radius: real)
    requires canvas.Valid()
    modifies canvas
    ensures canvas.Valid()
    ensures canvas.log == old(canvas.log) + ArcPath(r, radius)[3..]
    ensures canvas.width == old(canvas.width) && canvas.height == old(canvas.height)
  {
    var x, y, w, h := r.x, r.y, r.w, r.h;
    canvas.Perform(ArcTo(Point(x, y + h), Point(x, y), radius));
    canvas.Perform(ArcTo(Point(x, y), Point(x + w, y), radius));
    canvas.Perform(ClosePath);
  }

  /**
   * Traces the rounded rectangle with the native `roundRect` when the context has one
   * and by hand otherwise, strokes it and saves the canvas as a PNG.
   */
  method DrawOutline(canvas: Canvas, img: ImageSize, frame: FrameOptions, native: bool)
    requires canvas.Valid()
    requires canvas.width == img.width + 2 * frame.thickness
    requires canvas.height == img.height + 2 * frame.thickness
    modifies canvas
    ensures canvas.Valid()
    ensures canvas.log == old(canvas.log) + OutlineCalls(img, frame, native)
  {
    var border := frame.thickness;
    var x, y := Half(border), Half(border);
    var w, h := canvas.width as real - border as real, canvas.height as real - border as real;
    TracePath(canvas, Rect(x, y, w, h), frame.cornerRadius as real, native);
    canvas.Perform(Stroke);
    canvas.Perform(SaveAs(FramedFileName, PngMime));
  }

  /** Builds the outline path, with `roundRect` when the browser has it and with arcs otherwise. */
  method TracePath(canvas: Canvas, r: Rect, radius: real, native: bool)
    requires canvas.Valid()
    modifies canvas
    ensures canvas.Valid()
    ensures canvas.log == old(canvas.log) + FramePath(r, radius, native)
  {
    if native {
      canvas.Perform(RoundRect(r, radius));
    } else {
      TraceRightCorners(canvas, r, radius);
      TraceLeftCorners(canvas, r, radius);
      assert ArcPath(r, radius) == ArcPath(r, radius)[..3] + ArcPath(r, radius)[3..];
    }
  }


  /**
   * The framed branch once the image has loaded and the context exists: a fresh canvas,
   * the calls of `FramedPlan` made on it in order, and the list of those calls.
   */
  method ComposeFrame(img: ImageSize, frame: FrameOptions, native: bool)
    returns (commands: seq<Command>, saved: seq<SavedFile>)
    ensures commands == FramedPlan(img, frame, native)
    ensures frame.thickness >= 1 ==>
              saved == [SavedFile(FramedFileName, PngMime, FramedPicture(img, frame, native))]
  {
    var canvas := new Canvas();
    DrawBackground(canvas, img, frame.thickness);
    assert canvas.log == BackgroundCalls(img, frame.thickness);
    SetFrameStyle(canvas, frame);
    DrawOutline(canvas, img, frame, native);
    commands, saved := canvas.log, canvas.saved;
    assert saved == Replay(Blank, commands).saved by {
      assert canvas.State() == Replay(Blank, canvas.log);
    }
    if frame.thickness >= 1 {
      FramedPlanSavesPicture(img, frame, native);
    }
  }

  // ---------------------------------------------------------------------------
  // The generator's state cells

  class Generator {
    var config: QRConfig
    var expanded: Sections
    var fileInputKey: int
    var isProcessing: bool

    /** Mounting the generator; `now` is the clock reading that seeds the file input's key. */
    constructor (now: int)
      ensures config == Default && expanded == InitialSections
      ensures fileInputKey == now && !isProcessing
    {
      config := Default;
      expanded := InitialSections;
      fileInputKey := now;
      isProcessing := false;
    }

    /** `removeLogo`: clears the logo and remounts the file input under a new key. */
    method RemoveLogo(now: int)
      modifies this
      ensures config == LogoRemoved(old(config)) && fileInputKey == now
      ensures expanded == old(expanded) && isProcessing == old(isProcessing)
    {
      config := LogoRemoved(config);
      fileInputKey := now;
    }

    /**
     * `handleDownload`: marks the generator busy, makes the calls of `ExportPlan` on a
     * fresh canvas (or reports its error), and always ends not busy.
     */
    method HandleDownload(env: Env) returns (o: Outcome)
      modifies this
      ensures o == ExportPlan(config.frameOptions, env)
      ensures config == old(config) && expanded == old(expanded) && fileInputKey == old(fileInputKey)
      ensures !isProcessing
    {
      isProcessing := true;
      var frame := config.frameOptions;
      if !frame.enabled {
        if env.encoderReady {
          o := LibraryDownload(LibraryName, LibraryExtension);
        } else {
          o := NothingDownloaded;
        }
      } else if !env.encoderReady || env.raw.None? {
        o := Failed(QRGenerationFailed);
      } else {
        if !env.hasContext {
          o := Failed(ContextUnavailable);
        } else {
          var commands, _ := ComposeFrame(env.raw.value, frame, env.hasRoundRect);
          o := Framed(commands);
        }
      }
      isProcessing := false;
    }
  }
}
