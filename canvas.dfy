/**
 * The part of the browser's 2D canvas that the framed export relies on. The export
 * drives a canvas element and its context by setting fields and calling methods;
 * each such step is a `Command`, and `Apply` says what it does to the canvas:
 * resizing resets the context, painting calls add a layer in the style current at the
 * time of the call, and saving snapshots the picture into a file.
 */
module Canvas2D {
  datatype Point = Point(x: real, y: real)
  datatype Rect = Rect(x: real, y: real, w: real, h: real)

  datatype Command =
    | SetWidth(width: nat)                 // canvas.width = …
    | SetHeight(height: nat)               // canvas.height = …
    | SetFillStyle(color: string)          // ctx.fillStyle = …
    | FillRect(area: Rect)                 // ctx.fillRect(x, y, w, h)
    | DrawImage(dest: Rect)                // ctx.drawImage(img, x, y), dest sized as the image
    | SetLineWidth(lineWidth: real)        // ctx.lineWidth = …
    | SetStrokeStyle(strokeColor: string)  // ctx.strokeStyle = …
    | SetLineDash(segments: seq<real>)     // ctx.setLineDash([...])
    | BeginPath                            // ctx.beginPath()
    | RoundRect(bounds: Rect, radius: real) // ctx.roundRect(x, y, w, h, r)
    | MoveTo(to: Point)                    // ctx.moveTo(x, y)
    | ArcTo(corner: Point, toward: Point, radius: real) // ctx.arcTo(x1, y1, x2, y2, r)
    | ClosePath                            // ctx.closePath()
    | Stroke                               // ctx.stroke()
    | SaveAs(fileName: string, mime: string) // a link with download = name, href = toDataURL(mime), clicked

  predicate IsPathCommand(c: Command) {
    c.RoundRect? || c.MoveTo? || c.ArcTo? || c.ClosePath?
  }

  /** A painted layer, carrying the style that was current when it was painted. */
  datatype Layer =
    | Filled(area: Rect, color: string)
    | Drawn(dest: Rect)
    | Stroked(path: seq<Command>, width: real, color: string, dash: seq<real>)

  datatype Picture = Picture(width: nat, height: nat, layers: seq<Layer>)
  datatype SavedFile = SavedFile(name: string, mime: string, picture: Picture)

  datatype CanvasState = CanvasState(
    width: nat,
    height: nat,
    fillStyle: string,
    lineWidth: real,
    strokeStyle: string,
    lineDash: seq<real>,
    path: seq<Command>,
    layers: seq<Layer>,
    saved: seq<SavedFile>)

  const Black := "#000000"

  /** A freshly created canvas element: 300 by 150, black styles, width-1 solid lines. */
  const Blank := CanvasState(300, 150, Black, 1.0, Black, [], [], [], [])

  /** Resizing clears the bitmap and restores every context default; files already saved stay. */
  function Reset(st: CanvasState): (r: CanvasState)
    ensures r.layers == [] && r.path == [] && r.lineDash == []
    ensures r.fillStyle == Black && r.strokeStyle == Black && r.lineWidth == 1.0
    ensures r.width == st.width && r.height == st.height && r.saved == st.saved
  {
    Blank.(width := st.width, height := st.height, saved := st.saved)
  }

  function PictureOf(st: CanvasState): Picture {
    Picture(st.width, st.height, st.layers)
  }

  /** The effect of one command on the canvas. */
  function Apply(st: CanvasState, c: Command): CanvasState
  {
    match c
    case SetWidth(w) => Reset(st).(width := w)
    case SetHeight(h) => Reset(st).(height := h)
    case SetFillStyle(color) => st.(fillStyle := color)
    case FillRect(area) => st.(layers := st.layers + [Filled(area, st.fillStyle)])
    case DrawImage(dest) => st.(layers := st.layers + [Drawn(dest)])
    // A width that is zero or negative is ignored.
    case SetLineWidth(w) => if w > 0.0 then st.(lineWidth := w) else st
    case SetStrokeStyle(color) => st.(strokeStyle := color)
    // A list with a negative entry is ignored; an odd-length list is repeated once.
    case SetLineDash(d) =>
      if exists i :: 0 <= i < |d| && d[i] < 0.0 then st
      else st.(lineDash := if |d| % 2 == 1 then d + d else d)
    case BeginPath => st.(path := [])
    case RoundRect(_, _) => st.(path := st.path + [c])
    case MoveTo(_) => st.(path := st.path + [c])
    case ArcTo(_, _, _) => st.(path := st.path + [c])
    case ClosePath => st.(path := st.path + [c])
    case Stroke => st.(layers := st.layers + [Stroked(st.path, st.lineWidth, st.strokeStyle, st.lineDash)])
    case SaveAs(name, mime) => st.(saved := st.saved + [SavedFile(name, mime, PictureOf(st))])
  }
  /**
   * The effect of one command on the canvas: a resize clears the bitmap and restores
   * every context default; a non-positive line width and a dash list with a negative
   * entry are ignored; an odd dash list is repeated; a path call only extends the path;
   * a painting call adds one layer in the current style; only saving adds a file.
   */
  lemma ApplyEffect(st: CanvasState, c: Command)
    ensures (c.SetWidth? || c.SetHeight?) ==>
              && Apply(st, c).layers == [] && Apply(st, c).path == [] && Apply(st, c).lineDash == []
              && Apply(st, c).lineWidth == 1.0 && Apply(st, c).fillStyle == Black && Apply(st, c).strokeStyle == Black
    ensures c.SetWidth? ==> Apply(st, c).width == c.width && Apply(st, c).height == st.height
    ensures c.SetHeight? ==> Apply(st, c).height == c.height && Apply(st, c).width == st.width
    ensures !(c.SetWidth? || c.SetHeight?) ==> Apply(st, c).width == st.width && Apply(st, c).height == st.height
    ensures c.SetLineWidth? ==> Apply(st, c) == st.(lineWidth := if c.lineWidth > 0.0 then c.lineWidth else st.lineWidth)
    ensures c.SetLineDash? && (exists i :: 0 <= i < |c.segments| && c.segments[i] < 0.0) ==> Apply(st, c) == st
    ensures c.SetLineDash? && (forall i :: 0 <= i < |c.segments| ==> c.segments[i] >= 0.0) ==>
              Apply(st, c).lineDash == (if |c.segments| % 2 == 1 then c.segments + c.segments else c.segments)
    ensures IsPathCommand(c) ==> Apply(st, c) == st.(path := st.path + [c])
    ensures c.FillRect? ==> Apply(st, c).layers == st.layers + [Filled(c.area, st.fillStyle)]
    ensures c.Stroke? ==> Apply(st, c).layers == st.layers + [Stroked(st.path, st.lineWidth, st.strokeStyle, st.lineDash)]
    ensures c.SaveAs? ==> Apply(st, c) == st.(saved := st.saved + [SavedFile(c.fileName, c.mime, PictureOf(st))])
    ensures !c.SaveAs? ==> Apply(st, c).saved == st.saved
  {
  }

  /** The canvas after a whole sequence of commands, in order. */
  function Replay(st: CanvasState, cmds: seq<Command>): CanvasState
    decreases |cmds|
  {
    if cmds == [] then st else Replay(Apply(st, cmds[0]), cmds[1..])
  }

  /** Replaying two command lists one after the other is replaying their concatenation. */
  lemma {:induction false} ReplayAppend(st: CanvasState, a: seq<Command>, b: seq<Command>)
    ensures Replay(st, a + b) == Replay(Replay(st, a), b)
    decreases |a|
  {
    if a == [] {
      assert a + b == b;
    } else {
      assert (a + b)[0] == a[0];
      assert (a + b)[1..] == a[1..] + b;
      ReplayAppend(Apply(st, a[0]), a[1..], b);
    }
  }

  /** Path commands touch nothing but the current path. */
  lemma {:induction false} ReplayPath(st: CanvasState, p: seq<Command>)
    requires forall i :: 0 <= i < |p| ==> IsPathCommand(p[i])
    ensures Replay(st, p) == st.(path := st.path + p)
    decreases |p|
  {
    if p == [] {
      assert st.path + p == st.path;
    } else {
      assert IsPathCommand(p[0]);
      ReplayPath(Apply(st, p[0]), p[1..]);
      assert st.path + [p[0]] + p[1..] == st.path + p;
    }
  }

  /**
   * The browser's canvas element with its 2D context. `log` lists every call made
   * on it so far; the fields are what those calls left behind.
   */
  class Canvas {
    var width: nat
    var height: nat
    var fillStyle: string
    var lineWidth: real
    var strokeStyle: string
    var lineDash: seq<real>
    var path: seq<Command>
    var layers: seq<Layer>
    var saved: seq<SavedFile>
    var log: seq<Command>

    function State(): CanvasState
      reads this
    {
      CanvasState(width, height, fillStyle, lineWidth, strokeStyle, lineDash, path, layers, saved)
    }

    /** The fields are exactly what replaying the calls on a blank canvas gives. */
    ghost predicate Valid()
      reads this
    {
      State() == Replay(Blank, log)
    }

    /** `document.createElement('canvas')` together with `getContext('2d')`. */
    constructor ()
      ensures Valid() && State() == Blank && log == []
    {
      width, height := 300, 150;
      fillStyle, lineWidth, strokeStyle, lineDash := Black, 1.0, Black, [];
      path, layers, saved := [], [], [];
      log := [];
    }

    /** Carries out one field assignment or method call on the canvas or its context. */
    method Perform(c: Command)
      requires Valid()
      modifies this
      ensures Valid()
      ensures State() == Apply(old(State()), c)
      ensures log == old(log) + [c]
    {
      ReplayAppend(Blank, log, [c]);
      Execute(c);
      log := log + [c];
    }

    /** The change one command makes to the canvas fields. */
    method Execute(c: Command)
      modifies this
      ensures State() == Apply(old(State()), c)
      ensures log == old(log)
    {
      match c {
        case SetWidth(w) =>
          ResetContext();
          width := w;
        case SetHeight(h) =>
          ResetContext();
          height := h;
        case SetFillStyle(color) =>
          fillStyle := color;
        case FillRect(area) =>
          layers := layers + [Filled(area, fillStyle)];
        case DrawImage(dest) =>
          layers := layers + [Drawn(dest)];
        case SetLineWidth(w) =>
          if w > 0.0 {
            lineWidth := w;
          }
        case SetStrokeStyle(color) =>
          strokeStyle := color;
        case SetLineDash(d) =>
          if !exists i :: 0 <= i < |d| && d[i] < 0.0 {
            lineDash := if |d| % 2 == 1 then d + d else d;
          }
        case BeginPath =>
          path := [];
        case RoundRect(_, _) =>
          path := path + [c];
        case MoveTo(_) =>
          path := path + [c];
        case ArcTo(_, _, _) =>
          path := path + [c];
        case ClosePath =>
          path := path + [c];
        case Stroke =>
          layers := layers + [Stroked(path, lineWidth, strokeStyle, lineDash)];
        case SaveAs(name, mime) =>
          saved := saved + [SavedFile(name, mime, Picture(width, height, layers))];
      }
    }

    /** Clears the bitmap and restores the context defaults, keeping the size. */
    method ResetContext()
      modifies this
      ensures State() == Reset(old(State()))
      ensures log == old(log)
    {
      fillStyle, lineWidth, strokeStyle, lineDash := Black, 1.0, Black, [];
      path, layers := [], [];
    }
  }
}
