# QR Pro Studio: generator export, configuration updates and scan redirect

This project models, in Dafny, the three pieces of sequential logic of a small browser
app that makes and scans QR codes:

- **The framed PNG export** of the generator's download button (`handleDownload`).
  Without a frame, the QR library saves `qr-pro-studio.png` itself. With a frame, the
  library's rendered PNG of size W×H is composited on a fresh canvas of (W+2b)×(H+2b),
  where b is the frame thickness. The canvas gets a white fill, the QR image at (b, b),
  and a stroke b wide in the frame colour. The stroke uses the style's dash and runs
  along a rounded rectangle at (b/2, b/2) of size (W+b)×(H+b). The rectangle comes
  from the native `roundRect`, or from a hand-built `moveTo` + four `arcTo` +
  `closePath` path. The result is saved as `qr-pro-frame.png`. A missing raw PNG or
  2D context stops the export with an error. The busy flag is cleared in every case.
  - Module `Canvas2D` gives the browser canvas calls a meaning. `Apply` runs one call
    and `Replay` runs a list of calls. `Canvas` is a class whose fields are the canvas
    and context state; its `Perform` makes one call and logs it.
  - Module `QRGenerator` holds the plan of calls (`ExportPlan`, `FramedPlan`), the
    picture those calls must produce (`FramedPicture`), and the imperative
    `Generator.HandleDownload`, which makes the calls on a `Canvas` one by one.
- **The configuration updaters** (module `QRConfig`). These are the spread-copy
  updates the generator's handlers give to React's state setter. Each one is a
  function whose contract says which fields change and which do not. The record
  types come from `types.ts`.
- **The scan result and its auto-redirect** (module `QRScanner`). The state is the
  decoded text, the auto-redirect switch, the countdown, the camera scanner's paused
  flag, and at most one pending redirect timer. The events are a decode, a reset, the
  switch, and the timer firing.
  - `Step` is the state machine as a function. It includes React's re-run of the
    redirect effect, which happens only when `scanResult` or `autoRedirect` changed.
  - `Scanner` is a class over the same cells. Its decode, reset, switch and timer
    methods are each proved to follow `Step`. `AfterRender` is React's re-run of the
    effect after a render. `CopyToClipboard` only reads the result and changes nothing.
  - `isUrl` is modelled over an abstract parse result: a parse error, or an address
    with its protocol. The URL parser itself is the `parse` parameter of the scanner.

The frame thickness and corner radius are natural numbers, because they come from
integer range sliders. The image size is the size of the library's rendered PNG
(`Env.raw`), also a natural number; the resolution slider sets it only indirectly,
through the configuration's `width` and `height`. Coordinates such as b/2 are exact
`real`s.

## Model

| member | source | states |
|---|---|---|
| `QRConfig.ToggleSection` | components/QRGenerator.tsx:70-75 | the named section's expanded flag is negated and every other section keeps its flag |
| `QRConfig.ToggleSectionTwice` | components/QRGenerator.tsx:70-75 | toggling the same section twice gives back the original panel state |
| `QRConfig.FrameChanged` | components/QRGenerator.tsx:81-89 | exactly the one frame field named takes the new value; the other frame fields and everything outside `frameOptions` are unchanged |
| `QRConfig.FrameChangeLastWins` | components/QRGenerator.tsx:81-89 | two changes of the same frame field leave only the later value |
| `QRConfig.FrameChangesCommute` | components/QRGenerator.tsx:81-89 | changes to two different frame fields give the same configuration in either order |
| `QRConfig.CornerSquareStyleChanged` | components/QRGenerator.tsx:98-103 | the corner squares get the chosen shape and the dots' current colour; nothing else changes |
| `QRConfig.ColorChanged` | components/QRGenerator.tsx:112-119 | dots, corner squares and corner dots all get the new colour; an absent corner shape defaults to `extra-rounded`/`dot` and a present one is kept; the dot shape and all other fields are unchanged |
| `QRConfig.CornerStyleKeepsColorsUnified` | components/QRGenerator.tsx:98-119 | choosing a corner-square shape after a colour change keeps all three colours equal |
| `QRConfig.DefaultColorsUnified` | components/QRGenerator.tsx:6-39 | the default configuration draws dots, corner squares and corner dots in the same green |
| `QRConfig.LogoRemoved` | components/QRGenerator.tsx:219-222 | the logo image becomes the empty string and nothing else in the configuration changes |
| `QRConfig.LogoSizeChanged` | components/QRGenerator.tsx:472 | only `imageOptions.imageSize` changes, to the slider value |
| `QRConfig.ResolutionChanged` | components/QRGenerator.tsx:495-498 | width and height both become the slider value, so the image is square; nothing else changes |
| `Canvas2D.ApplyEffect` | components/QRGenerator.tsx:161-203 | setting the canvas width or height clears the bitmap and the path and restores every context default (black styles, line width 1, no dash) while keeping saved files; a line width of 0 or less is ignored; a dash list with a negative entry is ignored and an odd-length one is repeated; path calls only extend the path; `fillRect` and `stroke` add one layer in the current style; only saving adds a file |
| `Canvas2D.Canvas.Execute` | components/QRGenerator.tsx:161-209 | one canvas call changes the fields exactly as `Apply` says |
| `Canvas2D.Canvas.Perform` | components/QRGenerator.tsx:161-209 | each canvas call changes the context as `Apply` says and is appended to the call log; the fields always equal a replay of the log on a blank canvas |
| `Canvas2D.ReplayAppend` | components/QRGenerator.tsx:161-209 | replaying two call lists one after the other is the same as replaying their concatenation |
| `Canvas2D.ReplayPath` | components/QRGenerator.tsx:185-202 | path-building calls change only the current path, which grows by exactly those calls |
| `QRGenerator.StrokeRect` | components/QRGenerator.tsx:188 | the stroke rectangle keeps a margin of b/2 from all four canvas edges |
| `QRGenerator.StrokeRectOnMidline` | components/QRGenerator.tsx:161-194 | the stroke rectangle is (W+b)×(H+b), and each of its edges lies halfway between the canvas edge and the QR image edge |
| `QRGenerator.RadiusFitsWithinSliderRanges` | components/QRGenerator.tsx:187-201 | the radius is passed on unclamped, but within the slider ranges (image at least 500 px, thickness at most 50, radius at most 100) it never exceeds half of either side of the stroke rectangle |
| `QRGenerator.DashPattern` | components/QRGenerator.tsx:176-182 | the dash is empty exactly for `solid` and `double`; otherwise the gap is b, and the dash is 2b for `dashed` and b for `dotted`; no entry is negative |
| `QRGenerator.ArcPath` | components/QRGenerator.tsx:191-201 | the fallback path starts at (x+r, y); arc i passes through corner i and aims at corner i+1, clockwise from the top right and ending at the top left; every arc has the unclamped radius r; the path closes |
| `QRGenerator.FramePath` | components/QRGenerator.tsx:187-202 | the path holds only path calls; the native branch is one `roundRect` on the same rectangle and radius that the fallback uses |
| `QRGenerator.FramedPlan` | components/QRGenerator.tsx:157-209 | the first calls size the canvas to (W+2b)×(H+2b); the last call saves `qr-pro-frame.png` as `image/png`; nothing is saved before that |
| `QRGenerator.FramedPicture` | components/QRGenerator.tsx:161-203 | the expected picture is (W+2b)×(H+2b) with three layers in this order: a white fill of the whole canvas, the W×H image inset by b on every side, and a stroke b wide in the frame colour with the style's dash along the frame path |
| `QRGenerator.BackgroundReplay` | components/QRGenerator.tsx:161-169 | sizing, filling and drawing the image resets the context and leaves exactly the white fill and the inset image on the canvas |
| `QRGenerator.StrokeStyleReplay` | components/QRGenerator.tsx:172-185 | the style calls set the line width to b, the stroke colour to the frame colour and the dash to the style's pattern, and leave an empty path |
| `QRGenerator.OutlineReplay` | components/QRGenerator.tsx:187-209 | tracing the path, stroking and saving adds one stroked layer in the current style and saves the picture |
| `QRGenerator.PreparedCanvas` | components/QRGenerator.tsx:161-185 | after the background and style calls the canvas is (W+2b)×(H+2b), holds the white fill and the inset image, has line width b, the frame colour, the style's dash and an empty path, and nothing is saved |
| `QRGenerator.FramedPictureFromPrepared` | components/QRGenerator.tsx:187-209 | stroking the frame path over such a canvas gives the expected framed picture |
| `QRGenerator.FramedPlanSavesPicture` | components/QRGenerator.tsx:157-209 | replaying the framed plan on a new canvas saves exactly one file, `qr-pro-frame.png`, holding the expected framed picture |
| `QRGenerator.ExportPlan` | components/QRGenerator.tsx:135-217 | without a frame, the library download of `qr-pro-studio`/`png` happens exactly when the library instance exists; with a frame, the export fails exactly when the raw PNG or the 2D context is missing, with the matching error and no canvas calls; otherwise the framed plan is made |
| `QRGenerator.FramedExportSaves` | components/QRGenerator.tsx:143-209 | a framed export that gets its PNG and a context saves exactly the framed picture as `qr-pro-frame.png` |
| `QRGenerator.DrawBackground` | components/QRGenerator.tsx:161-169 | makes the background calls on the canvas in order and leaves it sized (W+2b)×(H+2b) |
| `QRGenerator.SetFrameStyle` | components/QRGenerator.tsx:172-185 | makes the line width, colour, dash and `beginPath` calls in order |
| `QRGenerator.TraceRightCorners` | components/QRGenerator.tsx:196-198 | makes the first half of the hand-built path: the move and the arcs at the two right-hand corners |
| `QRGenerator.TraceLeftCorners` | components/QRGenerator.tsx:199-201 | makes the arcs at the two left-hand corners and the close |
| `QRGenerator.TracePath` | components/QRGenerator.tsx:187-202 | makes the `roundRect` call when the browser has it and the hand-built path otherwise, and nothing else |
| `QRGenerator.DrawOutline` | components/QRGenerator.tsx:187-209 | traces the native or the hand-built path on the stroke rectangle it computes from the canvas size, then strokes and saves |
| `QRGenerator.ComposeFrame` | components/QRGenerator.tsx:153-209 | the calls made on the fresh canvas are exactly the framed plan, and with a thickness of at least 1 the canvas then holds exactly one saved file, `qr-pro-frame.png`, with the expected framed picture |
| `QRGenerator.Generator.constructor` | components/QRGenerator.tsx:42-52 | the generator starts with the default configuration, only the content section open, and not busy |
| `QRGenerator.Generator.HandleDownload` | components/QRGenerator.tsx:135-217 | the outcome is `ExportPlan` of the current frame settings; the configuration is unchanged; the busy flag is false afterwards on every path |
| `QRGenerator.Generator.RemoveLogo` | components/QRGenerator.tsx:219-222 | the logo is cleared and the file input gets the new key |
| `QRScanner.IsUrl` | components/QRScanner.tsx:12-20 | a text that fails to parse is not an address (the predicate is true exactly for parsed `http:`/`https:` protocols) |
| `QRScanner.ShouldRedirect` | components/QRScanner.tsx:65 | no redirect is started for a null or empty result or with auto-redirect off; a redirect is only started for a result that parses as an http(s) address |
| `QRScanner.RedirectEffect` | components/QRScanner.tsx:62-78 | the previous timer is cleared; a new timer is started exactly when the result is non-empty, auto-redirect is on and `isUrl` holds; it targets exactly the result and sets the countdown to 3 |
| `QRScanner.Rerender` | components/QRScanner.tsx:62-78 | when neither `scanResult` nor `autoRedirect` changed, the state is left exactly as the render made it; when either changed, a redirect is pending exactly when it should be, and it targets the current result; the result, the switch and the paused flag are never touched |
| `QRScanner.Step` | components/QRScanner.tsx:44-86 | a decode stores the text and pauses the scanner; a reset clears the result and the countdown and resumes scanning; the switch flips auto-redirect and a redirect is then pending exactly when it should be; a timer firing only clears the timer; whenever the result changes, a redirect is pending exactly when it should be |
| `QRScanner.InitialValid` | components/QRScanner.tsx:6-8 | the initial state satisfies the scanner invariant |
| `QRScanner.StepValid` | components/QRScanner.tsx:44-86 | every event preserves the invariant: a pending timer targets the current URL result with auto-redirect on and the countdown at 3; the scanner is paused exactly while a result is held |
| `QRScanner.RunValid` | components/QRScanner.tsx:44-86 | every sequence of events preserves the invariant |
| `QRScanner.RedirectIsCurrent` | components/QRScanner.tsx:62-78 | whatever events came before, a firing timer opens the current result, which is an http(s) address, and only while auto-redirect is on |
| `QRScanner.ResetCancelsRedirect` | components/QRScanner.tsx:80-86 | after a reset no redirect is pending, so a timer firing next navigates nowhere |
| `QRScanner.ToggleOffCancelsRedirect` | components/QRScanner.tsx:62-78 | switching auto-redirect off cancels any pending redirect |
| `QRScanner.Scanner.constructor` | components/QRScanner.tsx:6-9 | the scanner starts with no result, auto-redirect on, no countdown, scanning, and no timer |
| `QRScanner.Scanner.AfterRender` | components/QRScanner.tsx:62-78 | the effect runs only if `scanResult` or `autoRedirect` differ from their previous values, and then behaves as `RedirectEffect` |
| `QRScanner.Scanner.OnDecoded` | components/QRScanner.tsx:44-47 | follows `Step` for a decode and keeps the invariant |
| `QRScanner.Scanner.Reset` | components/QRScanner.tsx:80-86 | follows `Step` for a reset and keeps the invariant |
| `QRScanner.Scanner.ToggleAutoRedirect` | components/QRScanner.tsx:105 | follows `Step` for the switch and keeps the invariant |
| `QRScanner.Scanner.FireTimer` | components/QRScanner.tsx:72-74 | navigates to the pending timer's address, which is the current result and an http(s) address with auto-redirect on; the timer is then gone |
| `QRScanner.Scanner.CopyToClipboard` | components/QRScanner.tsx:88-93 | copies exactly the current result, and copies nothing when the result is null or empty |

## Left out

- The QR library's encoding and rendering, and its update on every configuration
  change: a foreign library. Its raw PNG is an input, `Env.raw`, which holds the
  image size or nothing.
- Loading the PNG into an image. The model takes the loaded size as an input. If the
  image never loads, the awaited promise never settles and the busy flag stays set.
  The model does not capture that case.
- Failures of the library's own download, and the exact alert text. The model records
  the library download as an outcome and an error as `Failed`.
- Pixels: rasterising the stroke, anti-aliasing, arc tessellation and PNG encoding by
  `toDataURL`. Saving is the single call `SaveAs` with the picture's layers.
- Canvas colour parsing (the browser ignores an invalid colour) and limits on canvas
  size. Colours come from colour inputs.
- The inside of the native `roundRect`, including how it scales radii down.
  `FramePath` uses one `RoundRect` call with the same arguments as the fallback. The
  two paths are not proved to draw the same shape.
- The source creates the canvas element before it asks for the 2D context. Creating
  the element has no visible effect, so the model creates the canvas only once the
  context is known to exist.
- QRGenerator.FramedPlanSavesPicture: requires a thickness of at least 1, because the
  browser ignores a line width of 0. The thickness slider starts at 1
  (components/QRGenerator.tsx:399).
- QRGenerator.FramedExportSaves: requires a thickness of at least 1, for the same
  reason.
- Handlers outside this core: `handleChange` for the content and margin,
  `handleDotStyleChange`, `handleCornerDotStyleChange` and `handleLogoUpload` (which
  uses a file reader).
- The live-preview border and all markup, and the app's tab switching: UI only.
- The camera scanner library: acquiring the camera, its decode loop, and
  `render`/`clear`/`pause`/`resume`. Only the paused flag is kept. The error the library
  raises when resuming a scanner that is not paused is not modelled.
- Unmounting the scanner, whose effect cleanup also clears the timer.
- The clipboard, `alert`, navigation through `window.location`, and real timer delays.
  The timer is one slot that is pending or empty. `FireTimer` returns the address the
  page would open.
- The browser's URL parser, which stays abstract as the function `parse`.
- Clamping of the corner radius: the radius is passed through unclamped (`ArcPath`,
  `FramePath`).
- A two-line `double` frame: `double` is stroked as a solid line (`DashPattern`).
- A canvas export without a frame: the library's own download saves
  `qr-pro-studio.png`, and no canvas is built.
