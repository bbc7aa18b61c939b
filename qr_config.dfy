/**
 * The generator's configuration record (types.ts) and the pure updaters that the
 * generator's event handlers pass to React's state setters
 * (components/QRGenerator.tsx). Each updater is a spread-copy `prev => ({...prev, ...})`;
 * here each is a function from the old record to the new one, and its contract says
 * which fields it changes and which it leaves alone.
 */
module QRConfig {
  import opened Wrappers

  datatype DotType = Square | Dots | Rounded | Classy | ClassyRounded | ExtraRounded
  datatype CornerSquareType = Square | Dot | ExtraRounded
  datatype CornerDotType = Square | Dot
  datatype FrameStyle = Solid | Dashed | Dotted | Double

  // TypeScript's field name `type` is a Dafny keyword, so it is called `kind` here.
  datatype DotsOptions = DotsOptions(color: string, kind: DotType)
  datatype BackgroundOptions = BackgroundOptions(color: string)
  datatype ImageOptions = ImageOptions(crossOrigin: string, margin: int, imageSize: Option<real>)
  datatype CornersSquareOptions = CornersSquareOptions(kind: CornerSquareType, color: Option<string>)
  datatype CornersDotOptions = CornersDotOptions(kind: CornerDotType, color: Option<string>)

  /** The decorative border: pixel sizes come from integer range sliders. */
  datatype FrameOptions = FrameOptions(
    enabled: bool,
    style: FrameStyle,
    color: string,
    thickness: nat,
    cornerRadius: nat)

  datatype QRConfig = QRConfig(
    data: string,
    width: int,
    height: int,
    margin: Option<int>,
    image: Option<string>,
    dotsOptions: DotsOptions,
    backgroundOptions: BackgroundOptions,
    imageOptions: ImageOptions,
    cornersSquareOptions: Option<CornersSquareOptions>,
    cornersDotOptions: Option<CornersDotOptions>,
    frameOptions: FrameOptions)

  const Green := "#15803d"

  /** The configuration the generator starts with. */
  const Default := QRConfig(
    "https://example.com", 500, 500, Some(0), Some(""),
    DotsOptions(Green, DotType.Rounded),
    BackgroundOptions("#ffffff"),
    ImageOptions("anonymous", 10, Some(0.4)),
    Some(CornersSquareOptions(CornerSquareType.ExtraRounded, Some(Green))),
    Some(CornersDotOptions(CornerDotType.Dot, Some(Green))),
    FrameOptions(false, Solid, Green, 10, 0))

  // ---------------------------------------------------------------------------
  // Collapsible sections of the settings panel

  datatype Section = Content | Appearance | Frame | Logo
  datatype Sections = Sections(content: bool, appearance: bool, frame: bool, logo: bool)

  const InitialSections := Sections(true, false, false, false)

  function Expanded(s: Sections, k: Section): bool {
    match k
    case Content => s.content
    case Appearance => s.appearance
    case Frame => s.frame
    case Logo => s.logo
  }

  /** `toggleSection`: flips the one section named and no other. */
  function ToggleSection(s: Sections, k: Section): (r: Sections)
    ensures Expanded(r, k) == !Expanded(s, k)
    ensures forall j :: j != k ==> Expanded(r, j) == Expanded(s, j)
  {
    match k
    case Content => s.(content := !s.content)
    case Appearance => s.(appearance := !s.appearance)
    case Frame => s.(frame := !s.frame)
    case Logo => s.(logo := !s.logo)
  }

  /** Toggling the same section twice restores the panel. */
  lemma ToggleSectionTwice(s: Sections, k: Section)
    ensures ToggleSection(ToggleSection(s, k), k) == s
  {
  }

  // ---------------------------------------------------------------------------
  // Frame options: `handleFrameChange(key, value)`

  datatype FrameKey = EnabledKey | StyleKey | ColorKey | ThicknessKey | CornerRadiusKey

  /** A frame field's value, tagged so that fields of different types can be compared. */
  datatype FrameValue = Flag(b: bool) | StyleValue(s: FrameStyle) | Text(t: string) | Pixels(n: nat)

  /** One call of the handler: the key together with a value of that key's type. */
  datatype FrameUpdate =
    | SetEnabled(enabled: bool)
    | SetStyle(style: FrameStyle)
    | SetColor(color: string)
    | SetThickness(thickness: nat)
    | SetCornerRadius(cornerRadius: nat)

  function Field(f: FrameOptions, k: FrameKey): FrameValue {
    match k
    case EnabledKey => Flag(f.enabled)
    case StyleKey => StyleValue(f.style)
    case ColorKey => Text(f.color)
    case ThicknessKey => Pixels(f.thickness)
    case CornerRadiusKey => Pixels(f.cornerRadius)
  }

  function KeyOf(u: FrameUpdate): FrameKey {
    match u
    case SetEnabled(_) => EnabledKey
    case SetStyle(_) => StyleKey
    case SetColor(_) => ColorKey
    case SetThickness(_) => ThicknessKey
    case SetCornerRadius(_) => CornerRadiusKey
  }

  function ValueOf(u: FrameUpdate): FrameValue {
    match u
    case SetEnabled(b) => Flag(b)
    case SetStyle(s) => StyleValue(s)
    case SetColor(c) => Text(c)
    case SetThickness(n) => Pixels(n)
    case SetCornerRadius(n) => Pixels(n)
  }

  /** `handleFrameChange`: exactly the one frame field named takes the new value. */
  function FrameChanged(c: QRConfig, u: FrameUpdate): (r: QRConfig)
    ensures r.(frameOptions := c.frameOptions) == c
    ensures Field(r.frameOptions, KeyOf(u)) == ValueOf(u)
    ensures forall k :: k != KeyOf(u) ==> Field(r.frameOptions, k) == Field(c.frameOptions, k)
  {
    var f := c.frameOptions;
    c.(frameOptions :=
      match u
      case SetEnabled(b) => f.(enabled := b)
      case SetStyle(s) => f.(style := s)
      case SetColor(col) => f.(color := col)
      case SetThickness(n) => f.(thickness := n)
      case SetCornerRadius(n) => f.(cornerRadius := n))
  }

  /** Two frame options that agree on every field are the same options. */
  lemma FieldsDetermineFrame(f: FrameOptions, g: FrameOptions)
    requires forall k :: Field(f, k) == Field(g, k)
    ensures f == g
  {
    assert Field(f, EnabledKey) == Field(g, EnabledKey);
    assert Field(f, StyleKey) == Field(g, StyleKey);
    assert Field(f, ColorKey) == Field(g, ColorKey);
    assert Field(f, ThicknessKey) == Field(g, ThicknessKey);
    assert Field(f, CornerRadiusKey) == Field(g, CornerRadiusKey);
  }

  /** A later change of the same frame field overrides the earlier one. */
  lemma FrameChangeLastWins(c: QRConfig, u: FrameUpdate, v: FrameUpdate)
    requires KeyOf(u) == KeyOf(v)
    ensures FrameChanged(FrameChanged(c, u), v) == FrameChanged(c, v)
  {
    var a := FrameChanged(FrameChanged(c, u), v).frameOptions;
    var b := FrameChanged(c, v).frameOptions;
    forall k ensures Field(a, k) == Field(b, k) {
    }
    FieldsDetermineFrame(a, b);
  }

  /** Changes to different frame fields commute. */
  lemma FrameChangesCommute(c: QRConfig, u: FrameUpdate, v: FrameUpdate)
    requires KeyOf(u) != KeyOf(v)
    ensures FrameChanged(FrameChanged(c, u), v) == FrameChanged(FrameChanged(c, v), u)
  {
    var a := FrameChanged(FrameChanged(c, u), v).frameOptions;
    var b := FrameChanged(FrameChanged(c, v), u).frameOptions;
    forall k ensures Field(a, k) == Field(b, k) {
    }
    FieldsDetermineFrame(a, b);
  }

  // ---------------------------------------------------------------------------
  // Colours and corner styles

  /** The dots, corner squares and corner dots are all drawn in `color`. */
  predicate ColorsUnified(c: QRConfig, color: string) {
    && c.dotsOptions.color == color
    && c.cornersSquareOptions.Some? && c.cornersSquareOptions.value.color == Some(color)
    && c.cornersDotOptions.Some? && c.cornersDotOptions.value.color == Some(color)
  }

  /**
   * `handleCornerSquareStyleChange`: the corner squares take the new shape and the
   * dots' current colour; everything else is kept.
   */
  function CornerSquareStyleChanged(c: QRConfig, kind: CornerSquareType): (r: QRConfig)
    ensures r.(cornersSquareOptions := c.cornersSquareOptions) == c
    ensures r.cornersSquareOptions.Some?
    ensures r.cornersSquareOptions.value.kind == kind
    ensures r.cornersSquareOptions.value.color == Some(c.dotsOptions.color)
  {
    // Spreading the old options (present or not) and then overriding both of
    // their fields leaves nothing of them.
    c.(cornersSquareOptions := Some(CornersSquareOptions(kind, Some(c.dotsOptions.color))))
  }

  /**
   * `handleColorChange`: the dots, corner squares and corner dots all take the new
   * colour; a corner shape that was never chosen defaults to `extra-rounded` (squares)
   * and `dot` (dots); the dot shape and every other field are kept.
   */
  function ColorChanged(c: QRConfig, color: string): (r: QRConfig)
    ensures ColorsUnified(r, color)
    ensures r.(dotsOptions := c.dotsOptions,
               cornersSquareOptions := c.cornersSquareOptions,
               cornersDotOptions := c.cornersDotOptions) == c
    ensures r.dotsOptions.kind == c.dotsOptions.kind
    ensures r.cornersSquareOptions.value.kind ==
            if c.cornersSquareOptions.Some? then c.cornersSquareOptions.value.kind else CornerSquareType.ExtraRounded
    ensures r.cornersDotOptions.value.kind ==
            if c.cornersDotOptions.Some? then c.cornersDotOptions.value.kind else CornerDotType.Dot
  {
    var squareKind := match c.cornersSquareOptions
      case Some(o) => o.kind
      case None => CornerSquareType.ExtraRounded;
    var dotKind := match c.cornersDotOptions
      case Some(o) => o.kind
      case None => CornerDotType.Dot;
    c.(dotsOptions := c.dotsOptions.(color := color),
       cornersSquareOptions := Some(CornersSquareOptions(squareKind, Some(color))),
       cornersDotOptions := Some(CornersDotOptions(dotKind, Some(color))))
  }

  /** Picking a corner-square shape after a colour change keeps all three colours equal. */
  lemma CornerStyleKeepsColorsUnified(c: QRConfig, color: string, kind: CornerSquareType)
    requires ColorsUnified(c, color)
    ensures ColorsUnified(CornerSquareStyleChanged(c, kind), color)
  {
  }

  /** The starting configuration already draws every part in the same green. */
  lemma DefaultColorsUnified()
    ensures ColorsUnified(Default, Green)
  {
  }

  // ---------------------------------------------------------------------------
  // Logo and size

  /** `removeLogo` (its configuration half): the logo image becomes the empty string. */
  function LogoRemoved(c: QRConfig): (r: QRConfig)
    ensures r.image == Some("")
    ensures r.(image := c.image) == c
  {
    c.(image := Some(""))
  }

  /** The logo-size slider: only `imageOptions.imageSize` changes. */
  function LogoSizeChanged(c: QRConfig, size: real): (r: QRConfig)
    ensures r.imageOptions.imageSize == Some(size)
    ensures r.imageOptions.(imageSize := c.imageOptions.imageSize) == c.imageOptions
    ensures r.(imageOptions := c.imageOptions) == c
  {
    c.(imageOptions := c.imageOptions.(imageSize := Some(size)))
  }

  /** The resolution slider: the image stays square, both sides taking the new size. */
  function ResolutionChanged(c: QRConfig, size: int): (r: QRConfig)
    ensures r.width == r.height == size
    ensures r.(width := c.width, height := c.height) == c
  {
    c.(width := size, height := size)
  }
}
