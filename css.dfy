/** `generateCSS`: the stylesheet is one template whose values are either
    fixed text or a slot of the theme's palette; one declaration is present
    only under the modern theme. The stylesheet for a theme fills the slots
    from that theme's palette, and its text is the rendering of the rules. */
module PortfolioCss {
  import opened Seqs
  import opened Text
  import Portfolio
  import PortfolioHtml

  type Theme = Portfolio.Theme

  /** The colours and shadow of a theme. */
  datatype Palette = Palette(background: FixedValue, text: FixedValue, card: FixedValue,
                             accent: FixedValue, border: FixedValue, shadow: FixedValue)

  /** The palette table of the stylesheet generator. */
  function PaletteOf(theme: Theme): Palette {
    match theme
    case Light => Palette(White, Gray800, Gray50, Violet500, Gray200, SoftShadow)
    case Dark => Palette(Gray900, Gray50, Gray800, Violet500, Gray700, DeepShadow)
    case Modern => Palette(PurpleGradient, White, FrostedWhite, Amber400, TranslucentWhite, GlassShadow)
  }

  /** The light and dark themes share their accent; the modern one has its own. */
  lemma PaletteAccents()
    ensures PaletteOf(Portfolio.Light).accent == PaletteOf(Portfolio.Dark).accent
    ensures PaletteOf(Portfolio.Modern).accent != PaletteOf(Portfolio.Light).accent
    ensures FixedText(PaletteOf(Portfolio.Light).accent) == "#8b5cf6"
    ensures FixedText(PaletteOf(Portfolio.Modern).accent) == "#fbbf24"
  {
  }

  /** The CSS properties the stylesheet sets. */
  datatype Property =
    | Margin | Padding | BoxSizing | FontFamily | LineHeight | Color | Background
    | MinHeight | MaxWidth | BorderRadius | BoxShadow | BackdropFilter | Border
    | TextAlign | MarginBottom | Width | Height | ObjectFit | Display | AlignItems
    | JustifyContent | FontSize | Opacity | Content | FontWeight | Gap | FlexWrap
    | TextDecoration | Transition | Transform

  function PropertyName(p: Property): string {
    match p
    case Margin => "margin"
    case Padding => "padding"
    case BoxSizing => "box-sizing"
    case FontFamily => "font-family"
    case LineHeight => "line-height"
    case Color => "color"
    case Background => "background"
    case MinHeight => "min-height"
    case MaxWidth => "max-width"
    case BorderRadius => "border-radius"
    case BoxShadow => "box-shadow"
    case BackdropFilter => "backdrop-filter"
    case Border => "border"
    case TextAlign => "text-align"
    case MarginBottom => "margin-bottom"
    case Width => "width"
    case Height => "height"
    case ObjectFit => "object-fit"
    case Display => "display"
    case AlignItems => "align-items"
    case JustifyContent => "justify-content"
    case FontSize => "font-size"
    case Opacity => "opacity"
    case Content => "content"
    case FontWeight => "font-weight"
    case Gap => "gap"
    case FlexWrap => "flex-wrap"
    case TextDecoration => "text-decoration"
    case Transition => "transition"
    case Transform => "transform"
  }

  /** The selectors of the stylesheet's rules. */
  datatype Selector =
    | Everything | Body | Container | Header | ProfileImage | Placeholder | PlaceholderIcon
    | Name | Bio | SocialLinks | SocialLink | SocialLinkHover | SocialIcon
    | SkillsHeading | SkillsContainer | SkillTag | SkillTagHover

  function SelectorText(s: Selector): string {
    match s
    case Everything => "*"
    case Body => "body"
    case Container => "." + PortfolioHtml.ContainerClass
    case Header => ".portfolio-header"
    case ProfileImage => "." + PortfolioHtml.ProfileImageClass
    case Placeholder => "." + PortfolioHtml.ProfilePlaceholderClass
    case PlaceholderIcon => "." + PortfolioHtml.ProfilePlaceholderClass + "::before"
    case Name => ".name"
    case Bio => ".bio"
    case SocialLinks => ".social-links"
    case SocialLink => "." + PortfolioHtml.SocialLinkClass
    case SocialLinkHover => "." + PortfolioHtml.SocialLinkClass + ":hover"
    case SocialIcon => ".social-icon"
    case SkillsHeading => ".skills-section h2"
    case SkillsContainer => ".skills-container"
    case SkillTag => "." + PortfolioHtml.SkillTagClass
    case SkillTagHover => "." + PortfolioHtml.SkillTagClass + ":hover"
  }

  /** Where a themed value comes from: a palette entry, or the text colour
      drawn on the accent (black on the modern theme, white otherwise). */
  datatype Slot = PageBackground | TextColour | CardBackground | AccentColour
                | BorderColour | ShadowValue | OnAccent

  function SlotValue(theme: Theme, slot: Slot): FixedValue {
    var p := PaletteOf(theme);
    match slot
    case PageBackground => p.background
    case TextColour => p.text
    case CardBackground => p.card
    case AccentColour => p.accent
    case BorderColour => p.border
    case ShadowValue => p.shadow
    case OnAccent => OnAccentColour(theme)
  }

  /** The fixed values the template writes. */
  datatype FixedValue =
    | Zero | BorderBox | InterFontStack | LineSpacing | FullHeight | Rem2 | Px800 | CentredBlock
    | Rem3 | Px20 | Blur10px | Centre | Px150 | Round | Cover | Rem1_5 | CentredAboveGap | Flex
    | HalfOpacity | PersonIcon | Rem2_5 | Weight700 | Rem1 | Rem1_1 | MostlyOpaque | Px600 | Wrap
    | InlineFlex | Px50 | NoDecoration | Weight600 | EaseAll | LinkHoverLift | LinkHoverGlow
    | Rem0_8 | Rem1_8 | Rem0_75 | TagPadding | Px25 | Rem0_9 | Weight500 | TagHoverLift
    | TagHoverGlow | Px45 | Solid1px | Solid4px
    | White | Gray50 | Gray200 | Gray700 | Gray800 | Gray900 | Violet500 | Amber400
    | PurpleGradient | FrostedWhite | TranslucentWhite | SoftShadow | DeepShadow | GlassShadow
    | Black | ShortWhite

  function FixedText(v: FixedValue): string {
    match v
    case Zero => "0"
    case BorderBox => "border-box"
    case InterFontStack => "'Inter', -apple-system, BlinkMacSystemFont, 'Segoe UI', Roboto, sans-serif"
    case LineSpacing => "1.6"
    case FullHeight => "100vh"
    case Rem2 => "2rem"
    case Px800 => "800px"
    case CentredBlock => "0 auto"
    case Rem3 => "3rem"
    case Px20 => "20px"
    case Blur10px => "blur(10px)"
    case Centre => "center"
    case Px150 => "150px"
    case Round => "50%"
    case Cover => "cover"
    case Rem1_5 => "1.5rem"
    case CentredAboveGap => "0 auto 1.5rem"
    case Flex => "flex"
    case HalfOpacity => "0.5"
    case PersonIcon => "\"\U{1F464}\""
    case Rem2_5 => "2.5rem"
    case Weight700 => "700"
    case Rem1 => "1rem"
    case Rem1_1 => "1.1rem"
    case MostlyOpaque => "0.8"
    case Px600 => "600px"
    case Wrap => "wrap"
    case InlineFlex => "inline-flex"
    case Px50 => "50px"
    case NoDecoration => "none"
    case Weight600 => "600"
    case EaseAll => "all 0.3s ease"
    case LinkHoverLift => "translateY(-3px) scale(1.1)"
    case LinkHoverGlow => "0 8px 25px rgba(139, 92, 246, 0.3)"
    case Rem0_8 => "0.8rem"
    case Rem1_8 => "1.8rem"
    case Rem0_75 => "0.75rem"
    case TagPadding => "0.5rem 1rem"
    case Px25 => "25px"
    case Rem0_9 => "0.9rem"
    case Weight500 => "500"
    case TagHoverLift => "translateY(-2px)"
    case TagHoverGlow => "0 6px 20px rgba(139, 92, 246, 0.3)"
    case Px45 => "45px"
    case Solid1px => "1px solid"
    case Solid4px => "4px solid"
    case White => "#ffffff"
    case Gray50 => "#f9fafb"
    case Gray200 => "#e5e7eb"
    case Gray700 => "#374151"
    case Gray800 => "#1f2937"
    case Gray900 => "#111827"
    case Violet500 => "#8b5cf6"
    case Amber400 => "#fbbf24"
    case PurpleGradient => "linear-gradient(135deg, #667eea 0%, #764ba2 100%)"
    case FrostedWhite => "rgba(255, 255, 255, 0.1)"
    case TranslucentWhite => "rgba(255, 255, 255, 0.2)"
    case SoftShadow => "0 4px 6px -1px rgba(0, 0, 0, 0.1)"
    case DeepShadow => "0 4px 6px -1px rgba(0, 0, 0, 0.3)"
    case GlassShadow => "0 8px 32px rgba(0, 0, 0, 0.2)"
    case Black => "#000"
    case ShortWhite => "#fff"
  }

  /** A template value: a fixed value, a themed slot, or a fixed value and a
      themed slot separated by a space (a border's width and style, then its colour). */
  datatype Value = Fixed(fixed: FixedValue) | Themed(slot: Slot) | Prefixed(prefix: FixedValue, slot: Slot)

  /** The properties the template sets unconditionally: all but the backdrop filter. */
  type StaticProperty = p: Property | p != BackdropFilter witness Margin

  /** A line of a template rule: a declaration, or the backdrop filter that
      the template writes only when the theme is modern. */
  datatype TemplateLine = Decl(property: StaticProperty, value: Value) | BackdropIfModern(filter: FixedValue)

  /** A line of a generated rule: a declaration, or the line left blank
      where a conditional declaration was not emitted. */
  datatype Line = Declaration(property: Property, value: CssValue) | BlankLine

  /** A generated value: one fixed value, or two separated by a space. */
  datatype CssValue = Word(word: FixedValue) | Phrase(first: FixedValue, second: FixedValue)

  function CssValueText(v: CssValue): string {
    match v
    case Word(w) => FixedText(w)
    case Phrase(a, b) => FixedText(a) + " " + FixedText(b)
  }

  datatype StyleRule = StyleRule(selector: Selector, lines: seq<Line>)

  /** The generated stylesheet: its rules, then one media block. */
  datatype Stylesheet = Stylesheet(rules: seq<StyleRule>, mediaQuery: string, mediaRules: seq<StyleRule>)

  /** The lines of each rule, as the template writes them. */
  function Template(s: Selector): seq<TemplateLine> {
    match s
    case Everything => EverythingLines()
    case Body => BodyLines()
    case Container => ContainerLines()
    case Header => HeaderLines()
    case ProfileImage => ProfileImageLines()
    case Placeholder => PlaceholderLines()
    case PlaceholderIcon => PlaceholderIconLines()
    case Name => NameLines()
    case Bio => BioLines()
    case SocialLinks => SocialLinksLines()
    case SocialLink => SocialLinkLines()
    case SocialLinkHover => SocialLinkHoverLines()
    case SocialIcon => SocialIconLines()
    case SkillsHeading => SkillsHeadingLines()
    case SkillsContainer => SkillsContainerLines()
    case SkillTag => SkillTagLines()
    case SkillTagHover => SkillTagHoverLines()
  }

  function EverythingLines(): seq<TemplateLine> {
    [Decl(Margin, Fixed(Zero)), Decl(Padding, Fixed(Zero)), Decl(BoxSizing, Fixed(BorderBox))]
  }

  function BodyLines(): seq<TemplateLine> {
    [ Decl(FontFamily, Fixed(InterFontStack)),
      Decl(LineHeight, Fixed(LineSpacing)), Decl(Color, Themed(TextColour)), Decl(Background, Themed(PageBackground)),
      Decl(MinHeight, Fixed(FullHeight)), Decl(Padding, Fixed(Rem2)) ]
  }

  function ContainerLines(): seq<TemplateLine> {
    [ Decl(MaxWidth, Fixed(Px800)), Decl(Margin, Fixed(CentredBlock)), Decl(Padding, Fixed(Rem3)),
      Decl(Background, Themed(CardBackground)), Decl(BorderRadius, Fixed(Px20)),
      Decl(BoxShadow, Themed(ShadowValue)), BackdropIfModern(Blur10px),
      Decl(Border, Prefixed(Solid1px, BorderColour)) ]
  }

  function HeaderLines(): seq<TemplateLine> {
    [Decl(TextAlign, Fixed(Centre)), Decl(MarginBottom, Fixed(Rem3))]
  }

  function ProfileImageLines(): seq<TemplateLine> {
    [ Decl(Width, Fixed(Px150)), Decl(Height, Fixed(Px150)), Decl(BorderRadius, Fixed(Round)), Decl(ObjectFit, Fixed(Cover)),
      Decl(Border, Prefixed(Solid4px, AccentColour)), Decl(MarginBottom, Fixed(Rem1_5)),
      Decl(BoxShadow, Themed(ShadowValue)) ]
  }

  function PlaceholderLines(): seq<TemplateLine> {
    [ Decl(Width, Fixed(Px150)), Decl(Height, Fixed(Px150)), Decl(BorderRadius, Fixed(Round)),
      Decl(Background, Themed(BorderColour)), Decl(Margin, Fixed(CentredAboveGap)), Decl(Display, Fixed(Flex)),
      Decl(AlignItems, Fixed(Centre)), Decl(JustifyContent, Fixed(Centre)), Decl(FontSize, Fixed(Rem3)),
      Decl(Color, Themed(TextColour)), Decl(Opacity, Fixed(HalfOpacity)) ]
  }

  function PlaceholderIconLines(): seq<TemplateLine> {
    [Decl(Content, Fixed(PersonIcon))]
  }

  function NameLines(): seq<TemplateLine> {
    [ Decl(FontSize, Fixed(Rem2_5)), Decl(FontWeight, Fixed(Weight700)), Decl(MarginBottom, Fixed(Rem1)),
      Decl(Color, Themed(AccentColour)) ]
  }

  function BioLines(): seq<TemplateLine> {
    [ Decl(FontSize, Fixed(Rem1_1)), Decl(Color, Themed(TextColour)), Decl(Opacity, Fixed(MostlyOpaque)),
      Decl(MaxWidth, Fixed(Px600)), Decl(Margin, Fixed(CentredBlock)) ]
  }

  function SocialLinksLines(): seq<TemplateLine> {
    [ Decl(Display, Fixed(Flex)), Decl(JustifyContent, Fixed(Centre)), Decl(Gap, Fixed(Rem1)),
      Decl(MarginBottom, Fixed(Rem3)), Decl(FlexWrap, Fixed(Wrap)) ]
  }

  function SocialLinkLines(): seq<TemplateLine> {
    [ Decl(Display, Fixed(InlineFlex)), Decl(AlignItems, Fixed(Centre)), Decl(JustifyContent, Fixed(Centre)),
      Decl(Width, Fixed(Px50)), Decl(Height, Fixed(Px50)), Decl(Background, Themed(AccentColour)),
      Decl(Color, Themed(OnAccent)), Decl(BorderRadius, Fixed(Round)), Decl(TextDecoration, Fixed(NoDecoration)),
      Decl(FontWeight, Fixed(Weight600)), Decl(Transition, Fixed(EaseAll)), Decl(BoxShadow, Themed(ShadowValue)) ]
  }

  function SocialLinkHoverLines(): seq<TemplateLine> {
    [ Decl(Transform, Fixed(LinkHoverLift)),
      Decl(BoxShadow, Fixed(LinkHoverGlow)) ]
  }

  function SocialIconLines(): seq<TemplateLine> {
    [Decl(FontSize, Fixed(Rem0_8))]
  }

  function SkillsHeadingLines(): seq<TemplateLine> {
    [ Decl(TextAlign, Fixed(Centre)), Decl(FontSize, Fixed(Rem1_8)), Decl(MarginBottom, Fixed(Rem1_5)),
      Decl(Color, Themed(AccentColour)) ]
  }

  function SkillsContainerLines(): seq<TemplateLine> {
    [ Decl(Display, Fixed(Flex)), Decl(FlexWrap, Fixed(Wrap)), Decl(Gap, Fixed(Rem0_75)), Decl(JustifyContent, Fixed(Centre)) ]
  }

  function SkillTagLines(): seq<TemplateLine> {
    [ Decl(Background, Themed(AccentColour)), Decl(Color, Themed(OnAccent)), Decl(Padding, Fixed(TagPadding)),
      Decl(BorderRadius, Fixed(Px25)), Decl(FontSize, Fixed(Rem0_9)), Decl(FontWeight, Fixed(Weight500)),
      Decl(Transition, Fixed(EaseAll)), Decl(BoxShadow, Themed(ShadowValue)) ]
  }

  function SkillTagHoverLines(): seq<TemplateLine> {
    [ Decl(Transform, Fixed(TagHoverLift)), Decl(BoxShadow, Fixed(TagHoverGlow)) ]
  }

  /** The rules of the stylesheet, in order. */
  const RuleOrder: seq<Selector> :=
    [ Everything, Body, Container, Header, ProfileImage, Placeholder, PlaceholderIcon, Name, Bio,
      SocialLinks, SocialLink, SocialLinkHover, SocialIcon, SkillsHeading, SkillsContainer,
      SkillTag, SkillTagHover ]

  const MediaQuery: string := "(max-width: 768px)"

  /** The rules of the narrow-screen media block, in order. */
  const MediaOrder: seq<Selector> := [Body, Container, Name, Bio, SocialLinks, SocialLink]

  /** The declarations of each rule of the media block; none is themed. */
  function MediaTemplate(s: Selector): seq<TemplateLine> {
    match s
    case Body => [Decl(Padding, Fixed(Rem1))]
    case Container => [Decl(Padding, Fixed(Rem2))]
    case Name => [Decl(FontSize, Fixed(Rem2))]
    case Bio => [Decl(FontSize, Fixed(Rem1))]
    case SocialLinks => [Decl(Gap, Fixed(Rem0_75))]
    case SocialLink => [Decl(Width, Fixed(Px45)), Decl(Height, Fixed(Px45))]
    case _ => []
  }

  function ResolveValue(v: Value, theme: Theme): CssValue {
    match v
    case Fixed(w) => Word(w)
    case Themed(slot) => Word(SlotValue(theme, slot))
    case Prefixed(prefix, slot) => Phrase(prefix, SlotValue(theme, slot))
  }

  /** A template line under `theme`: its slot filled from the palette, and
      the backdrop filter emitted on the modern theme and blank otherwise. */
  function ResolveLine(l: TemplateLine, theme: Theme): Line {
    match l
    case Decl(p, v) => Declaration(p, ResolveValue(v, theme))
    case BackdropIfModern(f) => if theme == Portfolio.Modern then Declaration(BackdropFilter, Word(f)) else BlankLine
  }

  function ResolveLines(ls: seq<TemplateLine>, theme: Theme): (r: seq<Line>)
    ensures |r| == |ls|
    ensures forall i :: 0 <= i < |ls| ==> r[i] == ResolveLine(ls[i], theme)
  {
    seq(|ls|, i requires 0 <= i < |ls| => ResolveLine(ls[i], theme))
  }

  /** The rule for `s` under `theme`. */
  function RuleFor(s: Selector, theme: Theme): StyleRule {
    StyleRule(s, ResolveLines(Template(s), theme))
  }

  function Rules(order: seq<Selector>, theme: Theme): (rs: seq<StyleRule>)
    ensures |rs| == |order|
    ensures forall i :: 0 <= i < |order| ==> rs[i] == RuleFor(order[i], theme)
  {
    seq(|order|, i requires 0 <= i < |order| => RuleFor(order[i], theme))
  }

  function MediaRules(order: seq<Selector>): (rs: seq<StyleRule>)
    ensures |rs| == |order|
    ensures forall i :: 0 <= i < |order| ==> rs[i] == StyleRule(order[i], ResolveLines(MediaTemplate(order[i]), Portfolio.Light))
  {
    seq(|order|, i requires 0 <= i < |order| => StyleRule(order[i], ResolveLines(MediaTemplate(order[i]), Portfolio.Light)))
  }

  /** The stylesheet for `theme`. */
  function StylesheetFor(theme: Theme): Stylesheet {
    Stylesheet(Rules(RuleOrder, theme), MediaQuery, MediaRules(MediaOrder))
  }

  /** The properties a list of lines declares, in order. */
  function Props(ls: seq<Line>): (ps: seq<Property>)
    ensures |ps| <= |ls|
  {
    if ls == [] then []
    else
      match ls[0]
      case Declaration(p, _) => [p] + Props(ls[1..])
      case BlankLine => Props(ls[1..])
  }

  /** Some line of `ls` declares `p`. */
  predicate Declares(ls: seq<Line>, p: Property) {
    exists i :: 0 <= i < |ls| && ls[i].Declaration? && ls[i].property == p
  }

  /** The properties a template sets on the modern theme, in order. */
  function TemplateProps(ls: seq<TemplateLine>): (ps: seq<Property>)
    ensures |ps| == |ls|
  {
    if ls == [] then []
    else [if ls[0].Decl? then ls[0].property else BackdropFilter] + TemplateProps(ls[1..])
  }

  predicate IsNotBackdrop(p: Property) { p != BackdropFilter }

  /** Apart from the backdrop filter, the properties a rule declares, and
      their order, are those of its template, whatever the theme. */
  lemma {:induction false} ResolvedShape(ls: seq<TemplateLine>, theme: Theme)
    ensures Filter(Props(ResolveLines(ls, theme)), IsNotBackdrop) == Filter(TemplateProps(ls), IsNotBackdrop)
  {
    if ls != [] {
      var r := ResolveLines(ls, theme);
      assert r == [ResolveLine(ls[0], theme)] + ResolveLines(ls[1..], theme);
      assert r[1..] == ResolveLines(ls[1..], theme);
      ResolvedShape(ls[1..], theme);
      var head := if ls[0].Decl? then ls[0].property else BackdropFilter;
      FilterConcat([head], TemplateProps(ls[1..]), IsNotBackdrop);
      if r[0].Declaration? {
        FilterConcat([r[0].property], Props(r[1..]), IsNotBackdrop);
      } else {
        assert Filter([head], IsNotBackdrop) == [];
      }
    }
  }

  /** Off the modern theme no line of any template declares the backdrop filter. */
  lemma NoBackdropOffModern(ls: seq<TemplateLine>, theme: Theme)
    requires theme != Portfolio.Modern
    ensures !Declares(ResolveLines(ls, theme), BackdropFilter)
  {
  }

  /** Every rule declares the same properties, in the same order, on every
      theme, except for the backdrop filter. */
  lemma RuleShapeIgnoresTheme(s: Selector, t1: Theme, t2: Theme)
    ensures Filter(Props(RuleFor(s, t1).lines), IsNotBackdrop)
         == Filter(Props(RuleFor(s, t2).lines), IsNotBackdrop)
  {
    ResolvedShape(Template(s), t1);
    ResolvedShape(Template(s), t2);
  }

  /** On the modern theme the container's rule carries the backdrop filter. */
  lemma ModernContainerBackdrop()
    ensures RuleFor(Container, Portfolio.Modern).lines[6] == Declaration(BackdropFilter, Word(Blur10px))
  {
  }

  /** Off the modern theme no rule of the stylesheet declares the backdrop filter. */
  lemma NoBackdropOffModernSheet(theme: Theme)
    requires theme != Portfolio.Modern
    ensures forall i :: 0 <= i < |StylesheetFor(theme).rules| ==>
              !Declares(StylesheetFor(theme).rules[i].lines, BackdropFilter)
  {
    var rules := StylesheetFor(theme).rules;
    forall i | 0 <= i < |rules| ensures !Declares(rules[i].lines, BackdropFilter) {
      NoBackdropOffModern(Template(RuleOrder[i]), theme);
    }
  }

  /** On the modern theme the container's rule, the third of the stylesheet,
      declares the backdrop filter. */
  lemma ModernSheetBackdrop()
    ensures StylesheetFor(Portfolio.Modern).rules[2].lines[6] == Declaration(BackdropFilter, Word(Blur10px))
  {
    ModernContainerBackdrop();
  }

  /** The stylesheet has a rule with a backdrop filter exactly on the modern theme. */
  lemma BackdropIffModern(theme: Theme)
    ensures (exists i :: 0 <= i < |StylesheetFor(theme).rules| &&
               Declares(StylesheetFor(theme).rules[i].lines, BackdropFilter))
            <==> theme == Portfolio.Modern
  {
    if theme == Portfolio.Modern {
      ModernSheetBackdrop();
      assert Declares(StylesheetFor(theme).rules[2].lines, BackdropFilter);
    } else {
      NoBackdropOffModernSheet(theme);
    }
  }

  /** The media block never sets the backdrop filter. */
  lemma MediaHasNoBackdrop(theme: Theme)
    ensures forall i :: 0 <= i < |StylesheetFor(theme).mediaRules| ==>
              !Declares(StylesheetFor(theme).mediaRules[i].lines, BackdropFilter)
  {
    var media := StylesheetFor(theme).mediaRules;
    forall i | 0 <= i < |media| ensures !Declares(media[i].lines, BackdropFilter) {
      NoBackdropOffModern(MediaTemplate(MediaOrder[i]), Portfolio.Light);
    }
  }

  /** The name is drawn in the theme's accent. */
  lemma NameUsesAccent(theme: Theme)
    ensures Declaration(Color, Word(PaletteOf(theme).accent)) in RuleFor(Name, theme).lines
  {
    assert RuleFor(Name, theme).lines[3] == Declaration(Color, Word(PaletteOf(theme).accent));
  }

  /** The skills heading is drawn in the theme's accent. */
  lemma SkillsHeadingUsesAccent(theme: Theme)
    ensures Declaration(Color, Word(PaletteOf(theme).accent)) in RuleFor(SkillsHeading, theme).lines
  {
    assert RuleFor(SkillsHeading, theme).lines[3] == Declaration(Color, Word(PaletteOf(theme).accent));
  }

  /** The profile picture is framed in the theme's accent. */
  lemma ProfileFrameUsesAccent(theme: Theme)
    ensures Declaration(Border, Phrase(Solid4px, PaletteOf(theme).accent)) in RuleFor(ProfileImage, theme).lines
  {
    assert RuleFor(ProfileImage, theme).lines[4] == Declaration(Border, Phrase(Solid4px, PaletteOf(theme).accent));
  }

  /** The text colour drawn on the accent: black on the modern theme, white otherwise. */
  function OnAccentColour(theme: Theme): FixedValue {
    if theme == Portfolio.Modern then Black else ShortWhite
  }

  /** Social links are accent-coloured, with black text on the modern theme
      and white text otherwise. */
  lemma SocialLinkColours(theme: Theme)
    ensures Declaration(Background, Word(PaletteOf(theme).accent)) in RuleFor(SocialLink, theme).lines
    ensures Declaration(Color, Word(OnAccentColour(theme))) in RuleFor(SocialLink, theme).lines
  {
    var ls := RuleFor(SocialLink, theme).lines;
    assert ls[5] == Declaration(Background, Word(PaletteOf(theme).accent));
    assert ls[6] == Declaration(Color, Word(OnAccentColour(theme)));
  }

  /** Skill tags are accent-coloured, with black text on the modern theme
      and white text otherwise. */
  lemma SkillTagColours(theme: Theme)
    ensures Declaration(Background, Word(PaletteOf(theme).accent)) in RuleFor(SkillTag, theme).lines
    ensures Declaration(Color, Word(OnAccentColour(theme))) in RuleFor(SkillTag, theme).lines
  {
    var ls := RuleFor(SkillTag, theme).lines;
    assert ls[0] == Declaration(Background, Word(PaletteOf(theme).accent));
    assert ls[1] == Declaration(Color, Word(OnAccentColour(theme)));
  }

  /** The page uses the theme's text colour and background. */
  lemma BodyColours(theme: Theme)
    ensures Declaration(Color, Word(PaletteOf(theme).text)) in RuleFor(Body, theme).lines
    ensures Declaration(Background, Word(PaletteOf(theme).background)) in RuleFor(Body, theme).lines
  {
    var ls := RuleFor(Body, theme).lines;
    assert ls[2] == Declaration(Color, Word(PaletteOf(theme).text));
    assert ls[3] == Declaration(Background, Word(PaletteOf(theme).background));
  }

  /** The container uses the theme's card colour, shadow and border colour. */
  lemma ContainerColours(theme: Theme)
    ensures Declaration(Background, Word(PaletteOf(theme).card)) in RuleFor(Container, theme).lines
    ensures Declaration(BoxShadow, Word(PaletteOf(theme).shadow)) in RuleFor(Container, theme).lines
    ensures Declaration(Border, Phrase(Solid1px, PaletteOf(theme).border)) in RuleFor(Container, theme).lines
  {
    var ls := RuleFor(Container, theme).lines;
    assert ls[3] == Declaration(Background, Word(PaletteOf(theme).card));
    assert ls[5] == Declaration(BoxShadow, Word(PaletteOf(theme).shadow));
    assert ls[7] == Declaration(Border, Phrase(Solid1px, PaletteOf(theme).border));
  }

  /** The hover glows are written as a fixed purple and do not follow the
      theme's accent. */
  lemma HoverGlowIsFixed(t1: Theme, t2: Theme)
    ensures RuleFor(SocialLinkHover, t1) == RuleFor(SocialLinkHover, t2)
    ensures RuleFor(SkillTagHover, t1) == RuleFor(SkillTagHover, t2)
  {
  }

  /** The text of one line, indented by `indent`; a blank line keeps its indentation. */
  function LineText(l: Line, indent: string): string {
    match l
    case Declaration(p, v) => indent + "    " + PropertyName(p) + ": " + CssValueText(v) + ";\n"
    case BlankLine => indent + "    \n"
  }

  function LineTexts(ls: seq<Line>, indent: string): (ts: seq<string>)
    ensures |ts| == |ls|
    ensures forall i :: 0 <= i < |ls| ==> ts[i] == LineText(ls[i], indent)
  {
    seq(|ls|, i requires 0 <= i < |ls| => LineText(ls[i], indent))
  }

  /** The text of one rule, indented by `indent` and closed by `close`. */
  function RuleText(r: StyleRule, indent: string, close: string): string {
    (indent + SelectorText(r.selector) + " {\n") + Concat(LineTexts(r.lines, indent)) + (indent + close)
  }

  /** The top-level rules, each followed by an empty line. */
  function RuleTexts(rs: seq<StyleRule>): (ts: seq<string>)
    ensures |ts| == |rs|
    ensures forall i :: 0 <= i < |rs| ==> ts[i] == RuleText(rs[i], "", "}\n\n")
  {
    seq(|rs|, i requires 0 <= i < |rs| => RuleText(rs[i], "", "}\n\n"))
  }

  /** The rules of the media block, indented one level and separated by a
      line holding only that indentation. */
  function MediaRuleTexts(rs: seq<StyleRule>): (ts: seq<string>)
    ensures |ts| == |rs|
  {
    seq(|rs|, i requires 0 <= i < |rs| => (if i == 0 then "" else "    \n") + RuleText(rs[i], "    ", "}\n"))
  }

  /** The text of the media block. */
  function MediaText(s: Stylesheet): string {
    "@media " + s.mediaQuery + " {\n" + Concat(MediaRuleTexts(s.mediaRules)) + "}"
  }

  /** The text of a stylesheet: its rules, then the media block. */
  function SheetText(s: Stylesheet): string {
    "" + Concat(RuleTexts(s.rules)) + MediaText(s)
  }

  /** `generateCSS(theme)`. */
  function GenerateCss(theme: Theme): string {
    SheetText(StylesheetFor(theme))
  }

  /** Every line of every rule of a stylesheet appears in its text. */
  lemma LineInSheetText(s: Stylesheet, i: nat, j: nat)
    requires i < |s.rules| && j < |s.rules[i].lines|
    ensures Occurs(LineText(s.rules[i].lines[j], ""), SheetText(s))
  {
    var r := s.rules[i];
    var x := LineText(r.lines[j], "");
    ConcatAt(LineTexts(r.lines, ""), j);
    OccursWithin(x, "" + SelectorText(r.selector) + " {\n", Concat(LineTexts(r.lines, "")), "" + "}\n\n");
    ConcatAt(RuleTexts(s.rules), i);
    OccursTransitive(x, RuleText(r, "", "}\n\n"), Concat(RuleTexts(s.rules)));
    OccursWithin(x, "", Concat(RuleTexts(s.rules)), MediaText(s));
  }

  /** Every declaration of the stylesheet for `theme` appears in its text. */
  lemma DeclarationInCss(theme: Theme, i: nat, j: nat)
    requires i < |StylesheetFor(theme).rules| && j < |StylesheetFor(theme).rules[i].lines|
    ensures Occurs(LineText(StylesheetFor(theme).rules[i].lines[j], ""), GenerateCss(theme))
  {
    LineInSheetText(StylesheetFor(theme), i, j);
  }

  /** The modern stylesheet's text holds the backdrop filter declaration. */
  lemma BackdropInModernCss()
    ensures Occurs(LineText(Declaration(BackdropFilter, Word(Blur10px)), ""), GenerateCss(Portfolio.Modern))
  {
    ModernSheetBackdrop();
    LineInSheetText(StylesheetFor(Portfolio.Modern), 2, 6);
  }
}
