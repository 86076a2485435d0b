# Portfolio website builder: a Dafny model

The builder is a single page (`src/pages/Index.tsx`) where a user edits a
portfolio record and downloads a finished static website. The record holds a
name, a bio, a profile picture, social links and skills. The download is a zip
archive holding `index.html`, `styles.css` and `scripts.js`. This project
models the core of that page and proves properties of the model:

- **Platforms** (`platforms.dfy`): the table of social platforms, the lookup
  of a platform by name, the icon a platform gets, and the icon registry
  behind `getIconComponent`.
- **Portfolio** (`portfolio.dfy`): the record and its fields. It also holds
  the pure list operations behind the form handlers (add, update and remove a
  link; add and remove a skill), the sample record the page starts with, and
  the invariants the handlers keep: link ids are unique, every icon is the one
  its platform is drawn with, and there are no duplicate skills.
- **Editor** (`editor.dfy`): the page's mutable state as a class. Its fields
  are the record, the pending skill input and the theme. Its methods are the
  handlers, each stating the whole new state and the invariants it keeps.
- **PortfolioHtml** (`html.dfy`): `generatePortfolioHTML`. The page is a
  sequence of fragments (fixed markup, interpolated fields, the profile image
  or placeholder, one anchor per link, one tag per skill), rendered by
  concatenation.
- **PortfolioCss** (`css.dfy`): `generateCSS`. The stylesheet is a structured
  value. It holds the theme palettes, one template rule per selector with
  fixed or themed values, the backdrop filter that only the modern theme
  emits, and the mobile media block. The stylesheet is resolved for a theme
  and then rendered to text.
- **PortfolioScript** (`script.dfy`): `generateJS`, a fixed text that selects
  the social links, the skill tags and the container by class.

The source file stores two emoji in a mis-encoded form: the person icon of
the placeholder (`src/pages/Index.tsx:287`) and the sparkles at the end of the
script's closing message (`src/pages/Index.tsx:434`). The model writes them as
the characters they decode to: U+1F464 and U+2728.
- **Generator** (`download.dfy`): the three archive files, the archive's file
  name derived from the record's name, and how the files fit together.
- **Text** and **Seqs** (`text.dfy`, `seqs.dfy`): the JavaScript string and
  array operations these rely on. These are `trim`, `toLowerCase`,
  `replace(/\s+/g, '-')`, `join('')`, `filter` and `includes`, plus substring
  occurrence.

## Model

| member | source | states |
|---|---|---|
| Platforms.SocialPlatforms | src/pages/Index.tsx:29-38 | the eight platform rows (name, icon, placeholder); a constant without a contract of its own; `PlatformNamesDistinct`, `TableIcons` and `TableGlyphsDistinct` state its properties |
| Platforms.IconRegistry | src/pages/Index.tsx:40-50 | the icon-name-to-glyph registry of `getIconComponent`; a constant without a contract of its own; `IconComponent` and `TableGlyphsDistinct` state its properties |
| Platforms.FindPlatform | src/pages/Index.tsx:104 | `find` by name returns the first row of the table with that name, and returns nothing exactly when no row has the name |
| Platforms.PlatformNamesDistinct | src/pages/Index.tsx:29-38 | no two rows of the platform table share a name |
| Platforms.IconFor | src/pages/Index.tsx:103-105 | the icon for a platform is always a registered icon; it is the table row's icon when the platform is in the table, and "Globe" otherwise |
| Platforms.IconComponent | src/pages/Index.tsx:40-52 | a registered icon name gives its glyph; every other name gives the globe |
| Platforms.TableIcons | src/pages/Index.tsx:29-38 | choosing a table platform gives a link exactly that row's icon |
| Platforms.TableGlyphsDistinct | src/pages/Index.tsx:40-52 | the table's platforms are drawn with pairwise distinct glyphs, and only "Website" falls on the globe |
| Portfolio.Get | src/pages/Index.tsx:71-76 | reading a field yields a value of that field's type |
| Portfolio.Set | src/pages/Index.tsx:71-76 | writing a field makes it read back as the new value and leaves every other field as it was |
| Portfolio.FieldsDetermineRecord | src/pages/Index.tsx:71-76 | two records that agree on every field are equal, so `Set` touches nothing else |
| Portfolio.NewLink | src/pages/Index.tsx:90-96 | the added link carries the given id, the "Website" platform with its table icon, and an empty URL; its icon matches its platform |
| Portfolio.UpdateLink | src/pages/Index.tsx:101-110 | updating the platform sets it and re-derives the icon from the table; updating the URL changes only the URL; the id never changes |
| Portfolio.UpdateLinks | src/pages/Index.tsx:100-112 | links with the id are updated in place and all others are kept; the length and the id sequence are preserved; an unknown id changes nothing; matching icons stay matching |
| Portfolio.WithoutLink | src/pages/Index.tsx:114-117 | exactly the links with another id remain; the removed id is gone; an unknown id changes nothing; unique ids and matching icons are kept |
| Portfolio.WithoutLinkConcat | src/pages/Index.tsx:114-117 | removal distributes over any split of the list, so the remaining links keep their order |
| Portfolio.WithoutLinkSingle | src/pages/Index.tsx:114-117 | a single link is kept exactly when its id differs |
| Portfolio.WithoutSkill | src/pages/Index.tsx:126-129 | exactly the other skills remain; removing an absent skill changes nothing; distinct skills stay distinct |
| Portfolio.WithoutSkillConcat | src/pages/Index.tsx:126-129 | skill removal distributes over any split, so the order is kept |
| Portfolio.AppendLinkKeepsWellFormed | src/pages/Index.tsx:90-98 | appending a link whose id is unused and whose icon matches keeps ids unique and icons matching |
| Portfolio.AddSkillTo | src/pages/Index.tsx:119-124 | the trimmed input is appended, and the input cleared, exactly when it is non-empty and not yet a skill; otherwise nothing changes; distinctness and every existing skill are kept |
| Portfolio.InitialData | src/pages/Index.tsx:60-69 | the sample record; a constant without a contract of its own; `InitialDataWellFormed` states its property |
| Portfolio.InitialDataWellFormed | src/pages/Index.tsx:60-69 | the sample record the page starts with already satisfies the invariants |
| Text.Trim | src/pages/Index.tsx:120 | `trim` returns a slice of the input with only white space cut on both sides; the result neither starts nor ends with white space; it is empty exactly when the input is all white space |
| Text.TrimIdempotent | src/pages/Index.tsx:120-121 | trimming twice is trimming once |
| Text.ReplaceWhitespaceRuns | src/pages/Index.tsx:454 | the replacement leaves no white space, never lengthens the text, and is the identity on text without white space |
| Text.ReplaceRunsMatchesScan | src/pages/Index.tsx:454 | replacing maximal runs equals a character-by-character scan that writes one hyphen per run |
| Text.Lower | src/pages/Index.tsx:454 | lower-casing maps every character, keeps the length and white space, and leaves no upper-case ASCII letter |
| Text.LowerCommutesWithReplace | src/pages/Index.tsx:454 | lower-casing and replacing runs commute |
| Seqs.Filter | src/pages/Index.tsx:115 | `filter` keeps exactly the elements satisfying the predicate and never lengthens the list; `FilterConcat` (order) and `FilterKeepsDistinct` state more |
| Text.Concat | src/pages/Index.tsx:186 | `join('')` of no strings is empty; `ConcatAppend` and `ConcatAt` state that it distributes over concatenation and contains every element |
| PortfolioHtml.Page | src/pages/Index.tsx:164-198 | the page's fragments; no contract of its own; `PageAnchors`, `PageTags` and `PageProfile` state what it holds |
| PortfolioHtml.Render | src/pages/Index.tsx:164-198 | the fragments' texts joined; no contract of its own; `RenderAt` states that every fragment's text occurs in it |
| PortfolioHtml.GeneratePortfolioHtml | src/pages/Index.tsx:138-199 | `generatePortfolioHTML`; no contract of its own; the `…InHtml` lemmas, `PageLinksStylesheet`, `PageLoadsScript`, `UnescapedBioReachesPage` and `HtmlIgnoresTheme` state its properties |
| PortfolioHtml.SecondCommaField | src/pages/Index.tsx:176 | `split(',')[1]`; no contract of its own; `SecondCommaFieldShape` and `SecondCommaFieldOfDataUri` state its properties |
| PortfolioHtml.UpToCommaIsFirstField | src/pages/Index.tsx:176 | the text up to the first comma is a comma-free prefix that stops at that comma |
| PortfolioHtml.SecondCommaFieldShape | src/pages/Index.tsx:176 | the second field never holds a comma, and is "undefined" when the text has no comma |
| PortfolioHtml.SecondCommaFieldOfDataUri | src/pages/Index.tsx:176 | `split(',')[1]` of a data URI `prefix,payload` with no other comma is the payload |
| PortfolioHtml.PageProfile | src/pages/Index.tsx:176 | the page holds one profile image (of the data-URI payload) exactly when there is a picture, and the placeholder exactly when there is none |
| PortfolioHtml.PageAnchors | src/pages/Index.tsx:181-187 | the page's anchors are exactly one per social link, in the links' order |
| PortfolioHtml.PageTags | src/pages/Index.tsx:192 | the page's skill tags are exactly one per skill, in order |
| PortfolioHtml.SocialAnchorInHtml | src/pages/Index.tsx:182-186 | every link's anchor, with its URL in the `href`, appears in the generated text |
| PortfolioHtml.AnchorHasClass | src/pages/Index.tsx:183 | every anchor carries the `social-link` class |
| PortfolioHtml.SkillTagInHtml | src/pages/Index.tsx:192 | every skill appears in the text inside a `skill-tag` span |
| PortfolioHtml.ProfileImageInHtml | src/pages/Index.tsx:176 | with a picture, the text holds the `profile-image` class attribute |
| PortfolioHtml.ContainerInHtml | src/pages/Index.tsx:174 | every page holds the `portfolio-container` element |
| PortfolioHtml.LinkClassInHtml | src/pages/Index.tsx:181-187 | a page with a social link holds the `social-link` class |
| PortfolioHtml.TagClassInHtml | src/pages/Index.tsx:192 | a page with a skill holds the `skill-tag` class |
| PortfolioHtml.PageLinksStylesheet | src/pages/Index.tsx:171 | the page links `styles.css` |
| PortfolioHtml.PageLoadsScript | src/pages/Index.tsx:196 | the page loads `scripts.js` |
| PortfolioHtml.UnescapedBioReachesPage | src/pages/Index.tsx:176-178 | fields are inserted unescaped: a bio containing the image markup puts it in the text even when no image fragment was generated |
| PortfolioHtml.HtmlIgnoresTheme | src/pages/Index.tsx:138-163 | the page does not depend on the theme; the palette looked up there is unused |
| PortfolioScript.GenerateJs | src/pages/Index.tsx:395-436 | `generateJS`; no contract of its own; the three `ScriptSelects…` lemmas and `Generator.Script…InPage` state its properties |
| PortfolioScript.ScriptSelectsSocialLinks | src/pages/Index.tsx:401 | the script selects `.social-link` |
| PortfolioScript.ScriptSelectsSkillTags | src/pages/Index.tsx:402 | the script selects `.skill-tag` |
| PortfolioScript.ScriptSelectsContainer | src/pages/Index.tsx:424 | the script selects `.portfolio-container` |
| PortfolioCss.PaletteOf | src/pages/Index.tsx:202-229 | the theme's palette; no contract of its own; `PaletteAccents` and the colour lemmas state its use |
| PortfolioCss.StylesheetFor | src/pages/Index.tsx:231-393 | the stylesheet resolved for a theme; no contract of its own; `BackdropIffModern`, `RuleShapeIgnoresTheme` and `MediaHasNoBackdrop` state its properties |
| PortfolioCss.GenerateCss | src/pages/Index.tsx:201-393 | `generateCSS`; no contract of its own; `DeclarationInCss` and `BackdropInModernCss` state what its text holds |
| PortfolioCss.PaletteAccents | src/pages/Index.tsx:202-227 | light and dark share the violet accent #8b5cf6; modern has its own accent, #fbbf24 |
| PortfolioCss.ResolvedShape | src/pages/Index.tsx:231-393 | a resolved rule declares its template's properties in the template's order, whatever the theme, apart from the backdrop filter |
| PortfolioCss.RuleShapeIgnoresTheme | src/pages/Index.tsx:231-393 | every rule declares the same properties under every theme, apart from the backdrop filter |
| PortfolioCss.NoBackdropOffModern | src/pages/Index.tsx:253 | off the modern theme, no resolved line declares the backdrop filter |
| PortfolioCss.ModernContainerBackdrop | src/pages/Index.tsx:246-255 | on the modern theme the container rule declares `backdrop-filter: blur(10px)` at its seventh line |
| PortfolioCss.BackdropIffModern | src/pages/Index.tsx:253 | some rule of the stylesheet declares the backdrop filter exactly when the theme is modern |
| PortfolioCss.MediaHasNoBackdrop | src/pages/Index.tsx:367-393 | the media block never declares the backdrop filter |
| PortfolioCss.BodyColours | src/pages/Index.tsx:237-244 | the body uses the theme's text colour and background |
| PortfolioCss.ContainerColours | src/pages/Index.tsx:246-255 | the container uses the theme's card background, shadow and a 1px border in the border colour |
| PortfolioCss.ProfileFrameUsesAccent | src/pages/Index.tsx:262-270 | the profile image is framed by a 4px border in the theme's accent |
| PortfolioCss.NameUsesAccent | src/pages/Index.tsx:290-295 | the name is written in the theme's accent |
| PortfolioCss.SocialLinkColours | src/pages/Index.tsx:313-326 | social links have the accent as background, with black text on the modern theme and white text otherwise |
| PortfolioCss.SkillsHeadingUsesAccent | src/pages/Index.tsx:337-342 | the skills heading is written in the theme's accent |
| PortfolioCss.SkillTagColours | src/pages/Index.tsx:351-360 | skill tags have the accent as background, with black text on the modern theme and white text otherwise |
| PortfolioCss.HoverGlowIsFixed | src/pages/Index.tsx:328-365 | the hover rules are the same under every theme, with a fixed violet glow |
| PortfolioCss.DeclarationInCss | src/pages/Index.tsx:229-393 | every resolved declaration appears as a line of the generated text |
| PortfolioCss.BackdropInModernCss | src/pages/Index.tsx:253 | the modern stylesheet's text holds the `backdrop-filter: blur(10px);` line |
| Generator.SiteFiles | src/pages/Index.tsx:442-448 | the archive holds three files |
| Generator.SiteFileNamesDistinct | src/pages/Index.tsx:446-448 | the three archive files have distinct names |
| Generator.PageLinksSiteFiles | src/pages/Index.tsx:446-448 | the page refers to the stylesheet and the script by the exact names they are stored under |
| Generator.ScriptContainerInPage | src/pages/Index.tsx:424-426 | the container the script uses without a null check is always in the page |
| Generator.ScriptLinksInPage | src/pages/Index.tsx:401 | the links the script selects are in the page whenever the record has a link |
| Generator.ScriptTagsInPage | src/pages/Index.tsx:402 | the tags the script selects are in the page whenever the record has a skill |
| Generator.Slug | src/pages/Index.tsx:454 | the slug of the name holds no white space and no upper-case ASCII letter, is no longer than the name, and is the lower-cased name when the name has no white space |
| Generator.DownloadFileName | src/pages/Index.tsx:454 | the archive name is as long as the slug plus the suffix; `FileNameIsPlain` states its content |
| Generator.FileNameIsPlain | src/pages/Index.tsx:454 | the archive name is the slug followed by `-portfolio.zip`, with no white space and no upper-case ASCII letter |
| Generator.SlugIdempotent | src/pages/Index.tsx:454 | the slug of a slug is the slug |
| Generator.SlugMatchesScan | src/pages/Index.tsx:454 | the slug equals the reference scan over the lower-cased name |
| Generator.TwoWordSlug | src/pages/Index.tsx:454 | two words around any white-space run become the lower-cased words joined by one hyphen; leading blanks become a leading hyphen |
| Generator.EmptyFileName | src/pages/Index.tsx:454 | an empty name yields `-portfolio.zip` |
| Editor.PortfolioEditor.constructor | src/pages/Index.tsx:57-69 | the editor starts with the sample record, an empty skill input and the light theme, and satisfies the invariants |
| Editor.PortfolioEditor.HandleInputChange | src/pages/Index.tsx:71-76 | one field is replaced; every other field, the skill input and the theme are unchanged |
| Editor.PortfolioEditor.AddSocialLink | src/pages/Index.tsx:90-98 | the new "Website" link is appended; the invariants survive when its id is fresh |
| Editor.PortfolioEditor.UpdateSocialLink | src/pages/Index.tsx:100-112 | the links become `UpdateLinks` of the old links; the invariants are kept |
| Editor.PortfolioEditor.RemoveSocialLink | src/pages/Index.tsx:114-117 | the links become `WithoutLink` of the old links; the invariants are kept |
| Editor.PortfolioEditor.SetSkillInput | src/pages/Index.tsx:620 | only the pending skill input changes |
| Editor.PortfolioEditor.AddSkill | src/pages/Index.tsx:119-124 | the skills and the input become `AddSkillTo` of the old ones (the trimmed input appended and the input cleared only when it is non-empty and new); the rest of the record and the theme are unchanged; the invariants are kept |
| Editor.PortfolioEditor.SkillKeyPress | src/pages/Index.tsx:131-136 | Enter acts as `AddSkillTo` on the skills and the input; any other key changes nothing |
| Editor.PortfolioEditor.RemoveSkill | src/pages/Index.tsx:126-129 | the skills become `WithoutSkill` of the old skills, so the skill is gone; the invariants are kept |
| Editor.PortfolioEditor.SetTheme | src/pages/Index.tsx:659-675 | only the theme changes |
| Editor.PortfolioEditor.DownloadPortfolio | src/pages/Index.tsx:438-470 | a successful packaging yields the archive named by `DownloadFileName` holding `SiteFiles` of the current record and theme; a failure yields the failure notice |

## Left out

- Reading the uploaded picture (`handleFileUpload`, `FileReader`) is not modelled. The picture is a field that holds whatever data URI the upload produced.
- JSZip, blobs, the temporary download anchor and the DOM are not modelled. `DownloadPortfolio` takes whether packaging succeeded as a parameter.
- Toasts are reduced to the success or failure outcome, without their texts.
- The JSX layout, the live preview and `getThemeClasses` are outside the model, and so are the 3D scene files.
- `Date.now().toString()` is not modelled; the id of a new link is a parameter of `AddSocialLink`.
- PortfolioCss.GenerateCss: the text is assembled from the structured rules in the template's layout: top-level rules end in an empty line, media rules are separated by a line of four spaces, and the media block closes with `    }` and `}`. No lemma states that the whole text equals the template's output character for character; the contracts speak about the rules and the lines they put in the text.
- PortfolioHtml.GeneratePortfolioHtml: likewise, the page text follows the template's layout, and the contracts speak about its fragments and the substrings they put in the text rather than the whole text.
- Text.Lower: lower-casing covers the ASCII letters only; JavaScript's full Unicode case mapping is not modelled.
- Platforms.IconComponent: keys inherited through the JavaScript object prototype (such as `constructor`) are not modelled; every name outside the registry yields the globe.
- Interpolated fields are not escaped in the source. The model keeps that behaviour (see `UnescapedBioReachesPage`) rather than proving well-formed HTML.
- `generatePortfolioHTML` looks up a palette for the theme and never uses it. The model has no such lookup, and `HtmlIgnoresTheme` records the consequence.
- The light and dark palettes share the accent #8b5cf6 (`PaletteAccents`), and both hover glows use a fixed violet under every theme, the modern one included (`HoverGlowIsFixed`).
- The media block's rules are resolved with the light theme. None of its values depend on the theme, so the choice is invisible.
- Editor.PortfolioEditor.AddSocialLink: the invariants are promised only when the new id is not already in use. The source relies on the clock to make ids unique and does not check this.
