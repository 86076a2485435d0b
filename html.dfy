/** `generatePortfolioHTML`: the page is a list of fragments (fixed template
    text, user text interpolated as-is, the profile picture or its
    placeholder, one anchor per social link and one tag per skill) and the
    generated text is their concatenation. */
module PortfolioHtml {
  import opened Seqs
  import opened Text
  import opened Portfolio

  /** The class names the page, the stylesheet and the script agree on. */
  const ContainerClass: string := "portfolio-container"
  const SocialLinkClass: string := "social-link"
  const SkillTagClass: string := "skill-tag"
  const ProfileImageClass: string := "profile-image"
  const ProfilePlaceholderClass: string := "profile-placeholder"

  /** The fixed pieces of the template, in page order. */
  datatype Piece = DocumentOpen | TitleClose | NameOpen | NameClose | HeaderClose
                 | SkillsOpen | DocumentClose

  /** The attribute `class="<name>"`. */
  function Attr(name: string): string {
    "class=\"" + name + "\""
  }

  /** The names under which the page links its stylesheet and its script. */
  const StylesheetFile: string := "styles.css"
  const ScriptFile: string := "scripts.js"

  /** The text around the container's class attribute. */
  const TitleTail: string := TitleLead + StylesheetFile + BodyOpen
  const TitleLead: string := " - Portfolio</title>\n    <link rel=\"stylesheet\" href=\""
  const BodyOpen: string := "\">\n</head>\n<body>\n    <div "
  const HeaderOpen: string := ">\n        <div class=\"portfolio-header\">\n            "

  /** The text of each fixed piece. */
  function PieceText(p: Piece): string {
    match p
    case DocumentOpen =>
      "<!DOCTYPE html>\n<html lang=\"en\">\n<head>\n    <meta charset=\"UTF-8\">\n"
      + "    <meta name=\"viewport\" content=\"width=device-width, initial-scale=1.0\">\n    <title>"
    case TitleClose => TitleTail + Attr(ContainerClass) + HeaderOpen
    case NameOpen => "\n            <h1 class=\"name\">"
    case NameClose => "</h1>\n            <p class=\"bio\">"
    case HeaderClose => "</p>\n        </div>\n        \n        <div class=\"social-links\">\n            "
    case SkillsOpen =>
      "\n        </div>\n        \n        <div class=\"skills-section\">\n            <h2>Skills</h2>\n"
      + "            <div class=\"skills-container\">\n                "
    case DocumentClose => ClosingLead + ScriptFile + ClosingTail
  }

  const ClosingLead: string := "\n            </div>\n        </div>\n    </div>\n    <script src=\""
  const ClosingTail: string := "\"></script>\n</body>\n</html>"

  datatype Fragment =
    | Markup(piece: Piece)                   // fixed template text
    | Interpolated(text: string)             // a record field, inserted without escaping
    | ProfileImage(payload: string)          // the picture's base64 payload
    | ProfilePlaceholder
    | SocialAnchor(url: string, platform: string)
    | SkillTag(skill: string)

  /** The text of one fragment. */
  function RenderFragment(f: Fragment): string {
    match f
    case Markup(p) => PieceText(p)
    case Interpolated(t) => t
    case ProfileImage(p) =>
      "<img src=\"data:image/jpeg;base64," + p + "\" alt=\"Profile\" " + Attr(ProfileImageClass) + ">"
    case ProfilePlaceholder => "<div " + Attr(ProfilePlaceholderClass) + "></div>"
    case SocialAnchor(url, platform) =>
      "\n                " + ("<a href=\"" + url + "\"") + AnchorRest(platform)
    case SkillTag(s) => "<span " + Attr(SkillTagClass) + ">" + s + "</span>"
  }

  /** The rest of a social-link anchor after its `href`. */
  function AnchorRest(platform: string): string {
    " target=\"_blank\" rel=\"noopener noreferrer\" " + Attr(SocialLinkClass)
    + (">\n                    <span class=\"social-icon\">" + platform + "</span>\n                </a>\n            ")
  }

  /** The texts of a list of fragments, in order. */
  function Texts(fs: seq<Fragment>): (ts: seq<string>)
    ensures |ts| == |fs|
    ensures forall i :: 0 <= i < |fs| ==> ts[i] == RenderFragment(fs[i])
  {
    if fs == [] then [] else [RenderFragment(fs[0])] + Texts(fs[1..])
  }

  /** The text of a list of fragments: `join('')` of their texts. */
  function Render(fs: seq<Fragment>): string {
    Concat(Texts(fs))
  }

  /** The fragment at position `i` appears, as text, in the rendering. */
  lemma RenderAt(fs: seq<Fragment>, i: nat)
    requires i < |fs|
    ensures Occurs(RenderFragment(fs[i]), Render(fs))
  {
    ConcatAt(Texts(fs), i);
  }

  /** JavaScript's `s.split(',')[1]`: the text between the first and the
      second comma, or the string "undefined" (how a template prints an
      undefined value) when `s` has no comma. */
  function SecondCommaField(s: string): (r: string)
  {
    if ',' !in s then "undefined"
    else
      var rest := AfterFirstComma(s);
      UpToComma(rest)
  }

  /** The text after the first comma of `s`. */
  function AfterFirstComma(s: string): (r: string)
    requires ',' in s
    ensures |r| < |s|
  {
    if s[0] == ',' then s[1..] else AfterFirstComma(s[1..])
  }

  /** The text of `s` before its first comma (all of it when there is none). */
  function UpToComma(s: string): (r: string)
  {
    if s == [] || s[0] == ',' then [] else [s[0]] + UpToComma(s[1..])
  }

  /** The text up to the first comma is a prefix holding no comma, and it
      stops at that comma when there is one. */
  lemma {:induction false} UpToCommaIsFirstField(s: string)
    ensures ',' !in UpToComma(s)
    ensures |UpToComma(s)| <= |s| && UpToComma(s) == s[..|UpToComma(s)|]
    ensures |UpToComma(s)| < |s| ==> s[|UpToComma(s)|] == ','
  {
    if s != [] && s[0] != ',' {
      UpToCommaIsFirstField(s[1..]);
    }
  }

  /** The second comma field never holds a comma; without a comma it is
      the text "undefined". */
  lemma SecondCommaFieldShape(s: string)
    ensures ',' !in SecondCommaField(s)
    ensures ',' !in s ==> SecondCommaField(s) == "undefined"
  {
    if ',' in s {
      UpToCommaIsFirstField(AfterFirstComma(s));
    }
  }

  /** A data URI `prefix + "," + payload` whose prefix and payload hold no
      comma (a base64 payload never does) gives back exactly its payload. */
  lemma {:induction false} SecondCommaFieldOfDataUri(prefix: string, payload: string)
    requires ',' !in prefix && ',' !in payload
    ensures SecondCommaField(prefix + "," + payload) == payload
  {
    AfterFirstCommaSkipsPrefix(prefix, payload);
    UpToCommaWhole(payload);
  }

  lemma {:induction false} AfterFirstCommaSkipsPrefix(prefix: string, rest: string)
    requires ',' !in prefix
    ensures ',' in prefix + "," + rest
    ensures AfterFirstComma(prefix + "," + rest) == rest
  {
    var s := prefix + "," + rest;
    assert s[|prefix|] == ',';
    if prefix != [] {
      assert s[1..] == prefix[1..] + "," + rest;
      AfterFirstCommaSkipsPrefix(prefix[1..], rest);
    }
  }

  lemma {:induction false} UpToCommaWhole(s: string)
    requires ',' !in s
    ensures UpToComma(s) == s
  {
    if s != [] {
      UpToCommaWhole(s[1..]);
    }
  }

  /** The head of the page: the profile picture when there is one, its
      placeholder otherwise. */
  function ProfileFragment(picture: string): Fragment {
    if picture != "" then ProfileImage(SecondCommaField(picture)) else ProfilePlaceholder
  }

  function Anchors(links: seq<SocialLink>): (fs: seq<Fragment>)
    ensures |fs| == |links|
    ensures forall i :: 0 <= i < |links| ==> fs[i] == SocialAnchor(links[i].url, links[i].platform)
  {
    if links == [] then [] else [SocialAnchor(links[0].url, links[0].platform)] + Anchors(links[1..])
  }

  function Tags(skills: seq<string>): (fs: seq<Fragment>)
    ensures |fs| == |skills|
    ensures forall i :: 0 <= i < |skills| ==> fs[i] == SkillTag(skills[i])
  {
    if skills == [] then [] else [SkillTag(skills[0])] + Tags(skills[1..])
  }

  /** The template up to the profile picture, the header, the social links
      section, and the skills section, as the page lays them out. */
  function Head(data: PortfolioData): seq<Fragment> {
    [ Markup(DocumentOpen),
      Interpolated(data.name),
      Markup(TitleClose),
      ProfileFragment(data.profilePicture),
      Markup(NameOpen),
      Interpolated(data.name),
      Markup(NameClose),
      Interpolated(data.bio),
      Markup(HeaderClose) ]
  }

  /** The fragments of the page for `data`. */
  function Page(data: PortfolioData): seq<Fragment> {
    Head(data) + Anchors(data.socialLinks) + [Markup(SkillsOpen)] + Tags(data.skills) + [Markup(DocumentClose)]
  }

  /** `generatePortfolioHTML(data, theme)`. The source looks up a palette for
      the theme here but never uses it, so the page does not depend on the theme. */
  function GeneratePortfolioHtml(data: PortfolioData, theme: Theme): (html: string)
  {
    Render(Page(data))
  }

  predicate IsAnchor(f: Fragment) { f.SocialAnchor? }
  predicate IsSkillTag(f: Fragment) { f.SkillTag? }
  predicate IsProfileImage(f: Fragment) { f.ProfileImage? }
  predicate IsPlaceholder(f: Fragment) { f.ProfilePlaceholder? }

  /** The page with its social anchors as the middle block. */
  lemma PageAroundAnchors(data: PortfolioData)
    ensures Page(data) == Head(data) + Anchors(data.socialLinks)
                          + ([Markup(SkillsOpen)] + Tags(data.skills) + [Markup(DocumentClose)])
  {
  }

  /** The page with its skill tags as the middle block. */
  lemma PageAroundTags(data: PortfolioData)
    ensures Page(data) == (Head(data) + Anchors(data.socialLinks) + [Markup(SkillsOpen)])
                          + Tags(data.skills) + [Markup(DocumentClose)]
  {
  }

  /** The page with its profile fragment as the middle block. */
  lemma PageAroundProfile(data: PortfolioData)
    ensures Page(data) == Head(data)[..3] + [ProfileFragment(data.profilePicture)]
                          + (Head(data)[4..] + Anchors(data.socialLinks) + [Markup(SkillsOpen)]
                             + Tags(data.skills) + [Markup(DocumentClose)])
  {
    var h := Head(data);
    assert h == h[..3] + [h[3]] + h[4..];
  }

  /** The page has one anchor per social link, in list order, each pointing at
      the link's URL and labelled with its platform. */
  lemma PageAnchors(data: PortfolioData)
    ensures Filter(Page(data), IsAnchor) == Anchors(data.socialLinks)
  {
    PageAroundAnchors(data);
    var post := [Markup(SkillsOpen)] + Tags(data.skills) + [Markup(DocumentClose)];
    assert forall i :: 0 <= i < |post| ==> !IsAnchor(post[i]) by {
      forall i | 0 <= i < |post| ensures !IsAnchor(post[i]) {
        if 0 < i < |post| - 1 { assert post[i] == Tags(data.skills)[i - 1]; }
      }
    }
    FilterBlock(Head(data), Anchors(data.socialLinks), post, IsAnchor);
  }

  /** The page has one tag per skill, in list order. */
  lemma PageTags(data: PortfolioData)
    ensures Filter(Page(data), IsSkillTag) == Tags(data.skills)
  {
    PageAroundTags(data);
    var pre := Head(data) + Anchors(data.socialLinks) + [Markup(SkillsOpen)];
    assert forall i :: 0 <= i < |pre| ==> !IsSkillTag(pre[i]) by {
      forall i | 0 <= i < |pre| ensures !IsSkillTag(pre[i]) {
        if |Head(data)| <= i < |pre| - 1 { assert pre[i] == Anchors(data.socialLinks)[i - |Head(data)|]; }
      }
    }
    FilterBlock(pre, Tags(data.skills), [Markup(DocumentClose)], IsSkillTag);
  }

  /** Apart from the profile fragment, the page holds neither a picture nor a placeholder. */
  lemma RestHasNoProfile(data: PortfolioData, keep: Fragment -> bool)
    requires forall f :: keep(f) ==> f.ProfileImage? || f.ProfilePlaceholder?
    ensures var h := Head(data);
      && (forall i :: 0 <= i < 3 ==> !keep(h[..3][i]))
      && var post := h[4..] + Anchors(data.socialLinks) + [Markup(SkillsOpen)]
                     + Tags(data.skills) + [Markup(DocumentClose)];
         forall i :: 0 <= i < |post| ==> !keep(post[i])
  {
    var h := Head(data);
    var post := h[4..] + Anchors(data.socialLinks) + [Markup(SkillsOpen)]
                + Tags(data.skills) + [Markup(DocumentClose)];
    var n := |Anchors(data.socialLinks)|;
    forall i | 0 <= i < |post| ensures !keep(post[i]) {
      if 5 <= i < 5 + n {
        assert post[i] == Anchors(data.socialLinks)[i - 5];
      } else if 6 + n <= i < |post| - 1 {
        assert post[i] == Tags(data.skills)[i - 6 - n];
      }
    }
  }

  /** The page shows the profile picture exactly when the record has one, and
      the placeholder exactly when it has none, never both. */
  lemma PageProfile(data: PortfolioData)
    ensures Filter(Page(data), IsProfileImage) ==
              if data.profilePicture != "" then [ProfileImage(SecondCommaField(data.profilePicture))] else []
    ensures Filter(Page(data), IsPlaceholder) ==
              if data.profilePicture == "" then [ProfilePlaceholder] else []
  {
    PageAroundProfile(data);
    var h := Head(data);
    var f := ProfileFragment(data.profilePicture);
    var post := h[4..] + Anchors(data.socialLinks) + [Markup(SkillsOpen)]
                + Tags(data.skills) + [Markup(DocumentClose)];
    RestHasNoProfile(data, IsProfileImage);
    RestHasNoProfile(data, IsPlaceholder);
    if data.profilePicture != "" {
      FilterBlock(h[..3], [f], post, IsProfileImage);
      assert h[..3] + [f] + post == h[..3] + [] + ([f] + post);
      FilterBlock(h[..3], [], [f] + post, IsPlaceholder);
    } else {
      FilterBlock(h[..3], [f], post, IsPlaceholder);
      assert h[..3] + [f] + post == h[..3] + [] + ([f] + post);
      FilterBlock(h[..3], [], [f] + post, IsProfileImage);
    }
  }

  /** Each skill appears in the generated text inside its `skill-tag` span. */
  lemma SkillTagInHtml(data: PortfolioData, theme: Theme, i: nat)
    requires i < |data.skills|
    ensures Occurs(RenderFragment(SkillTag(data.skills[i])), GeneratePortfolioHtml(data, theme))
    ensures Occurs(Attr(SkillTagClass) + ">" + data.skills[i] + "</span>", GeneratePortfolioHtml(data, theme))
  {
    var page := Page(data);
    var k := |Head(data)| + |data.socialLinks| + 1 + i;
    assert page[k] == SkillTag(data.skills[i]);
    RenderAt(page, k);
    var x := Attr(SkillTagClass) + ">" + data.skills[i] + "</span>";
    assert RenderFragment(page[k]) == "<span " + x + "";
    OccursBetween("<span ", x, "");
    OccursTransitive(x, RenderFragment(page[k]), GeneratePortfolioHtml(data, theme));
  }

  /** Each social link appears in the generated text as an anchor to its URL
      carrying the `social-link` class. */
  lemma SocialAnchorInHtml(data: PortfolioData, theme: Theme, i: nat)
    requires i < |data.socialLinks|
    ensures var l := data.socialLinks[i];
      Occurs(RenderFragment(SocialAnchor(l.url, l.platform)), GeneratePortfolioHtml(data, theme))
    ensures Occurs("<a href=\"" + data.socialLinks[i].url + "\"", GeneratePortfolioHtml(data, theme))
  {
    var page := Page(data);
    var k := |Head(data)| + i;
    var l := data.socialLinks[i];
    assert page[k] == SocialAnchor(l.url, l.platform);
    RenderAt(page, k);
    var x := "<a href=\"" + l.url + "\"";
    OccursBetween("\n                ", x, AnchorRest(l.platform));
    OccursTransitive(x, RenderFragment(page[k]), GeneratePortfolioHtml(data, theme));
  }

  /** Every anchor carries the `social-link` class. */
  lemma AnchorHasClass(url: string, platform: string)
    ensures Occurs(Attr(SocialLinkClass), RenderFragment(SocialAnchor(url, platform)))
  {
    OccursBetween(" target=\"_blank\" rel=\"noopener noreferrer\" ", Attr(SocialLinkClass),
                  ">\n                    <span class=\"social-icon\">" + platform + "</span>\n                </a>\n            ");
    OccursInSuffix(Attr(SocialLinkClass), "\n                " + ("<a href=\"" + url + "\""), AnchorRest(platform));
  }

  /** With a picture, the generated text holds the `profile-image` tag. */
  lemma ProfileImageInHtml(data: PortfolioData, theme: Theme)
    requires data.profilePicture != ""
    ensures Occurs(Attr(ProfileImageClass), GeneratePortfolioHtml(data, theme))
  {
    var page := Page(data);
    var p := SecondCommaField(data.profilePicture);
    assert page[3] == ProfileImage(p);
    RenderAt(page, 3);
    OccursBetween("<img src=\"data:image/jpeg;base64," + p + "\" alt=\"Profile\" ", Attr(ProfileImageClass), ">");
    OccursTransitive(Attr(ProfileImageClass), RenderFragment(page[3]), GeneratePortfolioHtml(data, theme));
  }

  /** The page always holds the container the script fades in. */
  lemma ContainerInHtml(data: PortfolioData, theme: Theme)
    ensures Occurs(Attr(ContainerClass), GeneratePortfolioHtml(data, theme))
  {
    var page := Page(data);
    assert page[2] == Markup(TitleClose);
    RenderAt(page, 2);
    OccursBetween(TitleTail, Attr(ContainerClass), HeaderOpen);
    OccursTransitive(Attr(ContainerClass), RenderFragment(page[2]), GeneratePortfolioHtml(data, theme));
  }

  /** A page with a social link holds the `social-link` class attribute. */
  lemma LinkClassInHtml(data: PortfolioData, theme: Theme)
    requires data.socialLinks != []
    ensures Occurs(Attr(SocialLinkClass), GeneratePortfolioHtml(data, theme))
  {
    var l := data.socialLinks[0];
    SocialAnchorInHtml(data, theme, 0);
    AnchorHasClass(l.url, l.platform);
    OccursTransitive(Attr(SocialLinkClass), RenderFragment(SocialAnchor(l.url, l.platform)),
                     GeneratePortfolioHtml(data, theme));
  }

  /** A page with a skill holds the `skill-tag` class attribute. */
  lemma TagClassInHtml(data: PortfolioData, theme: Theme)
    requires data.skills != []
    ensures Occurs(Attr(SkillTagClass), GeneratePortfolioHtml(data, theme))
  {
    var a := Attr(SkillTagClass);
    var s := data.skills[0];
    SkillTagInHtml(data, theme, 0);
    OccursBetween("<span ", a, ">");
    OccursInPrefix(a, "<span " + a + ">", s);
    OccursInPrefix(a, "<span " + a + ">" + s, "</span>");
    OccursTransitive(a, RenderFragment(SkillTag(s)), GeneratePortfolioHtml(data, theme));
  }

  /** The page links the stylesheet by the name the archive stores it under. */
  lemma PageLinksStylesheet(data: PortfolioData, theme: Theme)
    ensures Occurs(StylesheetFile, GeneratePortfolioHtml(data, theme))
  {
    var page := Page(data);
    assert page[2] == Markup(TitleClose);
    RenderAt(page, 2);
    OccursBetween(TitleLead, StylesheetFile, BodyOpen);
    OccursInPrefix(StylesheetFile, TitleTail, Attr(ContainerClass));
    OccursInPrefix(StylesheetFile, TitleTail + Attr(ContainerClass), HeaderOpen);
    OccursTransitive(StylesheetFile, PieceText(TitleClose), GeneratePortfolioHtml(data, theme));
  }

  /** The page loads the script by the name the archive stores it under. */
  lemma PageLoadsScript(data: PortfolioData, theme: Theme)
    ensures Occurs(ScriptFile, GeneratePortfolioHtml(data, theme))
  {
    var page := Page(data);
    var last := |page| - 1;
    assert page[last] == Markup(DocumentClose);
    RenderAt(page, last);
    OccursBetween(ClosingLead, ScriptFile, ClosingTail);
    OccursTransitive(ScriptFile, PieceText(DocumentClose), GeneratePortfolioHtml(data, theme));
  }

  /** Nothing is escaped: a bio that itself contains the `profile-image`
      class attribute puts that text in the page even when there is no
      picture, so the picture/placeholder choice holds of the page's
      fragments, not of its raw text. */
  lemma UnescapedBioReachesPage(data: PortfolioData, theme: Theme)
    requires data.profilePicture == "" && Occurs(Attr(ProfileImageClass), data.bio)
    ensures Filter(Page(data), IsProfileImage) == []
    ensures Occurs(Attr(ProfileImageClass), GeneratePortfolioHtml(data, theme))
  {
    PageProfile(data);
    var page := Page(data);
    assert page[7] == Interpolated(data.bio);
    RenderAt(page, 7);
    OccursTransitive(Attr(ProfileImageClass), data.bio, GeneratePortfolioHtml(data, theme));
  }

  /** The page does not depend on the theme. */
  lemma HtmlIgnoresTheme(data: PortfolioData, t1: Theme, t2: Theme)
    ensures GeneratePortfolioHtml(data, t1) == GeneratePortfolioHtml(data, t2)
  {
  }
}
