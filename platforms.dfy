/** The fixed table of social platforms the editor offers, the icon each
    platform is drawn with, and the icon registry that turns an icon name
    into the glyph the preview renders. */
module Platforms {

  datatype Option<T> = None | Some(value: T)

  /** One row of the platform table: the name shown in the selector, the
      icon name stored on a link, and the URL placeholder of the input. */
  datatype Platform = Platform(name: string, icon: string, placeholder: string)

  /** The glyphs the icon registry knows. */
  datatype Glyph = GithubGlyph | LinkedinGlyph | TwitterGlyph | GlobeGlyph
                 | MailGlyph | InstagramGlyph | FacebookGlyph | YoutubeGlyph

  /** The icon name every unknown platform falls back to. */
  const FallbackIcon: string := "Globe"

  const SocialPlatforms: seq<Platform> := [
    Platform("GitHub", "Github", "https://github.com/username"),
    Platform("LinkedIn", "Linkedin", "https://linkedin.com/in/username"),
    Platform("Twitter", "Twitter", "https://twitter.com/username"),
    Platform("Website", "Globe", "https://yourwebsite.com"),
    Platform("Email", "Mail", "your@email.com"),
    Platform("Instagram", "Instagram", "https://instagram.com/username"),
    Platform("Facebook", "Facebook", "https://facebook.com/username"),
    Platform("YouTube", "Youtube", "https://youtube.com/c/username")
  ]

  /** The icon registry of the preview: icon name to glyph. */
  const IconRegistry: map<string, Glyph> := map[
    "Github" := GithubGlyph,
    "Linkedin" := LinkedinGlyph,
    "Twitter" := TwitterGlyph,
    "Globe" := GlobeGlyph,
    "Mail" := MailGlyph,
    "Instagram" := InstagramGlyph,
    "Facebook" := FacebookGlyph,
    "Youtube" := YoutubeGlyph
  ]

  /** `Array.prototype.find` on the platform table by name: the first row
      with that name, or nothing when no row has it. */
  function FindPlatform(rows: seq<Platform>, name: string): (r: Option<Platform>)
    ensures r.Some? ==> r.value in rows && r.value.name == name
    ensures r.None? <==> forall i :: 0 <= i < |rows| ==> rows[i].name != name
    ensures r.Some? ==> exists i :: 0 <= i < |rows| && rows[i] == r.value &&
                          forall j :: 0 <= j < i ==> rows[j].name != name
  {
    if rows == [] then None
    else if rows[0].name == name then Some(rows[0])
    else FindPlatform(rows[1..], name)
  }

  /** No two rows of the platform table share a name. */
  lemma PlatformNamesDistinct()
    ensures forall i, j :: 0 <= i < j < |SocialPlatforms| ==> SocialPlatforms[i].name != SocialPlatforms[j].name
  {
  }

  /** The icon a link gets when its platform is set to `platform`: the table
      row's icon, or "Globe" when no row has that name (or its icon is empty). */
  function IconFor(platform: string): (icon: string)
    ensures icon in IconRegistry
    ensures forall i :: 0 <= i < |SocialPlatforms| && SocialPlatforms[i].name == platform ==>
              icon == SocialPlatforms[i].icon
    ensures (forall i :: 0 <= i < |SocialPlatforms| ==> SocialPlatforms[i].name != platform) ==>
              icon == FallbackIcon
  {
    PlatformNamesDistinct();
    match FindPlatform(SocialPlatforms, platform)
    case Some(p) => if p.icon != "" then p.icon else FallbackIcon
    case None => FallbackIcon
  }

  /** `getIconComponent`: the registered glyph of an icon name, and the globe
      for every name the registry does not know. */
  function IconComponent(iconName: string): (g: Glyph)
    ensures iconName in IconRegistry ==> g == IconRegistry[iconName]
    ensures iconName !in IconRegistry ==> g == GlobeGlyph
  {
    if iconName in IconRegistry then IconRegistry[iconName] else GlobeGlyph
  }

  /** Choosing a platform from the table gives a link exactly that row's icon. */
  lemma TableIcons()
    ensures forall i :: 0 <= i < |SocialPlatforms| ==> IconFor(SocialPlatforms[i].name) == SocialPlatforms[i].icon
  {
  }

  /** Every platform in the table is drawn with its own glyph, distinct from
      every other platform's, and only the "Website" row uses the globe. */
  lemma TableGlyphsDistinct()
    ensures forall i, j :: 0 <= i < j < |SocialPlatforms| ==>
              IconComponent(SocialPlatforms[i].icon) != IconComponent(SocialPlatforms[j].icon)
    ensures forall i :: 0 <= i < |SocialPlatforms| ==>
              (IconComponent(SocialPlatforms[i].icon) == GlobeGlyph <==> SocialPlatforms[i].name == "Website")
  {
    var glyphs := [GithubGlyph, LinkedinGlyph, TwitterGlyph, GlobeGlyph,
                   MailGlyph, InstagramGlyph, FacebookGlyph, YoutubeGlyph];
    assert forall i :: 0 <= i < |SocialPlatforms| ==> IconComponent(SocialPlatforms[i].icon) == glyphs[i];
    assert forall i :: 0 <= i < |SocialPlatforms| ==> (SocialPlatforms[i].name == "Website" <==> i == 3);
  }
}
