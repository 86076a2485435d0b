/** The portfolio record the builder edits, the field-by-field update of
    `handleInputChange`, the list operations behind the social-link and skill
    handlers, and the invariants those handlers keep. */
module Portfolio {
  import opened Seqs
  import opened Text
  import opened Platforms

  datatype SocialLink = SocialLink(id: string, platform: string, url: string, icon: string)

  datatype PortfolioData = PortfolioData(
    name: string,
    bio: string,
    profilePicture: string,   // a data URI, or "" when no picture was chosen
    socialLinks: seq<SocialLink>,
    skills: seq<string>)

  /** The three themes the builder offers. */
  datatype Theme = Light | Dark | Modern

  /** The keys of the record, as `keyof PortfolioData`. */
  datatype Field = Name | Bio | ProfilePicture | SocialLinks | Skills

  /** A value stored under a key: the `any` of `handleInputChange`, in the
      three shapes the record's fields have. */
  datatype FieldValue = TextValue(text: string)
                      | LinksValue(links: seq<SocialLink>)
                      | SkillsValue(skills: seq<string>)

  /** The two link fields the form edits. */
  datatype LinkField = PlatformField | UrlField

  /** `value` has the shape field `f` holds. */
  predicate Fits(f: Field, value: FieldValue) {
    match f
    case Name | Bio | ProfilePicture => value.TextValue?
    case SocialLinks => value.LinksValue?
    case Skills => value.SkillsValue?
  }

  /** The value stored under `f`. */
  function Get(data: PortfolioData, f: Field): (v: FieldValue)
    ensures Fits(f, v)
  {
    match f
    case Name => TextValue(data.name)
    case Bio => TextValue(data.bio)
    case ProfilePicture => TextValue(data.profilePicture)
    case SocialLinks => LinksValue(data.socialLinks)
    case Skills => SkillsValue(data.skills)
  }

  /** `{ ...prev, [field]: value }`: the record with `f` replaced by `value`
      and every other field as it was. */
  function Set(data: PortfolioData, f: Field, value: FieldValue): (r: PortfolioData)
    requires Fits(f, value)
    ensures Get(r, f) == value
    ensures forall g :: g != f ==> Get(r, g) == Get(data, g)
  {
    match f
    case Name => data.(name := value.text)
    case Bio => data.(bio := value.text)
    case ProfilePicture => data.(profilePicture := value.text)
    case SocialLinks => data.(socialLinks := value.links)
    case Skills => data.(skills := value.skills)
  }

  /** A record is determined by the values of its fields, so the contract of
      `Set` says everything about its result. */
  lemma FieldsDetermineRecord(a: PortfolioData, b: PortfolioData)
    requires forall f :: Get(a, f) == Get(b, f)
    ensures a == b
  {
    assert Get(a, Name) == Get(b, Name);
    assert Get(a, Bio) == Get(b, Bio);
    assert Get(a, ProfilePicture) == Get(b, ProfilePicture);
    assert Get(a, SocialLinks) == Get(b, SocialLinks);
    assert Get(a, Skills) == Get(b, Skills);
  }

  /** The ids of the links, in list order. */
  function Ids(links: seq<SocialLink>): (ids: seq<string>)
    ensures |ids| == |links|
    ensures forall i :: 0 <= i < |links| ==> ids[i] == links[i].id
  {
    if links == [] then [] else [links[0].id] + Ids(links[1..])
  }

  /** Every link is addressed by its own id. */
  predicate UniqueIds(links: seq<SocialLink>) {
    Distinct(Ids(links))
  }

  /** A link's icon is the one its platform is drawn with. */
  predicate IconMatches(link: SocialLink) {
    link.icon == IconFor(link.platform)
  }

  predicate IconsMatch(links: seq<SocialLink>) {
    forall i :: 0 <= i < |links| ==> IconMatches(links[i])
  }

  /** The invariants the editor keeps: unique link ids, icons derived from
      platforms, no duplicate skills. */
  predicate WellFormed(data: PortfolioData) {
    UniqueIds(data.socialLinks) && IconsMatch(data.socialLinks) && Distinct(data.skills)
  }

  /** The link `addSocialLink` appends: a "Website" link with an empty URL. */
  function NewLink(id: string): (link: SocialLink)
    ensures link.id == id && link.url == ""
    ensures link.platform == SocialPlatforms[3].name && link.icon == SocialPlatforms[3].icon
    ensures IconMatches(link)
  {
    SocialLink(id, "Website", "", "Globe")
  }

  /** The callback of `updateSocialLink`'s map applied to the matching link:
      setting the platform also re-derives the icon from the platform table;
      setting the URL touches nothing else. The id never changes. */
  function UpdateLink(link: SocialLink, field: LinkField, value: string): (r: SocialLink)
    ensures r.id == link.id
    ensures field == PlatformField ==>
              r.platform == value && r.url == link.url && IconMatches(r)
    ensures field == UrlField ==>
              r.url == value && r.platform == link.platform && r.icon == link.icon
  {
    match field
    case PlatformField => link.(platform := value, icon := IconFor(value))
    case UrlField => link.(url := value)
  }

  /** `updateSocialLink`'s map over the list: the links with id `id` are
      updated, every other link is kept as it was, at its place. */
  function UpdateLinks(links: seq<SocialLink>, id: string, field: LinkField, value: string): (r: seq<SocialLink>)
    ensures |r| == |links|
    ensures forall i :: 0 <= i < |links| ==>
              r[i] == if links[i].id == id then UpdateLink(links[i], field, value) else links[i]
    ensures Ids(r) == Ids(links)
    ensures id !in Ids(links) ==> r == links
    ensures IconsMatch(links) ==> IconsMatch(r)
  {
    if links == [] then []
    else
      var head := if links[0].id == id then UpdateLink(links[0], field, value) else links[0];
      var r := [head] + UpdateLinks(links[1..], id, field, value);
      assert Ids(links) == [links[0].id] + Ids(links[1..]);
      r
  }

  /** `removeSocialLink`'s filter: the links whose id differs from `id`. */
  function WithoutLink(links: seq<SocialLink>, id: string): (r: seq<SocialLink>)
    ensures forall l :: l in r <==> l in links && l.id != id
    ensures id !in Ids(r)
    ensures id !in Ids(links) ==> r == links
    ensures UniqueIds(links) ==> UniqueIds(r)
    ensures IconsMatch(links) ==> IconsMatch(r)
  {
    var r := Filter(links, (l: SocialLink) => l.id != id);
    WithoutLinkFacts(links, id);
    r
  }

  lemma WithoutLinkFacts(links: seq<SocialLink>, id: string)
    ensures var r := Filter(links, (l: SocialLink) => l.id != id);
      && id !in Ids(r)
      && (id !in Ids(links) ==> r == links)
      && (UniqueIds(links) ==> UniqueIds(r))
  {
    var r := Filter(links, (l: SocialLink) => l.id != id);
    if id !in Ids(links) {
      FilterKeepsAll(links, (l: SocialLink) => l.id != id);
    }
    if UniqueIds(links) {
      FilterIdsDistinct(links, (l: SocialLink) => l.id != id);
    }
    assert forall i :: 0 <= i < |r| ==> r[i] in links;
  }

  /** Every id of a filtered list is an id of the list. */
  lemma {:induction false} FilterIds(links: seq<SocialLink>, keep: SocialLink -> bool)
    ensures forall x :: x in Ids(Filter(links, keep)) ==> x in Ids(links)
  {
    if links != [] {
      FilterIds(links[1..], keep);
      var rest := Filter(links[1..], keep);
      assert Ids(links) == [links[0].id] + Ids(links[1..]);
      assert Ids([links[0]] + rest) == [links[0].id] + Ids(rest);
      assert Ids([] + rest) == Ids(rest);
    }
  }

  /** Filtering a list of links with unique ids leaves the ids unique. */
  lemma {:induction false} FilterIdsDistinct(links: seq<SocialLink>, keep: SocialLink -> bool)
    requires UniqueIds(links)
    ensures UniqueIds(Filter(links, keep))
  {
    if links != [] {
      var ids := Ids(links);
      assert Ids(links[1..]) == ids[1..];
      DistinctTail(ids);
      FilterIdsDistinct(links[1..], keep);
      var rest := Filter(links[1..], keep);
      if keep(links[0]) {
        FilterIds(links[1..], keep);
        assert Ids([links[0]] + rest) == [links[0].id] + Ids(rest);
        PrependKeepsDistinct(links[0].id, Ids(rest));
      } else {
        assert [] + rest == rest;
      }
    }
  }

  /** `removeSkill`'s filter: every skill equal to `skill` goes, the others stay. */
  function WithoutSkill(skills: seq<string>, skill: string): (r: seq<string>)
    ensures forall s :: s in r <==> s in skills && s != skill
    ensures skill !in skills ==> r == skills
    ensures Distinct(skills) ==> Distinct(r)
  {
    var r := Filter(skills, (s: string) => s != skill);
    WithoutSkillFacts(skills, skill);
    r
  }

  lemma WithoutSkillFacts(skills: seq<string>, skill: string)
    ensures var r := Filter(skills, (s: string) => s != skill);
      && (skill !in skills ==> r == skills)
      && (Distinct(skills) ==> Distinct(r))
  {
    if skill !in skills {
      FilterKeepsAll(skills, (s: string) => s != skill);
    }
    if Distinct(skills) {
      FilterKeepsDistinct(skills, (s: string) => s != skill);
    }
  }

  /** Removing one link preserves the order of the others: the removal
      distributes over any split of the list. */
  lemma WithoutLinkConcat(a: seq<SocialLink>, b: seq<SocialLink>, id: string)
    ensures WithoutLink(a + b, id) == WithoutLink(a, id) + WithoutLink(b, id)
  {
    FilterConcat(a, b, (l: SocialLink) => l.id != id);
  }

  /** Removing one skill preserves the order of the others. */
  lemma WithoutSkillConcat(a: seq<string>, b: seq<string>, skill: string)
    ensures WithoutSkill(a + b, skill) == WithoutSkill(a, skill) + WithoutSkill(b, skill)
  {
    FilterConcat(a, b, (s: string) => s != skill);
  }

  /** A one-element list keeps its link exactly when the ids differ; together
      with `WithoutLinkConcat` this fixes the result of every removal. */
  lemma WithoutLinkSingle(l: SocialLink, id: string)
    ensures WithoutLink([l], id) == if l.id == id then [] else [l]
  {
  }

  /** Appending a link whose id is not yet used keeps ids unique and icons matching. */
  lemma AppendLinkKeepsWellFormed(links: seq<SocialLink>, link: SocialLink)
    requires UniqueIds(links) && IconsMatch(links)
    requires link.id !in Ids(links) && IconMatches(link)
    ensures UniqueIds(links + [link]) && IconsMatch(links + [link])
  {
    assert Ids(links + [link]) == Ids(links) + [link.id];
    AppendKeepsDistinct(Ids(links), link.id);
  }

  /** The outcome of `addSkill` on the skills list and the pending input: the
      trimmed input is appended, and the input cleared, only when the trimmed
      text is non-empty and not yet a skill; otherwise both stay as they were. */
  function AddSkillTo(skills: seq<string>, input: string): (r: (seq<string>, string))
    ensures var t := Trim(input);
      if t != "" && t !in skills then r == (skills + [t], "") else r == (skills, input)
    ensures Distinct(skills) ==> Distinct(r.0)
    ensures forall s :: s in skills ==> s in r.0
  {
    var t := Trim(input);
    if t != "" && t !in skills then
      AppendKeepsDistinct(skills, t);
      (skills + [t], "")
    else (skills, input)
  }

  /** The record the builder starts with. */
  const InitialData: PortfolioData := PortfolioData(
    "John Doe",
    "Full-stack developer passionate about creating beautiful and functional web applications. I love turning ideas into reality through code.",
    "",
    [ SocialLink("1", "GitHub", "https://github.com/johndoe", "Github"),
      SocialLink("2", "LinkedIn", "https://linkedin.com/in/johndoe", "Linkedin") ],
    ["React", "TypeScript", "Node.js", "Python", "UI/UX Design"])

  /** The starting record already satisfies the invariants. */
  lemma InitialDataWellFormed()
    ensures WellFormed(InitialData)
  {
    InitialLinksWellFormed();
    InitialSkillsDistinct();
  }

  lemma InitialLinksWellFormed()
    ensures UniqueIds(InitialData.socialLinks) && IconsMatch(InitialData.socialLinks)
  {
    var links := InitialData.socialLinks;
    TableIcons();
    assert links[0].platform == SocialPlatforms[0].name;
    assert links[1].platform == SocialPlatforms[1].name;
    assert Ids(links) == ["1", "2"];
  }

  lemma InitialSkillsDistinct()
    ensures Distinct(InitialData.skills)
  {
    var skills := InitialData.skills;
    assert forall i, j :: 0 <= i < j < |skills| ==> |skills[i]| != |skills[j]|;
  }
}
