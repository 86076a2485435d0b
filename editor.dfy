/** The builder's editing state: the portfolio record, the pending text of
    the skill input and the selected theme, with the form handlers that
    update them. */
module Editor {
  import opened Seqs
  import opened Text
  import opened Portfolio
  import Generator

  class PortfolioEditor {
    var data: PortfolioData
    var skillInput: string
    var theme: Theme

    /** The invariants every handler keeps. */
    predicate Valid()
      reads this
    {
      WellFormed(data)
    }

    /** The state the builder opens with: the sample record, an empty skill
        input and the light theme. */
    constructor ()
      ensures data == InitialData && skillInput == "" && theme == Light
      ensures Valid()
    {
      data := InitialData;
      skillInput := "";
      theme := Light;
      InitialDataWellFormed();
    }

    /** `handleInputChange`: replaces field `f`; the other fields, the skill
        input and the theme are left as they were. */
    method HandleInputChange(f: Field, value: FieldValue)
      requires Fits(f, value)
      modifies this
      ensures Get(data, f) == value
      ensures forall g :: g != f ==> Get(data, g) == Get(old(data), g)
      ensures skillInput == old(skillInput) && theme == old(theme)
    {
      data := Set(data, f, value);
    }

    /** `addSocialLink`: appends a "Website" link with an empty URL under the
        id the clock supplied; the links already there are unchanged. The
        invariants survive when that id is not in use yet. */
    method AddSocialLink(newId: string)
      modifies this
      ensures data == old(data).(socialLinks := old(data.socialLinks) + [NewLink(newId)])
      ensures |data.socialLinks| == |old(data.socialLinks)| + 1
      ensures skillInput == old(skillInput) && theme == old(theme)
      ensures old(Valid()) && newId !in Ids(old(data.socialLinks)) ==> Valid()
    {
      var links := data.socialLinks + [NewLink(newId)];
      if Valid() && newId !in Ids(data.socialLinks) {
        AppendLinkKeepsWellFormed(data.socialLinks, NewLink(newId));
      }
      HandleInputChange(SocialLinks, LinksValue(links));
      FieldsDetermineRecord(data, old(data).(socialLinks := links));
    }

    /** `updateSocialLink`: maps the links, updating the one with id `id`. */
    method UpdateSocialLink(id: string, field: LinkField, value: string)
      modifies this
      ensures data == old(data).(socialLinks := UpdateLinks(old(data.socialLinks), id, field, value))
      ensures skillInput == old(skillInput) && theme == old(theme)
      ensures old(Valid()) ==> Valid()
    {
      var updated := UpdateLinks(data.socialLinks, id, field, value);
      HandleInputChange(SocialLinks, LinksValue(updated));
      FieldsDetermineRecord(data, old(data).(socialLinks := updated));
    }

    /** `removeSocialLink`: keeps the links whose id differs from `id`. */
    method RemoveSocialLink(id: string)
      modifies this
      ensures data == old(data).(socialLinks := WithoutLink(old(data.socialLinks), id))
      ensures skillInput == old(skillInput) && theme == old(theme)
      ensures old(Valid()) ==> Valid()
    {
      var kept := WithoutLink(data.socialLinks, id);
      HandleInputChange(SocialLinks, LinksValue(kept));
      FieldsDetermineRecord(data, old(data).(socialLinks := kept));
    }

    /** The skill input's `onChange`. */
    method SetSkillInput(text: string)
      modifies this
      ensures skillInput == text
      ensures data == old(data) && theme == old(theme)
    {
      skillInput := text;
    }

    /** `addSkill`: the skills and the pending input become what `AddSkillTo`
        gives for them; the rest of the record and the theme are unchanged. */
    method AddSkill()
      modifies this
      ensures (data.skills, skillInput) == AddSkillTo(old(data.skills), old(skillInput))
      ensures data == old(data).(skills := data.skills)
      ensures theme == old(theme)
      ensures old(Valid()) ==> Valid()
    {
      var t := Trim(skillInput);
      if t != "" && t !in data.skills {
        AppendKeepsDistinct(data.skills, t);
        HandleInputChange(Skills, SkillsValue(data.skills + [t]));
        FieldsDetermineRecord(data, old(data).(skills := old(data.skills) + [t]));
        skillInput := "";
      }
    }

    /** `handleSkillKeyPress`: Enter in the skill input adds the skill; any
        other key changes nothing. */
    method SkillKeyPress(key: string)
      modifies this
      ensures key == "Enter" ==>
        (data.skills, skillInput) == AddSkillTo(old(data.skills), old(skillInput))
      ensures key == "Enter" ==> data == old(data).(skills := data.skills)
      ensures key != "Enter" ==> data == old(data) && skillInput == old(skillInput)
      ensures theme == old(theme)
      ensures old(Valid()) ==> Valid()
    {
      if key == "Enter" {
        AddSkill();
      }
    }

    /** `removeSkill`: drops every skill equal to `skill`, keeping the others in order. */
    method RemoveSkill(skill: string)
      modifies this
      ensures data == old(data).(skills := WithoutSkill(old(data.skills), skill))
      ensures skill !in data.skills
      ensures skillInput == old(skillInput) && theme == old(theme)
      ensures old(Valid()) ==> Valid()
    {
      var kept := WithoutSkill(data.skills, skill);
      HandleInputChange(Skills, SkillsValue(kept));
      FieldsDetermineRecord(data, old(data).(skills := kept));
    }

    /** The theme buttons. */
    method SetTheme(t: Theme)
      modifies this
      ensures theme == t
      ensures data == old(data) && skillInput == old(skillInput)
    {
      theme := t;
    }

    /** `downloadPortfolio`: builds the three files from the current record
        and theme and names the archive after the record's name. When
        packaging fails the outcome is the failure notice. Either way the
        editing state is left as it was. */
    method DownloadPortfolio(packagingSucceeds: bool) returns (outcome: Generator.DownloadOutcome)
      ensures packagingSucceeds <==> outcome.Downloaded?
      ensures outcome.Downloaded? ==>
        && outcome.fileName == Generator.DownloadFileName(data.name)
        && outcome.files == Generator.SiteFiles(data, theme)
    {
      if packagingSucceeds {
        outcome := Generator.Downloaded(Generator.DownloadFileName(data.name), Generator.SiteFiles(data, theme));
      } else {
        outcome := Generator.DownloadFailed;
      }
    }
  }
}
