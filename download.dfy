/** `downloadPortfolio`: the three files of the generated site and the name
    of the archive that carries them. */
module Generator {
  import opened Text
  import opened Portfolio
  import PortfolioHtml
  import PortfolioCss
  import PortfolioScript

  /** One file of the archive. */
  datatype SiteFile = SiteFile(name: string, content: string)

  /** What a download ends in: the archive's name and files, or the failure
      notice the builder shows when packaging throws. */
  datatype DownloadOutcome =
    | Downloaded(fileName: string, files: seq<SiteFile>)
    | DownloadFailed

  const PageFile: string := "index.html"

  /** The archive: the page, the stylesheet for the theme and the script. */
  function SiteFiles(data: PortfolioData, theme: Theme): (fs: seq<SiteFile>)
    ensures |fs| == 3
  {
    [ SiteFile(PageFile, PortfolioHtml.GeneratePortfolioHtml(data, theme)),
      SiteFile(PortfolioHtml.StylesheetFile, PortfolioCss.GenerateCss(theme)),
      SiteFile(PortfolioHtml.ScriptFile, PortfolioScript.GenerateJs()) ]
  }

  /** The three file names differ. */
  lemma FileNamesDistinct()
    ensures PageFile != PortfolioHtml.StylesheetFile
    ensures PageFile != PortfolioHtml.ScriptFile
    ensures PortfolioHtml.StylesheetFile != PortfolioHtml.ScriptFile
  {
    assert PageFile[0] == 'i' && PortfolioHtml.StylesheetFile[0] == 's';
    assert PortfolioHtml.StylesheetFile[1] == 't' && PortfolioHtml.ScriptFile[1] == 'c';
  }

  /** The archive's files have distinct names. */
  lemma SiteFileNamesDistinct(data: PortfolioData, theme: Theme)
    ensures SiteFiles(data, theme)[0].name != SiteFiles(data, theme)[1].name
    ensures SiteFiles(data, theme)[0].name != SiteFiles(data, theme)[2].name
    ensures SiteFiles(data, theme)[1].name != SiteFiles(data, theme)[2].name
  {
    FileNamesDistinct();
  }

  /** The page refers to the stylesheet and the script by exactly the names
      they are stored under in the archive. */
  lemma PageLinksSiteFiles(data: PortfolioData, theme: Theme)
    ensures Occurs(SiteFiles(data, theme)[1].name, SiteFiles(data, theme)[0].content)
    ensures Occurs(SiteFiles(data, theme)[2].name, SiteFiles(data, theme)[0].content)
  {
    PortfolioHtml.PageLinksStylesheet(data, theme);
    PortfolioHtml.PageLoadsScript(data, theme);
  }

  /** The script uses the container without checking that it was found;
      the page always has it. */
  lemma ScriptContainerInPage(data: PortfolioData, theme: Theme)
    ensures Occurs(PortfolioScript.Quoted(PortfolioHtml.ContainerClass), PortfolioScript.GenerateJs())
    ensures Occurs(PortfolioHtml.Attr(PortfolioHtml.ContainerClass), PortfolioHtml.GeneratePortfolioHtml(data, theme))
  {
    PortfolioScript.ScriptSelectsContainer();
    PortfolioHtml.ContainerInHtml(data, theme);
  }

  /** The social links the script selects are in the page whenever the
      record has a link. */
  lemma ScriptLinksInPage(data: PortfolioData, theme: Theme)
    requires data.socialLinks != []
    ensures Occurs(PortfolioScript.Quoted(PortfolioHtml.SocialLinkClass), PortfolioScript.GenerateJs())
    ensures Occurs(PortfolioHtml.Attr(PortfolioHtml.SocialLinkClass), PortfolioHtml.GeneratePortfolioHtml(data, theme))
  {
    PortfolioScript.ScriptSelectsSocialLinks();
    PortfolioHtml.LinkClassInHtml(data, theme);
  }

  /** The skill tags the script selects are in the page whenever the record
      has a skill. */
  lemma ScriptTagsInPage(data: PortfolioData, theme: Theme)
    requires data.skills != []
    ensures Occurs(PortfolioScript.Quoted(PortfolioHtml.SkillTagClass), PortfolioScript.GenerateJs())
    ensures Occurs(PortfolioHtml.Attr(PortfolioHtml.SkillTagClass), PortfolioHtml.GeneratePortfolioHtml(data, theme))
  {
    PortfolioScript.ScriptSelectsSkillTags();
    PortfolioHtml.TagClassInHtml(data, theme);
  }

  const ArchiveSuffix: string := "-portfolio.zip"

  /** `name.replace(/\s+/g, '-').toLowerCase()`: the record's name with each
      white-space run turned into one hyphen, then lower-cased. */
  function Slug(name: string): (r: string)
    ensures |r| <= |name|
    ensures NoWhitespace(r)
    ensures forall k :: 0 <= k < |r| ==> !IsUpperAscii(r[k])
    ensures NoWhitespace(name) ==> r == Lower(name)
  {
    Lower(ReplaceWhitespaceRuns(name))
  }

  /** The archive's name: the slug followed by `-portfolio.zip`. */
  function DownloadFileName(name: string): (r: string)
    ensures |r| == |Slug(name)| + |ArchiveSuffix|
  {
    Slug(name) + ArchiveSuffix
  }

  /** The archive's name is the slug followed by `-portfolio.zip`; like the
      slug, it holds no white space and no upper-case ASCII letter. */
  lemma FileNameIsPlain(name: string)
    ensures DownloadFileName(name)[..|Slug(name)|] == Slug(name)
    ensures DownloadFileName(name)[|Slug(name)|..] == ArchiveSuffix
    ensures NoWhitespace(DownloadFileName(name))
    ensures forall k :: 0 <= k < |DownloadFileName(name)| ==> !IsUpperAscii(DownloadFileName(name)[k])
  {
    var slug := Slug(name);
    var r := DownloadFileName(name);
    assert r[..|slug|] == slug;
    assert r[|slug|..] == ArchiveSuffix;
    assert forall k :: |slug| <= k < |r| ==> r[k] == ArchiveSuffix[k - |slug|];
  }

  /** The slug of a slug is the slug itself. */
  lemma SlugIdempotent(name: string)
    ensures Slug(Slug(name)) == Slug(name)
  {
    LowerIdempotent(ReplaceWhitespaceRuns(name));
  }

  /** The slug agrees with the one-character-at-a-time reference scan over
      the lower-cased name, so lower-casing first would give the same name. */
  lemma SlugMatchesScan(name: string)
    ensures Slug(name) == ReplaceScan(Lower(name), false)
    ensures Slug(name) == ReplaceWhitespaceRuns(Lower(name))
  {
    LowerCommutesWithReplace(name);
    ReplaceRunsMatchesScan(Lower(name));
  }

  /** Replacing runs in a word, a run and a rest that starts with no white
      space keeps the word, writes one hyphen and goes on with the rest. */
  lemma {:induction false} ReplaceAfterWord(word: string, run: string, rest: string)
    requires NoWhitespace(word) && run != [] && AllWhitespace(run)
    requires rest == [] || !IsWhitespace(rest[0])
    ensures ReplaceWhitespaceRuns(word + run + rest) == word + "-" + ReplaceWhitespaceRuns(rest)
    decreases |word|
  {
    var s := word + run + rest;
    if word == [] {
      assert s == run + rest;
      LeadingRun(run, rest);
      assert s[|run|..] == rest;
    } else {
      assert s[0] == word[0] && s[1..] == word[1..] + run + rest;
      ReplaceAfterWord(word[1..], run, rest);
      assert [word[0]] + (word[1..] + "-" + ReplaceWhitespaceRuns(rest)) == word + "-" + ReplaceWhitespaceRuns(rest);
    }
  }

  /** A white-space run followed by a non-white-space character is exactly the leading run. */
  lemma {:induction false} LeadingRun(run: string, rest: string)
    requires AllWhitespace(run)
    requires rest == [] || !IsWhitespace(rest[0])
    ensures LeadingWhitespace(run + rest) == |run|
    decreases |run|
  {
    if run != [] {
      assert (run + rest)[1..] == run[1..] + rest;
      LeadingRun(run[1..], rest);
    } else {
      assert run + rest == rest;
    }
  }

  /** Two words separated by any white-space run give the two words
      lower-cased and joined by one hyphen; with an empty first word this is
      a name with leading blanks, which is not trimmed but gets a leading
      hyphen. */
  lemma TwoWordSlug(first: string, run: string, second: string)
    requires NoWhitespace(first) && NoWhitespace(second) && second != []
    requires run != [] && AllWhitespace(run)
    ensures Slug(first + run + second) == Lower(first) + "-" + Lower(second)
  {
    ReplaceAfterWord(first, run, second);
    LowerConcat(first + "-", second);
    LowerConcat(first, "-");
    assert Lower("-") == "-";
  }

  /** An empty name is not rejected: the archive is named by the bare suffix. */
  lemma EmptyFileName()
    ensures DownloadFileName("") == "-portfolio.zip"
  {
  }
}
