/** The script shipped with the site: on load it adds press and hover
    effects to the social links and skill tags and fades the container in.
    The text does not depend on the record or the theme. */
module PortfolioScript {
  import opened Text
  import PortfolioHtml

  /** A class selector written as a single-quoted JavaScript string: `'.name'`. */
  function Quoted(className: string): string {
    "'." + className + "'"
  }

  /** The fixed stretches of the script between its three selectors. */
  const ScriptHead: string :=
    "document.addEventListener('DOMContentLoaded', function() {\n"
    + "    // Add smooth scrolling\n"
    + "    document.documentElement.style.scrollBehavior = 'smooth';\n"
    + "    \n"
    + "    // Add click effects to interactive elements\n"
    + "    const socialLinks = document.querySelectorAll("
  const LinksToTags: string := ");\n    const skillTags = document.querySelectorAll("
  const Effects: string :=
    ");\n"
    + "    \n"
    + "    socialLinks.forEach(link => {\n"
    + "        link.addEventListener('click', function(e) {\n"
    + "            this.style.transform = 'scale(0.95)';\n"
    + "            setTimeout(() => {\n"
    + "                this.style.transform = '';\n"
    + "            }, 150);\n"
    + "        });\n"
    + "    });\n"
    + "    \n"
    + "    skillTags.forEach(tag => {\n"
    + "        tag.addEventListener('mouseenter', function() {\n"
    + "            this.style.transform = 'translateY(-2px) scale(1.05)';\n"
    + "        });\n"
    + "        \n"
    + "        tag.addEventListener('mouseleave', function() {\n"
    + "            this.style.transform = '';\n"
    + "        });\n"
    + "    });\n"
    + "    \n"
    + "    // Add loading animation\n"
    + "    const container = document.querySelector("
  const ScriptTail: string :=
    ");\n"
    + "    container.style.opacity = '0';\n"
    + "    container.style.transform = 'translateY(20px)';\n"
    + "    \n"
    + "    setTimeout(() => {\n"
    + "        container.style.transition = 'all 0.6s ease';\n"
    + "        container.style.opacity = '1';\n"
    + "        container.style.transform = 'translateY(0)';\n"
    + "    }, 100);\n"
    + "    \n"
    + "    console.log('Portfolio loaded successfully! \U{2728}');\n"
    + "});"

  /** The part of the script from the skill-tag query on. */
  function FromTagsQuery(): string {
    LinksToTags + Quoted(PortfolioHtml.SkillTagClass) + FromContainerQuery()
  }

  /** The part of the script from the container query on. */
  function FromContainerQuery(): string {
    Effects + Quoted(PortfolioHtml.ContainerClass) + ScriptTail
  }

  /** `generateJS()`. */
  function GenerateJs(): (js: string)
  {
    ScriptHead + Quoted(PortfolioHtml.SocialLinkClass) + FromTagsQuery()
  }

  /** The script selects every social link by its class. */
  lemma ScriptSelectsSocialLinks()
    ensures Occurs(Quoted(PortfolioHtml.SocialLinkClass), GenerateJs())
  {
    OccursBetween(ScriptHead, Quoted(PortfolioHtml.SocialLinkClass), FromTagsQuery());
  }

  /** The script selects every skill tag by its class. */
  lemma ScriptSelectsSkillTags()
    ensures Occurs(Quoted(PortfolioHtml.SkillTagClass), GenerateJs())
  {
    OccursBetween(LinksToTags, Quoted(PortfolioHtml.SkillTagClass), FromContainerQuery());
    OccursInSuffix(Quoted(PortfolioHtml.SkillTagClass), ScriptHead + Quoted(PortfolioHtml.SocialLinkClass), FromTagsQuery());
  }

  /** The script selects the container by its class. */
  lemma ScriptSelectsContainer()
    ensures Occurs(Quoted(PortfolioHtml.ContainerClass), GenerateJs())
  {
    var c := Quoted(PortfolioHtml.ContainerClass);
    OccursBetween(Effects, c, ScriptTail);
    OccursInSuffix(c, LinksToTags + Quoted(PortfolioHtml.SkillTagClass), FromContainerQuery());
    OccursInSuffix(c, ScriptHead + Quoted(PortfolioHtml.SocialLinkClass), FromTagsQuery());
  }
}
