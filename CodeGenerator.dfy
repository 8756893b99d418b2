/** generatePortfolioCode: the page, the stylesheet of the template's
    resolved theme, and the constant script, for one profile and one
    template. */
module CodeGenerator {
  import opened JsString
  import opened TemplateLiteral
  import opened PortfolioData
  import opened Themes
  import opened Stylesheet
  import opened Script
  import opened Markup
  import opened Fragments

  /** generatePortfolioCode. `year` is the clock's current year and
      `otherDate` what the platform makes of a date that is not `YYYY-MM`. */
  function GeneratePortfolioCode(p: Profile, template: TemplateData, year: nat,
                                 otherDate: string -> string): (code: GeneratedCode)
    ensures "<!DOCTYPE html>" <= code.html
    ensures ":root {\n  --primary-color: " <= code.css
    ensures "// Smooth scrolling for navigation links\n" <= code.js
  {
    var styles := GetTemplateStyles(template.id);
    GeneratedCode(GenerateHTML(p, template, year, otherDate), GenerateCSS(template, styles), GenerateJS())
  }

  /** The generated stylesheet carries exactly the theme the template id
      resolves to: reading its four values back gives that theme. */
  lemma StylesheetCarriesTheme(p: Profile, template: TemplateData, year: nat, otherDate: string -> string)
    ensures ReadTheme(GeneratePortfolioCode(p, template, year, otherDate).css) == Some(GetTemplateStyles(template.id))
  {
    TableStylesSemicolonFree(template.id);
    ReadThemeGenerate(template, GetTemplateStyles(template.id));
  }

  /** Two templates give the same stylesheet exactly when their ids resolve
      to the same table id, whatever the profiles. */
  lemma SameStylesheetIff(p1: Profile, t1: TemplateData, p2: Profile, t2: TemplateData, year: nat,
                          otherDate: string -> string)
    ensures GeneratePortfolioCode(p1, t1, year, otherDate).css == GeneratePortfolioCode(p2, t2, year, otherDate).css
            <==> ResolvedId(t1.id) == ResolvedId(t2.id)
  {
    StylesheetIffSameStyle(t1, t2);
  }

  /** An id outside the table produces exactly the code of the `minimal`
      template: same page, same stylesheet, same script. */
  lemma UnknownTemplateIsMinimal(p: Profile, template: TemplateData, year: nat, otherDate: string -> string)
    requires template.id !in TemplateIds
    ensures GeneratePortfolioCode(p, template, year, otherDate)
         == GeneratePortfolioCode(p, TemplateData("minimal", "", "", ""), year, otherDate)
  {
    UnknownIdFallsBack(template.id);
    StylesheetIgnoresTemplate(template, TemplateData("minimal", "", "", ""), GetTemplateStyles("minimal"));
    MarkupIgnoresTemplateAndUnrenderedFields(p, template, TemplateData("minimal", "", "", ""), p.website, p.twitter,
                                             year, otherDate);
  }

  /** The script is the same for every profile, template, year and date
      rendering. */
  lemma ScriptIsConstant(p1: Profile, t1: TemplateData, y1: nat, o1: string -> string,
                         p2: Profile, t2: TemplateData, y2: nat, o2: string -> string)
    ensures GeneratePortfolioCode(p1, t1, y1, o1).js == GeneratePortfolioCode(p2, t2, y2, o2).js
  {
  }

  /** The website and twitter fields change none of the three files. */
  lemma CodeIgnoresUnrenderedFields(p: Profile, template: TemplateData, website: string, twitter: string,
                                    year: nat, otherDate: string -> string)
    ensures GeneratePortfolioCode(p, template, year, otherDate)
         == GeneratePortfolioCode(p.(website := website, twitter := twitter), template, year, otherDate)
  {
    MarkupIgnoresTemplateAndUnrenderedFields(p, template, template, website, twitter, year, otherDate);
  }

  /** The developer template declares its green primary colour and its
      monospace font. */
  lemma DeveloperStylesheet(p: Profile, year: nat, otherDate: string -> string)
    ensures var css := GeneratePortfolioCode(p, TemplateData("developer", "Developer", "", ""), year, otherDate).css;
            && Contains(css, "--primary-color: " + "#10B981" + ";")
            && Contains(css, "font-family: " + "'JetBrains Mono', monospace" + ";")
  {
    var t := TemplateData("developer", "Developer", "", "");
    CatalogStyles();
    ThemeValuesDeclared(t, GetTemplateStyles("developer"));
  }
  /** A worked profile: a name, a title and two skills, no lists. */
  const AdaProfile: Profile := DefaultProfile.(name := "Ada Lovelace", title := "Engineer", skills := ["Math", "Logic"])

  /** The two skills render as two tags, in order. */
  lemma AdaSkillTags()
    ensures SkillsHtml(AdaProfile.skills)
         == "<span class=\"skill-tag\">Math</span>" + "\n      " + "<span class=\"skill-tag\">Logic</span>"
  {
    var tags := Wrap(SkillOpen, TagClose, AdaProfile.skills);
    assert tags == [SkillOpen + "Math" + TagClose, SkillOpen + "Logic" + TagClose];
    assert tags[1..] == [SkillOpen + "Logic" + TagClose];
    assert Join(tags[1..], SkillSeparator) == SkillOpen + "Logic" + TagClose;
    assert Join(tags, SkillSeparator) == tags[0] + SkillSeparator + Join(tags[1..], SkillSeparator);
    assert SkillOpen + "Math" + TagClose == "<span class=\"skill-tag\">Math</span>";
    assert SkillOpen + "Logic" + TagClose == "<span class=\"skill-tag\">Logic</span>";
  }

  /** The worked profile with the developer template. The page shows the
      name and the title, the two skill tags in order, and the empty-list
      sentence of the experience list; the stylesheet declares the
      developer colour; the script is the one the `minimal` template gets. */
  lemma AdaLovelaceExample(year: nat, otherDate: string -> string)
    ensures var code := GeneratePortfolioCode(AdaProfile, TemplateData("developer", "Developer", "", ""), year, otherDate);
            && Contains(code.html, "<h1>" + ("Ada Lovelace" + HeadingBreak + "Engineer") + "</p>")
            && Contains(code.html, SkillsOpen
                                   + ("<span class=\"skill-tag\">Math</span>" + "\n      " + "<span class=\"skill-tag\">Logic</span>")
                                   + "\n          </div>")
            && Contains(code.html, ExperienceOpenTag + "<p>No experience added yet.</p>" + ContainerClose)
            && Contains(code.css, "--primary-color: " + "#10B981" + ";")
            && code.js == GeneratePortfolioCode(AdaProfile, TemplateData("minimal", "Minimal", "", ""), year, otherDate).js
  {
    var p, t := AdaProfile, TemplateData("developer", "Developer", "", "");
    TitleAndHeadingShown(p, t, year, otherDate);
    AboutAndSkillsShown(p, t, year, otherDate);
    ListSectionsShown(p, t, year, otherDate);
    assert Or(p.name, "Your Name") == "Ada Lovelace" && Or(p.title, "Your Title") == "Engineer";
    AdaSkillTags();
    assert ExperienceSection(p.experiences, otherDate) == NoExperience;
    DeveloperStylesheet(p, year, otherDate);
  }
}
