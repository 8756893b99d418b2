/** generateHTML: the portfolio page, one template literal whose seventeen
    substitutions are the profile's texts (with their defaults when empty)
    and the fragments built from its lists. */
module Markup {
  import opened JsString
  import opened TemplateLiteral
  import opened PortfolioData
  import opened Dates
  import opened Fragments

  /** The stretches of fixed page text that no lemma looks inside: the
      document head, the font links, the navigation bar and the section
      headings. */
  datatype PageText = PageText(
    head: string,
    headLinks: string,
    nav: string,
    skillsHead: string,
    experienceHead: string,
    educationHead: string,
    projectsHead: string,
    contactHead: string,
    footerHead: string,
    tail: string)

  const HeadingBreak: string := "</h1>\n      <p class=\"title\">"
  const SocialOpen: string := "<div class=\"social-links\">\n        "
  const LinkBreak: string := "\n        "
  const SkillsOpen: string := "<div class=\"skills-container\">\n            "
  const ExperienceOpenTag: string := "<div class=\"experience-container\">\n        "
  const EducationOpenTag: string := "<div class=\"education-container\">\n        "
  const ProjectsOpenTag: string := "<div class=\"projects-container\">\n        "
  const ContactOpen: string := "<div class=\"contact-info\">\n          "
  const RowBreak: string := "\n          "
  const ContainerClose: string := "\n      </div>"

  /** The literal parts of the page around its seventeen substitutions. */
  function PageParts(c: PageText): (parts: seq<string>)
    ensures |parts| == 18
  {
    [ "<!DOCTYPE html>" + c.head + "<title>",
      " - ",
      "</title>" + c.headLinks + "<h1>",
      HeadingBreak,
      "</p>" + "\n      " + SocialOpen,
      LinkBreak ]
    +
    [ LinkBreak,
      ContainerClose + c.nav + "<p>",
      "</p>" + c.skillsHead + SkillsOpen,
      "\n          </div>" + c.experienceHead + ExperienceOpenTag,
      ContainerClose + c.educationHead + EducationOpenTag,
      ContainerClose + c.projectsHead + ProjectsOpenTag ]
    +
    [ ContainerClose + c.contactHead + ContactOpen,
      RowBreak,
      RowBreak,
      "\n        </div>" + c.footerHead + "<p>&copy; ",
      " ",
      ". All rights reserved.</p>" + c.tail ]
  }

  /** The fixed text of the generated page. */
  const Page: PageText := PageText(
    @"
<html lang=""en"">
<head>
  <meta charset=""UTF-8"">
  <meta name=""viewport"" content=""width=device-width, initial-scale=1.0"">
  ",
    @"
  <link rel=""preconnect"" href=""https://fonts.googleapis.com"">
  <link rel=""preconnect"" href=""https://fonts.gstatic.com"" crossorigin>
  <link href=""https://fonts.googleapis.com/css2?family=Inter:wght@400;500;600;700&family=JetBrains+Mono:wght@400;600&family=Poppins:wght@400;500;600;700&family=Source+Sans+Pro:wght@400;600;700&family=DM+Sans:wght@400;500;700&family=Merriweather:wght@400;700&display=swap"" rel=""stylesheet"">
</head>
<body>
  <header id=""home"">
    <div class=""header-content"">
      ",
    @"
    </div>
  </header>

  <nav id=""navbar"">
    <div class=""container"">
      <a href=""#home"">Home</a>
      <a href=""#about"">About</a>
      <a href=""#experience"">Experience</a>
      <a href=""#projects"">Projects</a>
      <a href=""#contact"">Contact</a>
    </div>
  </nav>

  <section id=""about"" class=""section"">
    <div class=""container"">
      <h2 class=""section-title"">About Me</h2>
      <div class=""about-content"">
        <div class=""about-text"">
          ",
    @"
        </div>
        <div class=""skills"">
          <h3>Skills</h3>
          ",
    @"
        </div>
      </div>
    </div>
  </section>

  <section id=""experience"" class=""section"">
    <div class=""container"">
      <h2 class=""section-title"">Experience</h2>
      ",
    @"
      
      <h2 class=""section-title"">Education</h2>
      ",
    @"
    </div>
  </section>

  <section id=""projects"" class=""section"">
    <div class=""container"">
      <h2 class=""section-title"">Projects</h2>
      ",
    @"
    </div>
  </section>

  <section id=""contact"" class=""section"">
    <div class=""container"">
      <h2 class=""section-title"">Contact</h2>
      <div class=""contact-content"">
        <p>Get in touch with me through any of the following methods:</p>
        ",
    @"
      </div>
    </div>
  </section>

  <footer>
    <div class=""container"">
      ",
    @"
    </div>
  </footer>
</body>
</html>")

  const AboutPlaceholder: string := "Write something about yourself here."

  /** The substitutions of the header: document title, heading, social links. */
  function HeaderSlots(p: Profile): (slots: seq<string>)
    ensures |slots| == 7
  {
    [ Or(p.name, "Portfolio"),
      Or(p.title, "Professional Portfolio"),
      Or(p.name, "Your Name"),
      Or(p.title, "Your Title"),
      EmailLink(p.email),
      LinkedInLink(p.linkedin),
      GitHubLink(p.github) ]
  }

  /** The substitutions of the about, experience and projects sections. */
  function BodySlots(p: Profile, otherDate: string -> string): (slots: seq<string>)
    ensures |slots| == 5
  {
    [ Or(p.about, AboutPlaceholder),
      SkillsHtml(p.skills),
      ExperienceSection(p.experiences, otherDate),
      EducationSection(p.education, otherDate),
      ProjectsSection(p.projects) ]
  }

  /** The substitutions of the contact section and the footer. The current
      year is a parameter: the page reads it from the clock. */
  function FooterSlots(p: Profile, year: nat): (slots: seq<string>)
    ensures |slots| == 5
  {
    [ EmailRow(p.email),
      PhoneRow(p.phone),
      LocationRow(p.location),
      NatToString(year),
      Or(p.name, "Your Name") ]
  }

  /** The seventeen substitutions of the page, in template order. */
  function Slots(p: Profile, year: nat, otherDate: string -> string): (slots: seq<string>)
    ensures |slots| == 17
  {
    HeaderSlots(p) + BodySlots(p, otherDate) + FooterSlots(p, year)
  }

  /** The title and heading substitutions. */
  lemma TitleSlotValues(p: Profile, year: nat, otherDate: string -> string)
    ensures var hs := Slots(p, year, otherDate);
            && hs[0] == Or(p.name, "Portfolio") && hs[1] == Or(p.title, "Professional Portfolio")
            && hs[2] == Or(p.name, "Your Name") && hs[3] == Or(p.title, "Your Title")
  {
    var hs := Slots(p, year, otherDate);
    var h := HeaderSlots(p);
    assert hs[0] == h[0] && hs[1] == h[1] && hs[2] == h[2] && hs[3] == h[3];
  }

  /** The social link substitutions. */
  lemma SocialSlotValues(p: Profile, year: nat, otherDate: string -> string)
    ensures var hs := Slots(p, year, otherDate);
            hs[4] == EmailLink(p.email) && hs[5] == LinkedInLink(p.linkedin) && hs[6] == GitHubLink(p.github)
  {
    var hs := Slots(p, year, otherDate);
    var h := HeaderSlots(p);
    assert hs[4] == h[4] && hs[5] == h[5] && hs[6] == h[6];
  }

  /** The about and skills substitutions. */
  lemma AboutSlotValues(p: Profile, year: nat, otherDate: string -> string)
    ensures var hs := Slots(p, year, otherDate);
            hs[7] == Or(p.about, AboutPlaceholder) && hs[8] == SkillsHtml(p.skills)
  {
    var hs := Slots(p, year, otherDate);
    var b := BodySlots(p, otherDate);
    assert hs[7] == b[0] && hs[8] == b[1];
  }

  /** The three list substitutions. */
  lemma ListSlotValues(p: Profile, year: nat, otherDate: string -> string)
    ensures var hs := Slots(p, year, otherDate);
            && hs[9] == ExperienceSection(p.experiences, otherDate)
            && hs[10] == EducationSection(p.education, otherDate)
            && hs[11] == ProjectsSection(p.projects)
  {
    var hs := Slots(p, year, otherDate);
    var b := BodySlots(p, otherDate);
    assert hs[9] == b[2] && hs[10] == b[3] && hs[11] == b[4];
  }

  /** The contact row substitutions. */
  lemma ContactSlotValues(p: Profile, year: nat, otherDate: string -> string)
    ensures var hs := Slots(p, year, otherDate);
            hs[12] == EmailRow(p.email) && hs[13] == PhoneRow(p.phone) && hs[14] == LocationRow(p.location)
  {
    var hs := Slots(p, year, otherDate);
    var f := FooterSlots(p, year);
    assert hs[12] == f[0] && hs[13] == f[1] && hs[14] == f[2];
  }

  /** The footer substitutions. */
  lemma FooterSlotValues(p: Profile, year: nat, otherDate: string -> string)
    ensures var hs := Slots(p, year, otherDate);
            hs[15] == NatToString(year) && hs[16] == Or(p.name, "Your Name")
  {
    var hs := Slots(p, year, otherDate);
    var f := FooterSlots(p, year);
    assert hs[15] == f[3] && hs[16] == f[4];
  }

  /** Every page begins with its doctype. */
  lemma DoctypeFirst(c: PageText, hs: seq<string>)
    requires |hs| == 17
    ensures "<!DOCTYPE html>" <= Fill(PageParts(c), hs)
  {
    var ps := PageParts(c);
    StartsWithFirst("<!DOCTYPE html>", c.head, "<title>");
    assert ps[0] <= Fill(ps, hs);
  }

  /** generateHTML. The template argument is accepted and not used. The
      ensures gives only the doctype; what the page shows is stated by the
      Shown lemmas below and by EveryEntryShown. */
  function GenerateHTML(p: Profile, template: TemplateData, year: nat, otherDate: string -> string): (html: string)
    ensures "<!DOCTYPE html>" <= html
  {
    DoctypeFirst(Page, Slots(p, year, otherDate));
    Fill(PageParts(Page), Slots(p, year, otherDate))
  }

  // ------------------------------------------- where each substitution lands

  lemma TitleIn(c: PageText, hs: seq<string>)
    requires |hs| == 17
    ensures Contains(Fill(PageParts(c), hs), "<title>" + (hs[0] + " - " + hs[1]) + "</title>")
  {
    var ps := PageParts(c);
    assert ps[0] == "<!DOCTYPE html>" + c.head + "<title>" && ps[1] == " - ";
    assert ps[2] == "</title>" + c.headLinks + "<h1>";
    EndsWithLast("<!DOCTYPE html>", c.head, "<title>");
    StartsWithFirst("</title>", c.headLinks, "<h1>");
    TwoHolesBetween(ps, hs, 0, "<title>", " - ", "</title>");
  }

  lemma HeadingIn(c: PageText, hs: seq<string>)
    requires |hs| == 17
    ensures Contains(Fill(PageParts(c), hs), "<h1>" + (hs[2] + HeadingBreak + hs[3]) + "</p>")
  {
    var ps := PageParts(c);
    assert ps[2] == "</title>" + c.headLinks + "<h1>" && ps[3] == HeadingBreak;
    assert ps[4] == "</p>" + "\n      " + SocialOpen;
    EndsWithLast("</title>", c.headLinks, "<h1>");
    StartsWithFirst("</p>", "\n      ", SocialOpen);
    TwoHolesBetween(ps, hs, 2, "<h1>", HeadingBreak, "</p>");
  }

  lemma SocialLinksIn(c: PageText, hs: seq<string>)
    requires |hs| == 17
    ensures Contains(Fill(PageParts(c), hs),
                     SocialOpen + (hs[4] + LinkBreak + hs[5] + LinkBreak + hs[6]) + ContainerClose)
  {
    var ps := PageParts(c);
    assert ps[4] == "</p>" + "\n      " + SocialOpen && ps[5] == LinkBreak;
    assert ps[6] == LinkBreak && ps[7] == ContainerClose + c.nav + "<p>";
    EndsWithLast("</p>", "\n      ", SocialOpen);
    StartsWithFirst(ContainerClose, c.nav, "<p>");
    ThreeHolesBetween(ps, hs, 4, SocialOpen, LinkBreak, LinkBreak, ContainerClose);
  }

  lemma AboutIn(c: PageText, hs: seq<string>)
    requires |hs| == 17
    ensures Contains(Fill(PageParts(c), hs), "<p>" + hs[7] + "</p>")
  {
    var ps := PageParts(c);
    assert ps[7] == ContainerClose + c.nav + "<p>";
    assert ps[8] == "</p>" + c.skillsHead + SkillsOpen;
    EndsWithLast(ContainerClose, c.nav, "<p>");
    StartsWithFirst("</p>", c.skillsHead, SkillsOpen);
    HoleBetween(ps, hs, 7, "<p>", "</p>");
  }

  lemma SkillsIn(c: PageText, hs: seq<string>)
    requires |hs| == 17
    ensures Contains(Fill(PageParts(c), hs), SkillsOpen + hs[8] + "\n          </div>")
  {
    var ps := PageParts(c);
    assert ps[8] == "</p>" + c.skillsHead + SkillsOpen;
    assert ps[9] == "\n          </div>" + c.experienceHead + ExperienceOpenTag;
    EndsWithLast("</p>", c.skillsHead, SkillsOpen);
    StartsWithFirst("\n          </div>", c.experienceHead, ExperienceOpenTag);
    HoleBetween(ps, hs, 8, SkillsOpen, "\n          </div>");
  }

  lemma ExperienceListIn(c: PageText, hs: seq<string>)
    requires |hs| == 17
    ensures Contains(Fill(PageParts(c), hs), ExperienceOpenTag + hs[9] + ContainerClose)
  {
    var ps := PageParts(c);
    assert ps[9] == "\n          </div>" + c.experienceHead + ExperienceOpenTag;
    assert ps[10] == ContainerClose + c.educationHead + EducationOpenTag;
    EndsWithLast("\n          </div>", c.experienceHead, ExperienceOpenTag);
    StartsWithFirst(ContainerClose, c.educationHead, EducationOpenTag);
    HoleBetween(ps, hs, 9, ExperienceOpenTag, ContainerClose);
  }

  lemma EducationListIn(c: PageText, hs: seq<string>)
    requires |hs| == 17
    ensures Contains(Fill(PageParts(c), hs), EducationOpenTag + hs[10] + ContainerClose)
  {
    var ps := PageParts(c);
    assert ps[10] == ContainerClose + c.educationHead + EducationOpenTag;
    assert ps[11] == ContainerClose + c.projectsHead + ProjectsOpenTag;
    EndsWithLast(ContainerClose, c.educationHead, EducationOpenTag);
    StartsWithFirst(ContainerClose, c.projectsHead, ProjectsOpenTag);
    HoleBetween(ps, hs, 10, EducationOpenTag, ContainerClose);
  }

  lemma ProjectListIn(c: PageText, hs: seq<string>)
    requires |hs| == 17
    ensures Contains(Fill(PageParts(c), hs), ProjectsOpenTag + hs[11] + ContainerClose)
  {
    var ps := PageParts(c);
    assert ps[11] == ContainerClose + c.projectsHead + ProjectsOpenTag;
    assert ps[12] == ContainerClose + c.contactHead + ContactOpen;
    EndsWithLast(ContainerClose, c.projectsHead, ProjectsOpenTag);
    StartsWithFirst(ContainerClose, c.contactHead, ContactOpen);
    HoleBetween(ps, hs, 11, ProjectsOpenTag, ContainerClose);
  }

  lemma ContactIn(c: PageText, hs: seq<string>)
    requires |hs| == 17
    ensures Contains(Fill(PageParts(c), hs),
                     ContactOpen + (hs[12] + RowBreak + hs[13] + RowBreak + hs[14]) + "\n        </div>")
  {
    var ps := PageParts(c);
    assert ps[12] == ContainerClose + c.contactHead + ContactOpen && ps[13] == RowBreak;
    assert ps[14] == RowBreak && ps[15] == "\n        </div>" + c.footerHead + "<p>&copy; ";
    EndsWithLast(ContainerClose, c.contactHead, ContactOpen);
    StartsWithFirst("\n        </div>", c.footerHead, "<p>&copy; ");
    ThreeHolesBetween(ps, hs, 12, ContactOpen, RowBreak, RowBreak, "\n        </div>");
  }

  lemma FooterIn(c: PageText, hs: seq<string>)
    requires |hs| == 17
    ensures Contains(Fill(PageParts(c), hs), "<p>&copy; " + (hs[15] + " " + hs[16]) + ". All rights reserved.</p>")
  {
    var ps := PageParts(c);
    assert ps[15] == "\n        </div>" + c.footerHead + "<p>&copy; " && ps[16] == " ";
    assert ps[17] == ". All rights reserved.</p>" + c.tail;
    EndsWithLast("\n        </div>", c.footerHead, "<p>&copy; ");
    StartsWithFirst(". All rights reserved.</p>", c.tail, "");
    TwoHolesBetween(ps, hs, 15, "<p>&copy; ", " ", ". All rights reserved.</p>");
  }

  // ------------------------------------------------------------ the page

  /** The document title and the heading: the name and the title of the
      profile, each replaced by its default when empty. */
  lemma TitleAndHeadingShown(p: Profile, template: TemplateData, year: nat, otherDate: string -> string)
    ensures var html := GenerateHTML(p, template, year, otherDate);
            && Contains(html, "<title>" + (Or(p.name, "Portfolio") + " - " + Or(p.title, "Professional Portfolio")) + "</title>")
            && Contains(html, "<h1>" + (Or(p.name, "Your Name") + HeadingBreak + Or(p.title, "Your Title")) + "</p>")
  {
    var hs := Slots(p, year, otherDate);
    TitleSlotValues(p, year, otherDate);
    TitleIn(Page, hs);
    HeadingIn(Page, hs);
  }

  /** The social links of the header, each of them empty when its field is. */
  lemma SocialLinksShown(p: Profile, template: TemplateData, year: nat, otherDate: string -> string)
    ensures Contains(GenerateHTML(p, template, year, otherDate),
                     SocialOpen + (EmailLink(p.email) + LinkBreak + LinkedInLink(p.linkedin) + LinkBreak + GitHubLink(p.github))
                     + ContainerClose)
  {
    var hs := Slots(p, year, otherDate);
    SocialSlotValues(p, year, otherDate);
    SocialLinksIn(Page, hs);
  }

  /** The about text (or its placeholder) and the skill tags. */
  lemma AboutAndSkillsShown(p: Profile, template: TemplateData, year: nat, otherDate: string -> string)
    ensures var html := GenerateHTML(p, template, year, otherDate);
            && Contains(html, "<p>" + Or(p.about, AboutPlaceholder) + "</p>")
            && Contains(html, SkillsOpen + SkillsHtml(p.skills) + "\n          </div>")
  {
    var hs := Slots(p, year, otherDate);
    AboutSlotValues(p, year, otherDate);
    AboutIn(Page, hs);
    SkillsIn(Page, hs);
  }

  /** The three list containers hold the list blocks, or their empty-list
      sentences. */
  lemma ListSectionsShown(p: Profile, template: TemplateData, year: nat, otherDate: string -> string)
    ensures var html := GenerateHTML(p, template, year, otherDate);
            && Contains(html, ExperienceOpenTag + ExperienceSection(p.experiences, otherDate) + ContainerClose)
            && Contains(html, EducationOpenTag + EducationSection(p.education, otherDate) + ContainerClose)
            && Contains(html, ProjectsOpenTag + ProjectsSection(p.projects) + ContainerClose)
  {
    var hs := Slots(p, year, otherDate);
    ListSlotValues(p, year, otherDate);
    ExperienceListIn(Page, hs);
    EducationListIn(Page, hs);
    ProjectListIn(Page, hs);
  }

  /** The contact rows, each of them empty when its field is. */
  lemma ContactRowsShown(p: Profile, template: TemplateData, year: nat, otherDate: string -> string)
    ensures Contains(GenerateHTML(p, template, year, otherDate),
                     ContactOpen + (EmailRow(p.email) + RowBreak + PhoneRow(p.phone) + RowBreak + LocationRow(p.location))
                     + "\n        </div>")
  {
    var hs := Slots(p, year, otherDate);
    ContactSlotValues(p, year, otherDate);
    ContactIn(Page, hs);
  }

  /** The footer: the given year and the name, or `Your Name`. */
  lemma FooterShown(p: Profile, template: TemplateData, year: nat, otherDate: string -> string)
    ensures Contains(GenerateHTML(p, template, year, otherDate),
                     "<p>&copy; " + (NatToString(year) + " " + Or(p.name, "Your Name")) + ". All rights reserved.</p>")
  {
    var hs := Slots(p, year, otherDate);
    FooterSlotValues(p, year, otherDate);
    FooterIn(Page, hs);
  }

  /** Every entry of every list is rendered as its block somewhere in the
      page. */
  lemma EveryEntryShown(p: Profile, template: TemplateData, year: nat, otherDate: string -> string)
    ensures var html := GenerateHTML(p, template, year, otherDate);
            && (forall k :: 0 <= k < |p.experiences| ==> Contains(html, ExperienceItem(p.experiences[k], otherDate)))
            && (forall k :: 0 <= k < |p.education| ==> Contains(html, EducationItem(p.education[k], otherDate)))
            && (forall k :: 0 <= k < |p.projects| ==> Contains(html, ProjectItem(p.projects[k])))
  {
    var html := GenerateHTML(p, template, year, otherDate);
    ListSectionsShown(p, template, year, otherDate);
    forall k | 0 <= k < |p.experiences| ensures Contains(html, ExperienceItem(p.experiences[k], otherDate)) {
      var sec := ExperienceSection(p.experiences, otherDate);
      ExperienceSectionIff(p.experiences, otherDate);
      JoinHoldsElements(ExperienceItems(p.experiences, otherDate), BlockSeparator, k);
      InMiddle(ExperienceOpenTag, sec, ContainerClose);
      ContainsTrans(html, ExperienceOpenTag + sec + ContainerClose, sec);
      ContainsTrans(html, sec, ExperienceItem(p.experiences[k], otherDate));
    }
    forall k | 0 <= k < |p.education| ensures Contains(html, EducationItem(p.education[k], otherDate)) {
      var sec := EducationSection(p.education, otherDate);
      EducationSectionIff(p.education, otherDate);
      JoinHoldsElements(EducationItems(p.education, otherDate), BlockSeparator, k);
      InMiddle(EducationOpenTag, sec, ContainerClose);
      ContainsTrans(html, EducationOpenTag + sec + ContainerClose, sec);
      ContainsTrans(html, sec, EducationItem(p.education[k], otherDate));
    }
    forall k | 0 <= k < |p.projects| ensures Contains(html, ProjectItem(p.projects[k])) {
      var sec := ProjectsSection(p.projects);
      ProjectsSectionIff(p.projects);
      JoinHoldsElements(ProjectItems(p.projects), BlockSeparator, k);
      InMiddle(ProjectsOpenTag, sec, ContainerClose);
      ContainsTrans(html, ProjectsOpenTag + sec + ContainerClose, sec);
      ContainsTrans(html, sec, ProjectItem(p.projects[k]));
    }
  }

  /** The page depends on neither the template nor the website and twitter
      fields, which it never reads. */
  lemma MarkupIgnoresTemplateAndUnrenderedFields(p: Profile, t1: TemplateData, t2: TemplateData,
                                                 website: string, twitter: string, year: nat,
                                                 otherDate: string -> string)
    ensures GenerateHTML(p, t1, year, otherDate)
         == GenerateHTML(p.(website := website, twitter := twitter), t2, year, otherDate)
  {
  }
}
